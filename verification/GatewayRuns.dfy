/** What the gateway's memo means for a whole run without a real adapter: a customer who would pay pays at
    the first attempt, and one who would not is never recovered by trying again. */
module GatewayRuns {
  import opened Enums
  import opened Fsm
  import opened PolicyRules
  import opened PolicyEngine
  import opened Gateway
  import opened Trail
  import opened Rows
  import opened Verification
  import opened Executors
  import opened Pipeline
  import opened HumanDecisions
  import opened CaseRuns
  import opened Core
  import opened Limits

  predicate ByExecutor(e: Event) { e.CaptureConfirmed? && (e.source == ExecutorRetry || e.source == ExecutorLink) }

  function ExecutorCaptures(t: seq<Event>): nat {
    if |t| == 0 then 0
    else ExecutorCaptures(t[..|t| - 1]) + if ByExecutor(t[|t| - 1]) then 1 else 0
  }

  lemma CapturesAppend()
    ensures forall t: seq<Event>, e: Event {:trigger ExecutorCaptures(t + [e])} ::
      ExecutorCaptures(t + [e]) == ExecutorCaptures(t) + if ByExecutor(e) then 1 else 0
  {
    forall t: seq<Event>, e: Event
      ensures ExecutorCaptures(t + [e]) == ExecutorCaptures(t) + if ByExecutor(e) then 1 else 0
    {
      assert (t + [e])[..|t|] == t;
    }
  }

  function Attempts(k: Core): nat { k.Charges() + k.links }

  /** The gateway's memory of the payment. */
  function Memo(g: GatewayState, key: string): Option<bool> {
    if key in g.rolls then Some(g.rolls[key]) else None
  }

  ghost predicate Consistent(k: Core, memo: Option<bool>) {
    && (Attempts(k) > 0 ==> memo.Some? && (memo.value ==> k.status == Recovered))
    && (ExecutorCaptures(k.trail) > 0 ==> Attempts(k) == 1 && k.status == Recovered)
  }

  predicate Asks(k: Core) { k.status == Approved && (Retries(k.latest) || Links(k.latest)) }

  /** Nothing an executor could have done happened between the two states. */
  ghost predicate Quiet(k: Core, k': Core) {
    && Attempts(k') == Attempts(k) && ExecutorCaptures(k'.trail) == ExecutorCaptures(k.trail)
    && (k.status == Recovered ==> k'.status == Recovered)
  }

  lemma VerdictQuiet(k: Core, d: Decision, verdict: Verdict, cfg: PolicyConfig, i: Input)
    requires k.status == PolicyCheck
    ensures CoreVerdict(k, d, verdict, cfg, i).CoreDone? && Quiet(k, CoreVerdict(k, d, verdict, cfg, i).k)
  {
    hide ExecutorCaptures;
    CapturesAppend();
  }

  lemma VerifyingQuiet(k: Core, cfg: PolicyConfig, i: Input)
    requires k.status == Verifying
    ensures CoreVerifying(k, cfg, i).CoreDone? && Quiet(k, CoreVerifying(k, cfg, i).k)
  {
    hide ExecutorCaptures;
    CapturesAppend();
  }

  lemma ApprovedQuiet(k: Core, i: Input)
    requires k.status == Approved && !Asks(k)
    ensures CoreApproved(k, i).CoreDone? && Quiet(k, CoreApproved(k, i).k)
  {
    hide ExecutorCaptures;
    CapturesAppend();
  }

  lemma StepQuiet(k: Core, cfg: PolicyConfig, i: Input)
    requires !Asks(k) && CoreStep(k, cfg, i).CoreDone?
    ensures Quiet(k, CoreStep(k, cfg, i).k)
  {
    hide ExecutorCaptures, CoreVerdict, CoreVerifying, CoreApproved, Triggered, CoreCtx;
    CapturesAppend();
    match k.status
    case PolicyCheck =>
      var d := k.latest.value;
      var rule := Triggered(CoreCtx(k, d, cfg, i.usedElsewhere));
      VerdictQuiet(Noted(k, PolicyEvaluated(VerdictOf(rule), rule)), d, VerdictOf(rule), cfg, i);
    case Verifying => VerifyingQuiet(k, cfg, i);
    case Approved => ApprovedQuiet(k, i);
    case _ =>
  }

  lemma RetryConsistent(k: Core, paid: bool, memo: Option<bool>)
    requires Consistent(k, memo) && k.status == Executing && (Attempts(k) > 0 ==> !paid)
    ensures CoreRetry(k, paid).CoreDone? && Consistent(CoreRetry(k, paid).k, Some(paid))
  {
    hide ExecutorCaptures;
    CapturesAppend();
  }

  lemma LinkConsistent(k: Core, paid: bool, memo: Option<bool>)
    requires Consistent(k, memo) && k.status == Executing && (Attempts(k) > 0 ==> !paid)
    ensures CoreLink(k, NoRealAdapter, paid).CoreDone? && Consistent(CoreLink(k, NoRealAdapter, paid).k, Some(paid))
  {
    hide ExecutorCaptures;
    CapturesAppend();
  }

  lemma AsksConsistent(k: Core, i: Input, memo: Option<bool>)
    requires Consistent(k, memo) && Asks(k) && i.link == NoRealAdapter && (memo.Some? ==> i.paid == memo.value)
    ensures CoreApproved(k, i).CoreDone? && Consistent(CoreApproved(k, i).k, Some(i.paid))
  {
    hide ExecutorCaptures, CoreRetry, CoreLink;
    CapturesAppend();
    assert Attempts(k) > 0 ==> !i.paid;
    if Retries(k.latest) {
      RetryConsistent(Jump(k, Executing, Executor), i.paid, memo);
    } else {
      LinkConsistent(Jump(k, Executing, Executor), i.paid, memo);
    }
  }

  /** A step without a real adapter asks the gateway exactly when it charges or sends a link. */
  lemma StepAsks(s: Sys, deps: Deps, env: Env)
    requires env.link == NoRealAdapter && Step(s, deps, env).Done?
    ensures Step(s, deps, env).s.g ==
      if Asks(Abs(s)) then Rolled(deps.rng, s.g, s.c.paymentId, CaptureProbability(s.c)) else s.g
  {
    hide Numbered, ChargeTimes, CountKind, Triggered, PolicyCtx, ChargeOutcome, LinkOutcome, Rolled, Latent;
    hide EscalationRaised, EscalationForced, EscalationEnsured, ClosedOff, Captured, WaitMinutes;
  }

  predicate NoAdapter(e: CaseEvent) { e.WorkerStep? ==> e.env.link == NoRealAdapter }

  lemma CoreConsistent(k: Core, cfg: PolicyConfig, i: Input, memo: Option<bool>)
    requires Consistent(k, memo) && i.link == NoRealAdapter && CoreStep(k, cfg, i).CoreDone?
    requires Asks(k) && memo.Some? ==> i.paid == memo.value
    ensures Consistent(CoreStep(k, cfg, i).k, if Asks(k) then Some(i.paid) else memo)
  {
    hide ExecutorCaptures, CoreApproved;
    if Asks(k) {
      AsksConsistent(k, i, memo);
    } else {
      StepQuiet(k, cfg, i);
      hide CoreStep;
    }
  }

  lemma StepConsistent(s: Sys, deps: Deps, env: Env)
    requires env.link == NoRealAdapter && Step(s, deps, env).Done?
    requires Consistent(Abs(s), Memo(s.g, s.c.paymentId))
    ensures
      var s' := Step(s, deps, env).s;
      s'.c.paymentId == s.c.paymentId && Consistent(Abs(s'), Memo(s'.g, s'.c.paymentId))
  {
    hide CoreStep, Step, Consistent, ExecutorCaptures, CountKind, ChargeTimes, Numbered;
    var k, i := Abs(s), Inputs(s, deps, env);
    StepRefines(s, deps, env);
    StepAsks(s, deps, env);
    FactsKept(k, deps.cfg, i);
    CoreConsistent(k, deps.cfg, i, Memo(s.g, s.c.paymentId));
  }

  lemma {:induction false} RunConsistent(s: Sys, cfg: PolicyConfig, rng: Stream, es: seq<CaseEvent>)
    requires Consistent(Abs(s), Memo(s.g, s.c.paymentId)) && forall e | e in es :: NoAdapter(e)
    ensures
      var s' := Run(s, cfg, rng, es);
      s'.c.paymentId == s.c.paymentId && Consistent(Abs(s'), Memo(s'.g, s.c.paymentId))
  {
    hide Apply, Abs, Consistent;
    if |es| > 0 {
      RunConsistent(s, cfg, rng, es[..|es| - 1]);
      ApplyConsistent(Run(s, cfg, rng, es[..|es| - 1]), cfg, rng, es[|es| - 1]);
    }
  }

  lemma HumanConsistent(s: Sys, escalation: nat, approve: bool, memo: Option<bool>)
    requires Consistent(Abs(s), memo) && HumanDecided(s.c, escalation, approve).Ok?
    ensures
      var c := HumanDecided(s.c, escalation, approve).value;
      c.paymentId == s.c.paymentId && Consistent(Abs(s.(c := c)), memo)
  {
    hide Numbered, ChargeTimes, CountKind, ExecutorCaptures;
    CapturesAppend();
  }

  lemma SelfHealConsistent(s: Sys, entity: PaymentRow, memo: Option<bool>)
    requires Consistent(Abs(s), memo) && CanTransition(s.c.status, Recovered)
    ensures
      var s' := s.(c := SelfHealed(s.c, entity.amountMinor),
                   p := if s.c.status == Recovered then entity else entity.(status := PayCaptured));
      s'.c.paymentId == s.c.paymentId && Consistent(Abs(s'), memo)
  {
    hide Numbered, ChargeTimes, CountKind, ExecutorCaptures;
    CapturesAppend();
  }

  lemma GiveUpConsistent(s: Sys, memo: Option<bool>)
    requires Consistent(Abs(s), memo) && CanTransition(s.c.status, ClosedUnrecovered)
    ensures ClosedOff(s.c).paymentId == s.c.paymentId && Consistent(Abs(s.(c := ClosedOff(s.c))), memo)
  {
    hide Numbered, ChargeTimes, CountKind, ExecutorCaptures;
    CapturesAppend();
  }

  lemma MirrorConsistent(s: Sys, rng: Stream, e: CaseEvent, cfg: PolicyConfig)
    requires Consistent(Abs(s), Memo(s.g, s.c.paymentId)) && (e.FailedWebhook? || e.TimePasses? || e.GatewayAsked?)
    ensures
      var s' := Apply(s, cfg, rng, e);
      s'.c.paymentId == s.c.paymentId && Consistent(Abs(s'), Memo(s'.g, s'.c.paymentId))
  {
    hide Numbered, ChargeTimes, CountKind, ExecutorCaptures;
  }

  lemma ApplyConsistent(s: Sys, cfg: PolicyConfig, rng: Stream, e: CaseEvent)
    requires Consistent(Abs(s), Memo(s.g, s.c.paymentId)) && NoAdapter(e)
    ensures
      var s' := Apply(s, cfg, rng, e);
      s'.c.paymentId == s.c.paymentId && Consistent(Abs(s'), Memo(s'.g, s'.c.paymentId))
  {
    hide Consistent, Step, Abs, HumanDecided, SelfHealed, ClosedOff, Rolled;
    match e
    case WorkerStep(fastForward, env) =>
      if Step(s, Deps(cfg, fastForward, rng), env).Done? {
        StepConsistent(s, Deps(cfg, fastForward, rng), env);
      }
    case HumanDecision(escalation, approve) =>
      if HumanDecided(s.c, escalation, approve).Ok? {
        HumanConsistent(s, escalation, approve, Memo(s.g, s.c.paymentId));
      }
    case CaptureWebhook(entity) =>
      if CanTransition(s.c.status, Recovered) {
        SelfHealConsistent(s, entity, Memo(s.g, s.c.paymentId));
      }
    case GiveUp =>
      if CanTransition(s.c.status, ClosedUnrecovered) {
        GiveUpConsistent(s, Memo(s.g, s.c.paymentId));
      }
    case _ => MirrorConsistent(s, rng, e, cfg);
  }

  /** Whatever the decisions: a case an executor recovered has exactly one charge or link behind it; an
      attempt means the payment has been rolled; and a favourable roll recovers the case at that attempt. */
  lemma {:induction false} RecoveredAtFirstAttempt(s: Sys, prior: nat, cfg: PolicyConfig, rng: Stream,
                                                   es: seq<CaseEvent>)
    requires FreshCase(s.c, prior) && forall e | e in es :: NoAdapter(e)
    ensures
      var s' := Run(s, cfg, rng, es);
      var attempts := CountKind(s'.c.actions, RetryCharge) + CountKind(s'.c.actions, SendRecoveryLink);
      && (ExecutorCaptures(s'.c.trail) > 0 ==> attempts == 1)
      && (attempts > 0 ==> s.c.paymentId in s'.g.rolls)
      && (attempts > 0 && s'.g.rolls[s.c.paymentId] ==> s'.c.status == Recovered)
      && (attempts > 1 ==> !s'.g.rolls[s.c.paymentId] || ExecutorCaptures(s'.c.trail) == 0)
  {
    assert [CaseCreated][..0] == [];
    RunConsistent(s, cfg, rng, es);
  }
}
