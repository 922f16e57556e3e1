/** Who gets the credit for a recovery, and what is recorded with it (app/verification/service.py:18-78,
    app/services/ingest.py:182-196, app/services/pipeline.py:365-371). */
module Recoveries {
  import opened Enums
  import opened Fsm
  import opened PolicyRules
  import opened PolicyEngine
  import opened Gateway
  import opened Trail
  import opened Rows
  import opened CaseService
  import opened Verification
  import opened Decide
  import opened Executors
  import opened Pipeline
  import opened HumanDecisions
  import opened CaseRuns
  import opened BatchRuns
  import opened World
  import opened Batch
  import opened Scoring

  /** The CAPTURE_CONFIRMED events: who saw the capture, and the amount. */
  function Credits(t: seq<Event>): seq<(CaptureSource, int)> {
    if |t| == 0 then []
    else
      var before, e := Credits(t[..|t| - 1]), t[|t| - 1];
      if e.CaptureConfirmed? then before + [(e.source, e.amountMinor)] else before
  }

  lemma CreditsAppend()
    ensures forall t: seq<Event>, e: Event {:trigger Credits(t + [e])} ::
      Credits(t + [e]) == Credits(t) + if e.CaptureConfirmed? then [(e.source, e.amountMinor)] else []
  {
    forall t: seq<Event>, e: Event
      ensures Credits(t + [e]) == Credits(t) + if e.CaptureConfirmed? then [(e.source, e.amountMinor)] else []
    {
      assert (t + [e])[..|t|] == t;
    }
  }

  // ----- One event -----

  /** Neither money nor outcome changed. */
  ghost predicate NoCredit(c: CaseRow, c': CaseRow) {
    && Credits(c'.trail) == Credits(c.trail) && c'.recoveredMinor == c.recoveredMinor
    && c'.outcome == c.outcome && c'.closed == c.closed
    && (c'.status == Recovered <==> c.status == Recovered)
    && (c'.status == ClosedUnrecovered <==> c.status == ClosedUnrecovered)
  }

  /** The case was closed without recovery. */
  ghost predicate ClosedWithout(c: CaseRow, c': CaseRow) {
    && Credits(c'.trail) == Credits(c.trail) && c'.recoveredMinor == c.recoveredMinor
    && c'.outcome == Some(OutUnrecovered) && c'.closed
    && c.status == Verifying && c'.status == ClosedUnrecovered
  }

  /** The capture was credited: the case is closed as recovered with that amount. */
  ghost predicate Credited(c: CaseRow, c': CaseRow, source: CaptureSource, amount: int) {
    && c.status != Recovered && c'.status == Recovered && c'.closed && c'.recoveredMinor == amount
    && c'.outcome == Some(if source == WebhookSelfHeal then OutSelfHealed else OutRecovered)
    && Credits(c'.trail) == Credits(c.trail) + [(source, amount)]
  }

  lemma CaptureCredits(c: CaseRow, amount: int, source: CaptureSource)
    requires c.status != Recovered
    ensures Credited(c, Captured(c, amount, source), source, amount)
  {
    hide Credits;
    CreditsAppend();
  }

  lemma ChargeCredits(c: CaseRow, amount: int, now: int, paid: bool)
    requires c.status == Executing
    ensures paid ==> Credited(c, ChargeOutcome(c, amount, now, paid), ExecutorRetry, amount)
    ensures !paid ==>
      NoCredit(c, ChargeOutcome(c, amount, now, paid)) && ChargeOutcome(c, amount, now, paid).status == c.status
  {
    hide Credits, CountKind;
    CreditsAppend();
  }

  lemma LinkCredits(c: CaseRow, amount: int, link: LinkReply, now: int, paid: bool)
    requires c.status == Executing
    ensures paid ==> Credited(c, LinkOutcome(c, amount, link, now, paid), ExecutorLink, amount)
    ensures !paid ==>
      NoCredit(c, LinkOutcome(c, amount, link, now, paid)) && LinkOutcome(c, amount, link, now, paid).status == c.status
  {
    hide Credits, CountKind;
    CreditsAppend();
  }

  lemma MovesCreditNothing(c: CaseRow, to: CaseStatus, actor: Actor)
    requires !IsTerminal(c.status) && to != Recovered && to != ClosedUnrecovered
    ensures NoCredit(c, Moved(c, to, actor)) && forall at :: NoCredit(c, Moved(c.(lastAttemptAt := at), to, actor))
  {
    hide Credits;
    CreditsAppend();
  }

  lemma CreditsNothingTwice(a: CaseRow, b: CaseRow, c: CaseRow)
    ensures NoCredit(a, a)
    ensures NoCredit(a, b) && NoCredit(b, c) ==> NoCredit(a, c)
  {
  }

  lemma QuietChanges(c: CaseRow, p: PaymentRow, now: int, cfg: PolicyConfig, attempts: seq<Option<RawOutput>>)
    ensures NoCredit(c, EscalationForced(c)) && NoCredit(c, EscalationEnsured(c, p.amountMinor, cfg))
    ensures NoCredit(c, WithDecision(c, p, Pipeline.Age(now, p), cfg, attempts))
    ensures NoCredit(c, EscalationRaised(c, p.amountMinor, cfg, now))
  {
    hide Credits, EnsuredReason, Chosen, FallbackDecision, CountKind, ReasonFor;
    CreditsAppend();
  }

  lemma VerdictCreditsNothing(s: Sys, d: Decision, verdict: Verdict, deps: Deps, env: Env)
    requires s.c.status == PolicyCheck
    ensures
      var r := StepVerdict(s, d, verdict, deps, env);
      r.Done? && NoCredit(s.c, r.s.c)
  {
    hide Credits, Chosen, FallbackDecision, EnsuredReason;
    CreditsAppend();
  }

  lemma GateCreditsNothing(s: Sys, d: Decision, deps: Deps, env: Env)
    requires s.c.status == PolicyCheck
    ensures
      var r := StepPolicyCheck(s, d, deps, env);
      r.Done? && NoCredit(s.c, r.s.c)
  {
    hide Credits, StepVerdict, Triggered, PolicyCtx;
    CreditsAppend();
    var rule := Triggered(PolicyCtx(s.c, s.p, d, s.now, deps.cfg, env.usedElsewhere));
    VerdictCreditsNothing(s.(c := Emit(s.c, PolicyEvaluated(VerdictOf(rule), rule))), d, VerdictOf(rule), deps, env);
  }

  lemma PlanningCreditsNothing(s: Sys, deps: Deps, env: Env)
    requires !IsTerminal(s.c.status)
    ensures NoCredit(s.c, StepDetected(s.c))
    ensures NoCredit(s.c, StepAnalyzing(s.c, s.p, s.now, deps.cfg, env.attempts))
    ensures NoCredit(s.c, StepDiagnosed(s.c, s.p, s.now, deps.cfg, env.attempts))
    ensures NoCredit(s.c, StepAwaiting(s, deps).s.c)
  {
    hide Credits, Chosen, FallbackDecision, Expire;
    CreditsAppend();
  }

  // ----- Which step recovers -----

  /** Will the payment be paid, as the gateway holds or now rolls? */
  predicate Pays(s: Sys, rng: Stream) { Latent(rng, s.g, s.c.paymentId, CaptureProbability(s.c)) }

  /** Who sees the payment captured in this step, if anyone does: the verifier in the payment's mirror, or the executor
      in the answer to its charge or its simulated link. */
  function SeenBy(s: Sys, rng: Stream, link: LinkReply): Option<CaptureSource> {
    if s.c.status == Verifying && s.p.status == PayCaptured then Some(VerifierPoll)
    else if s.c.status == Approved && LatestDecision(s.c).Some? && Pays(s, rng) then
      var strategy := LatestDecision(s.c).value.strategy;
      if strategy == S1 || strategy == S2 then Some(ExecutorRetry)
      else if (strategy == S3 || strategy == S4) && link == NoRealAdapter then Some(ExecutorLink)
      else None
    else None
  }

  /** The step credits the capture to whoever saw it, at the amount of the payment's mirror, or changes no money. */
  ghost predicate CreditedAs(s: Sys, s': Sys, seen: Option<CaptureSource>) {
    if seen.Some? then Credited(s.c, s'.c, seen.value, s.p.amountMinor) && s'.p == s.p.(status := PayCaptured)
    else (NoCredit(s.c, s'.c) || ClosedWithout(s.c, s'.c)) && s'.p == s.p
  }

  lemma StampingCreditsNothing(c: CaseRow, tried: CaseRow, to: CaseStatus)
    requires NoCredit(c, tried) && tried.status == Executing && (to == Verifying || to == Failed)
    ensures NoCredit(c, Moved(tried, to, Executor))
    ensures forall at :: NoCredit(c, Moved(tried.(lastAttemptAt := at), to, Executor))
  {
    MovesCreditNothing(tried, to, Executor);
    hide Moved;
    forall at
      ensures NoCredit(c, Moved(tried.(lastAttemptAt := at), to, Executor))
    {
      CreditsNothingTwice(c, tried, Moved(tried.(lastAttemptAt := at), to, Executor));
    }
  }

  lemma RetryCredits(s: Sys, deps: Deps)
    requires s.c.status == Executing
    ensures
      var r := StepRetry(s, deps);
      r.Done? && CreditedAs(s, r.s, if Pays(s, deps.rng) then Some(ExecutorRetry) else None)
  {
    hide NoCredit, Credited, CountKind, ChargeOutcome, Latent, Rolled, Moved;
    var paid := Pays(s, deps.rng);
    ChargeCredits(s.c, s.p.amountMinor, s.now, paid);
    if !paid {
      StampingCreditsNothing(s.c, ChargeOutcome(s.c, s.p.amountMinor, s.now, paid), Verifying);
    }
  }

  lemma LinkStepCredits(s: Sys, deps: Deps, link: LinkReply)
    requires s.c.status == Executing && link != LinkError
    ensures
      var r := StepLink(s, deps, link);
      r.Done? && CreditedAs(s, r.s, if link == NoRealAdapter && Pays(s, deps.rng) then Some(ExecutorLink) else None)
  {
    hide NoCredit, Credited, CountKind, LinkOutcome, Latent, Rolled, Moved;
    var paid := link == NoRealAdapter && Pays(s, deps.rng);
    LinkCredits(s.c, s.p.amountMinor, link, s.now, paid);
    if !paid {
      StampingCreditsNothing(s.c, LinkOutcome(s.c, s.p.amountMinor, link, s.now, paid), Verifying);
      StampingCreditsNothing(s.c, LinkOutcome(s.c, s.p.amountMinor, link, s.now, paid), Failed);
    }
  }

  lemma StartingIsFree(s: Sys, s': Sys, seen: Option<CaptureSource>)
    requires s.c.status == Approved && CreditedAs(s.(c := Moved(s.c, Executing, Executor)), s', seen)
    ensures CreditedAs(s, s', seen)
  {
    hide Credits;
    CreditsAppend();
  }

  lemma AttemptCredits(s: Sys, s1: Sys, strategy: Strategy, deps: Deps, env: Env)
    requires s.c.status == Approved && LatestDecision(s.c).Some? && LatestDecision(s.c).value.strategy == strategy
    requires strategy in {S1, S2, S3, S4} && s1 == s.(c := Moved(s.c, Executing, Executor))
    requires StepAttempt(s1, strategy, deps, env).Done?
    ensures CreditedAs(s, StepAttempt(s1, strategy, deps, env).s, SeenBy(s, deps.rng, env.link))
  {
    hide CreditedAs, StepRetry, StepLink, Latent;
    MovedStands(s.c, Executing, Executor);
    LinkErrorRaises(s1, deps);
    if strategy == S1 || strategy == S2 {
      RetryCredits(s1, deps);
    } else {
      LinkStepCredits(s1, deps, env.link);
    }
    StartingIsFree(s, StepAttempt(s1, strategy, deps, env).s, SeenBy(s, deps.rng, env.link));
  }

  lemma LinkErrorRaises(s: Sys, deps: Deps)
    ensures StepLink(s, deps, LinkError) == Error
  {
  }

  lemma RaisingCreditsNothing(c: CaseRow, p: PaymentRow, cfg: PolicyConfig, now: int)
    requires c.status == Executing
    ensures NoCredit(c, Moved(EscalationRaised(c, p.amountMinor, cfg, now), AwaitingApproval, Executor))
  {
    hide NoCredit, EscalationRaised, Moved;
    var raised := EscalationRaised(c, p.amountMinor, cfg, now);
    QuietChanges(c, p, now, cfg, []);
    RaisedIsOpen(c, p.amountMinor, cfg, now);
    MovesCreditNothing(raised, AwaitingApproval, Executor);
    CreditsNothingTwice(c, raised, Moved(raised, AwaitingApproval, Executor));
  }

  /** Stopping, escalating and parking without a decision bring no money. */
  lemma EndingCreditsNothing(s: Sys, deps: Deps, env: Env)
    requires s.c.status == Approved
    requires LatestDecision(s.c).Some? ==> LatestDecision(s.c).value.strategy in {S5, S6}
    ensures
      var r := StepApproved(s, deps, env);
      r.Done? && NoCredit(s.c, r.s.c) && r.s.p == s.p
  {
    hide NoCredit, EscalationRaised, StepAttempt, Moved;
    MovedStands(s.c, Executing, Executor);
    var c1 := Moved(s.c, Executing, Executor);
    MovesCreditNothing(s.c, Executing, Executor);
    RaisingCreditsNothing(c1, s.p, deps.cfg, s.now);
    MovesCreditNothing(c1, AwaitingApproval, Executor);
    MovesCreditNothing(c1, Verifying, Executor);
    CreditsNothingTwice(s.c, c1, StepApproved(s, deps, env).s.c);
  }

  lemma MovedStands(c: CaseRow, to: CaseStatus, actor: Actor)
    ensures Moved(c, to, actor).status == to
  {
  }

  lemma ApprovedCredits(s: Sys, deps: Deps, env: Env)
    requires s.c.status == Approved && StepApproved(s, deps, env).Done?
    ensures CreditedAs(s, StepApproved(s, deps, env).s, SeenBy(s, deps.rng, env.link))
  {
    hide CreditedAs, NoCredit, StepAttempt, Latent, EscalationRaised;
    if LatestDecision(s.c).Some? && LatestDecision(s.c).value.strategy in {S1, S2, S3, S4} {
      AttemptCredits(s, s.(c := Moved(s.c, Executing, Executor)), LatestDecision(s.c).value.strategy, deps, env);
    } else {
      EndingCreditsNothing(s, deps, env);
      assert SeenBy(s, deps.rng, env.link).None?;
      NothingCredited(s, StepApproved(s, deps, env).s);
    }
  }

  lemma RaisedIsOpen(c: CaseRow, amount: int, cfg: PolicyConfig, now: int)
    ensures EscalationRaised(c, amount, cfg, now).status == c.status
  {
    hide CountKind, ReasonFor;
  }

  lemma NothingCredited(s: Sys, s': Sys)
    requires NoCredit(s.c, s'.c) && s'.p == s.p
    ensures CreditedAs(s, s', None)
  {
  }

  lemma ReentryCreditsNothing(c: CaseRow, p: PaymentRow, cfg: PolicyConfig)
    requires c.status == Verifying
    ensures NoCredit(c, Moved(EscalationForced(c), Diagnosed, System)) && NoCredit(c, Moved(c, Diagnosed, System))
  {
    hide NoCredit, EscalationForced, Moved;
    QuietChanges(c, p, 0, cfg, []);
    ForcedStands(c);
    MovesCreditNothing(EscalationForced(c), Diagnosed, System);
    CreditsNothingTwice(c, EscalationForced(c), Moved(EscalationForced(c), Diagnosed, System));
    MovesCreditNothing(c, Diagnosed, System);
  }

  lemma VerifyingCredits(s: Sys, deps: Deps, link: LinkReply)
    requires s.c.status == Verifying
    ensures CreditedAs(s, StepVerifying(s, deps).s, SeenBy(s, deps.rng, link))
  {
    hide NoCredit, Credited, ClosedWithout, Captured, ClosedOff, EscalationForced, Moved, Contacts, Pays;
    hide LatestDecision;
    CreditsNothingTwice(s.c, s.c, s.c);
    CaptureCredits(s.c, s.p.amountMinor, VerifierPoll);
    ClosingCredits(s.c);
    ReentryCreditsNothing(s.c, s.p, deps.cfg);
  }

  lemma ForcedStands(c: CaseRow)
    ensures EscalationForced(c).status == c.status
  {
  }

  lemma ClosingCredits(c: CaseRow)
    requires CanTransition(c.status, ClosedUnrecovered)
    ensures if c.status == ClosedUnrecovered then NoCredit(c, ClosedOff(c)) else ClosedWithout(c, ClosedOff(c))
  {
    hide Credits;
    CreditsAppend();
  }

  lemma TerminalStays(s: Sys, deps: Deps, env: Env)
    requires IsTerminal(s.c.status)
    ensures Step(s, deps, env) == Done(s, false)
  {
  }

  /** What a step does with money: the verifier or an executor recovers the case exactly when it sees the payment
      captured, and nobody else does. */
  lemma StepCredits(s: Sys, deps: Deps, env: Env)
    requires Step(s, deps, env).Done?
    ensures CreditedAs(s, Step(s, deps, env).s, SeenBy(s, deps.rng, env.link))
  {
    hide CreditedAs, NoCredit, Moved, StepApproved, StepVerifying, StepAwaiting, StepDetected, StepAnalyzing;
    hide StepDiagnosed, StepPolicyCheck, Latent, CaptureProbability;
    match s.c.status
    case Approved => ApprovedCredits(s, deps, env);
    case Verifying => VerifyingCredits(s, deps, env.link);
    case _ =>
      if IsTerminal(s.c.status) {
        TerminalStays(s, deps, env);
        CreditsNothingTwice(s.c, s.c, s.c);
      } else {
        OtherStepCredits(s, deps, env);
      }
      NothingCredited(s, Step(s, deps, env).s);
  }

  lemma OtherStepCredits(s: Sys, deps: Deps, env: Env)
    requires Step(s, deps, env).Done? && !IsTerminal(s.c.status) && s.c.status != Approved && s.c.status != Verifying
    ensures NoCredit(s.c, Step(s, deps, env).s.c) && Step(s, deps, env).s.p == s.p
  {
    hide NoCredit, Moved, StepDetected, StepAnalyzing, StepDiagnosed, StepVerdict, Triggered, PolicyCtx;
    match s.c.status
    case PolicyCheck =>
      GateCreditsNothing(s, LatestDecision(s.c).value, deps, env);
      GateKeepsPayment(s, LatestDecision(s.c).value, deps, env);
    case Planned => MovesCreditNothing(s.c, PolicyCheck, System);
    case Executing => MovesCreditNothing(s.c, Verifying, Executor);
    case _ =>
      PlanningCreditsNothing(s, deps, env);
      CreditsNothingTwice(s.c, s.c, s.c);
  }

  lemma GateKeepsPayment(s: Sys, d: Decision, deps: Deps, env: Env)
    ensures StepPolicyCheck(s, d, deps, env).Done? && StepPolicyCheck(s, d, deps, env).s.p == s.p
  {
    hide Triggered, PolicyCtx;
  }

  /** The chance of an attempt by the diagnosis, where the dataset gives none. */
  const CHANCES: map<DiagnosisClass, real> :=
    map[InsufficientFunds := 0.55, NetworkInfra := 0.80, BankDowntime := 0.75, CustomerAuthRequired := 0.45,
        InstrumentInvalid := 0.0, UnknownCause := 0.0]

  function Chance(c: CaseRow): real {
    if c.captureProbability.Some? then c.captureProbability.value
    else if c.diagnosis.Some? && c.diagnosis.value in CHANCES then CHANCES[c.diagnosis.value]
    else 0.0
  }

  /** The first attempt at a payment recovers its case exactly when the gateway's next draw is below the chance the
      dataset gives the payment, or else below that of its diagnosis; the gateway remembers the answer. */
  lemma FirstAttemptIsDrawn(s: Sys, deps: Deps, env: Env)
    requires s.c.status == Approved && s.c.paymentId !in s.g.rolls && LatestDecision(s.c).Some?
    requires
      var strategy := LatestDecision(s.c).value.strategy;
      strategy in {S1, S2} || (strategy in {S3, S4} && env.link == NoRealAdapter)
    ensures
      var r, paid := Step(s, deps, env), deps.rng(s.g.draws) < Chance(s.c);
      && r.Done? && (r.s.c.status == Recovered <==> paid)
      && r.s.g == GatewayState(s.g.rolls[s.c.paymentId := paid], s.g.draws + 1)
  {
    hide Step, Credits, CaptureProbability, Chance;
    AttemptIsAsked(s, deps, env);
    ChanceIsAsked(s.c);
    StepCredits(s, deps, env);
  }

  lemma ChanceIsAsked(c: CaseRow)
    ensures CaptureProbability(c) == Chance(c)
  {
  }

  lemma AttemptIsAsked(s: Sys, deps: Deps, env: Env)
    requires s.c.status == Approved && LatestDecision(s.c).Some?
    requires
      var strategy := LatestDecision(s.c).value.strategy;
      strategy in {S1, S2} || (strategy in {S3, S4} && env.link == NoRealAdapter)
    ensures
      var r := Step(s, deps, env);
      r.Done? && r.s.g == Rolled(deps.rng, s.g, s.c.paymentId, CaptureProbability(s.c))
  {
    hide Latent, Rolled, ChargeOutcome, LinkOutcome;
  }

  // ----- Runs -----

  /** Who sees the payment captured in this event. */
  function Seer(s: Sys, cfg: PolicyConfig, rng: Stream, e: CaseEvent): Option<(CaptureSource, int)> {
    match e
    case WorkerStep(fastForward, env) =>
      if Step(s, Deps(cfg, fastForward, rng), env).Done? && SeenBy(s, rng, env.link).Some?
      then Some((SeenBy(s, rng, env.link).value, s.p.amountMinor)) else None
    case CaptureWebhook(entity) =>
      if !IsTerminal(s.c.status) then Some((WebhookSelfHeal, entity.amountMinor)) else None
    case _ => None
  }

  lemma HealCredits(s: Sys, entity: PaymentRow)
    requires CanTransition(s.c.status, Recovered)
    ensures
      if s.c.status == Recovered then NoCredit(s.c, SelfHealed(s.c, entity.amountMinor))
      else Credited(s.c, SelfHealed(s.c, entity.amountMinor), WebhookSelfHeal, entity.amountMinor)
  {
    hide Credits;
    CreditsAppend();
  }

  lemma HumanCreditsNothing(c: CaseRow, escalation: nat, approve: bool)
    requires HumanDecided(c, escalation, approve).Ok?
    ensures NoCredit(c, HumanDecided(c, escalation, approve).value)
  {
    hide Credits;
    CreditsAppend();
  }

  /** Each event credits its seer, or brings no money. */
  lemma ApplyCredits(s: Sys, cfg: PolicyConfig, rng: Stream, e: CaseEvent)
    ensures
      var c, c', seer := s.c, Apply(s, cfg, rng, e).c, Seer(s, cfg, rng, e);
      if seer.Some? then Credited(c, c', seer.value.0, seer.value.1) else NoCredit(c, c') || ClosedWithout(c, c')
  {
    hide Credited, NoCredit, ClosedWithout, Step, SeenBy, HumanDecided, SelfHealed, ClosedOff, Rolled;
    CreditsNothingTwice(s.c, s.c, s.c);
    match e
    case WorkerStep(fastForward, env) =>
      if Step(s, Deps(cfg, fastForward, rng), env).Done? {
        StepCredits(s, Deps(cfg, fastForward, rng), env);
      }
    case CaptureWebhook(entity) =>
      if CanTransition(s.c.status, Recovered) {
        HealCredits(s, entity);
      }
    case HumanDecision(escalation, approve) =>
      if HumanDecided(s.c, escalation, approve).Ok? {
        HumanCreditsNothing(s.c, escalation, approve);
      }
    case GiveUp =>
      if CanTransition(s.c.status, ClosedUnrecovered) {
        ClosingCredits(s.c);
      }
    case _ =>
  }

  /** Money, outcome and credit of a case agree. */
  ghost predicate Settled(c: CaseRow) {
    && (c.status == Recovered ==>
          && |Credits(c.trail)| == 1 && c.recoveredMinor == Credits(c.trail)[0].1 && c.closed
          && c.outcome == Some(if Credits(c.trail)[0].0 == WebhookSelfHeal then OutSelfHealed else OutRecovered))
    && (c.status != Recovered ==>
          && Credits(c.trail) == [] && c.recoveredMinor == 0
          && c.outcome == (if c.status == ClosedUnrecovered then Some(OutUnrecovered) else None)
          && (c.closed <==> c.status == ClosedUnrecovered))
  }

  lemma FreshIsSettled(s: Sys, prior: nat)
    requires FreshCase(s.c, prior)
    ensures Settled(s.c)
  {
    assert [CaseCreated][..0] == [];
  }

  lemma {:induction false} RunSettles(s: Sys, cfg: PolicyConfig, rng: Stream, es: seq<CaseEvent>)
    requires Settled(s.c)
    ensures Settled(Run(s, cfg, rng, es).c)
  {
    hide Apply, Seer, Credits;
    if |es| > 0 {
      RunSettles(s, cfg, rng, es[..|es| - 1]);
      ApplyCredits(Run(s, cfg, rng, es[..|es| - 1]), cfg, rng, es[|es| - 1]);
    }
  }

  /** Over every run: a recovered case has one CAPTURE_CONFIRMED, with its amount, and its outcome is SELF_HEALED
      exactly when the source of that event is the webhook, and otherwise RECOVERED; the closing outcome and the closing
      time are on a case exactly when it is closed; and no other case has money, an outcome or a capture. */
  lemma CreditIsTold(s: Sys, prior: nat, cfg: PolicyConfig, rng: Stream, es: seq<CaseEvent>)
    requires FreshCase(s.c, prior)
    ensures Settled(Run(s, cfg, rng, es).c)
  {
    hide Run, Settled, FreshCase;
    FreshIsSettled(s, prior);
    RunSettles(s, cfg, rng, es);
  }

  /** And the event that saw the payment captured is in the run: a webhook about the payment, with the amount of its
      entity, or a worker step of the verifier or an executor, with the amount of the payment's mirror. */
  lemma {:induction false} CreditIsEarned(s: Sys, prior: nat, cfg: PolicyConfig, rng: Stream, es: seq<CaseEvent>)
    returns (n: nat)
    requires FreshCase(s.c, prior) && Run(s, cfg, rng, es).c.status == Recovered
    ensures n < |es|
    ensures Seer(Run(s, cfg, rng, es[..n]), cfg, rng, es[n]).Some?
    ensures Credits(Run(s, cfg, rng, es).c.trail) == [Seer(Run(s, cfg, rng, es[..n]), cfg, rng, es[n]).value]
    ensures Run(s, cfg, rng, es).c.outcome == Some(OutSelfHealed) <==> es[n].CaptureWebhook?
  {
    hide Apply, Credits, Seer, SeenBy, Step;
    n := |es| - 1;
    var before := Run(s, cfg, rng, es[..n]);
    CreditIsTold(s, prior, cfg, rng, es);
    CreditIsTold(s, prior, cfg, rng, es[..n]);
    ApplyCredits(before, cfg, rng, es[n]);
    if before.c.status == Recovered {
      n := CreditIsEarned(s, prior, cfg, rng, es[..n]);
      assert es[..|es| - 1][..n] == es[..n];
    } else {
      SeersAre(before, cfg, rng, es[n]);
    }
  }

  lemma SeersAre(s: Sys, cfg: PolicyConfig, rng: Stream, e: CaseEvent)
    requires Seer(s, cfg, rng, e).Some?
    ensures Seer(s, cfg, rng, e).value.0 == WebhookSelfHeal <==> e.CaptureWebhook?
    ensures e.CaptureWebhook? || e.WorkerStep?
  {
    hide Step, Latent;
  }

  // ----- The report -----

  /** Cases whose capture an executor or the verifier saw, and cases whose capture a webhook brought. */
  function ByAgent(items: seq<Item>): nat {
    if |items| == 0 then 0
    else
      var credits := Credits(items[|items| - 1].c.trail);
      ByAgent(items[..|items| - 1]) + if |credits| == 1 && credits[0].0 != WebhookSelfHeal then 1 else 0
  }

  function ByWebhook(items: seq<Item>): nat {
    if |items| == 0 then 0
    else
      var credits := Credits(items[|items| - 1].c.trail);
      ByWebhook(items[..|items| - 1]) + if |credits| == 1 && credits[0].0 == WebhookSelfHeal then 1 else 0
  }

  lemma {:induction false} CountsAreCredits(items: seq<Item>)
    requires forall x | x in items :: Settled(x.c)
    ensures WithOutcome(items, Some(OutSelfHealed)) == ByWebhook(items)
    ensures WithStatus(items, Recovered) - WithOutcome(items, Some(OutSelfHealed)) == ByAgent(items)
  {
    hide Credits;
    if |items| > 0 {
      assert items[|items| - 1] in items;
      CountsAreCredits(items[..|items| - 1]);
    }
  }

  lemma HistorySettles(x: Item, cfg: PolicyConfig, rng: Stream)
    requires HasHistory(x, cfg, rng)
    ensures Settled(x.c)
  {
    hide Run, Settled, FreshCase;
    var s: Sys :| s.c == x.c && s.p == x.p && EndsARun(s, cfg, rng);
    var start: Sys, prior: nat, es: seq<CaseEvent> :| FreshCase(start.c, prior) && s == Run(start, cfg, rng, es);
    CreditIsTold(start, prior, cfg, rng, es);
  }

  lemma {:induction false} BatchSettles(st: BatchState, n: nat, cfg: PolicyConfig, rng: Stream, t0: int,
                                        replies: Replies)
    requires n <= |st.items| && forall x | x in st.items :: Settled(x.c)
    ensures var end := Driven(st, n, cfg, rng, t0, replies);
      end.Some? ==> forall x | x in end.value.items :: Settled(x.c)
  {
    hide Settled, Advance, Put, Run;
    if n > 0 {
      BatchSettles(st, n - 1, cfg, rng, t0, replies);
      var before := Driven(st, n - 1, cfg, rng, t0, replies);
      if before.Some? && DriveItem(before.value, n - 1, cfg, rng, t0, replies).Ended? {
        var x := before.value.items[n - 1];
        var s := Sys(x.c, x.p, t0, before.value.g);
        var deps, envs := Deps(cfg, true, rng), Envs(before.value.items, n - 1, replies);
        assert x in before.value.items;
        AdvanceIsARun(s, deps, envs);
        RunSettles(s, cfg, rng, AdvanceEvents(s, deps, envs));
        PutItems(before.value, n - 1, DriveItem(before.value, n - 1, cfg, rng, t0, replies).s);
      }
    }
  }

  /** In the report of every finished batch, whatever its cases went through before and whatever the model proposed, the
      agent is credited with exactly the cases whose capture an executor or the verifier saw, and self-healing with
      exactly those whose capture a webhook brought. */
  lemma {:induction false} BatchCreditsAreEarned(st: BatchState, cfg: PolicyConfig, rng: Stream, t0: int,
                                                 replies: Replies)
    requires forall x | x in st.items :: HasHistory(x, cfg, rng)
    ensures var end := Driven(st, |st.items|, cfg, rng, t0, replies);
      end.Some? ==>
        var items := end.value.items;
        && WithOutcome(items, Some(OutSelfHealed)) == ByWebhook(items)
        && WithStatus(items, Recovered) - WithOutcome(items, Some(OutSelfHealed)) == ByAgent(items)
  {
    hide Settled, HasHistory, Driven;
    forall x | x in st.items
      ensures Settled(x.c)
    {
      HistorySettles(x, cfg, rng);
    }
    BatchSettles(st, |st.items|, cfg, rng, t0, replies);
    var end := Driven(st, |st.items|, cfg, rng, t0, replies);
    if end.Some? {
      CountsAreCredits(end.value.items);
    }
  }
}
