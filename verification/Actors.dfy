/** Who moves a case where (app/services/pipeline.py:250-403, app/verification/service.py:18-78,
    app/main.py:234-267). */
module Actors {
  import opened Enums
  import opened Fsm
  import opened PolicyRules
  import opened PolicyEngine
  import opened Gateway
  import opened Trail
  import opened Rows
  import opened Executors
  import opened Pipeline
  import opened HumanDecisions
  import opened CaseRuns
  import opened Core

  /** Only people escalate, what waits for them; approvals come from the gate, out of its check, or from people; the
      executor runs what was approved; money is the verifier's. Nothing expires or is cancelled, and no case goes back
      to the start. */
  predicate Fits(e: Event) {
    e.StateTransition? ==>
      match e.to
      case Analyzing => e.actor == System && e.frm == Detected
      case PolicyCheck => e.actor == System && e.frm == Planned
      case ClosedUnrecovered => e.actor == System && e.frm == Verifying
      case Diagnosed => e.actor == System && (e.frm == Analyzing || e.frm == Verifying)
      case Planned => if e.frm == Diagnosed then e.actor == System else e.actor == Policy && e.frm == PolicyCheck
      case Approved =>
        || (e.actor == Human && e.frm in {AwaitingApproval, PolicyCheck, Approved})
        || (e.actor == Policy && e.frm == PolicyCheck)
      case AwaitingApproval =>
        if e.frm == Executing then e.actor == Executor else e.actor == Policy && e.frm == PolicyCheck
      case Blocked => e.actor == Policy && e.frm == PolicyCheck
      case Executing => e.actor == Executor && e.frm == Approved
      case Verifying | Failed => e.actor == Executor && e.frm == Executing
      case Recovered => e.actor == Verifier && !IsTerminal(e.frm)
      case Escalated => e.actor == Human && e.frm in {AwaitingApproval, Escalated}
      case Detected | Expired | Cancelled => false
  }

  /** Transitions that are followed at once by an event that says why the case went there. */
  predicate Opens(e: Event) { e.StateTransition? && e.to in {Analyzing, Recovered, ClosedUnrecovered} }

  predicate Closes(e: Event) { e.RiskScored? || e.CaptureConfirmed? || e.CaseClosed? }

  predicate Answers(a: Event, e: Event) {
    a.StateTransition? &&
    match a.to
    case Analyzing => e.RiskScored?
    case Recovered => e.CaptureConfirmed?
    case ClosedUnrecovered => e.CaseClosed?
    case _ => false
  }

  predicate Paired(t: seq<Event>) {
    var n := |t|;
    if n == 0 then true
    else if Closes(t[n - 1]) then n >= 2 && Answers(t[n - 2], t[n - 1]) && Paired(t[..n - 2])
    else !Opens(t[n - 1]) && Paired(t[..n - 1])
  }

  /** Every transition is its actor's, and answered by its event. */
  ghost predicate AllFit(t: seq<Event>) { (forall i | 0 <= i < |t| :: Fits(t[i])) && Paired(t) }

  lemma FitAppend()
    ensures forall t: seq<Event>, e: Event {:trigger AllFit(t + [e])} ::
      !Opens(e) && !Closes(e) ==> (AllFit(t + [e]) <==> AllFit(t) && Fits(e))
    ensures forall t: seq<Event>, a: Event, e: Event {:trigger AllFit(t + [a] + [e])} ::
      Answers(a, e) ==> (AllFit(t + [a] + [e]) <==> AllFit(t) && Fits(a))
  {
    forall t: seq<Event>, e: Event | !Opens(e) && !Closes(e)
      ensures AllFit(t + [e]) <==> AllFit(t) && Fits(e)
    {
      OneMoreFits(t, e);
    }
    forall t: seq<Event>, a: Event, e: Event | Answers(a, e)
      ensures AllFit(t + [a] + [e]) <==> AllFit(t) && Fits(a)
    {
      TwoMoreFit(t, a, e);
    }
  }

  lemma OneMoreFits(t: seq<Event>, e: Event)
    requires !Opens(e) && !Closes(e)
    ensures AllFit(t + [e]) <==> AllFit(t) && Fits(e)
  {
    hide Fits;
    var longer := t + [e];
    assert longer[|t|] == e && longer[..|t|] == t;
    assert forall i | 0 <= i < |t| :: longer[i] == t[i];
  }

  lemma TwoMoreFit(t: seq<Event>, a: Event, e: Event)
    requires Answers(a, e)
    ensures AllFit(t + [a] + [e]) <==> AllFit(t) && Fits(a)
  {
    assert Fits(e);
    hide Fits;
    var longer := t + [a] + [e];
    assert longer[|t|] == a && longer[|t| + 1] == e && longer[..|t|] == t;
    assert forall i | 0 <= i < |t| :: longer[i] == t[i];
  }

  /** When a person's decision is taken: the escalation exists, and the case waits for it, stands at the gate or is
      approved already; a rejection only while it waits or after another. */
  lemma PeopleDecideWhen(c: CaseRow, escalation: nat, approve: bool)
    ensures HumanDecided(c, escalation, approve).Ok? <==>
      && escalation < |c.escalations|
      && c.status in if approve then {AwaitingApproval, PolicyCheck, Approved} else {AwaitingApproval, Escalated}
  {
    var to := if approve then Approved else Escalated;
    assert CanTransition(c.status, to) <==>
           c.status in if approve then {AwaitingApproval, PolicyCheck, Approved} else {AwaitingApproval, Escalated};
  }

  lemma CoreVerdictFits(k: Core, d: Decision, verdict: Verdict, cfg: PolicyConfig, i: Input)
    requires AllFit(k.trail) && k.status == PolicyCheck && CoreVerdict(k, d, verdict, cfg, i).CoreDone?
    ensures AllFit(CoreVerdict(k, d, verdict, cfg, i).k.trail)
  {
    hide AllFit, EnsuredReason;
    FitAppend();
  }

  lemma CaptureFits(k: Core, source: CaptureSource)
    requires AllFit(k.trail) && !IsTerminal(k.status)
    ensures AllFit(Capture(k, source).trail)
  {
    hide AllFit;
    FitAppend();
  }

  lemma AttemptFits(k: Core, link: LinkReply)
    requires AllFit(k.trail) && k.status == Executing
    ensures AllFit(Charge(k).trail) && AllFit(SendLink(k, link).trail) && AllFit(RaiseEscalation(k).trail)
    ensures Charge(k).status == Executing && SendLink(k, link).status == Executing
    ensures RaiseEscalation(k).status == Executing
  {
    hide AllFit;
    FitAppend();
  }

  lemma AfterFits(k: Core)
    requires AllFit(k.trail) && (k.payStatus != PayCaptured ==> k.status == Executing)
    ensures CoreAfterAttempt(k).CoreDone? && AllFit(CoreAfterAttempt(k).k.trail)
  {
    hide AllFit;
    FitAppend();
  }

  lemma JumpFits(k: Core, to: CaseStatus, actor: Actor)
    requires to !in {Analyzing, Recovered, ClosedUnrecovered}
    ensures AllFit(Jump(k, to, actor).trail) <==> AllFit(k.trail) && Fits(StateTransition(actor, k.status, to))
  {
    hide AllFit, Fits;
    FitAppend();
  }

  lemma CoreAttemptFits(k: Core, paid: bool, link: LinkReply)
    requires AllFit(k.trail) && k.status == Executing
    ensures AllFit(CoreRetry(k, paid).k.trail)
    ensures CoreLink(k, link, paid).CoreDone? ==> AllFit(CoreLink(k, link, paid).k.trail)
  {
    hide AllFit, Charge, SendLink, RaiseEscalation, Capture, CoreAfterAttempt, Jump;
    AttemptFits(k, link);
    CaptureFits(Charge(k), ExecutorRetry);
    CaptureFits(SendLink(k, link), ExecutorLink);
    Shapes(Charge(k), link, ExecutorRetry);
    Shapes(SendLink(k, link), link, ExecutorLink);
    AfterFits(if paid then Capture(Charge(k), ExecutorRetry) else Charge(k));
    AfterFits(if paid then Capture(SendLink(k, link), ExecutorLink) else SendLink(k, link));
    AfterFits(SendLink(k, link));
    JumpFits(SendLink(k, link), Failed, Executor);
  }

  lemma CoreApprovedFits(k: Core, i: Input)
    requires AllFit(k.trail) && k.status == Approved && CoreApproved(k, i).CoreDone?
    ensures AllFit(CoreApproved(k, i).k.trail)
  {
    hide AllFit, RaiseEscalation, CoreRetry, CoreLink;
    var k1 := Jump(k, Executing, Executor);
    JumpFits(k, Executing, Executor);
    AttemptFits(k1, i.link);
    CoreAttemptFits(k1, i.paid, i.link);
    JumpFits(k1, AwaitingApproval, Executor);
    JumpFits(k1, Verifying, Executor);
    JumpFits(RaiseEscalation(k1), AwaitingApproval, Executor);
  }

  lemma CoreVerifyingFits(k: Core, cfg: PolicyConfig, i: Input)
    requires AllFit(k.trail) && k.status == Verifying
    ensures AllFit(CoreVerifying(k, cfg, i).k.trail)
  {
    hide AllFit;
    FitAppend();
  }

  lemma CoreStepFits(k: Core, cfg: PolicyConfig, i: Input)
    requires AllFit(k.trail) && CoreStep(k, cfg, i).CoreDone?
    ensures AllFit(CoreStep(k, cfg, i).k.trail)
  {
    hide AllFit, CoreApproved, CoreVerdict, CoreVerifying, Triggered, CoreCtx;
    FitAppend();
    if k.status == Verifying {
      CoreVerifyingFits(k, cfg, i);
    } else if k.status == Approved {
      CoreApprovedFits(k, i);
    } else if k.status == PolicyCheck && k.latest.Some? {
      var d := k.latest.value;
      var rule := Triggered(CoreCtx(k, d, cfg, i.usedElsewhere));
      CoreVerdictFits(Noted(k, PolicyEvaluated(VerdictOf(rule), rule)), d, VerdictOf(rule), cfg, i);
    }
  }

  lemma StepFits(s: Sys, deps: Deps, env: Env)
    requires AllFit(s.c.trail) && Step(s, deps, env).Done?
    ensures AllFit(Step(s, deps, env).s.c.trail)
  {
    hide AllFit, Step, CoreStep, Inputs, CountKind, ChargeTimes, Numbered;
    StepRefines(s, deps, env);
    CoreStepFits(Abs(s), deps.cfg, Inputs(s, deps, env));
  }

  lemma ApplyFits(s: Sys, cfg: PolicyConfig, rng: Stream, e: CaseEvent)
    requires AllFit(s.c.trail)
    ensures AllFit(Apply(s, cfg, rng, e).c.trail)
  {
    hide AllFit, Step, Rolled;
    FitAppend();
    if e.WorkerStep? && Step(s, Deps(cfg, e.fastForward, rng), e.env).Done? {
      StepFits(s, Deps(cfg, e.fastForward, rng), e.env);
    }
  }

  lemma {:induction false} PairsStand(t: seq<Event>, i: nat)
    requires Paired(t) && i < |t|
    ensures Opens(t[i]) ==> i + 1 < |t| && Answers(t[i], t[i + 1])
    ensures Closes(t[i]) ==> i > 0 && Answers(t[i - 1], t[i])
  {
    var n := |t|;
    if Closes(t[n - 1]) {
      if i < n - 2 {
        PairsStand(t[..n - 2], i);
      }
    } else if i < n - 1 {
      PairsStand(t[..n - 1], i);
    }
  }

  lemma {:induction false} RunFits(s: Sys, prior: nat, cfg: PolicyConfig, rng: Stream, es: seq<CaseEvent>)
    requires FreshCase(s.c, prior)
    ensures AllFit(Run(s, cfg, rng, es).c.trail)
  {
    hide Apply;
    if |es| == 0 {
      assert [CaseCreated][..0] == [];
    } else {
      hide AllFit;
      RunFits(s, prior, cfg, rng, es[..|es| - 1]);
      ApplyFits(Run(s, cfg, rng, es[..|es| - 1]), cfg, rng, es[|es| - 1]);
    }
  }

  /** Over every run, each transition was made by the actor whose it is; RISK_SCORED comes exactly after the case went
      to ANALYZING, CAPTURE_CONFIRMED exactly after it was recovered, and CASE_CLOSED exactly after it was closed. */
  lemma TransitionsFit(s: Sys, prior: nat, cfg: PolicyConfig, rng: Stream, es: seq<CaseEvent>, i: nat)
    requires FreshCase(s.c, prior) && i < |Run(s, cfg, rng, es).c.trail|
    ensures
      var t := Run(s, cfg, rng, es).c.trail;
      && Fits(t[i])
      && (Opens(t[i]) ==> i + 1 < |t| && Answers(t[i], t[i + 1]))
      && (Closes(t[i]) ==> i > 0 && Answers(t[i - 1], t[i]))
  {
    hide Run, Fits, Paired;
    RunFits(s, prior, cfg, rng, es);
    PairsStand(Run(s, cfg, rng, es).c.trail, i);
  }
}
