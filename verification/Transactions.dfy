/** What other transactions ever see of a case. The whole of `advance_case` runs inside one transaction
    (app/worker.py:55-74, app/batch/run_eval.py:158-195), so a run of the system is a sequence of whole
    drives, each committed or rolled back, and of webhooks, human decisions and time between them. */
module Transactions {
  import opened Enums
  import opened Fsm
  import opened PolicyRules
  import opened PolicyEngine
  import opened Gateway
  import opened Trail
  import opened Rows
  import opened Verification
  import opened Executors
  import opened Pipeline
  import opened HumanDecisions
  import opened CaseRuns
  import opened Core
  import opened Limits
  import opened Spacing
  import opened Termination
  import opened BatchRuns

  /** `envs` is what the world answers to the steps of a drive; `commits` is false for a drive undone by a
      later failure in its transaction. */
  datatype Transaction =
    | DriveCase(fastForward: bool, envs: seq<Env>, commits: bool)
    | HumanDecides(escalation: nat, approve: bool)
    | CaptureArrives(entity: PaymentRow)
    | FailureArrives(entity: PaymentRow)
    | TimeElapses(minutes: nat)
    | GatewayIsAsked(key: string, probability: real)

  function Answers(envs: seq<Env>): nat -> Env {
    (n: nat) => if n < |envs| then envs[n] else Env([], NoRealAdapter, 0)
  }

  /** The transaction as events of one case. */
  function EventsOf(s: Sys, cfg: PolicyConfig, rng: Stream, t: Transaction): seq<CaseEvent> {
    match t
    case DriveCase(fastForward, envs, commits) =>
      var deps := Deps(cfg, fastForward, rng);
      if commits && Advance(s, deps, Answers(envs)).Ended? then AdvanceEvents(s, deps, Answers(envs)) else []
    case HumanDecides(escalation, approve) => [HumanDecision(escalation, approve)]
    case CaptureArrives(entity) => [CaptureWebhook(entity)]
    case FailureArrives(entity) => [FailedWebhook(entity)]
    case TimeElapses(minutes) => [TimePasses(minutes)]
    case GatewayIsAsked(key, probability) => [GatewayAsked(key, probability)]
  }

  function Commit(s: Sys, cfg: PolicyConfig, rng: Stream, t: Transaction): Sys {
    match t
    case DriveCase(fastForward, envs, commits) =>
      (match Advance(s, Deps(cfg, fastForward, rng), Answers(envs))
       case Crashed => s
       case Ended(s', _) => if commits then s' else s)
    case HumanDecides(escalation, approve) => Apply(s, cfg, rng, HumanDecision(escalation, approve))
    case CaptureArrives(entity) => Apply(s, cfg, rng, CaptureWebhook(entity))
    case FailureArrives(entity) => Apply(s, cfg, rng, FailedWebhook(entity))
    case TimeElapses(minutes) => Apply(s, cfg, rng, TimePasses(minutes))
    case GatewayIsAsked(key, probability) => Apply(s, cfg, rng, GatewayAsked(key, probability))
  }

  function Committed(s: Sys, cfg: PolicyConfig, rng: Stream, ts: seq<Transaction>): Sys {
    if |ts| == 0 then s else Commit(Committed(s, cfg, rng, ts[..|ts| - 1]), cfg, rng, ts[|ts| - 1])
  }

  // ----- Committed states are states of a run -----

  lemma {:induction false} RunConcat(s: Sys, cfg: PolicyConfig, rng: Stream, a: seq<CaseEvent>, b: seq<CaseEvent>)
    ensures Run(s, cfg, rng, a + b) == Run(Run(s, cfg, rng, a), cfg, rng, b)
  {
    hide Apply;
    if |b| == 0 {
      assert a + b == a;
    } else {
      assert (a + b)[..|a + b| - 1] == a + b[..|b| - 1];
      RunConcat(s, cfg, rng, a, b[..|b| - 1]);
    }
  }

  lemma RunOne(s: Sys, cfg: PolicyConfig, rng: Stream, e: CaseEvent)
    ensures Run(s, cfg, rng, [e]) == Apply(s, cfg, rng, e)
    ensures Run(s, cfg, rng, []) == s
  {
    hide Apply;
    assert [e][..0] == [];
  }

  lemma CommitIsARun(s: Sys, cfg: PolicyConfig, rng: Stream, t: Transaction)
    ensures Commit(s, cfg, rng, t) == Run(s, cfg, rng, EventsOf(s, cfg, rng, t))
  {
    hide Run, Apply, Advance, AdvanceEvents;
    RunOne(s, cfg, rng, GiveUp);
    match t
    case DriveCase(fastForward, envs, commits) => AdvanceIsARun(s, Deps(cfg, fastForward, rng), Answers(envs));
    case HumanDecides(escalation, approve) => RunOne(s, cfg, rng, HumanDecision(escalation, approve));
    case CaptureArrives(entity) => RunOne(s, cfg, rng, CaptureWebhook(entity));
    case FailureArrives(entity) => RunOne(s, cfg, rng, FailedWebhook(entity));
    case TimeElapses(minutes) => RunOne(s, cfg, rng, TimePasses(minutes));
    case GatewayIsAsked(key, probability) => RunOne(s, cfg, rng, GatewayAsked(key, probability));
  }

  function AllEvents(s: Sys, cfg: PolicyConfig, rng: Stream, ts: seq<Transaction>): seq<CaseEvent> {
    if |ts| == 0 then []
    else
      var before := ts[..|ts| - 1];
      AllEvents(s, cfg, rng, before) + EventsOf(Committed(s, cfg, rng, before), cfg, rng, ts[|ts| - 1])
  }

  /** Every sequence of transactions leaves a case where a run of its events leaves it, so what is proved of
      every run holds of every committed state. */
  lemma {:induction false} CommittedIsARun(s: Sys, cfg: PolicyConfig, rng: Stream, ts: seq<Transaction>)
    ensures Committed(s, cfg, rng, ts) == Run(s, cfg, rng, AllEvents(s, cfg, rng, ts))
  {
    hide Commit, EventsOf, Run;
    if |ts| == 0 {
      RunOne(s, cfg, rng, GiveUp);
    } else {
      var before, t := ts[..|ts| - 1], ts[|ts| - 1];
      CommittedIsARun(s, cfg, rng, before);
      CommitIsARun(Committed(s, cfg, rng, before), cfg, rng, t);
      RunConcat(s, cfg, rng, AllEvents(s, cfg, rng, before), EventsOf(Committed(s, cfg, rng, before), cfg, rng, t));
    }
  }

  // ----- What a drive keeps -----

  /** Bounds and spacing with nobody's approval, and no approval outlives the payment's failure. */
  ghost predicate Guarded(k: Core, cfg: PolicyConfig, prior: nat) {
    && Bounded(k, cfg, prior, 0, 0) && Waited(k, cfg, false) && Spaced(k, cfg, prior)
    && (k.status == Approved ==> k.payStatus == PayFailed)
  }

  lemma ApprovedIsFailed(k: Core, cfg: PolicyConfig, i: Input)
    requires CoreStep(k, cfg, i).CoreDone? && CoreStep(k, cfg, i).k.status == Approved
    ensures CoreStep(k, cfg, i).k.payStatus == PayFailed
  {
    hide CoreApproved, CoreVerifying, Triggered, CoreCtx;
    if k.status == PolicyCheck {
      GateTells(k, k.latest.value, cfg, i.usedElsewhere);
    } else if k.status == Approved {
      ApprovedIsLeft(k, i);
    } else if k.status == Verifying {
      VerifyingIsLeft(k, cfg, i);
    }
  }

  lemma VerifyingIsLeft(k: Core, cfg: PolicyConfig, i: Input)
    requires k.status == Verifying
    ensures CoreVerifying(k, cfg, i).CoreDone? ==> CoreVerifying(k, cfg, i).k.status != Approved
  {
  }

  lemma StepGuarded(k: Core, cfg: PolicyConfig, i: Input, prior: nat)
    requires Guarded(k, cfg, prior) && CoreStep(k, cfg, i).CoreDone?
    ensures Guarded(CoreStep(k, cfg, i).k, cfg, prior)
  {
    hide CoreStep, Waited, Spaced;
    StepBounded(k, cfg, i, prior, 0, 0);
    StepWaited(k, cfg, i, false);
    StepSpaced(k, cfg, i, prior, false);
    if CoreStep(k, cfg, i).k.status == Approved {
      ApprovedIsFailed(k, cfg, i);
    }
  }

  lemma {:induction false} DriveGuarded(s: Sys, deps: Deps, envs: nat -> Env, steps: nat, prior: nat)
    requires Guarded(Abs(s), deps.cfg, prior) && steps <= MAX_STEPS
    ensures Drive(s, deps, envs, steps).Ended? ==> Guarded(Abs(Drive(s, deps, envs, steps).s), deps.cfg, prior)
    decreases MAX_STEPS - steps
  {
    hide Step, CoreStep, Abs, Guarded, Inputs;
    if !IsTerminal(s.c.status) && steps < MAX_STEPS && Step(s, deps, envs(steps)).Done? {
      StepRefines(s, deps, envs(steps));
      StepGuarded(Abs(s), deps.cfg, Inputs(s, deps, envs(steps)), prior);
      if Step(s, deps, envs(steps)).moved {
        DriveGuarded(Step(s, deps, envs(steps)).s, deps, envs, steps + 1, prior);
      }
    }
  }

  /** Events from outside keep it too, of a case that no one is working on. */
  lemma OutsideGuarded(k: Core, next: Core, cfg: PolicyConfig, prior: nat)
    requires Guarded(k, cfg, prior) && k.status != Approved && OnlyOutside(k, next)
    ensures Guarded(next, cfg, prior)
  {
    hide WellSpaced, GateCooldown;
  }

  lemma AdvanceGuarded(s: Sys, deps: Deps, envs: nat -> Env, prior: nat)
    requires Guarded(Abs(s), deps.cfg, prior) && Advance(s, deps, envs).Ended?
    ensures Guarded(Abs(Advance(s, deps, envs).s), deps.cfg, prior) && IsTerminal(Advance(s, deps, envs).s.c.status)
  {
    hide Drive, Guarded, Numbered, ChargeTimes, CountKind, OnlyOutside, Step;
    DriveGuarded(s, deps, envs, 0, prior);
    var end := Drive(s, deps, envs, 0).s;
    if !IsTerminal(end.c.status) {
      assert Apply(end, deps.cfg, deps.rng, GiveUp) == end.(c := ClosedOff(end.c));
      OutsideEvents(end, deps.cfg, deps.rng, GiveUp);
      OutsideGuarded(Abs(end), Abs(end.(c := ClosedOff(end.c))), deps.cfg, prior);
    }
  }

  // ----- Between drives -----

  /** A case that has not been driven, or has been driven to its end. */
  predicate Settled(c: CaseRow) { c.status == Detected || IsTerminal(c.status) }

  /** A human decision about a settled case is refused, or is a rejection of one already escalated. */
  lemma DecisionsComeTooLate(s: Sys, cfg: PolicyConfig, rng: Stream, escalation: nat, approve: bool)
    requires Settled(s.c)
    ensures
      var next := Apply(s, cfg, rng, HumanDecision(escalation, approve));
      next == s || (!approve && s.c.status == Escalated && Abs(next) == Abs(s).(trail := next.c.trail))
  {
    hide Numbered, ChargeTimes, CountKind;
  }

  lemma CommitGuarded(s: Sys, cfg: PolicyConfig, rng: Stream, t: Transaction, prior: nat)
    requires Guarded(Abs(s), cfg, prior) && Settled(s.c)
    ensures Guarded(Abs(Commit(s, cfg, rng, t)), cfg, prior) && Settled(Commit(s, cfg, rng, t).c)
  {
    hide Advance, Guarded, OnlyOutside, HumanDecided, Step;
    var k := Abs(s);
    match t
    case DriveCase(fastForward, envs, commits) =>
      if Advance(s, Deps(cfg, fastForward, rng), Answers(envs)).Ended? {
        AdvanceGuarded(s, Deps(cfg, fastForward, rng), Answers(envs), prior);
      }
    case HumanDecides(escalation, approve) =>
      DecisionsComeTooLate(s, cfg, rng, escalation, approve);
      TrailIsFree(k, Apply(s, cfg, rng, HumanDecision(escalation, approve)).c.trail, cfg, prior);
      SameStatus(s, Apply(s, cfg, rng, HumanDecision(escalation, approve)));
      hide Apply;
    case CaptureArrives(entity) => EventGuarded(s, cfg, rng, CaptureWebhook(entity), prior);
    case FailureArrives(entity) => EventGuarded(s, cfg, rng, FailedWebhook(entity), prior);
    case TimeElapses(minutes) => EventGuarded(s, cfg, rng, TimePasses(minutes), prior);
    case GatewayIsAsked(key, probability) => EventGuarded(s, cfg, rng, GatewayAsked(key, probability), prior);
  }

  lemma TrailIsFree(k: Core, trail: seq<Event>, cfg: PolicyConfig, prior: nat)
    ensures Guarded(k.(trail := trail), cfg, prior) == Guarded(k, cfg, prior)
  {
  }

  lemma SameStatus(s: Sys, next: Sys)
    ensures Abs(s).status == s.c.status && Abs(next).status == next.c.status
  {
  }

  lemma EventGuarded(s: Sys, cfg: PolicyConfig, rng: Stream, e: CaseEvent, prior: nat)
    requires Guarded(Abs(s), cfg, prior) && Settled(s.c) && !e.WorkerStep? && !e.HumanDecision?
    ensures Guarded(Abs(Apply(s, cfg, rng, e)), cfg, prior) && Settled(Apply(s, cfg, rng, e).c)
  {
    hide Apply, Guarded;
    OutsideEvents(s, cfg, rng, e);
    OutsideGuarded(Abs(s), Abs(Apply(s, cfg, rng, e)), cfg, prior);
  }

  lemma {:induction false} CommittedGuarded(s: Sys, cfg: PolicyConfig, rng: Stream, ts: seq<Transaction>, prior: nat)
    requires Guarded(Abs(s), cfg, prior) && Settled(s.c)
    ensures Guarded(Abs(Committed(s, cfg, rng, ts)), cfg, prior) && Settled(Committed(s, cfg, rng, ts).c)
  {
    hide Guarded, Commit, Abs, Settled;
    if |ts| > 0 {
      CommittedGuarded(s, cfg, rng, ts[..|ts| - 1], prior);
      CommitGuarded(Committed(s, cfg, rng, ts[..|ts| - 1]), cfg, rng, ts[|ts| - 1], prior);
    }
  }

  lemma FreshIsGuarded(s: Sys, prior: nat, cfg: PolicyConfig)
    requires FreshCase(s.c, prior)
    ensures Guarded(Abs(s), cfg, prior) && Settled(s.c)
  {
    FreshIsBounded(s, prior, cfg);
    FreshIsSpaced(s, prior, cfg);
    hide Bounded, Waited, Spaced;
  }

  /** In every committed state the case is DETECTED or terminal, and an approval changes nothing: a case parked
      for a human, or waiting for the gate, is never committed. */
  lemma {:induction false} CommittedCasesAreSettled(s: Sys, prior: nat, cfg: PolicyConfig, rng: Stream,
                                                    ts: seq<Transaction>,
                                                    escalation: nat)
    requires FreshCase(s.c, prior)
    ensures var now := Committed(s, cfg, rng, ts);
      && (now.c.status == Detected || IsTerminal(now.c.status))
      && Commit(now, cfg, rng, HumanDecides(escalation, true)) == now
  {
    hide Guarded, Committed, Abs;
    FreshIsGuarded(s, prior, cfg);
    CommittedGuarded(s, cfg, rng, ts, prior);
    DecisionsComeTooLate(Committed(s, cfg, rng, ts), cfg, rng, escalation, true);
    hide Apply;
  }

  /** In every committed state: retry_count is the prior attempts plus the charges and at most max(prior,
      max_retries), contacts are within the cap, and charges are the gate's cooldown apart, so that n of them
      span the clamped geometric sum. */
  lemma {:induction false} CommittedCasesAreBounded(s: Sys, prior: nat, cfg: PolicyConfig, rng: Stream,
                                                    ts: seq<Transaction>)
    requires FreshCase(s.c, prior)
    ensures
      var c := Committed(s, cfg, rng, ts).c;
      var times := ChargeTimes(c.actions);
      && c.retryCount == prior + Charges(c) && c.retryCount <= Max(prior, cfg.maxRetries)
      && Contacts(c) <= Max(0, cfg.contactCap7d)
      && WellSpaced(times, cfg, prior)
      && (|times| > 0 ==> times[|times| - 1] - times[0] >= CooldownSum(cfg, prior + 1, |times| - 1))
  {
    hide Committed, FreshCase, WellSpaced, ChargeTimes, CountKind, Numbered, Waited;
    FreshIsGuarded(s, prior, cfg);
    CommittedGuarded(s, cfg, rng, ts, prior);
    var times := ChargeTimes(Committed(s, cfg, rng, ts).c.actions);
    if |times| > 0 {
      SpacedSpan(times, cfg, prior);
    }
  }
}
