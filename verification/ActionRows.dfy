/** A case's action rows and the ACTION_STARTED events of its trail are the same list, over every run
    (app/executors/actions.py:62-84); so what the trail says about approvals holds of the rows. */
module ActionRows {
  import opened Enums
  import opened PolicyRules
  import opened PolicyEngine
  import opened Gateway
  import opened Trail
  import opened Rows
  import opened CaseService
  import opened Verification
  import opened Decide
  import opened Executors
  import opened Pipeline
  import opened HumanDecisions
  import opened CaseRuns
  import opened Gatekeeping

  /** What a started action is: its kind and how it is carried out. */
  type Deed = (ActionType, ExecutionMode)

  function Started(t: seq<Event>): seq<Deed> {
    if |t| == 0 then []
    else
      var before, e := Started(t[..|t| - 1]), t[|t| - 1];
      if e.ActionStarted? then before + [(e.kind, e.mode)] else before
  }

  function Deeds(actions: seq<Action>): seq<Deed> {
    seq(|actions|, i requires 0 <= i < |actions| => (actions[i].kind, actions[i].mode))
  }

  ghost predicate Recorded(c: CaseRow) { Started(c.trail) == Deeds(c.actions) }

  lemma StartedAppend()
    ensures forall t: seq<Event>, e: Event {:trigger Started(t + [e])} ::
      Started(t + [e]) == Started(t) + if e.ActionStarted? then [(e.kind, e.mode)] else []
  {
    forall t: seq<Event>, e: Event
      ensures Started(t + [e]) == Started(t) + if e.ActionStarted? then [(e.kind, e.mode)] else []
    {
      assert (t + [e])[..|t|] == t;
    }
  }

  lemma DeedsInsert(actions: seq<Action>, a: Action)
    ensures Deeds(actions + [a]) == Deeds(actions) + [(a.kind, a.mode)]
  {
  }

  lemma DeedsSettle(actions: seq<Action>, s: ActionStatus)
    requires |actions| > 0
    ensures Deeds(actions[|actions| - 1 := actions[|actions| - 1].(status := s)]) == Deeds(actions)
  {
  }

  lemma EmitRecords(c: CaseRow, e: Event)
    requires Recorded(c) && !e.ActionStarted?
    ensures Recorded(Emit(c, e))
  {
    hide Started;
    StartedAppend();
  }

  lemma MovedRecords(c: CaseRow, to: CaseStatus, actor: Actor)
    requires Recorded(c)
    ensures Recorded(Moved(c, to, actor))
  {
    EmitRecords(c.(status := to), StateTransition(actor, c.status, to));
  }

  lemma DecisionRecords(c: CaseRow, p: PaymentRow, age: int, cfg: PolicyConfig, attempts: seq<Option<RawOutput>>)
    requires Recorded(c)
    ensures Recorded(WithDecision(c, p, age, cfg, attempts))
  {
    hide Started, Chosen, FallbackDecision;
    StartedAppend();
  }

  lemma CapturedRecords(c: CaseRow, amount: int, source: CaptureSource)
    requires Recorded(c)
    ensures Recorded(Captured(c, amount, source))
  {
    hide Started;
    StartedAppend();
  }

  lemma ClosedRecords(c: CaseRow)
    requires Recorded(c)
    ensures Recorded(ClosedOff(c))
  {
    hide Started;
    StartedAppend();
  }

  lemma StartRecords(c: CaseRow, kind: ActionType, mode: ExecutionMode, now: int)
    requires Recorded(c)
    ensures Recorded(NewAction(c, kind, mode, now))
  {
    hide Started, Deeds, CountKind;
    StartedAppend();
    DeedsInsert(c.actions, Action(kind, CountKind(c.actions, kind) + 1, mode, ActionExecuting, now));
  }

  lemma FinishRecords(c: CaseRow, ok: bool)
    requires Recorded(c) && |c.actions| > 0
    ensures Recorded(FinishedAction(c, ok))
  {
    hide Started, Deeds, CountKind;
    StartedAppend();
    DeedsSettle(c.actions, if ok then ActionSucceeded else ActionFailed);
  }

  lemma ChargeRecords(c: CaseRow, amount: int, now: int, paid: bool)
    requires Recorded(c)
    ensures Recorded(ChargeOutcome(c, amount, now, paid))
  {
    var started := NewAction(c, RetryCharge, Simulated, now);
    StartRecords(c, RetryCharge, Simulated, now);
    FinishRecords(started.(retryCount := started.retryCount + 1), true);
    hide Recorded, NewAction, FinishedAction, Captured;
    CapturedRecords(ChargeRetried(c, now), amount, ExecutorRetry);
  }

  lemma SentRecords(c: CaseRow, link: LinkReply, now: int)
    requires Recorded(c)
    ensures Recorded(LinkSent(c, link, now))
  {
    hide Recorded, NewAction, FinishedAction, Emit;
    var mode := if link == NoRealAdapter then Simulated else RealRzp;
    var started := NewAction(c, SendRecoveryLink, mode, now);
    StartRecords(c, SendRecoveryLink, mode, now);
    FinishRecords(started, false);
    EmitRecords(started, NotificationsQueued);
    SameActions(started, NotificationsQueued);
    FinishRecords(Emit(started, NotificationsQueued), true);
  }

  lemma SameActions(c: CaseRow, e: Event)
    ensures Emit(c, e).actions == c.actions
  {
  }

  lemma LinkRecords(c: CaseRow, amount: int, link: LinkReply, now: int, paid: bool)
    requires Recorded(c)
    ensures Recorded(LinkOutcome(c, amount, link, now, paid))
  {
    hide Recorded, LinkSent, Captured;
    SentRecords(c, link, now);
    CapturedRecords(LinkSent(c, link, now), amount, ExecutorLink);
  }

  lemma EscalationRecords(c: CaseRow, amount: int, cfg: PolicyConfig, now: int)
    requires Recorded(c)
    ensures Recorded(EscalationRaised(c, amount, cfg, now))
  {
    var started := NewAction(c, CreateEscalation, Outbox, now);
    var reason := ReasonFor(c.diagnosis, c.confidence, amount, c.retryCount, cfg);
    StartRecords(c, CreateEscalation, Outbox, now);
    FinishRecords(started.(escalations := started.escalations + [Escalation(reason, EscOpen)]), true);
    hide Recorded, NewAction, FinishedAction;
  }

  // ----- Steps -----

  ghost predicate RecordedResult(r: StepResult) { r.Done? ==> Recorded(r.s.c) }

  lemma VerdictRecords(s: Sys, d: Decision, verdict: Verdict, deps: Deps, env: Env)
    requires Recorded(s.c)
    ensures RecordedResult(StepVerdict(s, d, verdict, deps, env))
  {
    hide Recorded, Moved, WithDecision, EscalationEnsured;
    match verdict
    case Allow => MovedRecords(s.c, Approved, Policy);
    case Escalate =>
      EnsuredRecords(s.c, s.p.amountMinor, deps.cfg);
      MovedRecords(EscalationEnsured(s.c, s.p.amountMinor, deps.cfg), AwaitingApproval, Policy);
    case Wait => MovedRecords(s.c, Planned, Policy);
    case Block =>
      DecisionRecords(s.c, s.p, Pipeline.Age(s.now, s.p), deps.cfg, env.attempts);
      MovedRecords(WithDecision(s.c, s.p, Pipeline.Age(s.now, s.p), deps.cfg, env.attempts), Planned, Policy);
      MovedRecords(s.c, Blocked, Policy);
  }

  lemma EnsuredRecords(c: CaseRow, amount: int, cfg: PolicyConfig)
    requires Recorded(c)
    ensures Recorded(EscalationEnsured(c, amount, cfg))
  {
    hide Started;
    StartedAppend();
  }

  lemma ForcedRecords(c: CaseRow)
    requires Recorded(c)
    ensures Recorded(EscalationForced(c))
  {
    hide Started;
    StartedAppend();
  }

  lemma AfterRecords(c: CaseRow, p: PaymentRow, now: int, g: GatewayState)
    requires Recorded(c)
    ensures RecordedResult(AfterAttempt(c, p, now, g))
  {
    MovedRecords(c.(lastAttemptAt := Some(now)), Verifying, Executor);
    hide Moved;
  }

  lemma AttemptRecords(s: Sys, strategy: Strategy, deps: Deps, env: Env)
    requires Recorded(s.c)
    ensures RecordedResult(StepAttempt(s, strategy, deps, env))
  {
    hide Recorded, ChargeOutcome, LinkOutcome, RecordedResult, AfterAttempt, Moved;
    var paid := Latent(deps.rng, s.g, s.c.paymentId, CaptureProbability(s.c));
    var g := Rolled(deps.rng, s.g, s.c.paymentId, CaptureProbability(s.c));
    hide Latent, Rolled;
    if strategy == S1 || strategy == S2 {
      ChargeRecords(s.c, s.p.amountMinor, s.now, paid);
      AfterRecords(ChargeOutcome(s.c, s.p.amountMinor, s.now, paid), PaidRow(s.p, paid), s.now, g);
    } else {
      LinkStepRecords(s, deps, env.link, paid, g);
    }
  }

  lemma LinkStepRecords(s: Sys, deps: Deps, link: LinkReply, paid: bool, g: GatewayState)
    requires Recorded(s.c)
    requires paid == Latent(deps.rng, s.g, s.c.paymentId, CaptureProbability(s.c))
    requires g == Rolled(deps.rng, s.g, s.c.paymentId, CaptureProbability(s.c))
    ensures RecordedResult(StepLink(s, deps, link))
  {
    hide Recorded, LinkOutcome, AfterAttempt, Moved, Latent, Rolled;
    LinkRecords(s.c, s.p.amountMinor, link, s.now, false);
    LinkRecords(s.c, s.p.amountMinor, link, s.now, paid);
    MovedRecords(LinkOutcome(s.c, s.p.amountMinor, link, s.now, false), Failed, Executor);
    AfterRecords(LinkOutcome(s.c, s.p.amountMinor, link, s.now, false), s.p, s.now, s.g);
    AfterRecords(LinkOutcome(s.c, s.p.amountMinor, link, s.now, paid), PaidRow(s.p, paid), s.now, g);
  }

  lemma ApprovedRecords(s: Sys, deps: Deps, env: Env)
    requires Recorded(s.c)
    ensures RecordedResult(StepApproved(s, deps, env))
  {
    hide Recorded, Moved, EscalationRaised, StepAttempt;
    var c := Moved(s.c, Executing, Executor);
    MovedRecords(s.c, Executing, Executor);
    MovedRecords(c, AwaitingApproval, Executor);
    MovedRecords(c, Verifying, Executor);
    EscalationRecords(c, s.p.amountMinor, deps.cfg, s.now);
    MovedRecords(EscalationRaised(c, s.p.amountMinor, deps.cfg, s.now), AwaitingApproval, Executor);
    if LatestDecision(s.c).Some? {
      AttemptRecords(s.(c := c), LatestDecision(s.c).value.strategy, deps, env);
    }
  }

  lemma VerifyingRecords(s: Sys, deps: Deps)
    requires Recorded(s.c)
    ensures RecordedResult(StepVerifying(s, deps))
  {
    hide Recorded, Moved, Captured, ClosedOff, EscalationForced, CountKind;
    CapturedRecords(s.c, s.p.amountMinor, VerifierPoll);
    ClosedRecords(s.c);
    ForcedRecords(s.c);
    MovedRecords(EscalationForced(s.c), Diagnosed, System);
    MovedRecords(s.c, Diagnosed, System);
  }

  lemma PolicyCheckRecords(s: Sys, d: Decision, deps: Deps, env: Env)
    requires Recorded(s.c)
    ensures RecordedResult(StepPolicyCheck(s, d, deps, env))
  {
    hide Recorded, StepVerdict, Triggered, PolicyCtx, Emit;
    var rule := Triggered(PolicyCtx(s.c, s.p, d, s.now, deps.cfg, env.usedElsewhere));
    EmitRecords(s.c, PolicyEvaluated(VerdictOf(rule), rule));
    VerdictRecords(s.(c := Emit(s.c, PolicyEvaluated(VerdictOf(rule), rule))), d, VerdictOf(rule), deps, env);
  }

  lemma PlanningRecords(s: Sys, deps: Deps, env: Env)
    requires Recorded(s.c)
    ensures Recorded(StepDetected(s.c))
    ensures Recorded(StepAnalyzing(s.c, s.p, s.now, deps.cfg, env.attempts))
    ensures Recorded(StepDiagnosed(s.c, s.p, s.now, deps.cfg, env.attempts))
    ensures RecordedResult(StepAwaiting(s, deps))
  {
    var decided := WithDecision(s.c, s.p, Pipeline.Age(s.now, s.p), deps.cfg, env.attempts);
    MovedRecords(s.c, Analyzing, System);
    EmitRecords(Moved(s.c, Analyzing, System), RiskScored);
    DecisionRecords(s.c, s.p, Pipeline.Age(s.now, s.p), deps.cfg, env.attempts);
    MovedRecords(decided, Diagnosed, System);
    MovedRecords(decided, Planned, System);
    MovedRecords(s.c, Planned, System);
    MovedRecords(s.c, Escalated, Human);
    hide Started, Deeds, Moved, Emit, WithDecision;
  }

  lemma StepRecords(s: Sys, deps: Deps, env: Env)
    requires Recorded(s.c)
    ensures RecordedResult(Step(s, deps, env))
  {
    hide Recorded, StepPolicyCheck, StepApproved, StepVerifying, StepAwaiting, StepDetected, StepAnalyzing;
    hide StepDiagnosed, Moved;
    PlanningRecords(s, deps, env);
    MovedRecords(s.c, PolicyCheck, System);
    MovedRecords(s.c, Verifying, Executor);
    ApprovedRecords(s, deps, env);
    VerifyingRecords(s, deps);
    if LatestDecision(s.c).Some? {
      PolicyCheckRecords(s, LatestDecision(s.c).value, deps, env);
    }
  }

  // ----- Runs -----

  lemma HumanRecords(c: CaseRow, escalation: nat, approve: bool)
    requires Recorded(c) && HumanDecided(c, escalation, approve).Ok?
    ensures Recorded(HumanDecided(c, escalation, approve).value)
  {
    hide Started;
    StartedAppend();
  }

  lemma HealRecords(c: CaseRow, amount: int)
    requires Recorded(c)
    ensures Recorded(SelfHealed(c, amount))
  {
    CapturedRecords(c.(diagnosis := Some(DuplicateSelfHealed), strategy := Some(S6)), amount, WebhookSelfHeal);
    hide Captured;
  }

  lemma ApplyRecords(s: Sys, cfg: PolicyConfig, rng: Stream, e: CaseEvent)
    requires Recorded(s.c)
    ensures Recorded(Apply(s, cfg, rng, e).c)
  {
    hide Recorded, Step, HumanDecided, SelfHealed, ClosedOff, Rolled;
    match e
    case WorkerStep(fastForward, env) => StepRecords(s, Deps(cfg, fastForward, rng), env);
    case HumanDecision(escalation, approve) =>
      if HumanDecided(s.c, escalation, approve).Ok? {
        HumanRecords(s.c, escalation, approve);
      }
    case CaptureWebhook(entity) => HealRecords(s.c, entity.amountMinor);
    case GiveUp => ClosedRecords(s.c);
    case _ =>
  }

  lemma {:induction false} RunRecords(s: Sys, cfg: PolicyConfig, rng: Stream, es: seq<CaseEvent>)
    requires Recorded(s.c)
    ensures Recorded(Run(s, cfg, rng, es).c)
  {
    hide Recorded, Apply;
    if |es| > 0 {
      RunRecords(s, cfg, rng, es[..|es| - 1]);
      ApplyRecords(Run(s, cfg, rng, es[..|es| - 1]), cfg, rng, es[|es| - 1]);
    }
  }

  // ----- Rows and events -----

  /** The positions of the ACTION_STARTED events. */
  function StartPositions(t: seq<Event>): (ps: seq<nat>)
    ensures |ps| == |Started(t)|
    ensures forall i | 0 <= i < |ps| :: ps[i] < |t|
  {
    if |t| == 0 then []
    else
      var before, e := StartPositions(t[..|t| - 1]), t[|t| - 1];
      if e.ActionStarted? then before + [|t| - 1] else before
  }

  lemma {:induction false} PositionsAreStarts(t: seq<Event>)
    ensures forall i | 0 <= i < |Started(t)| ::
      t[StartPositions(t)[i]] == ActionStarted(Started(t)[i].0, Started(t)[i].1)
    ensures forall i, j | 0 <= i < j < |Started(t)| :: StartPositions(t)[i] < StartPositions(t)[j]
  {
    if |t| > 0 {
      PositionsAreStarts(t[..|t| - 1]);
    }
  }

  /** Over every run and decision source, each action row rests on its own earlier approval, a policy ALLOW or a
      human's, of the decision then current, with no decision appended in between: the i-th row is the i-th
      ACTION_STARTED event, which is backed; and of two rows the later one's approval comes after the earlier
      one's start. */
  lemma {:induction false} EveryActionRowApproved(s: Sys, prior: nat, cfg: PolicyConfig, rng: Stream,
                                                  es: seq<CaseEvent>)
    requires FreshCase(s.c, prior)
    ensures
      var c := Run(s, cfg, rng, es).c;
      var at := StartPositions(c.trail);
      && |at| == |c.actions|
      && (forall i | 0 <= i < |at| ::
            at[i] < |c.trail| && c.trail[at[i]] == ActionStarted(c.actions[i].kind, c.actions[i].mode))
      && (forall i | 0 <= i < |at| :: Backed(c.trail, at[i]))
      && (forall i1, i2, d: nat, j: nat | 0 <= i1 < i2 < |at| && BackedBy(c.trail, d, j, at[i2]) :: at[i1] < j)
  {
    hide Run, FreshCase, Started, StartPositions, Backed, Deeds;
    FreshRecords(s.c, prior);
    RunRecords(s, cfg, rng, es);
    DeedsAre(Run(s, cfg, rng, es).c.actions);
    var c := Run(s, cfg, rng, es).c;
    PositionsAreStarts(c.trail);
    EveryActionApproved(s, prior, cfg, rng, es);
    var at := StartPositions(c.trail);
    forall i | 0 <= i < |at|
      ensures Backed(c.trail, at[i])
    {
      assert c.trail[at[i]].ActionStarted?;
    }
    forall i1, i2, d: nat, j: nat | 0 <= i1 < i2 < |at| && BackedBy(c.trail, d, j, at[i2])
      ensures at[i1] < j
    {
      assert c.trail[at[i1]].ActionStarted?;
    }
  }

  lemma DeedsAre(actions: seq<Action>)
    ensures |Deeds(actions)| == |actions|
    ensures forall i | 0 <= i < |actions| :: Deeds(actions)[i] == (actions[i].kind, actions[i].mode)
  {
  }

  lemma FreshRecords(c: CaseRow, prior: nat)
    requires FreshCase(c, prior)
    ensures Recorded(c)
  {
    assert [CaseCreated][..0] == [];
  }
}
