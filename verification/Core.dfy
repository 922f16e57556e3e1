/** What a pipeline step depends on: a case's columns, how many rows of each kind it has, and its trail.
    `CoreStep` is the step on these alone, and `StepRefines` shows the pipeline step on full rows computes
    exactly it. Everything proved about whole runs is proved here. */
module Core {
  import opened Enums
  import opened Strategies
  import opened PolicyRules
  import opened PolicyEngine
  import opened Gateway
  import opened Trail
  import opened Rows
  import opened CaseService
  import opened Verification
  import opened Decide
  import opened Executors
  import opened Pipeline

  /** What no step ever changes. */
  datatype Facts = Facts(paymentId: string, hasToken: bool, captureProbability: Option<real>,
                         errorReason: Option<string>, errorCode: Option<string>, amountMinor: int, createdAt: int)

  datatype Core = Core(
    facts: Facts,
    status: CaseStatus,
    diagnosis: Option<DiagnosisClass>,
    confidence: Option<int>,
    latest: Option<Decision>,
    retryCount: nat,
    lastAttemptAt: Option<int>,
    recoveredMinor: int,
    outcome: Option<CaseOutcome>,
    chargeTimes: seq<int>,
    links: nat,
    notices: nat,
    numbered: bool,
    parked: bool,
    trail: seq<Event>,
    payStatus: PaymentStatus,
    now: int)
  {
    function Contacts(): nat { links + notices }

    function Charges(): nat { |chargeTimes| }

    function Age(): int { Max(0, now - facts.createdAt) }
  }

  /** What the environment contributes to a step, resolved to values. */
  datatype Input = Input(fastForward: bool, proposal: Decision, link: LinkReply, paid: bool, usedElsewhere: nat)

  ghost function Abs(s: Sys): Core {
    Core(Facts(s.c.paymentId, s.c.hasToken, s.c.captureProbability, s.p.errorReason, s.p.errorCode, s.p.amountMinor,
               s.p.createdAt),
         s.c.status, s.c.diagnosis, s.c.confidence, LatestDecision(s.c), s.c.retryCount, s.c.lastAttemptAt,
         s.c.recoveredMinor, s.c.outcome,
         ChargeTimes(s.c.actions), CountKind(s.c.actions, SendRecoveryLink), CountKind(s.c.actions, NotifyCustomer),
         Numbered(s.c.actions),
         |s.c.escalations| > 0, s.c.trail, s.p.status, s.now)
  }

  function Proposal(s: Sys, cfg: PolicyConfig, attempts: seq<Option<RawOutput>>): Decision {
    Chosen(attempts, 0, FallbackDecision(s.p, Pipeline.Age(s.now, s.p), s.c.hasToken, cfg, s.c.retryCount))
  }

  function Inputs(s: Sys, deps: Deps, env: Env): Input {
    Input(deps.fastForward, Proposal(s, deps.cfg, env.attempts), env.link,
          Latent(deps.rng, s.g, s.c.paymentId, CaptureProbability(s.c)), env.usedElsewhere)
  }

  // ----- Primitive effects -----

  function Noted(k: Core, e: Event): Core { k.(trail := k.trail + [e]) }

  function Jump(k: Core, to: CaseStatus, actor: Actor): Core {
    Noted(k.(status := to), StateTransition(actor, k.status, to))
  }

  function Choose(k: Core, d: Decision): Core {
    Noted(k.(latest := Some(d), diagnosis := Some(d.diagnosis), confidence := Some(d.diagnosisConfidence)),
          DecisionRecorded(d.origin, d.diagnosis, d.strategy, d.diagnosisConfidence, k.retryCount))
  }

  function Force(k: Core): Core {
    var diagnosis := if k.diagnosis.Some? then k.diagnosis.value else UnknownCause;
    var confidence := if k.confidence.Some? && k.confidence.value != 0 then k.confidence.value else 50;
    Noted(k.(latest := Some(Decision(FromFallback, diagnosis, confidence, S5, 90, None))), LadderOverride)
  }

  function Park(k: Core, cfg: PolicyConfig): Core {
    if k.parked then k
    else
      var confidence := if k.confidence == Some(0) then None else k.confidence;
      Noted(k.(parked := true),
            EscalationCreated(EnsuredReason(k.diagnosis, confidence, k.facts.amountMinor, k.retryCount, cfg)))
  }

  function Capture(k: Core, source: CaptureSource): Core {
    if k.status == Recovered then k
    else
      Noted(Jump(k.(recoveredMinor := k.facts.amountMinor, outcome := Some(OutcomeOf(source))), Recovered, Verifier),
            CaptureConfirmed(source, k.facts.amountMinor)).(payStatus := PayCaptured)
  }

  function Close(k: Core): Core {
    if k.status == ClosedUnrecovered then k
    else Noted(Jump(k.(outcome := Some(OutUnrecovered)), ClosedUnrecovered, System), CaseClosed)
  }

  function Charge(k: Core): Core {
    Noted(Noted(k.(chargeTimes := k.chargeTimes + [k.now], retryCount := k.retryCount + 1),
                ActionStarted(RetryCharge, Simulated)),
          ActionFinished(true))
  }

  function SendLink(k: Core, link: LinkReply): Core {
    var started := Noted(k.(links := k.links + 1),
                         ActionStarted(SendRecoveryLink, if link == NoRealAdapter then Simulated else RealRzp));
    if link == LinkRefused then Noted(started, ActionFinished(false))
    else Noted(Noted(started, NotificationsQueued), ActionFinished(true))
  }

  function RaiseEscalation(k: Core): Core {
    Noted(Noted(k, ActionStarted(CreateEscalation, Outbox)), ActionFinished(true)).(parked := true)
  }

  // ----- The step -----

  function CoreCtx(k: Core, d: Decision, cfg: PolicyConfig, usedElsewhere: nat): PolicyContext {
    PolicyContext(
      k.status, k.payStatus, false, k.facts.amountMinor, k.retryCount, k.lastAttemptAt, k.diagnosis,
      d.diagnosisConfidence, d.strategyConfidence, k.Contacts(), false, k.Age(),
      Max(0, cfg.simulationBudget - (usedElsewhere + k.Charges())),
      if ActionOf(d.strategy).Some? then ActionOf(d.strategy).value else CreateEscalation,
      d.delayMinutes, None, None, false, cfg, k.now)
  }

  datatype CoreResult = CoreDone(k: Core, moved: bool) | CoreError

  function CoreVerdict(k: Core, d: Decision, verdict: Verdict, cfg: PolicyConfig, i: Input): CoreResult {
    match verdict
    case Allow => CoreDone(Jump(k, Approved, Policy), true)
    case Escalate => CoreDone(Jump(Park(k, cfg), AwaitingApproval, Policy), true)
    case Wait =>
      if !i.fastForward then CoreDone(k, false)
      else CoreDone(Jump(k, Planned, Policy).(now := k.now + WaitMinutes(cfg, k.retryCount)), true)
    case Block =>
      if d.origin == FromLlm then CoreDone(Jump(Choose(k, i.proposal), Planned, Policy), true)
      else CoreDone(Jump(k, Blocked, Policy), true)
  }

  function CorePolicyCheck(k: Core, d: Decision, cfg: PolicyConfig, i: Input): CoreResult {
    var rule := Triggered(CoreCtx(k, d, cfg, i.usedElsewhere));
    CoreVerdict(Noted(k, PolicyEvaluated(VerdictOf(rule), rule)), d, VerdictOf(rule), cfg, i)
  }

  function CoreAfterAttempt(k: Core): CoreResult {
    if k.payStatus == PayCaptured then CoreDone(k, true)
    else CoreDone(Jump(k.(lastAttemptAt := Some(k.now)), Verifying, Executor), true)
  }

  function CoreRetry(k: Core, paid: bool): CoreResult {
    CoreAfterAttempt(if paid then Capture(Charge(k), ExecutorRetry) else Charge(k))
  }

  function CoreLink(k: Core, link: LinkReply, paid: bool): CoreResult {
    match link
    case LinkError => CoreError
    case LinkRefused => CoreDone(Jump(SendLink(k, link), Failed, Executor), true)
    case LinkCreated => CoreAfterAttempt(SendLink(k, link))
    case NoRealAdapter =>
      CoreAfterAttempt(if paid then Capture(SendLink(k, link), ExecutorLink) else SendLink(k, link))
  }

  function CoreApproved(k0: Core, i: Input): CoreResult {
    var k := Jump(k0, Executing, Executor);
    match k0.latest
    case None => CoreDone(Jump(k, AwaitingApproval, Executor), true)
    case Some(d) =>
      match d.strategy
      case S6 => CoreDone(Jump(k, Verifying, Executor), true)
      case S5 => CoreDone(Jump(RaiseEscalation(k), AwaitingApproval, Executor), true)
      case S1 | S2 => CoreRetry(k, i.paid)
      case S3 | S4 => CoreLink(k, i.link, i.paid)
  }

  function CoreVerifying(k: Core, cfg: PolicyConfig, i: Input): CoreResult {
    if k.payStatus == PayCaptured then CoreDone(Capture(k, VerifierPoll), true)
    else if k.latest.Some? && k.latest.value.strategy == S6 then CoreDone(Close(k), true)
    else if k.diagnosis == Some(InstrumentInvalid) && k.Contacts() > 0 then CoreDone(Close(k), true)
    else if k.Contacts() >= cfg.contactCap7d then CoreDone(Jump(Force(k), Diagnosed, System), true)
    else if !i.fastForward then CoreDone(k, false)
    else CoreDone(Jump(k, Diagnosed, System).(now := k.now + CooldownMinutes(k.retryCount)), true)
  }

  function CoreStep(k: Core, cfg: PolicyConfig, i: Input): CoreResult {
    match k.status
    case Detected =>
      if Scorable(k.facts.amountMinor) then CoreDone(Noted(Jump(k, Analyzing, System), RiskScored), true) else CoreError
    case Analyzing => CoreDone(Jump(Choose(k, i.proposal), Diagnosed, System), true)
    case Diagnosed => CoreDone(Jump(if k.retryCount > 0 then Choose(k, i.proposal) else k, Planned, System), true)
    case Planned => CoreDone(Jump(k, PolicyCheck, System), true)
    case PolicyCheck =>
      (match k.latest
       case None => CoreError
       case Some(d) => CorePolicyCheck(k, d, cfg, i))
    case Approved => CoreApproved(k, i)
    case Executing => CoreDone(Jump(k, Verifying, Executor), true)
    case Verifying => CoreVerifying(k, cfg, i)
    case AwaitingApproval =>
      if !i.fastForward then CoreDone(k, false)
      else CoreDone(Jump(k, Escalated, Human).(now := k.now + 48 * HOUR), true)
    case _ => CoreDone(k, false)
  }

  // ----- Refinement -----

  ghost predicate Agrees(r: StepResult, cr: CoreResult) {
    match r
    case Error => cr == CoreError
    case Done(s, moved) => cr == CoreDone(Abs(s), moved)
  }

  lemma MovedRefines(s: Sys, to: CaseStatus, actor: Actor)
    ensures Abs(s.(c := Moved(s.c, to, actor))) == Jump(Abs(s), to, actor)
  {
    hide Numbered, ChargeTimes, CountKind;
  }

  lemma EmitRefines(s: Sys, e: Event)
    ensures Abs(s.(c := Emit(s.c, e))) == Noted(Abs(s), e)
  {
  }

  lemma DecisionRefines(s: Sys, cfg: PolicyConfig, attempts: seq<Option<RawOutput>>)
    ensures Abs(s.(c := WithDecision(s.c, s.p, Pipeline.Age(s.now, s.p), cfg, attempts)))
            == Choose(Abs(s), Proposal(s, cfg, attempts))
  {
    hide Numbered, ChargeTimes, CountKind;
  }

  lemma VerdictRefines(s: Sys, d: Decision, verdict: Verdict, deps: Deps, env: Env)
    ensures Agrees(StepVerdict(s, d, verdict, deps, env),
                   CoreVerdict(Abs(s), d, verdict, deps.cfg, Inputs(s, deps, env)))
  {
    hide Numbered, ChargeTimes, CountKind;
    match verdict
    case Allow => MovedRefines(s, Approved, Policy);
    case Escalate => MovedRefines(s.(c := EscalationEnsured(s.c, s.p.amountMinor, deps.cfg)), AwaitingApproval, Policy);
    case Wait => MovedRefines(s, Planned, Policy);
    case Block =>
      if d.origin == FromLlm {
        DecisionRefines(s, deps.cfg, env.attempts);
        var redecided := WithDecision(s.c, s.p, Pipeline.Age(s.now, s.p), deps.cfg, env.attempts);
        MovedRefines(s.(c := redecided), Planned, Policy);
      } else {
        MovedRefines(s, Blocked, Policy);
      }
  }

  lemma PolicyCheckRefines(s: Sys, d: Decision, deps: Deps, env: Env)
    ensures Agrees(StepPolicyCheck(s, d, deps, env), CorePolicyCheck(Abs(s), d, deps.cfg, Inputs(s, deps, env)))
  {
    hide Numbered, ChargeTimes, CountKind;
    var ctx := PolicyCtx(s.c, s.p, d, s.now, deps.cfg, env.usedElsewhere);
    assert ctx == CoreCtx(Abs(s), d, deps.cfg, env.usedElsewhere);
    var rule := Triggered(ctx);
    var s1 := s.(c := Emit(s.c, PolicyEvaluated(VerdictOf(rule), rule)));
    EmitRefines(s, PolicyEvaluated(VerdictOf(rule), rule));
    VerdictRefines(s1, d, VerdictOf(rule), deps, env);
  }

  lemma CaptureRefines(s: Sys, source: CaptureSource)
    ensures Abs(s.(c := Captured(s.c, s.p.amountMinor, source),
                   p := if s.c.status == Recovered then s.p else s.p.(status := PayCaptured)))
            == Capture(Abs(s), source)
  {
    hide Numbered, ChargeTimes, CountKind;
  }

  lemma CloseRefines(s: Sys)
    ensures Abs(s.(c := ClosedOff(s.c))) == Close(Abs(s))
  {
    hide Numbered, ChargeTimes, CountKind;
  }

  lemma StartRefines(s: Sys, kind: ActionType, mode: ExecutionMode)
    ensures
      var k := Abs(s);
      Abs(s.(c := NewAction(s.c, kind, mode, s.now))) ==
      Noted(k.(chargeTimes := k.chargeTimes + if kind == RetryCharge then [k.now] else [],
               links := k.links + if kind == SendRecoveryLink then 1 else 0,
               notices := k.notices + if kind == NotifyCustomer then 1 else 0),
            ActionStarted(kind, mode))
  {
    hide Numbered, ChargeTimes, CountKind;
    NumberedAppend(s.c.actions, Action(kind, CountKind(s.c.actions, kind) + 1, mode, ActionExecuting, s.now));
  }

  lemma FinishRefines(s: Sys, ok: bool)
    requires |s.c.actions| > 0
    ensures Abs(s.(c := FinishedAction(s.c, ok))) == Noted(Abs(s), ActionFinished(ok))
  {
    SettleKeepsRows(s.c.actions, if ok then ActionSucceeded else ActionFailed);
  }

  lemma ChargeRefines(s: Sys)
    ensures Abs(s.(c := ChargeRetried(s.c, s.now))) == Charge(Abs(s))
  {
    hide Numbered, ChargeTimes, CountKind;
    StartRefines(s, RetryCharge, Simulated);
    var started := NewAction(s.c, RetryCharge, Simulated, s.now);
    FinishRefines(s.(c := started.(retryCount := started.retryCount + 1)), true);
  }

  lemma LinkRefines(s: Sys, link: LinkReply)
    ensures Abs(s.(c := LinkSent(s.c, link, s.now))) == SendLink(Abs(s), link)
  {
    hide Numbered, ChargeTimes, CountKind;
    var mode := if link == NoRealAdapter then Simulated else RealRzp;
    StartRefines(s, SendRecoveryLink, mode);
    var s1 := s.(c := NewAction(s.c, SendRecoveryLink, mode, s.now));
    FinishRefines(s1, false);
    EmitRefines(s1, NotificationsQueued);
    FinishRefines(s1.(c := Emit(s1.c, NotificationsQueued)), true);
  }

  lemma EscalationRefines(s: Sys, cfg: PolicyConfig)
    ensures Abs(s.(c := EscalationRaised(s.c, s.p.amountMinor, cfg, s.now))) == RaiseEscalation(Abs(s))
  {
    hide Numbered, ChargeTimes, CountKind;
    StartRefines(s, CreateEscalation, Outbox);
    var started := NewAction(s.c, CreateEscalation, Outbox, s.now);
    var reason := ReasonFor(s.c.diagnosis, s.c.confidence, s.p.amountMinor, s.c.retryCount, cfg);
    FinishRefines(s.(c := started.(escalations := started.escalations + [Escalation(reason, EscOpen)])), true);
  }

  lemma AfterAttemptRefines(s: Sys)
    ensures Agrees(AfterAttempt(s.c, s.p, s.now, s.g), CoreAfterAttempt(Abs(s)))
  {
    MovedRefines(s.(c := s.c.(lastAttemptAt := Some(s.now))), Verifying, Executor);
  }

  lemma RetryRefines(s: Sys, deps: Deps)
    requires s.c.status == Executing
    ensures Agrees(StepRetry(s, deps), CoreRetry(Abs(s), Latent(deps.rng, s.g, s.c.paymentId, CaptureProbability(s.c))))
  {
    hide Numbered, ChargeTimes, CountKind;
    var paid := Latent(deps.rng, s.g, s.c.paymentId, CaptureProbability(s.c));
    var g := Rolled(deps.rng, s.g, s.c.paymentId, CaptureProbability(s.c));
    var tried := s.(c := ChargeRetried(s.c, s.now));
    ChargeRefines(s);
    CaptureRefines(tried, ExecutorRetry);
    AfterAttemptRefines(Sys(ChargeOutcome(s.c, s.p.amountMinor, s.now, paid), PaidRow(s.p, paid), s.now, g));
  }

  lemma LinkStepRefines(s: Sys, deps: Deps, link: LinkReply)
    requires s.c.status == Executing
    ensures Agrees(StepLink(s, deps, link),
                   CoreLink(Abs(s), link, Latent(deps.rng, s.g, s.c.paymentId, CaptureProbability(s.c))))
  {
    hide Numbered, ChargeTimes, CountKind;
    var paid := link == NoRealAdapter && Latent(deps.rng, s.g, s.c.paymentId, CaptureProbability(s.c));
    var sent := s.(c := LinkSent(s.c, link, s.now));
    LinkRefines(s, link);
    CaptureRefines(sent, ExecutorLink);
    MovedRefines(sent, Failed, Executor);
    AfterAttemptRefines(sent);
    AfterAttemptRefines(Sys(LinkOutcome(s.c, s.p.amountMinor, link, s.now, paid), PaidRow(s.p, paid), s.now,
                            Rolled(deps.rng, s.g, s.c.paymentId, CaptureProbability(s.c))));
  }

  /** An approved escalation: the action is recorded and the case parks. */
  lemma ParkingRefines(s: Sys, cfg: PolicyConfig)
    ensures Abs(s.(c := Moved(EscalationRaised(s.c, s.p.amountMinor, cfg, s.now), AwaitingApproval, Executor)))
            == Jump(RaiseEscalation(Abs(s)), AwaitingApproval, Executor)
  {
    hide Abs, EscalationRaised, RaiseEscalation, Moved;
    EscalationRefines(s, cfg);
    MovedRefines(s.(c := EscalationRaised(s.c, s.p.amountMinor, cfg, s.now)), AwaitingApproval, Executor);
  }

  lemma ApprovedRefines(s: Sys, deps: Deps, env: Env)
    requires s.c.status == Approved
    ensures Agrees(StepApproved(s, deps, env), CoreApproved(Abs(s), Inputs(s, deps, env)))
  {
    hide Numbered, ChargeTimes, CountKind, EscalationRaised, RaiseEscalation, StepAttempt, CoreRetry, CoreLink;
    var s1 := s.(c := Moved(s.c, Executing, Executor));
    MovedRefines(s, Executing, Executor);
    var latest := LatestDecision(s.c);
    if latest.None? {
      MovedRefines(s1, AwaitingApproval, Executor);
    } else if latest.value.strategy.S6? {
      MovedRefines(s1, Verifying, Executor);
    } else if latest.value.strategy.S5? {
      ParkingRefines(s1, deps.cfg);
    } else {
      AttemptRefines(s1, latest.value.strategy, deps, env);
    }
  }

  lemma AttemptRefines(s: Sys, strategy: Strategy, deps: Deps, env: Env)
    requires s.c.status == Executing
    ensures
      var paid := Latent(deps.rng, s.g, s.c.paymentId, CaptureProbability(s.c));
      Agrees(StepAttempt(s, strategy, deps, env),
             if strategy == S1 || strategy == S2 then CoreRetry(Abs(s), paid) else CoreLink(Abs(s), env.link, paid))
  {
    RetryRefines(s, deps);
    LinkStepRefines(s, deps, env.link);
  }

  /** Does verification close the case without recovery? */
  predicate Closes(c: CaseRow) {
    || (LatestDecision(c).Some? && LatestDecision(c).value.strategy == S6)
    || (c.diagnosis == Some(InstrumentInvalid) && Contacts(c) > 0)
  }

  lemma VerifyingRefines(s: Sys, deps: Deps, env: Env)
    requires s.c.status == Verifying
    ensures Agrees(StepVerifying(s, deps), CoreVerifying(Abs(s), deps.cfg, Inputs(s, deps, env)))
  {
    hide Numbered, ChargeTimes, CountKind;
    if s.p.status == PayCaptured {
      CaptureRefines(s, VerifierPoll);
    } else if Closes(s.c) {
      CloseRefines(s);
    } else {
      ReentryRefines(s, deps, env);
    }
  }

  lemma ReentryRefines(s: Sys, deps: Deps, env: Env)
    requires s.c.status == Verifying && s.p.status != PayCaptured && !Closes(s.c)
    ensures Agrees(StepVerifying(s, deps), CoreVerifying(Abs(s), deps.cfg, Inputs(s, deps, env)))
  {
    hide Numbered, ChargeTimes, CountKind, EscalationForced, Force, Captured, Capture, ClosedOff, Close, Proposal;
    hide Latent;
    if Contacts(s.c) >= deps.cfg.contactCap7d {
      ForceRefines(s);
      MovedRefines(s.(c := EscalationForced(s.c)), Diagnosed, System);
    } else {
      MovedRefines(s, Diagnosed, System);
    }
  }

  lemma ForceRefines(s: Sys)
    ensures Abs(s.(c := EscalationForced(s.c))) == Force(Abs(s))
  {
  }

  lemma DecidingRefines(s: Sys, deps: Deps, env: Env)
    requires s.c.status == Analyzing || s.c.status == Diagnosed
    ensures Agrees(Step(s, deps, env), CoreStep(Abs(s), deps.cfg, Inputs(s, deps, env)))
  {
    hide Numbered, ChargeTimes, CountKind;
    DecisionRefines(s, deps.cfg, env.attempts);
    var s1 := s.(c := WithDecision(s.c, s.p, Pipeline.Age(s.now, s.p), deps.cfg, env.attempts));
    if s.c.status == Analyzing {
      MovedRefines(s1, Diagnosed, System);
    } else {
      MovedRefines(s1, Planned, System);
      MovedRefines(s, Planned, System);
    }
  }

  lemma AwaitingRefines(s: Sys, deps: Deps)
    requires s.c.status == AwaitingApproval && deps.fastForward
    ensures Agrees(StepAwaiting(s, deps),
                   CoreDone(Jump(Abs(s), Escalated, Human).(now := s.now + 48 * HOUR), true))
  {
    MovedRefines(s, Escalated, Human);
  }

  /** The pipeline step on full rows is the step on this abstraction of them. */
  lemma StepRefines(s: Sys, deps: Deps, env: Env)
    ensures Agrees(Step(s, deps, env), CoreStep(Abs(s), deps.cfg, Inputs(s, deps, env)))
  {
    hide Numbered, ChargeTimes, CountKind;
    match s.c.status
    case Detected =>
      MovedRefines(s, Analyzing, System);
      EmitRefines(s.(c := Moved(s.c, Analyzing, System)), RiskScored);
    case Analyzing => DecidingRefines(s, deps, env);
    case Diagnosed => DecidingRefines(s, deps, env);
    case Planned => MovedRefines(s, PolicyCheck, System);
    case PolicyCheck =>
      if LatestDecision(s.c).Some? {
        PolicyCheckRefines(s, LatestDecision(s.c).value, deps, env);
      }
    case Approved => ApprovedRefines(s, deps, env);
    case Executing => MovedRefines(s, Verifying, Executor);
    case Verifying => VerifyingRefines(s, deps, env);
    case AwaitingApproval =>
      if deps.fastForward {
        AwaitingRefines(s, deps);
      }
    case _ =>
  }

  /** What a step leaves alone: the facts, the amount and the numbering; and time does not run backwards. */
  predicate Keeps(k: Core, r: CoreResult) {
    r.CoreDone? ==>
      && r.k.facts == k.facts && r.k.numbered == k.numbered && r.k.now >= k.now
  }

  lemma VerdictFacts(k: Core, d: Decision, verdict: Verdict, cfg: PolicyConfig, i: Input)
    ensures Keeps(k, CoreVerdict(k, d, verdict, cfg, i))
  {
  }

  /** The fields an attempt or a capture changes. */
  lemma Shapes(k: Core, link: LinkReply, source: CaptureSource)
    ensures Charge(k)
            == k.(chargeTimes := k.chargeTimes + [k.now], retryCount := k.retryCount + 1, trail := Charge(k).trail)
    ensures SendLink(k, link) == k.(links := k.links + 1, trail := SendLink(k, link).trail)
    ensures Capture(k, source) == if k.status == Recovered then k else
      k.(status := Recovered, recoveredMinor := k.facts.amountMinor, outcome := Some(OutcomeOf(source)),
         payStatus := PayCaptured, trail := Capture(k, source).trail)
  {
  }

  lemma ParkShape(k: Core, cfg: PolicyConfig)
    ensures Park(k, cfg) == k.(parked := true, trail := Park(k, cfg).trail)
  {
  }

  lemma RetryFacts(k: Core, paid: bool)
    ensures Keeps(k, CoreRetry(k, paid))
  {
    hide Charge, Capture;
    Shapes(k, LinkCreated, ExecutorRetry);
    Shapes(Charge(k), LinkCreated, ExecutorRetry);
  }

  lemma LinkFacts(k: Core, link: LinkReply, paid: bool)
    ensures Keeps(k, CoreLink(k, link, paid))
  {
    hide SendLink, Capture;
    Shapes(k, link, ExecutorLink);
    Shapes(SendLink(k, link), link, ExecutorLink);
  }

  lemma ApprovedFacts(k: Core, i: Input)
    ensures Keeps(k, CoreApproved(k, i))
  {
    hide CoreRetry, CoreLink;
    RetryFacts(Jump(k, Executing, Executor), i.paid);
    LinkFacts(Jump(k, Executing, Executor), i.link, i.paid);
  }

  lemma VerifyingFacts(k: Core, cfg: PolicyConfig, i: Input)
    ensures Keeps(k, CoreVerifying(k, cfg, i))
  {
  }

  lemma FactsKept(k: Core, cfg: PolicyConfig, i: Input)
    ensures Keeps(k, CoreStep(k, cfg, i))
  {
    hide CoreVerdict, CoreApproved, CoreVerifying, Triggered, CoreCtx;
    if k.status == PolicyCheck && k.latest.Some? {
      var d := k.latest.value;
      var rule := Triggered(CoreCtx(k, d, cfg, i.usedElsewhere));
      VerdictFacts(Noted(k, PolicyEvaluated(VerdictOf(rule), rule)), d, VerdictOf(rule), cfg, i);
    } else if k.status == Approved {
      ApprovedFacts(k, i);
    } else if k.status == Verifying {
      VerifyingFacts(k, cfg, i);
    }
  }
}
