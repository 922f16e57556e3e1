/** Where the decisions of a case come from, what they stamp on it, and what the trail tells of them
    (app/agent/decide.py:38-64, 160-217, app/services/pipeline.py:225-247, 265-288, 318-330, 365-403). */
module Decisions {
  import opened Enums
  import opened Fsm
  import opened Diagnosis
  import opened Strategies
  import opened PolicyRules
  import opened PolicyEngine
  import opened Gateway
  import opened Trail
  import opened Rows
  import opened CaseService
  import opened Verification
  import opened Decide
  import opened Executors
  import opened Pipeline
  import opened CaseRuns
  import opened Attempts

  // ----- Where a decision comes from -----

  /** Call `k` is the first of the two that brought a valid answer. */
  predicate FirstValid(attempts: seq<Option<RawOutput>>, k: nat) {
    && k < 2 && k < |attempts| && attempts[k].Some? && ValidOutput(attempts[k].value)
    && (k == 1 ==> !(attempts[0].Some? && ValidOutput(attempts[0].value)))
  }

  /** The decision is the answer, field by field. */
  predicate Says(raw: RawOutput, d: Decision) {
    && d.origin == FromLlm && ValidOutput(raw)
    && DIAGNOSIS_NAMES[raw.diagnosis.value] == d.diagnosis && raw.diagnosisConfidence == Some(d.diagnosisConfidence)
    && STRATEGY_NAMES[raw.strategy.value] == d.strategy && raw.strategyConfidence == Some(d.strategyConfidence)
    && raw.delayMinutes == d.delayMinutes
  }

  /** The decision is the table's, for the case and payment as they stand. */
  predicate Tabled(s: Sys, cfg: PolicyConfig, d: Decision) {
    && d.origin == FromFallback
    && (d.diagnosis, d.diagnosisConfidence) == Diagnose(s.p.errorReason, s.p.errorCode)
    && Choice(d.strategy, d.strategyConfidence, d.delayMinutes)
       == SelectStrategy(d.diagnosis, s.c.retryCount, s.c.hasToken, s.p.amountMinor, d.diagnosisConfidence,
                         if s.now > s.p.createdAt then s.now - s.p.createdAt else 0, false,
                         cfg.approvalLimitMinor, cfg.confidenceFloor)
  }

  /** The decision a step takes afresh: the first valid answer of the model's two, or else the table's. */
  predicate Taken(s: Sys, cfg: PolicyConfig, attempts: seq<Option<RawOutput>>, d: Decision) {
    if FirstValid(attempts, 0) then Says(attempts[0].value, d)
    else if FirstValid(attempts, 1) then Says(attempts[1].value, d)
    else Tabled(s, cfg, d)
  }

  /** The decision the ladder forces: ask a human, on the diagnosis the case has. */
  predicate Forced(c: CaseRow, d: Decision) {
    && d.origin == FromFallback && d.strategy == S5 && d.strategyConfidence == 90 && d.delayMinutes.None?
    && d.diagnosis == (if c.diagnosis.Some? then c.diagnosis.value else UnknownCause)
    && (if c.confidence.None? || c.confidence == Some(0) then d.diagnosisConfidence == 50
        else c.confidence == Some(d.diagnosisConfidence))
  }

  /** When a step decides afresh: on analysis, on re-entry after a retry, and when the gate blocks a model's. */
  predicate Decides(s: Sys, cfg: PolicyConfig, used: nat) {
    || s.c.status == Analyzing
    || (s.c.status == Diagnosed && s.c.retryCount > 0)
    || (&& s.c.status == PolicyCheck && LatestDecision(s.c).Some?
        && LatestDecision(s.c).value.origin == FromLlm
        && VerdictOf(Triggered(PolicyCtx(s.c, s.p, LatestDecision(s.c).value, s.now, cfg, used))) == Block)
  }

  /** When the ladder forces an escalation: the contact cap is reached and nothing else ends the verification. */
  predicate Forces(s: Sys, cfg: PolicyConfig) {
    && s.c.status == Verifying && s.p.status != PayCaptured
    && !(LatestDecision(s.c).Some? && LatestDecision(s.c).value.strategy == S6)
    && !(s.c.diagnosis == Some(InstrumentInvalid) && Contacts(s.c) > 0)
    && Contacts(s.c) >= cfg.contactCap7d
  }

  lemma ChosenIsTaken(s: Sys, cfg: PolicyConfig, attempts: seq<Option<RawOutput>>)
    ensures Taken(s, cfg, attempts,
                  Chosen(attempts, 0,
                         FallbackDecision(s.p, Pipeline.Age(s.now, s.p), s.c.hasToken, cfg, s.c.retryCount)))
  {
    hide ValidOutput, Diagnose, SelectStrategy;
    var fallback := FallbackDecision(s.p, Pipeline.Age(s.now, s.p), s.c.hasToken, cfg, s.c.retryCount);
    assert Tabled(s, cfg, fallback);
    hide FallbackDecision, Tabled, Says, FromOutput;
    assert Chosen(attempts, 2, fallback) == fallback;
    if FirstValid(attempts, 0) {
      AnswerSays(attempts[0].value);
    } else if FirstValid(attempts, 1) {
      AnswerSays(attempts[1].value);
    } else {
      assert Chosen(attempts, 1, fallback) == fallback;
    }
  }

  lemma AnswerSays(raw: RawOutput)
    requires ValidOutput(raw)
    ensures Says(raw, FromOutput(raw))
  {
  }

  // ----- Answers and decisions -----

  function NameOf(d: DiagnosisClass): string {
    match d
    case InsufficientFunds => "INSUFFICIENT_FUNDS"
    case CustomerAuthRequired => "CUSTOMER_AUTH_REQUIRED"
    case InstrumentInvalid => "INSTRUMENT_INVALID"
    case NetworkInfra => "NETWORK_INFRA"
    case BankDowntime => "BANK_DOWNTIME"
    case DuplicateSelfHealed => "DUPLICATE_SELF_HEALED"
    case UnknownCause => "UNKNOWN"
  }

  function PlanOf(s: Strategy): string {
    match s
    case S1 => "S1_IMMEDIATE_RETRY"
    case S2 => "S2_DELAYED_RETRY"
    case S3 => "S3_NOTIFY_WITH_LINK"
    case S4 => "S4_ALT_PAYMENT_FLOW"
    case S5 => "S5_HUMAN_ESCALATION"
    case S6 => "S6_STOP_RECOVERY"
  }

  /** The answer that proposes a decision. */
  function AnswerFor(d: Decision): RawOutput {
    RawOutput(Some(NameOf(d.diagnosis)), Some(PlanOf(d.strategy)), Some(d.diagnosisConfidence),
              Some(d.strategyConfidence), d.delayMinutes)
  }

  predicate Proposable(d: Decision) {
    d.origin == FromLlm && 0 <= d.diagnosisConfidence <= 100 && 0 <= d.strategyConfidence <= 100
  }

  /** Answers that pass validation and the model's decisions with both confidences from 0 to 100 are in one-to-one
      correspondence: each such decision is read from its answer, and from no other answer that is valid. */
  lemma AnswersAreDecisions(d: Decision, raw: RawOutput)
    ensures Proposable(d) ==> ValidOutput(AnswerFor(d)) && FromOutput(AnswerFor(d)) == d
    ensures ValidOutput(raw) ==> Proposable(FromOutput(raw)) && AnswerFor(FromOutput(raw)) == raw
  {
    NamesRead(d);
    if ValidOutput(raw) {
      NamesAreRead(raw.diagnosis.value, raw.strategy.value);
    }
  }

  lemma NamesRead(d: Decision)
    ensures NameOf(d.diagnosis) in DIAGNOSIS_NAMES && DIAGNOSIS_NAMES[NameOf(d.diagnosis)] == d.diagnosis
    ensures PlanOf(d.strategy) in STRATEGY_NAMES && STRATEGY_NAMES[PlanOf(d.strategy)] == d.strategy
  {
  }

  lemma NamesAreRead(diagnosis: string, strategy: string)
    ensures diagnosis in DIAGNOSIS_NAMES ==> NameOf(DIAGNOSIS_NAMES[diagnosis]) == diagnosis
    ensures strategy in STRATEGY_NAMES ==> PlanOf(STRATEGY_NAMES[strategy]) == strategy
  {
  }

  // ----- What a decision leaves -----

  /** The events of the trail that tell a decision, oldest first. */
  function Told(t: seq<Event>): seq<Event> {
    if |t| == 0 then []
    else
      var before, e := Told(t[..|t| - 1]), t[|t| - 1];
      if IsDecision(e) then before + [e] else before
  }

  lemma ToldAppend()
    ensures forall t: seq<Event>, e: Event {:trigger Told(t + [e])} ::
      Told(t + [e]) == Told(t) + if IsDecision(e) then [e] else []
  {
    forall t: seq<Event>, e: Event
      ensures Told(t + [e]) == Told(t) + if IsDecision(e) then [e] else []
    {
      assert (t + [e])[..|t|] == t;
    }
  }

  /** Nothing was decided. */
  ghost predicate NoDecision(c: CaseRow, c': CaseRow) {
    && c'.decisions == c.decisions && Told(c'.trail) == Told(c.trail)
    && c'.diagnosis == c.diagnosis && c'.confidence == c.confidence && c'.strategy == c.strategy
  }

  /** One decision was appended, told and stamped; a forced one stamps the strategy only. */
  ghost predicate Decided(c: CaseRow, c': CaseRow, d: Decision, forced: bool) {
    && c'.decisions == c.decisions + [d] && c'.strategy == Some(d.strategy)
    && Told(c'.trail) == Told(c.trail) + [
         if forced then LadderOverride
         else DecisionRecorded(d.origin, d.diagnosis, d.strategy, d.diagnosisConfidence, c.retryCount)]
    && c'.diagnosis == (if forced then c.diagnosis else Some(d.diagnosis))
    && c'.confidence == (if forced then c.confidence else Some(d.diagnosisConfidence))
  }

  lemma NothingTwice(a: CaseRow, b: CaseRow, c: CaseRow)
    ensures NoDecision(a, a)
    ensures NoDecision(a, b) && NoDecision(b, c) ==> NoDecision(a, c)
  {
  }

  lemma DecidedThenMoved(c: CaseRow, c': CaseRow, d: Decision, forced: bool, to: CaseStatus, actor: Actor)
    requires Decided(c, c', d, forced)
    ensures Decided(c, Moved(c', to, actor), d, forced)
  {
    hide Told;
    ToldAppend();
  }

  lemma NotedThenDecided(a: CaseRow, b: CaseRow, c: CaseRow, d: Decision, forced: bool)
    requires NoDecision(a, b) && a.retryCount == b.retryCount && Decided(b, c, d, forced)
    ensures Decided(a, c, d, forced)
  {
  }

  lemma QuietChanges(c: CaseRow, amount: int, cfg: PolicyConfig, source: CaptureSource, e: Event)
    ensures forall to, actor :: NoDecision(c, Moved(c, to, actor))
    ensures NoDecision(c, ClosedOff(c)) && NoDecision(c, Captured(c, amount, source))
    ensures NoDecision(c, EscalationEnsured(c, amount, cfg))
    ensures !IsDecision(e) ==> NoDecision(c, Emit(c, e))
  {
    hide Told, EnsuredReason;
    ToldAppend();
  }

  lemma AttemptDecidesNothing(c: CaseRow, amount: int, link: LinkReply, cfg: PolicyConfig, now: int, paid: bool)
    ensures NoDecision(c, ChargeOutcome(c, amount, now, paid)) && NoDecision(c, LinkOutcome(c, amount, link, now, paid))
    ensures NoDecision(c, EscalationRaised(c, amount, cfg, now))
  {
    hide Told, CountKind, ChargeRetried, LinkSent, EscalationRaised;
    ChargeLeaves(c, now);
    LinkLeaves(c, link, now);
    EscalationLeaves(c, amount, cfg, now);
    var charged, linked, raised := ChargeRetried(c, now), LinkSent(c, link, now), EscalationRaised(c, amount, cfg, now);
    TwoUntold(c.trail, ActionStarted(RetryCharge, Simulated), ActionFinished(true));
    TwoUntold(c.trail, ActionStarted(CreateEscalation, Outbox), ActionFinished(true));
    var started := ActionStarted(SendRecoveryLink, if link == NoRealAdapter then Simulated else RealRzp);
    TwoUntold(c.trail + [started], NotificationsQueued, ActionFinished(true));
    ToldAppend();
  }

  lemma TwoUntold(t: seq<Event>, d: Event, e: Event)
    requires !IsDecision(d) && !IsDecision(e)
    ensures Told(t + [d, e]) == Told(t)
  {
    hide Told;
    ToldAppend();
    assert t + [d, e] == t + [d] + [e];
  }

  lemma StampDecides(s: Sys, cfg: PolicyConfig, attempts: seq<Option<RawOutput>>) returns (d: Decision)
    ensures Taken(s, cfg, attempts, d)
    ensures Decided(s.c, WithDecision(s.c, s.p, Pipeline.Age(s.now, s.p), cfg, attempts), d, false)
  {
    hide Told, Taken, Chosen, FallbackDecision;
    d := Chosen(attempts, 0, FallbackDecision(s.p, Pipeline.Age(s.now, s.p), s.c.hasToken, cfg, s.c.retryCount));
    ChosenIsTaken(s, cfg, attempts);
    ToldAppend();
  }

  lemma ForceDecides(c: CaseRow) returns (d: Decision)
    ensures Forced(c, d) && Decided(c, EscalationForced(c), d, true)
  {
    hide Told;
    ToldAppend();
    d := EscalationForced(c).decisions[|c.decisions|];
  }

  // ----- One step -----

  /** What a step decides. */
  ghost predicate StepDecided(s: Sys, s': Sys, cfg: PolicyConfig, env: Env) {
    if Decides(s, cfg, env.usedElsewhere) then
      exists d :: Taken(s, cfg, env.attempts, d) && Decided(s.c, s'.c, d, false)
    else if Forces(s, cfg) then
      exists d :: Forced(s.c, d) && Decided(s.c, s'.c, d, true)
    else NoDecision(s.c, s'.c)
  }

  lemma GateDecides(s: Sys, d: Decision, deps: Deps, env: Env)
    requires s.c.status == PolicyCheck && LatestDecision(s.c) == Some(d)
    ensures StepPolicyCheck(s, d, deps, env).Done?
    ensures StepDecided(s, StepPolicyCheck(s, d, deps, env).s, deps.cfg, env)
  {
    hide NoDecision, Decided, Taken, Triggered, PolicyCtx, Moved, WithDecision, EscalationEnsured, Emit;
    var rule := Triggered(PolicyCtx(s.c, s.p, d, s.now, deps.cfg, env.usedElsewhere));
    var noted := Emit(s.c, PolicyEvaluated(VerdictOf(rule), rule));
    QuietChanges(s.c, s.p.amountMinor, deps.cfg, VerifierPoll, PolicyEvaluated(VerdictOf(rule), rule));
    QuietChanges(noted, s.p.amountMinor, deps.cfg, VerifierPoll, RiskScored);
    NotedStands(s.c, PolicyEvaluated(VerdictOf(rule), rule));
    if VerdictOf(rule) == Block && d.origin == FromLlm {
      var d' := StampDecides(s.(c := noted), deps.cfg, env.attempts);
      var stamped := WithDecision(noted, s.p, Pipeline.Age(s.now, s.p), deps.cfg, env.attempts);
      DecidedThenMoved(noted, stamped, d', false, Planned, Policy);
      NotedThenDecided(s.c, noted, Moved(stamped, Planned, Policy), d', false);
      SameTaken(s, noted, deps.cfg, env.attempts, d');
    } else {
      var parked := EscalationEnsured(noted, s.p.amountMinor, deps.cfg);
      QuietChanges(parked, s.p.amountMinor, deps.cfg, VerifierPoll, RiskScored);
      NothingTwice(noted, parked, Moved(parked, AwaitingApproval, Policy));
      NothingTwice(s.c, noted, StepPolicyCheck(s, d, deps, env).s.c);
    }
  }

  lemma NotedStands(c: CaseRow, e: Event)
    ensures
      var noted := Emit(c, e);
      noted.retryCount == c.retryCount && noted.hasToken == c.hasToken && noted.decisions == c.decisions
  {
  }

  lemma SameTaken(s: Sys, c: CaseRow, cfg: PolicyConfig, attempts: seq<Option<RawOutput>>, d: Decision)
    requires c.retryCount == s.c.retryCount && c.hasToken == s.c.hasToken
    ensures Taken(s.(c := c), cfg, attempts, d) == Taken(s, cfg, attempts, d)
  {
    hide Says, FirstValid, Diagnose, SelectStrategy;
  }

  lemma PlanningDecides(s: Sys, deps: Deps, env: Env)
    requires s.c.status in {Detected, Analyzing, Diagnosed} && Step(s, deps, env).Done?
    ensures StepDecided(s, Step(s, deps, env).s, deps.cfg, env)
  {
    hide NoDecision, Decided, Taken, Moved, WithDecision, Emit, StepPolicyCheck, StepVerdict, Triggered, PolicyCtx;
    QuietChanges(s.c, s.p.amountMinor, deps.cfg, VerifierPoll, RiskScored);
    if Decides(s, deps.cfg, env.usedElsewhere) {
      var d := StampDecides(s, deps.cfg, env.attempts);
      var stamped := WithDecision(s.c, s.p, Pipeline.Age(s.now, s.p), deps.cfg, env.attempts);
      DecidedThenMoved(s.c, stamped, d, false, Diagnosed, System);
      DecidedThenMoved(s.c, stamped, d, false, Planned, System);
    } else {
      var moved := Moved(s.c, Analyzing, System);
      QuietChanges(moved, s.p.amountMinor, deps.cfg, VerifierPoll, RiskScored);
      NothingTwice(s.c, moved, Emit(moved, RiskScored));
    }
  }

  lemma ApprovedDecidesNothing(s: Sys, deps: Deps, env: Env)
    requires s.c.status == Approved && StepApproved(s, deps, env).Done?
    ensures NoDecision(s.c, StepApproved(s, deps, env).s.c)
  {
    hide NoDecision, Moved, ChargeOutcome, LinkOutcome, EscalationRaised, Latent, Rolled, CaptureProbability;
    var c, amount := Moved(s.c, Executing, Executor), s.p.amountMinor;
    var paid := Latent(deps.rng, s.g, c.paymentId, CaptureProbability(c));
    QuietChanges(s.c, amount, deps.cfg, VerifierPoll, RiskScored);
    QuietChanges(c, amount, deps.cfg, VerifierPoll, RiskScored);
    AttemptDecidesNothing(c, amount, env.link, deps.cfg, s.now, paid);
    AttemptDecidesNothing(c, amount, env.link, deps.cfg, s.now, false);
    var raised := EscalationRaised(c, amount, deps.cfg, s.now);
    AfterDecidesNothing(s.c, c, raised, s.now);
    AfterDecidesNothing(s.c, c, ChargeOutcome(c, amount, s.now, paid), s.now);
    AfterDecidesNothing(s.c, c, LinkOutcome(c, amount, env.link, s.now, paid), s.now);
    AfterDecidesNothing(s.c, c, LinkOutcome(c, amount, env.link, s.now, false), s.now);
    NothingTwice(s.c, c, Moved(c, AwaitingApproval, Executor));
    NothingTwice(s.c, c, Moved(c, Verifying, Executor));
  }

  lemma AfterDecidesNothing(c: CaseRow, moved: CaseRow, tried: CaseRow, now: int)
    requires NoDecision(c, moved) && NoDecision(moved, tried)
    ensures NoDecision(c, tried)
    ensures forall to, actor :: NoDecision(c, Moved(tried, to, actor))
    ensures forall to, actor :: NoDecision(c, Moved(tried.(lastAttemptAt := Some(now)), to, actor))
  {
    hide Told;
    ToldAppend();
  }

  lemma VerifyingDecides(s: Sys, deps: Deps, env: Env)
    requires s.c.status == Verifying
    ensures StepDecided(s, StepVerifying(s, deps).s, deps.cfg, env)
  {
    hide NoDecision, Decided, Moved, EscalationForced, Captured, ClosedOff, Contacts;
    QuietChanges(s.c, s.p.amountMinor, deps.cfg, VerifierPoll, RiskScored);
    NothingTwice(s.c, s.c, s.c);
    if Forces(s, deps.cfg) {
      var d := ForceDecides(s.c);
      DecidedThenMoved(s.c, EscalationForced(s.c), d, true, Diagnosed, System);
    }
  }

  /** A step decides exactly where told: afresh, or forced by the ladder; it appends the decision, stamps it and tells
      it. */
  lemma StepDecides(s: Sys, deps: Deps, env: Env)
    requires Step(s, deps, env).Done?
    ensures StepDecided(s, Step(s, deps, env).s, deps.cfg, env)
  {
    hide NoDecision, Decided, Taken, Moved, StepApproved, StepVerifying, StepPolicyCheck;
    match s.c.status
    case Approved => ApprovedDecidesNothing(s, deps, env);
    case PolicyCheck => GateDecides(s, LatestDecision(s.c).value, deps, env);
    case Verifying => VerifyingDecides(s, deps, env);
    case Detected | Analyzing | Diagnosed => PlanningDecides(s, deps, env);
    case AwaitingApproval => AwaitingDecidesNothing(s, deps);
    case _ =>
      QuietChanges(s.c, s.p.amountMinor, deps.cfg, VerifierPoll, RiskScored);
      NothingTwice(s.c, s.c, s.c);
  }

  lemma AwaitingDecidesNothing(s: Sys, deps: Deps)
    ensures NoDecision(s.c, StepAwaiting(s, deps).s.c)
  {
    hide Told, Expire;
    ToldAppend();
  }

  // ----- Runs -----

  /** A capture webhook stamps the diagnosis and stops recovery, without a decision. */
  ghost predicate Restamped(c: CaseRow, c': CaseRow) {
    && c'.decisions == c.decisions && Told(c'.trail) == Told(c.trail) && c'.confidence == c.confidence
    && c'.status == Recovered && c'.diagnosis == Some(DuplicateSelfHealed) && c'.strategy == Some(S6)
  }

  lemma OthersDecideNothing(s: Sys, cfg: PolicyConfig, rng: Stream, e: CaseEvent)
    requires !e.WorkerStep?
    ensures
      var c' := Apply(s, cfg, rng, e).c;
      if e.CaptureWebhook? && CanTransition(s.c.status, Recovered) then Restamped(s.c, c') else NoDecision(s.c, c')
  {
    hide Told, Rolled;
    ToldAppend();
  }

  /** The event takes the decision `d`, afresh or forced. */
  ghost predicate Takes(s: Sys, cfg: PolicyConfig, rng: Stream, e: CaseEvent, d: Decision, forced: bool) {
    && e.WorkerStep? && Step(s, Deps(cfg, e.fastForward, rng), e.env).Done?
    && if forced then Forces(s, cfg) && Forced(s.c, d)
       else Decides(s, cfg, e.env.usedElsewhere) && Taken(s, cfg, e.env.attempts, d)
  }

  lemma ApplyDecides(s: Sys, cfg: PolicyConfig, rng: Stream, e: CaseEvent)
    ensures
      var c' := Apply(s, cfg, rng, e).c;
      || NoDecision(s.c, c')
      || (e.CaptureWebhook? && Restamped(s.c, c'))
      || exists d, forced :: Takes(s, cfg, rng, e, d, forced) && Decided(s.c, c', d, forced)
  {
    hide NoDecision, Restamped, Decided, Taken, Forced, Decides, Forces, Step;
    NothingTwice(s.c, s.c, s.c);
    if e.WorkerStep? {
      if Step(s, Deps(cfg, e.fastForward, rng), e.env).Done? {
        StepDecides(s, Deps(cfg, e.fastForward, rng), e.env);
      }
    } else {
      OthersDecideNothing(s, cfg, rng, e);
    }
  }

  /** Event `n` of the run took decision `i`. */
  ghost predicate TakenAt(s: Sys, cfg: PolicyConfig, rng: Stream, es: seq<CaseEvent>, n: nat, i: nat, d: Decision) {
    && n < |es| && |Run(s, cfg, rng, es[..n]).c.decisions| == i
    && exists forced :: Takes(Run(s, cfg, rng, es[..n]), cfg, rng, es[n], d, forced)
  }

  /** Over every run, each decision was taken by a step of its own, as things then stood: it is the first valid of the
      model's two answers, field by field, or without one the table's; or the ladder forced it. */
  lemma {:induction false} EveryDecisionHasItsStep(s: Sys, prior: nat, cfg: PolicyConfig, rng: Stream,
                                                   es: seq<CaseEvent>, i: nat) returns (n: nat)
    requires FreshCase(s.c, prior) && i < |Run(s, cfg, rng, es).c.decisions|
    ensures TakenAt(s, cfg, rng, es, n, i, Run(s, cfg, rng, es).c.decisions[i])
  {
    hide Apply, Takes, Told;
    n := 0;
    if |es| > 0 {
      var m := |es| - 1;
      var before := Run(s, cfg, rng, es[..m]);
      ApplyDecides(before, cfg, rng, es[m]);
      if i < |before.c.decisions| {
        n := EveryDecisionHasItsStep(s, prior, cfg, rng, es[..m], i);
        assert es[..m][..n] == es[..n] && es[..m][n] == es[n];
      } else {
        n := m;
      }
    }
  }

  // ----- Stamps -----

  /** The newest DECISION_RECORDED among events that tell decisions. */
  function Recorded(told: seq<Event>): Option<Event> {
    if |told| == 0 then None
    else if told[|told| - 1].DecisionRecorded? then Some(told[|told| - 1])
    else Recorded(told[..|told| - 1])
  }

  lemma RecordedAppend(told: seq<Event>, e: Event)
    ensures Recorded(told + [e]) == if e.DecisionRecorded? then Some(e) else Recorded(told)
  {
    assert (told + [e])[..|told|] == told;
  }

  /** The event tells the decision. */
  predicate Tells(e: Event, d: Decision) {
    if e.DecisionRecorded? then
      && e.origin == d.origin && e.diagnosis == d.diagnosis
      && e.chosen == d.strategy && e.confidence == d.diagnosisConfidence
    else e.LadderOverride? && d.origin == FromFallback && d.strategy == S5 && d.strategyConfidence == 90
  }

  /** Trail, decisions and stamped columns of a case agree. */
  ghost predicate Agree(c: CaseRow) {
    var told, newest := Told(c.trail), Recorded(Told(c.trail));
    && |told| == |c.decisions| && (forall i | 0 <= i < |told| :: Tells(told[i], c.decisions[i]))
    && (newest.Some? ==> newest.value.DecisionRecorded?)
    && c.confidence == (if newest.Some? then Some(newest.value.confidence) else None)
    && (|| (c.status == Recovered && c.diagnosis == Some(DuplicateSelfHealed) && c.strategy == Some(S6))
        || (&& c.diagnosis == (if newest.Some? then Some(newest.value.diagnosis) else None)
            && c.strategy == (if |c.decisions| > 0 then Some(c.decisions[|c.decisions| - 1].strategy) else None)))
  }

  lemma DecidedAgrees(c: CaseRow, c': CaseRow, d: Decision, forced: bool)
    requires Agree(c) && c.status != Recovered && Decided(c, c', d, forced)
    requires forced ==> Forced(c, d)
    ensures Agree(c')
  {
    hide Told, Recorded;
    var e := if forced then LadderOverride
             else DecisionRecorded(d.origin, d.diagnosis, d.strategy, d.diagnosisConfidence, c.retryCount);
    RecordedAppend(Told(c.trail), e);
  }

  lemma RecoveredStays(s: Sys, cfg: PolicyConfig, rng: Stream, e: CaseEvent)
    requires s.c.status == Recovered
    ensures Apply(s, cfg, rng, e).c.status == Recovered
  {
    hide Rolled;
  }

  lemma RecoveredIsDecided(s: Sys, cfg: PolicyConfig, e: CaseEvent)
    requires s.c.status == Recovered
    ensures e.WorkerStep? ==> !Decides(s, cfg, e.env.usedElsewhere) && !Forces(s, cfg)
  {
  }

  lemma ApplyAgrees(s: Sys, cfg: PolicyConfig, rng: Stream, e: CaseEvent)
    requires Agree(s.c)
    ensures Agree(Apply(s, cfg, rng, e).c)
  {
    hide Apply, Told, Recorded, Decided, Forced, Taken, Decides, Forces;
    ApplyDecides(s, cfg, rng, e);
    if s.c.status == Recovered {
      RecoveredStays(s, cfg, rng, e);
      RecoveredIsDecided(s, cfg, e);
    }
    if d, forced :| Takes(s, cfg, rng, e, d, forced) && Decided(s.c, Apply(s, cfg, rng, e).c, d, forced) {
      DecidedAgrees(s.c, Apply(s, cfg, rng, e).c, d, forced);
    }
  }

  /** Over every run: the i-th event that tells a decision tells the i-th decision; the confidence of a case is that of
      the newest DECISION_RECORDED, as is its diagnosis, and its strategy is that of the newest decision, forced or not,
      unless a capture webhook stamped diagnosis and strategy. */
  lemma {:induction false} CasesAreStamped(s: Sys, prior: nat, cfg: PolicyConfig, rng: Stream, es: seq<CaseEvent>)
    requires FreshCase(s.c, prior)
    ensures Agree(Run(s, cfg, rng, es).c)
  {
    hide Apply;
    if |es| == 0 {
      FreshAgrees(s, prior);
    } else {
      hide Agree;
      CasesAreStamped(s, prior, cfg, rng, es[..|es| - 1]);
      ApplyAgrees(Run(s, cfg, rng, es[..|es| - 1]), cfg, rng, es[|es| - 1]);
    }
  }

  lemma FreshAgrees(s: Sys, prior: nat)
    requires FreshCase(s.c, prior)
    ensures Agree(s.c)
  {
    assert [CaseCreated][..0] == [];
  }
}
