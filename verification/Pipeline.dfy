/** The pipeline: one FSM step of a case, and the loop that drives it (app/services/pipeline.py). */
module Pipeline {
  import opened Enums
  import opened Fsm
  import opened Strategies
  import opened PolicyRules
  import opened PolicyEngine
  import opened Gateway
  import opened Trail
  import opened Rows
  import opened CaseService
  import opened Verification
  import opened Decide
  import opened Executors

  const MAX_STEPS := 32

  /** What a step reads and writes. */
  datatype Sys = Sys(c: CaseRow, p: PaymentRow, now: int, g: GatewayState)

  datatype Deps = Deps(cfg: PolicyConfig, fastForward: bool, rng: Stream)

  /** What the world answers during one step: the model's replies, the link adapter's reply, and the
      number of RETRY_CHARGE rows the merchant's other cases hold. */
  datatype Env = Env(attempts: seq<Option<RawOutput>>, link: LinkReply, usedElsewhere: nat)

  /** A step either raises, and is rolled back, or ends with the flag `_step` returns. */
  datatype StepResult = Done(s: Sys, moved: bool) | Error

  function Age(now: int, p: PaymentRow): int { Max(0, now - p.createdAt) }

  function PolicyCtx(c: CaseRow, p: PaymentRow, d: Decision, now: int, cfg: PolicyConfig,
                     usedElsewhere: nat): PolicyContext
  {
    PolicyContext(
      c.status, p.status, false, p.amountMinor, c.retryCount, c.lastAttemptAt, c.diagnosis,
      d.diagnosisConfidence, d.strategyConfidence, Contacts(c), false, Age(now, p),
      Max(0, cfg.simulationBudget - (usedElsewhere + Charges(c))),
      if ActionOf(d.strategy).Some? then ActionOf(d.strategy).value else CreateEscalation,
      d.delayMinutes, None, None, false, cfg, now)
  }

  /** Guarantees an escalation row whenever the case parks for a human. */
  function EscalationEnsured(c: CaseRow, amountMinor: int, cfg: PolicyConfig): CaseRow {
    if |c.escalations| > 0 then c
    else
      var confidence := if c.confidence == Some(0) then None else c.confidence;
      var reason := EnsuredReason(c.diagnosis, confidence, amountMinor, c.retryCount, cfg);
      Emit(c.(escalations := [Escalation(reason, EscOpen)]), EscalationCreated(reason))
  }

  /** An absent (or zero) confidence counts as full. */
  function EnsuredReason(diagnosis: Option<DiagnosisClass>, confidence: Option<int>, amountMinor: int, retryCount: nat,
                         cfg: PolicyConfig): EscalationReason
  {
    if amountMinor >= cfg.approvalLimitMinor then AmountCeiling
    else if diagnosis == Some(UnknownCause) then UnknownDiagnosis
    else if (if confidence.Some? then confidence.value else 100) < cfg.confidenceFloor then LowConfidence
    else if retryCount >= cfg.maxRetries then MaxRetriesExhausted
    else LowConfidence
  }

  /** The two places that choose an escalation reason disagree exactly where an exhausted retry budget meets a
      confidence one of them does not see: zero, which only the parking side takes for full, or none at all
      under a floor above 100, which only the parking side compares. */
  lemma ReasonsDiffer(diagnosis: Option<DiagnosisClass>, confidence: Option<int>, amountMinor: int, retryCount: nat,
                      cfg: PolicyConfig)
    ensures
      var seen := if confidence == Some(0) then None else confidence;
      EnsuredReason(diagnosis, seen, amountMinor, retryCount, cfg)
        != ReasonFor(diagnosis, confidence, amountMinor, retryCount, cfg)
      <==>
      && amountMinor < cfg.approvalLimitMinor && diagnosis != Some(UnknownCause) && retryCount >= cfg.maxRetries
      && ((confidence == Some(0) && 0 < cfg.confidenceFloor <= 100) || (confidence.None? && cfg.confidenceFloor > 100))
  {
  }

  function EscalationForced(c: CaseRow): CaseRow {
    var diagnosis := if c.diagnosis.Some? then c.diagnosis.value else UnknownCause;
    var confidence := if c.confidence.Some? && c.confidence.value != 0 then c.confidence.value else 50;
    var d := Decision(FromFallback, diagnosis, confidence, S5, 90, None);
    Emit(c.(decisions := c.decisions + [d], strategy := Some(S5)), LadderOverride)
  }

  function Expired(e: Escalation): Escalation {
    if e.status == EscOpen then e.(status := EscExpired) else e
  }

  function Expire(es: seq<Escalation>): seq<Escalation> {
    seq(|es|, i requires 0 <= i < |es| => Expired(es[i]))
  }

  /** Risk scoring takes the logarithm of 1 + amount / 100000 (app/risk/engine.py:37-40), which raises unless that is
      positive. */
  predicate Scorable(amountMinor: int) { amountMinor > -100_000 }

  function StepDetected(c: CaseRow): CaseRow {
    Emit(Moved(c, Analyzing, System), RiskScored)
  }

  function StepAnalyzing(c: CaseRow, p: PaymentRow, now: int, cfg: PolicyConfig,
                         attempts: seq<Option<RawOutput>>): CaseRow
  {
    Moved(WithDecision(c, p, Age(now, p), cfg, attempts), Diagnosed, System)
  }

  /** Retry-ladder re-entry re-decides with the updated budget. */
  function StepDiagnosed(c: CaseRow, p: PaymentRow, now: int, cfg: PolicyConfig,
                         attempts: seq<Option<RawOutput>>): CaseRow
  {
    Moved(if c.retryCount > 0 then WithDecision(c, p, Age(now, p), cfg, attempts) else c, Planned, System)
  }

  function StepPolicyCheck(s: Sys, d: Decision, deps: Deps, env: Env): StepResult {
    var rule := Triggered(PolicyCtx(s.c, s.p, d, s.now, deps.cfg, env.usedElsewhere));
    StepVerdict(s.(c := Emit(s.c, PolicyEvaluated(VerdictOf(rule), rule))), d, VerdictOf(rule), deps, env)
  }

  function StepVerdict(s: Sys, d: Decision, verdict: Verdict, deps: Deps, env: Env): StepResult {
    match verdict
    case Allow => Done(s.(c := Moved(s.c, Approved, Policy)), true)
    case Escalate =>
      Done(s.(c := Moved(EscalationEnsured(s.c, s.p.amountMinor, deps.cfg), AwaitingApproval, Policy)), true)
    case Wait =>
      if !deps.fastForward then Done(s, false)
      else Done(s.(now := s.now + WaitMinutes(deps.cfg, s.c.retryCount), c := Moved(s.c, Planned, Policy)), true)
    case Block =>
      if d.origin == FromLlm then
        Done(s.(c := Moved(WithDecision(s.c, s.p, Age(s.now, s.p), deps.cfg, env.attempts), Planned, Policy)), true)
      else
        Done(s.(c := Moved(s.c, Blocked, Policy)), true)
  }

  /** How far a WAIT verdict fast-forwards the clock. */
  function WaitMinutes(cfg: PolicyConfig, retryCount: nat): int {
    Max(cfg.cooldownBaseMin * Pow2(retryCount), 1)
  }

  /** Where an approved case goes once its strategy has run. */
  function StepApproved(s: Sys, deps: Deps, env: Env): StepResult {
    var c := Moved(s.c, Executing, Executor);
    match LatestDecision(s.c)
    case None => Done(s.(c := Moved(c, AwaitingApproval, Executor)), true)
    case Some(d) =>
      match d.strategy
      case S6 => Done(s.(c := Moved(c, Verifying, Executor)), true)
      case S5 =>
        Done(s.(c := Moved(EscalationRaised(c, s.p.amountMinor, deps.cfg, s.now), AwaitingApproval, Executor)), true)
      case _ => StepAttempt(s.(c := c), d.strategy, deps, env)
  }

  /** S1 and S2 charge the saved token, S3 and S4 send a link. */
  function StepAttempt(s: Sys, strategy: Strategy, deps: Deps, env: Env): StepResult {
    if strategy == S1 || strategy == S2 then StepRetry(s, deps) else StepLink(s, deps, env.link)
  }

  function StepRetry(s: Sys, deps: Deps): StepResult {
    var paid := Latent(deps.rng, s.g, s.c.paymentId, CaptureProbability(s.c));
    var g := Rolled(deps.rng, s.g, s.c.paymentId, CaptureProbability(s.c));
    AfterAttempt(ChargeOutcome(s.c, s.p.amountMinor, s.now, paid), PaidRow(s.p, paid), s.now, g)
  }

  function StepLink(s: Sys, deps: Deps, link: LinkReply): StepResult {
    match link
    case LinkError => Error
    case LinkRefused =>
      Done(s.(c := Moved(LinkOutcome(s.c, s.p.amountMinor, link, s.now, false), Failed, Executor)), true)
    case LinkCreated => AfterAttempt(LinkOutcome(s.c, s.p.amountMinor, link, s.now, false), s.p, s.now, s.g)
    case NoRealAdapter =>
      var paid := Latent(deps.rng, s.g, s.c.paymentId, CaptureProbability(s.c));
      var g := Rolled(deps.rng, s.g, s.c.paymentId, CaptureProbability(s.c));
      AfterAttempt(LinkOutcome(s.c, s.p.amountMinor, link, s.now, paid), PaidRow(s.p, paid), s.now, g)
  }

  /** A captured payment needs nothing more; otherwise the attempt is stamped and goes to verification. */
  function AfterAttempt(c: CaseRow, p: PaymentRow, now: int, g: GatewayState): StepResult {
    if p.status == PayCaptured then Done(Sys(c, p, now, g), true)
    else Done(Sys(Moved(c.(lastAttemptAt := Some(now)), Verifying, Executor), p, now, g), true)
  }

  function StepVerifying(s: Sys, deps: Deps): StepResult {
    if s.p.status == PayCaptured then
      Done(s.(c := Captured(s.c, s.p.amountMinor, VerifierPoll)), true)
    else if LatestDecision(s.c).Some? && LatestDecision(s.c).value.strategy == S6 then
      Done(s.(c := ClosedOff(s.c)), true)
    else if s.c.diagnosis == Some(InstrumentInvalid) && Contacts(s.c) > 0 then
      Done(s.(c := ClosedOff(s.c)), true)
    else if Contacts(s.c) >= deps.cfg.contactCap7d then
      Done(s.(c := Moved(EscalationForced(s.c), Diagnosed, System)), true)
    else if !deps.fastForward then
      Done(s, false)
    else
      Done(s.(now := s.now + CooldownMinutes(s.c.retryCount), c := Moved(s.c, Diagnosed, System)), true)
  }

  /** The 48h approval window elapses in batch mode. */
  function StepAwaiting(s: Sys, deps: Deps): StepResult {
    if !deps.fastForward then Done(s, false)
    else
      var c := Moved(s.c, Escalated, Human);
      Done(s.(now := s.now + 48 * HOUR, c := c.(escalations := Expire(c.escalations))), true)
  }

  function Step(s: Sys, deps: Deps, env: Env): StepResult {
    match s.c.status
    case Detected => if Scorable(s.p.amountMinor) then Done(s.(c := StepDetected(s.c)), true) else Error
    case Analyzing => Done(s.(c := StepAnalyzing(s.c, s.p, s.now, deps.cfg, env.attempts)), true)
    case Diagnosed => Done(s.(c := StepDiagnosed(s.c, s.p, s.now, deps.cfg, env.attempts)), true)
    case Planned => Done(s.(c := Moved(s.c, PolicyCheck, System)), true)
    case PolicyCheck =>
      (match LatestDecision(s.c)
       case None => Error
       case Some(d) => StepPolicyCheck(s, d, deps, env))
    case Approved => StepApproved(s, deps, env)
    case Executing => Done(s.(c := Moved(s.c, Verifying, Executor)), true)
    case Verifying => StepVerifying(s, deps)
    case AwaitingApproval => StepAwaiting(s, deps)
    case _ => Done(s, false)
  }

  /** How the driving loop ended: on a state after some steps, or with an exception. */
  datatype Ending = Ended(s: Sys, steps: nat) | Crashed

  function Drive(s: Sys, deps: Deps, envs: nat -> Env, steps: nat): Ending
    requires steps <= MAX_STEPS
    decreases MAX_STEPS - steps
  {
    if IsTerminal(s.c.status) || steps == MAX_STEPS then Ended(s, steps)
    else
      match Step(s, deps, envs(steps))
      case Error => Crashed
      case Done(s', moved) => if moved then Drive(s', deps, envs, steps + 1) else Ended(s', steps + 1)
  }

  /** The loop, then the close of a case it left in flight. */
  function Advance(s: Sys, deps: Deps, envs: nat -> Env): Ending {
    match Drive(s, deps, envs, 0)
    case Crashed => Crashed
    case Ended(s', steps) =>
      if IsTerminal(s'.c.status) then Ended(s', steps)
      else if !CanTransition(s'.c.status, ClosedUnrecovered) then Crashed
      else Ended(s'.(c := ClosedOff(s'.c)), steps)
  }

  // ----- The imperative pipeline -----

  class VirtualClock {
    var now: int

    constructor (start: int)
      ensures now == start
    {
      now := start;
    }

    method AdvanceMinutes(minutes: int)
      modifies this
      ensures now == old(now) + minutes
    {
      now := now + minutes;
    }
  }

  method EnsureEscalation(case_: RecoveryCase, payment: Payment, cfg: PolicyConfig)
    modifies case_
    ensures case_.row == EscalationEnsured(old(case_.row), payment.row.amountMinor, cfg)
  {
    if |case_.row.escalations| > 0 {
      return;
    }
    var confidence := if case_.row.confidence == Some(0) then None else case_.row.confidence;
    var reason := EnsuredReason(case_.row.diagnosis, confidence, payment.row.amountMinor, case_.row.retryCount, cfg);
    case_.row := case_.row.(escalations := case_.row.escalations + [Escalation(reason, EscOpen)]);
    case_.row := case_.row.(trail := case_.row.trail + [EscalationCreated(reason)]);
  }

  method ForceEscalationDecision(case_: RecoveryCase)
    modifies case_
    ensures case_.row == EscalationForced(old(case_.row))
  {
    var diagnosis := if case_.row.diagnosis.Some? then case_.row.diagnosis.value else UnknownCause;
    var confidence :=
      if case_.row.confidence.Some? && case_.row.confidence.value != 0 then case_.row.confidence.value else 50;
    var d := Decision(FromFallback, diagnosis, confidence, S5, 90, None);
    case_.row := case_.row.(decisions := case_.row.decisions + [d]);
    case_.row := case_.row.(strategy := Some(S5));
    case_.row := case_.row.(trail := case_.row.trail + [LadderOverride]);
  }

  method ExpireOpenEscalations(case_: RecoveryCase)
    modifies case_
    ensures case_.row == old(case_.row).(escalations := Expire(old(case_.row.escalations)))
  {
    var rows := case_.row.escalations;
    for k := 0 to |rows|
      invariant |rows| == |old(case_.row.escalations)|
      invariant forall i | 0 <= i < |rows| ::
        rows[i] == if i < k then Expired(old(case_.row.escalations)[i]) else old(case_.row.escalations)[i]
    {
      if rows[k].status == EscOpen {
        rows := rows[k := rows[k].(status := EscExpired)];
      }
    }
    assert rows == Expire(case_.row.escalations);
    case_.row := case_.row.(escalations := rows);
  }

  /** A transition the caller knows to be legal. */
  method Go(case_: RecoveryCase, to: CaseStatus, actor: Actor)
    requires CanTransition(case_.row.status, to)
    modifies case_
    ensures case_.row == Moved(old(case_.row), to, actor)
  {
    var raised := Transition(case_, to, actor);
  }

  method DoPolicyCheck(case_: RecoveryCase, payment: Payment, gateway: SimulatedGateway, clock: VirtualClock,
                       d: Decision, cfg: PolicyConfig, fastForward: bool, env: Env)
    returns (moved: bool)
    requires case_.row.status == PolicyCheck && LatestDecision(case_.row) == Some(d)
    modifies case_, clock
    ensures StepPolicyCheck(old(Sys(case_.row, payment.row, clock.now, gateway.State())), d,
                            Deps(cfg, fastForward, gateway.rng), env)
            == Done(Sys(case_.row, payment.row, clock.now, gateway.State()), moved)
  {
    var verdict := DoEvaluate(case_, payment, clock, d, cfg, env.usedElsewhere);
    moved := DoVerdict(case_, payment, gateway, clock, d, verdict, cfg, fastForward, env);
  }

  method DoEvaluate(case_: RecoveryCase, payment: Payment, clock: VirtualClock, d: Decision, cfg: PolicyConfig,
                    usedElsewhere: nat)
    returns (verdict: Verdict)
    modifies case_
    ensures
      var rule := Triggered(PolicyCtx(old(case_.row), payment.row, d, clock.now, cfg, usedElsewhere));
      verdict == VerdictOf(rule) && case_.row == Emit(old(case_.row), PolicyEvaluated(verdict, rule))
  {
    var ctx := PolicyCtx(case_.row, payment.row, d, clock.now, cfg, usedElsewhere);
    var hits, rule;
    verdict, hits, rule := Evaluate(RULE_ORDER, ctx);
    CatalogOrder(ctx);
    case_.row := case_.row.(trail := case_.row.trail + [PolicyEvaluated(verdict, rule)]);
  }

  method DoVerdict(case_: RecoveryCase, payment: Payment, gateway: SimulatedGateway, clock: VirtualClock,
                   d: Decision, verdict: Verdict, cfg: PolicyConfig, fastForward: bool, env: Env)
    returns (moved: bool)
    requires case_.row.status == PolicyCheck
    modifies case_, clock
    ensures StepVerdict(old(Sys(case_.row, payment.row, clock.now, gateway.State())), d, verdict,
                        Deps(cfg, fastForward, gateway.rng), env)
            == Done(Sys(case_.row, payment.row, clock.now, gateway.State()), moved)
  {
    match verdict {
      case Allow =>
        Go(case_, Approved, Policy);
      case Escalate =>
        EnsureEscalation(case_, payment, cfg);
        Go(case_, AwaitingApproval, Policy);
      case Wait =>
        if !fastForward {
          return false;
        }
        clock.AdvanceMinutes(WaitMinutes(cfg, case_.row.retryCount));
        Go(case_, Planned, Policy);
      case Block =>
        if d.origin == FromLlm {
          DecideAndPersist(case_, payment, Age(clock.now, payment.row), cfg, env.attempts);
          Go(case_, Planned, Policy);
        } else {
          Go(case_, Blocked, Policy);
        }
    }
    moved := true;
  }

  method DoRetry(case_: RecoveryCase, payment: Payment, gateway: SimulatedGateway, clock: VirtualClock, deps: Deps)
    requires case_.row.status == Executing && deps.rng == gateway.rng
    modifies case_, payment, gateway
    ensures StepRetry(old(Sys(case_.row, payment.row, clock.now, gateway.State())), deps)
            == Done(Sys(case_.row, payment.row, clock.now, gateway.State()), true)
  {
    ExecuteRetryCharge(case_, payment, gateway, clock.now);
    StampAttempt(case_, payment, clock);
  }

  method DoLink(case_: RecoveryCase, payment: Payment, gateway: SimulatedGateway, clock: VirtualClock, deps: Deps,
                link: LinkReply)
    returns (raised: bool)
    requires case_.row.status == Executing && deps.rng == gateway.rng
    modifies case_, payment, gateway
    ensures StepLink(old(Sys(case_.row, payment.row, clock.now, gateway.State())), deps, link)
            == if raised then Error else Done(Sys(case_.row, payment.row, clock.now, gateway.State()), true)
  {
    raised := ExecuteSendLink(case_, payment, gateway, link, clock.now);
    if raised {
      return;
    }
    if link == LinkRefused {
      Go(case_, Failed, Executor);
      return;
    }
    StampAttempt(case_, payment, clock);
  }

  method StampAttempt(case_: RecoveryCase, payment: Payment, clock: VirtualClock)
    requires payment.row.status != PayCaptured ==> case_.row.status == Executing
    modifies case_
    ensures forall g ::
      AfterAttempt(old(case_.row), payment.row, clock.now, g) == Done(Sys(case_.row, payment.row, clock.now, g), true)
  {
    if payment.row.status == PayCaptured {
      return;
    }
    case_.row := case_.row.(lastAttemptAt := Some(clock.now));
    Go(case_, Verifying, Executor);
  }

  method DoApproved(case_: RecoveryCase, payment: Payment, gateway: SimulatedGateway, clock: VirtualClock,
                    cfg: PolicyConfig, fastForward: bool, env: Env)
    returns (raised: bool)
    requires case_.row.status == Approved
    modifies case_, payment, gateway
    ensures StepApproved(old(Sys(case_.row, payment.row, clock.now, gateway.State())),
                         Deps(cfg, fastForward, gateway.rng), env)
            == if raised then Error else Done(Sys(case_.row, payment.row, clock.now, gateway.State()), true)
  {
    var decision := LatestDecision(case_.row);
    Go(case_, Executing, Executor);
    raised := false;
    if decision.None? {
      Go(case_, AwaitingApproval, Executor);
    } else if decision.value.strategy == S6 {
      Go(case_, Verifying, Executor);
    } else if decision.value.strategy == S5 {
      ExecuteEscalation(case_, payment, cfg, clock.now);
      Go(case_, AwaitingApproval, Executor);
    } else {
      var deps := Deps(cfg, fastForward, gateway.rng);
      if decision.value.strategy == S1 || decision.value.strategy == S2 {
        DoRetry(case_, payment, gateway, clock, deps);
      } else {
        raised := DoLink(case_, payment, gateway, clock, deps, env.link);
      }
    }
  }

  method DoVerifying(case_: RecoveryCase, payment: Payment, gateway: SimulatedGateway, clock: VirtualClock,
                     cfg: PolicyConfig, fastForward: bool)
    returns (moved: bool)
    requires case_.row.status == Verifying
    modifies case_, payment, clock
    ensures StepVerifying(old(Sys(case_.row, payment.row, clock.now, gateway.State())),
                          Deps(cfg, fastForward, gateway.rng))
            == Done(Sys(case_.row, payment.row, clock.now, gateway.State()), moved)
  {
    var decision := LatestDecision(case_.row);
    if payment.row.status == PayCaptured {
      var raised := RecordCapture(case_, payment, VerifierPoll);
      return true;
    }
    if decision.Some? && decision.value.strategy == S6 {
      var raised := CloseUnrecovered(case_);
      return true;
    }
    if case_.row.diagnosis == Some(InstrumentInvalid) && Contacts(case_.row) > 0 {
      var raised := CloseUnrecovered(case_);
      return true;
    }
    if Contacts(case_.row) >= cfg.contactCap7d {
      ForceEscalationDecision(case_);
      Go(case_, Diagnosed, System);
      return true;
    }
    if !fastForward {
      return false;
    }
    clock.AdvanceMinutes(CooldownMinutes(case_.row.retryCount));
    Go(case_, Diagnosed, System);
    moved := true;
  }

  /** One step: the imperative counterpart of `Step`. */
  method DoStep(case_: RecoveryCase, payment: Payment, gateway: SimulatedGateway, clock: VirtualClock,
                cfg: PolicyConfig, fastForward: bool, env: Env)
    returns (raised: bool, moved: bool)
    modifies case_, payment, gateway, clock
    ensures Step(old(Sys(case_.row, payment.row, clock.now, gateway.State())), Deps(cfg, fastForward, gateway.rng), env)
            == if raised then Error else Done(Sys(case_.row, payment.row, clock.now, gateway.State()), moved)
  {
    raised, moved := false, true;
    match case_.row.status {
      case Detected =>
        Go(case_, Analyzing, System);
        if Scorable(payment.row.amountMinor) {
          case_.row := case_.row.(trail := case_.row.trail + [RiskScored]);
        } else {
          raised := true;
        }
      case Analyzing =>
        DecideAndPersist(case_, payment, Age(clock.now, payment.row), cfg, env.attempts);
        Go(case_, Diagnosed, System);
      case Diagnosed =>
        if case_.row.retryCount > 0 {
          DecideAndPersist(case_, payment, Age(clock.now, payment.row), cfg, env.attempts);
        }
        Go(case_, Planned, System);
      case Planned =>
        Go(case_, PolicyCheck, System);
      case PolicyCheck =>
        if LatestDecision(case_.row).None? {
          raised := true;
        } else {
          moved :=
            DoPolicyCheck(case_, payment, gateway, clock, LatestDecision(case_.row).value, cfg, fastForward, env);
        }
      case Approved =>
        raised := DoApproved(case_, payment, gateway, clock, cfg, fastForward, env);
      case Executing =>
        Go(case_, Verifying, Executor);
      case Verifying =>
        moved := DoVerifying(case_, payment, gateway, clock, cfg, fastForward);
      case AwaitingApproval =>
        if fastForward {
          clock.AdvanceMinutes(48 * HOUR);
          Go(case_, Escalated, Human);
          ExpireOpenEscalations(case_);
        } else {
          moved := false;
        }
      case _ =>
        moved := false;
    }
  }

  /** Runs a case until it is terminal, parked or out of steps, then closes it if it is still in flight. */
  method AdvanceCase(case_: RecoveryCase, payment: Payment, gateway: SimulatedGateway, clock: VirtualClock,
                     cfg: PolicyConfig, fastForward: bool, envs: nat -> Env)
    returns (raised: bool, ghost steps: nat)
    modifies case_, payment, gateway, clock
    ensures Advance(old(Sys(case_.row, payment.row, clock.now, gateway.State())), Deps(cfg, fastForward, gateway.rng),
                    envs)
            == if raised then Crashed else Ended(Sys(case_.row, payment.row, clock.now, gateway.State()), steps)
  {
    ghost var start := Sys(case_.row, payment.row, clock.now, gateway.State());
    ghost var deps := Deps(cfg, fastForward, gateway.rng);
    var taken := 0;
    var moved := true;
    while !IsTerminal(case_.row.status) && taken < MAX_STEPS && moved
      invariant taken <= MAX_STEPS
      invariant Drive(start, deps, envs, 0) ==
        var s := Sys(case_.row, payment.row, clock.now, gateway.State());
        if moved then Drive(s, deps, envs, taken) else Ended(s, taken)
      decreases MAX_STEPS - taken
    {
      raised, moved := DoStep(case_, payment, gateway, clock, cfg, fastForward, envs(taken));
      if raised {
        return true, taken;
      }
      taken := taken + 1;
    }
    steps := taken;
    raised := false;
    if !IsTerminal(case_.row.status) {
      raised := CloseUnrecovered(case_);
    }
  }
}
