/** With the decision table as the only source the ladder terminates under any config, even without the
    step budget; and how the driving loop ends when it is left before a terminal status
    (app/services/pipeline.py:365-436). */
module Termination {
  import opened Enums
  import opened Fsm
  import opened Strategies
  import opened PolicyRules
  import opened PolicyEngine
  import opened Gateway
  import opened Trail
  import opened Rows
  import opened CaseService
  import opened Verification
  import opened Decide
  import opened Executors
  import opened Pipeline
  import opened CaseRuns
  import opened Core
  import opened Limits
  import opened TableGate
  import opened Waiting
  import opened BatchOutcome

  /** Between steps of a batch run: there is a decision, and an approved attempt was vouched for. */
  ghost predicate Grounded(k: Core, cfg: PolicyConfig) {
    && k.status != Executing && (k.status == Detected ==> Scorable(k.facts.amountMinor))
    && (k.status != Detected && k.status != Analyzing ==> k.latest.Some?)
    && (k.lastAttemptAt.Some? ==> k.lastAttemptAt.value <= k.now)
    && (k.status == Approved ==>
          && k.payStatus == PayFailed
          && (Retries(k.latest) ==> k.retryCount < cfg.maxRetries)
          && (Links(k.latest) ==> k.Contacts() < cfg.contactCap7d))
  }

  /** Retries and contacts still allowed. */
  function Chances(k: Core, cfg: PolicyConfig): nat {
    Max(0, cfg.maxRetries - k.retryCount) + Max(0, cfg.contactCap7d - k.Contacts())
  }

  /** How far the status is from using up a chance; a pending cooldown costs one more round of the gate. */
  function Phase(k: Core, cfg: PolicyConfig): nat {
    match k.status
    case Detected => 15
    case Analyzing => 14
    case Diagnosed => 13
    case Planned => if MustWait(k, cfg) then 12 else 10
    case PolicyCheck => if MustWait(k, cfg) then 11 else 9
    case Approved => 8
    case Verifying => if k.latest.Some? && k.latest.value.strategy == S6 then 1 else 14
    case AwaitingApproval => 1
    case _ => 0
  }

  /** The model's decision may be blocked once more before another is asked for. */
  function Revisable(k: Core): nat { if k.latest.Some? && k.latest.value.origin == FromLlm then 16 else 0 }

  function Measure(k: Core, cfg: PolicyConfig): nat { 16 * Chances(k, cfg) + Phase(k, cfg) + Revisable(k) }

  /** A step as the batch takes it: clock fast-forwarded, the link adapter not raising. */
  predicate BatchStep(i: Input) { i.fastForward && i.link != LinkError }

  /** How far an answer of the model can set the case back. */
  function SetBack(i: Input): nat { if i.proposal.origin == FromLlm then 16 else 0 }

  ghost predicate Lower(k: Core, cfg: PolicyConfig, next: Core) {
    Grounded(next, cfg) && Measure(next, cfg) < Measure(k, cfg)
  }

  ghost predicate Descends(k: Core, cfg: PolicyConfig, i: Input, r: CoreResult) {
    r.CoreDone? && r.moved && Grounded(r.k, cfg) && Measure(r.k, cfg) < Measure(k, cfg) + SetBack(i)
  }

  lemma GateTells(k: Core, d: Decision, cfg: PolicyConfig, used: nat)
    ensures
      var verdict := VerdictOf(Triggered(CoreCtx(k, d, cfg, used)));
      && (verdict == Allow ==> k.payStatus == PayFailed)
      && (verdict == Wait ==> Retries(Some(d)) && k.lastAttemptAt.Some?
                              && k.now - k.lastAttemptAt.value < GateCooldown(cfg, k.retryCount))
  {
    hide GateCooldown;
  }

  /** The gate's answers that leave the planning loop. */
  lemma ExitDescends(k: Core, cfg: PolicyConfig, next: Core)
    requires Grounded(k, cfg) && k.status == PolicyCheck
    requires next == k.(status := next.status, parked := next.parked, trail := next.trail)
    requires next.status in {AwaitingApproval, Blocked, Approved}
    requires next.status == Approved ==> Grounded(next, cfg)
    ensures Lower(k, cfg, next)
  {
    hide GateCooldown;
  }

  lemma WaitDescends(k: Core, cfg: PolicyConfig, next: Core)
    requires Grounded(k, cfg) && k.status == PolicyCheck && MustWait(k, cfg)
    requires next == k.(status := Planned, now := k.now + WaitMinutes(cfg, k.retryCount), trail := next.trail)
    ensures Lower(k, cfg, next)
  {
    hide GateCooldown, WaitMinutes;
    WaitCoversCooldown(cfg, k.retryCount);
    AtLeastOne(cfg, k.retryCount);
  }

  /** A blocked decision of the model is replaced. */
  lemma RedecisionDescends(k: Core, cfg: PolicyConfig, next: Core, i: Input)
    requires Grounded(k, cfg) && k.status == PolicyCheck && k.latest.Some? && k.latest.value.origin == FromLlm
    requires next == k.(status := Planned, latest := Some(i.proposal), diagnosis := next.diagnosis,
                        confidence := next.confidence, trail := next.trail)
    ensures Grounded(next, cfg) && Measure(next, cfg) < Measure(k, cfg) + SetBack(i)
  {
    hide GateCooldown, MustWait;
  }

  lemma BlockDescends(k: Core, noted: Core, d: Decision, cfg: PolicyConfig, i: Input)
    requires Grounded(k, cfg) && BatchStep(i) && k.status == PolicyCheck && k.latest == Some(d)
    requires noted == k.(trail := noted.trail)
    ensures Descends(k, cfg, i, CoreVerdict(noted, d, Block, cfg, i))
  {
    hide MustWait, Measure;
    if d.origin == FromLlm {
      RedecisionDescends(k, cfg, Jump(Choose(noted, i.proposal), Planned, Policy), i);
    } else {
      ExitDescends(k, cfg, Jump(noted, Blocked, Policy));
    }
  }

  lemma AllowDescends(k: Core, noted: Core, d: Decision, cfg: PolicyConfig, i: Input)
    requires Grounded(k, cfg) && BatchStep(i) && k.status == PolicyCheck && k.latest == Some(d)
    requires noted == k.(trail := noted.trail) && Grounded(k.(status := Approved), cfg)
    ensures Descends(k, cfg, i, CoreVerdict(noted, d, Allow, cfg, i))
  {
    hide MustWait, Measure;
    ExitDescends(k, cfg, Jump(noted, Approved, Policy));
  }

  lemma EscalateDescends(k: Core, noted: Core, d: Decision, cfg: PolicyConfig, i: Input)
    requires Grounded(k, cfg) && BatchStep(i) && k.status == PolicyCheck && k.latest == Some(d)
    requires noted == k.(trail := noted.trail)
    ensures Descends(k, cfg, i, CoreVerdict(noted, d, Escalate, cfg, i))
  {
    hide MustWait, Park, Measure;
    ParkShape(noted, cfg);
    ExitDescends(k, cfg, Jump(Park(noted, cfg), AwaitingApproval, Policy));
  }

  lemma WaitingDescends(k: Core, noted: Core, d: Decision, cfg: PolicyConfig, i: Input)
    requires Grounded(k, cfg) && BatchStep(i) && k.status == PolicyCheck && k.latest == Some(d)
    requires noted == k.(trail := noted.trail) && MustWait(k, cfg)
    ensures Descends(k, cfg, i, CoreVerdict(noted, d, Wait, cfg, i))
  {
    hide MustWait, Measure, WaitMinutes;
    WaitDescends(k, cfg, Jump(noted, Planned, Policy).(now := noted.now + WaitMinutes(cfg, noted.retryCount)));
  }

  lemma VerdictDescends(k: Core, noted: Core, d: Decision, verdict: Verdict, cfg: PolicyConfig, i: Input)
    requires Grounded(k, cfg) && BatchStep(i) && k.status == PolicyCheck && k.latest == Some(d)
    requires noted == k.(trail := noted.trail)
    requires verdict == Allow ==> Grounded(k.(status := Approved), cfg)
    requires verdict == Wait ==> MustWait(k, cfg)
    ensures Descends(k, cfg, i, CoreVerdict(noted, d, verdict, cfg, i))
  {
    hide MustWait, Measure, CoreVerdict, Descends, Grounded;
    match verdict
    case Allow => AllowDescends(k, noted, d, cfg, i);
    case Escalate => EscalateDescends(k, noted, d, cfg, i);
    case Wait => WaitingDescends(k, noted, d, cfg, i);
    case Block => BlockDescends(k, noted, d, cfg, i);
  }

  lemma GateDescends(k: Core, cfg: PolicyConfig, i: Input)
    requires Grounded(k, cfg) && BatchStep(i) && k.status == PolicyCheck
    ensures Descends(k, cfg, i, CoreStep(k, cfg, i))
  {
    hide GateCooldown, Triggered, CoreCtx, CoreVerdict, Descends;
    var d := k.latest.value;
    var rule := Triggered(CoreCtx(k, d, cfg, i.usedElsewhere));
    GateVouches(k, d, cfg, i.usedElsewhere);
    GateTells(k, d, cfg, i.usedElsewhere);
    VerdictDescends(k, Noted(k, PolicyEvaluated(VerdictOf(rule), rule)), d, VerdictOf(rule), cfg, i);
  }

  lemma AtLeastOne(cfg: PolicyConfig, n: nat)
    ensures WaitMinutes(cfg, n) >= 1
  {
  }

  lemma RetryDescends(k: Core, cfg: PolicyConfig, i: Input, paid: bool)
    requires Grounded(k, cfg) && k.status == Approved && Retries(k.latest)
    ensures Descends(k, cfg, i, CoreRetry(Jump(k, Executing, Executor), paid))
  {
    hide GateCooldown, MustWait;
  }

  lemma LinkDescends(k: Core, cfg: PolicyConfig, i: Input, link: LinkReply, paid: bool)
    requires Grounded(k, cfg) && k.status == Approved && Links(k.latest) && link != LinkError
    ensures Descends(k, cfg, i, CoreLink(Jump(k, Executing, Executor), link, paid))
  {
    hide GateCooldown, MustWait, SendLink, Capture;
    Shapes(Jump(k, Executing, Executor), link, ExecutorLink);
    Shapes(SendLink(Jump(k, Executing, Executor), link), link, ExecutorLink);
  }

  lemma EndingDescends(k: Core, cfg: PolicyConfig, i: Input)
    requires Grounded(k, cfg) && k.status == Approved && !Retries(k.latest) && !Links(k.latest)
    ensures Descends(k, cfg, i, CoreApproved(k, i))
  {
    hide CoreRetry, CoreLink, MustWait, GateCooldown;
  }

  lemma ApprovedDescends(k: Core, cfg: PolicyConfig, i: Input)
    requires Grounded(k, cfg) && BatchStep(i) && k.status == Approved
    ensures Descends(k, cfg, i, CoreApproved(k, i))
  {
    hide CoreRetry, CoreLink, MustWait, Descends, Jump;
    if Retries(k.latest) {
      RetryDescends(k, cfg, i, i.paid);
    } else if Links(k.latest) {
      LinkDescends(k, cfg, i, i.link, i.paid);
    } else {
      EndingDescends(k, cfg, i);
    }
  }

  lemma CooldownIsPositive(n: nat)
    ensures CooldownMinutes(n) > 0
  {
  }

  lemma ReentryDescends(k: Core, cfg: PolicyConfig)
    requires Grounded(k, cfg) && k.status == Verifying && k.latest.value.strategy != S6
    ensures Lower(k, cfg, Jump(Force(k), Diagnosed, System))
    ensures Lower(k, cfg, Jump(k, Diagnosed, System).(now := k.now + CooldownMinutes(k.retryCount)))
  {
    hide MustWait, CooldownMinutes;
    CooldownIsPositive(k.retryCount);
  }

  lemma EndsDescend(k: Core, cfg: PolicyConfig)
    requires Grounded(k, cfg) && k.status == Verifying
    ensures Lower(k, cfg, Close(k)) && Lower(k, cfg, Capture(k, VerifierPoll))
  {
    hide MustWait, GateCooldown;
  }

  lemma VerifyingDescends(k: Core, cfg: PolicyConfig, i: Input)
    requires Grounded(k, cfg) && BatchStep(i) && k.status == Verifying
    ensures Descends(k, cfg, i, CoreVerifying(k, cfg, i))
  {
    hide Capture, Close, Force, Jump, CooldownMinutes, Measure;
    EndsDescend(k, cfg);
    if k.latest.value.strategy != S6 {
      ReentryDescends(k, cfg);
    }
  }

  lemma PlanningDescends(k: Core, cfg: PolicyConfig, i: Input)
    requires Grounded(k, cfg) && BatchStep(i)
    requires k.status in {Detected, Analyzing, Diagnosed, Planned, AwaitingApproval}
    ensures Descends(k, cfg, i, CoreStep(k, cfg, i))
  {
    hide GateCooldown;
  }

  lemma StepDescends(k: Core, cfg: PolicyConfig, i: Input)
    requires Grounded(k, cfg) && BatchStep(i) && !IsTerminal(k.status)
    ensures Descends(k, cfg, i, CoreStep(k, cfg, i))
  {
    hide Descends;
    if k.status == PolicyCheck {
      GateDescends(k, cfg, i);
    } else if k.status == Approved {
      ApprovedDescends(k, cfg, i);
    } else if k.status == Verifying {
      VerifyingDescends(k, cfg, i);
    } else {
      PlanningDescends(k, cfg, i);
    }
  }

  // ----- Runs without a step budget -----

  /** The driving loop with another budget than MAX_STEPS. */
  function DriveFor(s: Sys, deps: Deps, envs: nat -> Env, steps: nat, budget: nat): Ending
    decreases budget
  {
    if IsTerminal(s.c.status) || budget == 0 then Ended(s, steps)
    else
      match Step(s, deps, envs(steps))
      case Error => Crashed
      case Done(s', moved) => if moved then DriveFor(s', deps, envs, steps + 1, budget - 1) else Ended(s', steps + 1)
  }

  lemma {:induction false} DriveIsDriveFor(s: Sys, deps: Deps, envs: nat -> Env, steps: nat)
    requires steps <= MAX_STEPS
    ensures Drive(s, deps, envs, steps) == DriveFor(s, deps, envs, steps, MAX_STEPS - steps)
    decreases MAX_STEPS - steps
  {
    hide Step;
    if !IsTerminal(s.c.status) && steps < MAX_STEPS && Step(s, deps, envs(steps)).Done? {
      DriveIsDriveFor(Step(s, deps, envs(steps)).s, deps, envs, steps + 1);
    }
  }

  predicate TableEnv(env: Env) { FallbackSource(env) && env.link != LinkError }

  /** Does a valid answer of the model come in this step? */
  function AnswersIn(env: Env): nat { if FallbackSource(env) then 0 else 1 }

  lemma SysStepDescends(s: Sys, cfg: PolicyConfig, rng: Stream, env: Env)
    requires Grounded(Abs(s), cfg) && env.link != LinkError && !IsTerminal(s.c.status)
    ensures
      var r := Step(s, Deps(cfg, true, rng), env);
      && r.Done? && r.moved && Grounded(Abs(r.s), cfg)
      && Measure(Abs(r.s), cfg) < Measure(Abs(s), cfg) + 16 * AnswersIn(env)
  {
    hide Numbered, ChargeTimes, CountKind, Measure, Grounded, Step, CoreStep;
    var deps := Deps(cfg, true, rng);
    StepRefines(s, deps, env);
    if FallbackSource(env) {
      FallbackIsChosen(env, 0, FallbackDecision(s.p, Pipeline.Age(s.now, s.p), s.c.hasToken, cfg, s.c.retryCount));
    }
    StepDescends(Abs(s), cfg, Inputs(s, deps, env));
  }

  /** Answers of the model in the steps `from`..`last - 1`. */
  function AnswersLeft(envs: nat -> Env, from: nat, last: nat): nat
    decreases last - from
  {
    if from >= last then 0 else AnswersIn(envs(from)) + AnswersLeft(envs, from + 1, last)
  }

  /** The model gives no valid answer from step `last` on, and the link adapter never raises. */
  ghost predicate AnswersEnd(envs: nat -> Env, last: nat) {
    forall n: nat :: envs(n).link != LinkError && (n >= last ==> FallbackSource(envs(n)))
  }

  lemma {:induction false} LadderEnds(s: Sys, cfg: PolicyConfig, rng: Stream, envs: nat -> Env, last: nat, steps: nat,
                                      budget: nat)
    requires Grounded(Abs(s), cfg) && AnswersEnd(envs, last)
    requires budget >= Measure(Abs(s), cfg) + 16 * AnswersLeft(envs, steps, last)
    ensures
      var bound := Measure(Abs(s), cfg) + 16 * AnswersLeft(envs, steps, last);
      var end := DriveFor(s, Deps(cfg, true, rng), envs, steps, budget);
      && end.Ended? && IsTerminal(end.s.c.status) && end.steps <= steps + bound
      && end == DriveFor(s, Deps(cfg, true, rng), envs, steps, bound)
    decreases budget
  {
    hide Step, Grounded, FallbackSource, Abs;
    if !IsTerminal(s.c.status) {
      SysStepDescends(s, cfg, rng, envs(steps));
      var next := Step(s, Deps(cfg, true, rng), envs(steps)).s;
      var bound := Measure(Abs(s), cfg) + 16 * AnswersLeft(envs, steps, last);
      LadderEnds(next, cfg, rng, envs, last, steps + 1, budget - 1);
      LadderEnds(next, cfg, rng, envs, last, steps + 1, bound - 1);
    }
    hide Measure;
  }

  /** Steps that suffice for the retries and contacts still allowed and that many answers of the model. */
  function Bound(cfg: PolicyConfig, prior: nat, answers: nat): nat {
    16 * (Max(0, cfg.maxRetries - prior) + Max(0, cfg.contactCap7d) + answers) + 15
  }

  lemma FreshMeasure(s: Sys, r: nat, cfg: PolicyConfig)
    requires FreshCase(s.c, r) && Scorable(s.p.amountMinor)
    ensures Grounded(Abs(s), cfg) && Measure(Abs(s), cfg) == Bound(cfg, r, 0)
  {
  }

  /** Whatever the config, the payment's age and errors, and the model's answers, if these end at some step, a fresh
      case of a scorable amount reaches a terminal status: after at most 16 steps per retry and contact still allowed
      and per answer given, plus 15. No step raises or gets stuck, and any larger budget changes nothing. */
  lemma {:induction false} FiniteAnswersTerminate(s: Sys, r: nat, cfg: PolicyConfig, rng: Stream, envs: nat -> Env,
                                                  last: nat,
                                                  budget: nat)
    requires FreshCase(s.c, r) && Scorable(s.p.amountMinor) && AnswersEnd(envs, last)
    requires budget >= Bound(cfg, r, AnswersLeft(envs, 0, last))
    ensures
      var bound := Bound(cfg, r, AnswersLeft(envs, 0, last));
      var end := DriveFor(s, Deps(cfg, true, rng), envs, 0, budget);
      && end.Ended? && IsTerminal(end.s.c.status) && end.steps <= bound
      && end == DriveFor(s, Deps(cfg, true, rng), envs, 0, bound)
  {
    hide DriveFor, Measure, Grounded, FreshCase, Abs;
    FreshMeasure(s, r, cfg);
    LadderEnds(s, cfg, rng, envs, last, 0, budget);
  }

  /** In particular under the decision table, which takes at most 16 steps per retry and contact still allowed, plus
      15. */
  lemma {:induction false} TableTerminates(s: Sys, r: nat, cfg: PolicyConfig, rng: Stream, envs: nat -> Env,
                                           budget: nat)
    requires FreshCase(s.c, r) && Scorable(s.p.amountMinor) && forall n: nat :: TableEnv(envs(n))
    requires budget >= 16 * (Max(0, cfg.maxRetries - r) + Max(0, cfg.contactCap7d)) + 15
    ensures
      var bound := 16 * (Max(0, cfg.maxRetries - r) + Max(0, cfg.contactCap7d)) + 15;
      var end := DriveFor(s, Deps(cfg, true, rng), envs, 0, budget);
      && end.Ended? && IsTerminal(end.s.c.status) && end.steps <= bound
      && end == DriveFor(s, Deps(cfg, true, rng), envs, 0, bound)
  {
    hide DriveFor, FreshCase, FallbackSource;
    assert AnswersEnd(envs, 0);
    FiniteAnswersTerminate(s, r, cfg, rng, envs, 0, budget);
  }

  // ----- Leaving the loop early -----

  /** `advance_case` raises exactly when a step did, or when the loop was left in a status that cannot be
      closed: anything in flight other than VERIFYING. */
  lemma AdvanceRaises(s: Sys, deps: Deps, envs: nat -> Env)
    ensures Advance(s, deps, envs).Crashed? <==>
      match Drive(s, deps, envs, 0)
      case Crashed => true
      case Ended(end, _) => !IsTerminal(end.c.status) && end.c.status != Verifying
  {
    hide Drive;
  }

  /** A case whose amount the risk score cannot take raises at its first step, each time it is driven. */
  lemma UnscorableRaises(s: Sys, deps: Deps, envs: nat -> Env)
    requires s.c.status == Detected
    ensures Step(s, deps, envs(0)).Error? <==> s.p.amountMinor <= -100_000
    ensures s.p.amountMinor <= -100_000 ==> Advance(s, deps, envs) == Crashed
  {
  }

  /** In live mode a step that makes no move does not park the case: an unpaid case in verification is closed
      as unrecovered at once, and any other case (waiting for a human, or for a cooldown) makes the driver
      raise. */
  lemma LiveModeNeverParks(s: Sys, deps: Deps, envs: nat -> Env)
    requires !deps.fastForward && !IsTerminal(s.c.status)
    requires Step(s, deps, envs(0)).Done? && !Step(s, deps, envs(0)).moved
    ensures s.c.status in {PolicyCheck, Verifying, AwaitingApproval}
    ensures Advance(s, deps, envs) ==
      if s.c.status == Verifying then Ended(s.(c := ClosedOff(s.c)), 1) else Crashed
  {
    hide Triggered, PolicyCtx, StepApproved;
    ApprovedMoves(s, deps, envs(0));
    assert Drive(s, deps, envs, 0) == Ended(Step(s, deps, envs(0)).s, 1);
    hide Drive, ClosedOff;
  }

  lemma ApprovedMoves(s: Sys, deps: Deps, env: Env)
    ensures StepApproved(s, deps, env).Done? ==> StepApproved(s, deps, env).moved
  {
    hide Moved, EscalationRaised, ChargeOutcome, LinkOutcome;
  }

  // ----- A model that keeps proposing what the gate blocks -----

  /** A valid answer that asks for a human, or to stop, after a delay the gate does not accept. */
  predicate Stubborn(raw: RawOutput) {
    && ValidOutput(raw) && STRATEGY_NAMES[raw.strategy.value] in {S5, S6}
    && raw.delayMinutes.Some? && !(15 <= raw.delayMinutes.value <= 72 * HOUR)
  }

  lemma AlwaysBlocked(c: CaseRow, p: PaymentRow, raw: RawOutput, now: int, cfg: PolicyConfig, used: nat)
    requires Stubborn(raw) && c.status == PolicyCheck
    ensures VerdictOf(Triggered(PolicyCtx(c, p, FromOutput(raw), now, cfg, used))) == Block
  {
    hide CountKind;
  }

  lemma Redecides(s: Sys, raw: RawOutput, cfg: PolicyConfig)
    requires Stubborn(raw)
    ensures
      var c := WithDecision(s.c, s.p, Pipeline.Age(s.now, s.p), cfg, [Some(raw)]);
      LatestDecision(c) == Some(FromOutput(raw)) && c.status == s.c.status
  {
  }

  lemma SpinsOnce(s: Sys, raw: RawOutput, deps: Deps, env: Env)
    requires Stubborn(raw) && env.attempts == [Some(raw)] && LatestDecision(s.c) == Some(FromOutput(raw))
    requires s.c.status == Planned || s.c.status == PolicyCheck
    ensures
      var r := Step(s, deps, env);
      && r.Done? && r.moved && LatestDecision(r.s.c) == Some(FromOutput(raw))
      && r.s.c.status == if s.c.status == Planned then PolicyCheck else Planned
  {
    hide Triggered, PolicyCtx, WithDecision;
    if s.c.status == PolicyCheck {
      var ctx := PolicyCtx(s.c, s.p, FromOutput(raw), s.now, deps.cfg, env.usedElsewhere);
      AlwaysBlocked(s.c, s.p, raw, s.now, deps.cfg, env.usedElsewhere);
      Redecides(s.(c := Emit(s.c, PolicyEvaluated(Block, Triggered(ctx)))), raw, deps.cfg);
    }
  }

  lemma {:induction false} Spins(s: Sys, raw: RawOutput, deps: Deps, envs: nat -> Env, steps: nat)
    requires Stubborn(raw) && (forall n: nat :: envs(n).attempts == [Some(raw)]) && steps <= MAX_STEPS
    requires LatestDecision(s.c) == Some(FromOutput(raw)) && (s.c.status == Planned || s.c.status == PolicyCheck)
    ensures
      var end := Drive(s, deps, envs, steps);
      end.Ended? && end.steps == MAX_STEPS && (end.s.c.status == Planned || end.s.c.status == PolicyCheck)
    decreases MAX_STEPS - steps
  {
    hide Step;
    if steps < MAX_STEPS {
      SpinsOnce(s, raw, deps, envs(steps));
      Spins(Step(s, deps, envs(steps)).s, raw, deps, envs, steps + 1);
    }
  }

  lemma FirstDecision(s: Sys, raw: RawOutput, deps: Deps, env: Env)
    requires Stubborn(raw) && env.attempts == [Some(raw)]
    ensures s.c.status == Detected && Scorable(s.p.amountMinor) ==>
      Step(s, deps, env).Done? && Step(s, deps, env).s.p == s.p && Step(s, deps, env).moved
        && Step(s, deps, env).s.c.status == Analyzing
    ensures s.c.status == Analyzing || (s.c.status == Diagnosed && LatestDecision(s.c) == Some(FromOutput(raw))) ==>
      var r := Step(s, deps, env);
      && r.Done? && r.moved && LatestDecision(r.s.c) == Some(FromOutput(raw))
      && r.s.c.status == if s.c.status == Analyzing then Diagnosed else Planned
  {
    hide WithDecision;
    Redecides(s, raw, deps.cfg);
  }

  lemma DriveOneStep(s: Sys, deps: Deps, envs: nat -> Env, steps: nat)
    requires steps < MAX_STEPS && !IsTerminal(s.c.status)
    requires Step(s, deps, envs(steps)).Done? && Step(s, deps, envs(steps)).moved
    ensures Drive(s, deps, envs, steps) == Drive(Step(s, deps, envs(steps)).s, deps, envs, steps + 1)
  {
    hide Step;
  }

  lemma StubbornReachesGate(s: Sys, raw: RawOutput, deps: Deps, envs: nat -> Env) returns (s3: Sys)
    requires Stubborn(raw) && (forall n: nat :: envs(n).attempts == [Some(raw)]) && s.c.status == Detected
    requires Scorable(s.p.amountMinor)
    ensures Drive(s, deps, envs, 0) == Drive(s3, deps, envs, 3)
    ensures LatestDecision(s3.c) == Some(FromOutput(raw)) && s3.c.status == Planned
  {
    hide Step, Drive, Stubborn, LatestDecision;
    FirstDecision(s, raw, deps, envs(0));
    var s1 := Step(s, deps, envs(0)).s;
    FirstDecision(s1, raw, deps, envs(1));
    var s2 := Step(s1, deps, envs(1)).s;
    FirstDecision(s2, raw, deps, envs(2));
    s3 := Step(s2, deps, envs(2)).s;
    DriveOneStep(s, deps, envs, 0);
    DriveOneStep(s1, deps, envs, 1);
    DriveOneStep(s2, deps, envs, 2);
  }

  /** The gate's "fallback" after a BLOCK asks the model again. One that keeps giving such an answer spins the
      case between planning and the gate until the step budget is gone, and then `advance_case` raises: so
      termination in a closed status needs the decision table. */
  lemma {:induction false} StubbornModelNeverEnds(s: Sys, raw: RawOutput, deps: Deps, envs: nat -> Env)
    requires Stubborn(raw) && (forall n: nat :: envs(n).attempts == [Some(raw)]) && s.c.status == Detected
    ensures Advance(s, deps, envs) == Crashed
    ensures Scorable(s.p.amountMinor) ==> Drive(s, deps, envs, 0).Ended? && Drive(s, deps, envs, 0).steps == 32
  {
    hide Drive, Step, Stubborn, LatestDecision;
    if Scorable(s.p.amountMinor) {
      var s3 := StubbornReachesGate(s, raw, deps, envs);
      Spins(s3, raw, deps, envs, 3);
    } else {
      UnscorableRaises(s, deps, envs);
    }
  }
}
