/** The pipeline step climbs the ladder: for a fresh failed case under the decision table and the default
    config, `advance_case` ends exactly where the closed form says. */
module BatchOutcome {
  import opened Enums
  import opened Fsm
  import opened Diagnosis
  import opened Strategies
  import opened PolicyRules
  import opened PolicyEngine
  import opened Gateway
  import opened Trail
  import opened Rows
  import opened Decide
  import opened Executors
  import opened Pipeline
  import opened CaseRuns
  import opened Core
  import opened GatewayRuns
  import opened TableGate
  import opened Waiting
  import opened Ladder

  predicate Charging(s: Strategy) { ActionOf(s) == Some(RetryCharge) }

  predicate Linking(s: Strategy) { ActionOf(s) == Some(SendRecoveryLink) }

  /** The latest decision is the table's plan, or the forced escalation. */
  predicate PlanFits(f: Footing, plan: Strategy, d: Decision) {
    && d.origin == FromFallback && d.strategy == plan && plan != S4
    && (Charging(plan) || Linking(plan) ==>
          && f.amountMinor < DEFAULT_CONFIG.approvalLimitMinor && f.confidence >= DEFAULT_CONFIG.confidenceFloor
          && d.diagnosisConfidence == f.confidence && d.strategyConfidence == f.confidence)
    && d.delayMinutes in {None, Some(240)}
  }

  /** What holds of every rung reached. */
  predicate Steady(f: Footing, u: Rung) {
    && u.status != Executing
    && (Charging(u.plan) ==>
          RetryClass(f) && (u.status in {Planned, PolicyCheck, Approved} || u.retryCount == 0 ==> u.retryCount < 2))
    && (Linking(u.plan) ==> !RetryClass(f))
    && (RetryClass(f) ==> u.links == 0)
    && (u.status == Detected || u.status == Analyzing ==> u.lastAttemptAt.None?)
    && (u.lastAttemptAt.Some? ==> u.lastAttemptAt.value <= u.now)
    && (RetryClass(f) && u.lastAttemptAt.Some? && u.status in {Diagnosed, Planned, PolicyCheck} ==>
          u.now - u.lastAttemptAt.value >= CooldownMinutes(u.retryCount))
  }

  lemma SteadyRises(f: Footing, u: Rung)
    requires Steady(f, u) && Diagnosable(f) && !IsTerminal(u.status)
    ensures Steady(f, Rise(f, u))
  {
    var a := Table(f, u.retryCount, RungAge(f, u));
    assert Charging(a.strategy) ==> RetryClass(f) && u.retryCount < 2;
    assert Linking(a.strategy) ==> !RetryClass(f);
    hide Table;
  }

  /** The case stands on the rung. */
  ghost predicate Stands(f: Footing, k: Core, u: Rung) {
    && k.status == u.status && k.retryCount == u.retryCount && k.links == u.links && k.notices == 0
    && k.now == u.now && k.lastAttemptAt == u.lastAttemptAt
    && k.facts.amountMinor == f.amountMinor && k.facts.createdAt == f.createdAt
    && (k.payStatus == PayFailed || k.status == Recovered)
    && (u.status != Detected && u.status != Analyzing ==>
          k.diagnosis == Some(f.diagnosis) && k.latest.Some? && PlanFits(f, u.plan, k.latest.value))
    && 0 <= f.prior && k.retryCount == f.prior + k.Charges() && (u.status == Detected ==> Scorable(f.amountMinor))
  }

  function TableDecision(f: Footing, k: Core): Decision {
    var choice := Table(f, k.retryCount, k.Age());
    Decision(FromFallback, f.diagnosis, f.confidence, choice.strategy, choice.confidence, choice.delayMinutes)
  }

  /** What a batch step under the decision table is given. */
  ghost predicate TableInput(f: Footing, k: Core, i: Input) {
    && i.fastForward && i.link == NoRealAdapter && i.proposal == TableDecision(f, k)
    && (k.status == Approved ==> i.paid == f.paid)
  }

  /** The budget has room for the charge the gate is about to allow. */
  predicate Affords(f: Footing, u: Rung, used: nat) {
    u.status == PolicyCheck && Charging(u.plan) && !Refused(f, u) ==>
      used + (u.retryCount - f.prior) < DEFAULT_CONFIG.simulationBudget
  }

  ghost predicate Rises(f: Footing, k: Core, u: Rung, i: Input) {
    var r := CoreStep(k, DEFAULT_CONFIG, i);
    r.CoreDone? && r.moved && Stands(f, r.k, Rise(f, u))
  }

  lemma TableFits(f: Footing, u: Rung)
    requires Diagnosable(f)
    ensures
      var choice := Table(f, u.retryCount, RungAge(f, u));
      && PlanFits(f, choice.strategy,
                  Decision(FromFallback, f.diagnosis, f.confidence, choice.strategy, choice.confidence,
                                               choice.delayMinutes))
      && (Charging(choice.strategy) ==> RetryClass(f) && u.retryCount < 2)
  {
  }

  lemma PlanIsOwn(f: Footing, plan: Strategy, d: Decision)
    ensures PlanFits(f, plan, d) ==> d.origin == FromFallback && d.strategy == plan
  {
  }

  lemma RisesDeciding(f: Footing, k: Core, u: Rung, i: Input)
    requires Stands(f, k, u) && TableInput(f, k, i) && Diagnosable(f)
    requires u.status == Analyzing || u.status == Diagnosed
    ensures Rises(f, k, u, i)
  {
    hide Table, PlanFits, CorePolicyCheck, CoreApproved, CoreVerifying;
    TableFits(f, u);
  }

  lemma RisesIdly(f: Footing, k: Core, u: Rung, i: Input)
    requires Stands(f, k, u) && TableInput(f, k, i)
    requires u.status in {Detected, Planned, AwaitingApproval}
    ensures Rises(f, k, u, i)
  {
    hide PlanFits, TableDecision;
  }

  /** On the ladder the gate's answer is the simple one. */
  lemma GateAnswers(f: Footing, k: Core, u: Rung, used: nat)
    requires Stands(f, k, u) && Steady(f, u) && Diagnosable(f) && u.status == PolicyCheck
    requires Affords(f, u, used)
    ensures VerdictOf(Triggered(CoreCtx(k, k.latest.value, DEFAULT_CONFIG, used)))
            == if Refused(f, u) then Block else Allow
  {
    hide GateCooldown, CooldownMinutes;
    var ctx := CoreCtx(k, k.latest.value, DEFAULT_CONFIG, used);
    LadderDominatesGate(u.retryCount);
    assert Passes(P01, ctx) && Passes(P02, ctx) && Passes(P03, ctx) && Passes(P04, ctx);
    assert Passes(P05, ctx) && Passes(P06, ctx) && Passes(P07, ctx) && Passes(P09, ctx) && Passes(P10, ctx);
    assert Passes(P13, ctx) && (!Refused(f, u) ==> Passes(P12, ctx));
    assert Passes(P08, ctx) && Passes(P11, ctx) <==> !Refused(f, u);
    hide Passes, CoreCtx, Refused;
  }

  lemma RisesAtGate(f: Footing, k: Core, u: Rung, i: Input)
    requires Stands(f, k, u) && Steady(f, u) && TableInput(f, k, i) && Diagnosable(f) && u.status == PolicyCheck
    requires Affords(f, u, i.usedElsewhere)
    ensures Rises(f, k, u, i)
  {
    GateAnswers(f, k, u, i.usedElsewhere);
    hide Triggered, CoreCtx, TableDecision, Steady, Table;
  }

  lemma RisesCharging(f: Footing, k: Core, u: Rung, i: Input)
    requires Stands(f, k, u) && TableInput(f, k, i) && u.status == Approved && Charging(u.plan)
    ensures Rises(f, k, u, i)
  {
    hide PlanFits, TableDecision, Charge, Capture;
    PlanIsOwn(f, u.plan, k.latest.value);
    var k1 := Jump(k, Executing, Executor);
    Shapes(k1, LinkCreated, ExecutorRetry);
    Shapes(Charge(k1), LinkCreated, ExecutorRetry);
  }

  lemma RisesLinking(f: Footing, k: Core, u: Rung, i: Input)
    requires Stands(f, k, u) && TableInput(f, k, i) && u.status == Approved && Linking(u.plan)
    ensures Rises(f, k, u, i)
  {
    hide PlanFits, TableDecision, SendLink, Capture;
    PlanIsOwn(f, u.plan, k.latest.value);
    var k1 := Jump(k, Executing, Executor);
    Shapes(k1, NoRealAdapter, ExecutorLink);
    Shapes(SendLink(k1, NoRealAdapter), NoRealAdapter, ExecutorLink);
  }

  lemma RisesEnding(f: Footing, k: Core, u: Rung, i: Input)
    requires Stands(f, k, u) && TableInput(f, k, i) && u.status == Approved && (u.plan == S5 || u.plan == S6)
    ensures Rises(f, k, u, i)
  {
    hide TableDecision;
  }

  lemma RisesVerifying(f: Footing, k: Core, u: Rung, i: Input)
    requires Stands(f, k, u) && TableInput(f, k, i) && u.status == Verifying
    ensures Rises(f, k, u, i)
  {
    hide TableDecision;
  }

  lemma RisesAlways(f: Footing, k: Core, u: Rung, i: Input)
    requires Stands(f, k, u) && Steady(f, u) && TableInput(f, k, i) && Diagnosable(f)
    requires !IsTerminal(u.status) && u.status != Executing && Affords(f, u, i.usedElsewhere)
    ensures Rises(f, k, u, i) && Steady(f, Rise(f, u))
  {
    hide Rises, Stands, TableInput, Steady, Affords;
    SteadyRises(f, u);
    match u.status
    case PolicyCheck => RisesAtGate(f, k, u, i);
    case Approved =>
      if Charging(u.plan) {
        RisesCharging(f, k, u, i);
      } else if Linking(u.plan) {
        RisesLinking(f, k, u, i);
      } else {
        RisesEnding(f, k, u, i);
      }
    case Verifying => RisesVerifying(f, k, u, i);
    case Analyzing => RisesDeciding(f, k, u, i);
    case Diagnosed => RisesDeciding(f, k, u, i);
    case _ => RisesIdly(f, k, u, i);
  }

  // ----- Whole runs -----

  /** No call gives a valid answer, so the table decides. */
  predicate FallbackSource(env: Env) {
    forall n | 0 <= n < MAX_LLM_ATTEMPTS && n < |env.attempts| ::
      env.attempts[n].None? || !ValidOutput(env.attempts[n].value)
  }

  lemma {:induction false} FallbackIsChosen(env: Env, k: nat, fallback: Decision)
    requires FallbackSource(env)
    ensures Chosen(env.attempts, k, fallback) == fallback
    decreases MAX_LLM_ATTEMPTS - k
  {
    if k < MAX_LLM_ATTEMPTS && k < |env.attempts| {
      FallbackIsChosen(env, k + 1, fallback);
    }
  }

  /** A batch step's surroundings: no model and no real adapter. */
  predicate BatchEnv(env: Env) { FallbackSource(env) && env.link == NoRealAdapter }

  /** The budget, `used` of it by other cases, has room for that many charges. */
  predicate RoomFor(charges: nat, used: nat) { charges > 0 ==> used + charges <= DEFAULT_CONFIG.simulationBudget }

  /** Charges are never taken back on the climb. */
  lemma {:induction false} ClimbGrows(f: Footing, u: Rung)
    ensures Climb(f, u).retryCount >= u.retryCount
    decreases MAX_STEPS - u.steps
  {
    hide Table, Refused, CooldownMinutes;
    if !IsTerminal(u.status) && u.steps < MAX_STEPS {
      ClimbGrows(f, Rise(f, u));
    }
  }

  /** Room for all the charges of a climb that ends is room for the next one. */
  lemma RoomSuffices(f: Footing, u: Rung, charges: nat, used: nat)
    requires IsTerminal(Climb(f, u).status) && Climb(f, u).retryCount == f.prior + charges && RoomFor(charges, used)
    requires f.prior <= u.retryCount
    ensures Affords(f, u, used)
  {
    if u.status == PolicyCheck && Charging(u.plan) && !Refused(f, u) {
      var allowed := Rise(f, u);
      assert Climb(f, u) == Climb(f, allowed) && allowed.status == Approved;
      assert Climb(f, allowed) == Climb(f, Rise(f, allowed)) && Rise(f, allowed).retryCount == u.retryCount + 1;
      ClimbGrows(f, Rise(f, allowed));
    }
  }

  function Probability(c: CaseRow, d: DiagnosisClass): real {
    if c.captureProbability.Some? then c.captureProbability.value else DefaultProbability(Some(d))
  }

  function FootingOf(s: Sys, rng: Stream): Footing {
    var (d, confidence) := Diagnose(s.p.errorReason, s.p.errorCode);
    Footing(d, confidence, s.c.hasToken, s.p.amountMinor, s.p.createdAt,
            Latent(rng, s.g, s.c.paymentId, Probability(s.c, d)), s.c.retryCount - Charges(s.c))
  }

  ghost predicate Climbing(f: Footing, s: Sys, u: Rung, rng: Stream) {
    && Stands(f, Abs(s), u) && Steady(f, u)
    && FootingOf(s, rng) == f
  }

  lemma InputsAreTable(f: Footing, s: Sys, u: Rung, rng: Stream, env: Env)
    requires Climbing(f, s, u, rng) && BatchEnv(env)
    ensures TableInput(f, Abs(s), Inputs(s, Deps(DEFAULT_CONFIG, true, rng), env))
  {
    hide Numbered, ChargeTimes, CountKind, Diagnose, Latent;
    FallbackIsChosen(env, 0,
                     FallbackDecision(s.p, Pipeline.Age(s.now, s.p), s.c.hasToken, DEFAULT_CONFIG, s.c.retryCount));
  }

  /** The roll and everything else the climb rests on survives a step. */
  lemma FootingStays(f: Footing, s: Sys, u: Rung, rng: Stream, env: Env, next: Rung)
    requires Climbing(f, s, u, rng) && BatchEnv(env) && Step(s, Deps(DEFAULT_CONFIG, true, rng), env).Done?
    requires Stands(f, Abs(Step(s, Deps(DEFAULT_CONFIG, true, rng), env).s), next)
    ensures FootingOf(Step(s, Deps(DEFAULT_CONFIG, true, rng), env).s, rng) == f
  {
    hide Numbered, ChargeTimes, CountKind, Diagnose, Step, CoreStep, PlanFits;
    var deps := Deps(DEFAULT_CONFIG, true, rng);
    StepRefines(s, deps, env);
    StepAsks(s, deps, env);
    FactsKept(Abs(s), DEFAULT_CONFIG, Inputs(s, deps, env));
    hide Steady, Inputs;
  }

  lemma StepClimbs(f: Footing, s: Sys, u: Rung, rng: Stream, env: Env)
    requires Climbing(f, s, u, rng) && BatchEnv(env) && Diagnosable(f)
    requires !IsTerminal(u.status) && u.status != Executing && Affords(f, u, env.usedElsewhere)
    ensures
      var r := Step(s, Deps(DEFAULT_CONFIG, true, rng), env);
      r.Done? && r.moved && Climbing(f, r.s, Rise(f, u), rng)
  {
    var deps := Deps(DEFAULT_CONFIG, true, rng);
    StepRefines(s, deps, env);
    InputsAreTable(f, s, u, rng, env);
    assert Inputs(s, deps, env).usedElsewhere == env.usedElsewhere;
    RisesAlways(f, Abs(s), u, Inputs(s, deps, env));
    FootingStays(f, s, u, rng, env, Rise(f, u));
    hide Step, CoreStep, Inputs, Abs, Stands, Steady, FootingOf, Rise, TableInput;
  }

  /** No evaluation on the trail was a WAIT. */
  predicate NeverWaited(t: seq<Event>) { Evaluated(Wait) !in Rulings(t) }

  lemma StepNeverWaits(f: Footing, s: Sys, u: Rung, rng: Stream, env: Env)
    requires Climbing(f, s, u, rng) && BatchEnv(env) && Diagnosable(f) && NeverWaited(s.c.trail)
    requires Affords(f, u, env.usedElsewhere)
    requires Step(s, Deps(DEFAULT_CONFIG, true, rng), env).Done?
    ensures NeverWaited(Step(s, Deps(DEFAULT_CONFIG, true, rng), env).s.c.trail)
  {
    hide Numbered, ChargeTimes, CountKind, Step, CoreStep, Triggered, CoreCtx, Rulings, Steady, Refused, FootingOf;
    hide FallbackSource;
    var deps := Deps(DEFAULT_CONFIG, true, rng);
    StepRefines(s, deps, env);
    StepRules(Abs(s), DEFAULT_CONFIG, Inputs(s, deps, env));
    if u.status == PolicyCheck {
      GateAnswers(f, Abs(s), u, env.usedElsewhere);
    }
  }

  lemma {:induction false} DriveClimbs(f: Footing, s: Sys, u: Rung, rng: Stream, envs: nat -> Env, charges: nat)
    requires Climbing(f, s, u, rng) && Diagnosable(f) && u.steps <= MAX_STEPS && NeverWaited(s.c.trail)
    requires IsTerminal(Climb(f, u).status) && Climb(f, u).retryCount == f.prior + charges
    requires forall n: nat :: BatchEnv(envs(n)) && RoomFor(charges, envs(n).usedElsewhere)
    ensures
      var end := Drive(s, Deps(DEFAULT_CONFIG, true, rng), envs, u.steps);
      end.Ended? && end.steps == Climb(f, u).steps && Stands(f, Abs(end.s), Climb(f, u)) && NeverWaited(end.s.c.trail)
    decreases MAX_STEPS - u.steps
  {
    hide Stands, Abs, Rise, FootingOf, Step, NeverWaited, Affords, RoomFor;
    StatusAgrees(f, s, u, rng);
    if !IsTerminal(u.status) && u.steps < MAX_STEPS {
      RoomSuffices(f, u, charges, envs(u.steps).usedElsewhere);
      StepClimbs(f, s, u, rng, envs(u.steps));
      StepNeverWaits(f, s, u, rng, envs(u.steps));
      DriveClimbs(f, Step(s, Deps(DEFAULT_CONFIG, true, rng), envs(u.steps)).s, Rise(f, u), rng, envs, charges);
    }
  }

  lemma StatusAgrees(f: Footing, s: Sys, u: Rung, rng: Stream)
    requires Climbing(f, s, u, rng)
    ensures f.prior <= u.retryCount
    ensures s.c.status == u.status && u.status != Executing
    ensures !IsTerminal(u.status) ==> Rise(f, u).steps == u.steps + 1
  {
  }

  lemma StandsLands(f: Footing, s: Sys, u: Rung, r: nat, start: int, fate: Landing)
    requires Stands(f, Abs(s), u) && Lands(u, r, start, fate) && f.prior == r
    ensures s.c.status == fate.status && Charges(s.c) == fate.charges && Contacts(s.c) == fate.links
    ensures u.steps == fate.steps && s.now == start + fate.minutes
  {
  }

  lemma FatesAreShort(f: Footing, a: int, r: nat)
    ensures IsTerminal(Fate(f, a, r).status) && Fate(f, a, r).steps <= 22
  {
  }

  /** Where the closed form sends a fresh case. */
  function FateOf(s: Sys, r: nat, rng: Stream): Landing { Fate(FootingOf(s, rng), s.now - s.p.createdAt, r) }

  lemma FateIsTerminal(f: Footing, r: nat, now: int)
    requires Lands(Climb(f, Start(r, now)), r, now, Fate(f, now - f.createdAt, r))
    ensures IsTerminal(Climb(f, Start(r, now)).status)
    ensures Climb(f, Start(r, now)).retryCount == r + Fate(f, now - f.createdAt, r).charges
  {
    FatesAreShort(f, now - f.createdAt, r);
    hide Climb, Fate;
  }

  lemma DriveLands(s: Sys, r: nat, rng: Stream, envs: nat -> Env)
    requires FreshCase(s.c, r) && s.p.status == PayFailed && Scorable(s.p.amountMinor)
    requires forall n: nat :: BatchEnv(envs(n)) && RoomFor(FateOf(s, r, rng).charges, envs(n).usedElsewhere)
    ensures
      var end := Drive(s, Deps(DEFAULT_CONFIG, true, rng), envs, 0);
      var fate := FateOf(s, r, rng);
      && end.Ended? && end.s.c.status == fate.status && end.steps == fate.steps
      && Charges(end.s.c) == fate.charges && Contacts(end.s.c) == fate.links
      && end.s.now == s.now + fate.minutes
      && NeverWaited(end.s.c.trail)
  {
    var f := FootingOf(s, rng);
    hide Climb, Rise, Stands, Steady, Lands, Fate, FootingOf, Abs, Drive, Step, FreshCase, BatchEnv, Climbing;
    hide Diagnosable;
    hide Charges, Contacts, NeverWaited, RoomFor;
    FreshStands(s, r, rng);
    ClimbIsFate(f, r, s.now);
    FateIsTerminal(f, r, s.now);
    DriveClimbs(f, s, Start(r, s.now), rng, envs, FateOf(s, r, rng).charges);
    StandsLands(f, Drive(s, Deps(DEFAULT_CONFIG, true, rng), envs, 0).s, Climb(f, Start(r, s.now)), r, s.now,
                Fate(f, s.now - s.p.createdAt, r));
  }

  /** For every fresh failed case of a scorable amount, whatever its age, diagnosis, token, earlier attempts and roll,
      the whole `advance_case` loop ends in the closed form's status with its charges, links, step count and waiting
      time. It never raises and always reaches a terminal status by itself, in at most 22 steps: the close for an
      exhausted step budget is never taken. No evaluation on its trail is a WAIT. */
  lemma {:induction false} AdvanceIsFate(s: Sys, r: nat, rng: Stream, envs: nat -> Env)
    requires FreshCase(s.c, r) && s.p.status == PayFailed && Scorable(s.p.amountMinor)
    requires forall n: nat :: BatchEnv(envs(n)) && RoomFor(FateOf(s, r, rng).charges, envs(n).usedElsewhere)
    ensures
      var end := Advance(s, Deps(DEFAULT_CONFIG, true, rng), envs);
      var fate := FateOf(s, r, rng);
      && end == Drive(s, Deps(DEFAULT_CONFIG, true, rng), envs, 0) && end.Ended?
      && end.s.c.status == fate.status && IsTerminal(fate.status)
      && end.steps == fate.steps && end.steps <= 22
      && Charges(end.s.c) == fate.charges && Contacts(end.s.c) == fate.links
      && end.s.now == s.now + fate.minutes
      && NeverWaited(end.s.c.trail)
  {
    hide Drive, Fate, FootingOf, FreshCase, BatchEnv, RoomFor, Charges, Contacts, NeverWaited;
    DriveLands(s, r, rng, envs);
    FatesAreShort(FootingOf(s, rng), s.now - s.p.createdAt, r);
  }

  lemma FreshStands(s: Sys, r: nat, rng: Stream)
    requires FreshCase(s.c, r) && s.p.status == PayFailed && Scorable(s.p.amountMinor)
    ensures Climbing(FootingOf(s, rng), s, Start(r, s.now), rng) && Diagnosable(FootingOf(s, rng))
    ensures FootingOf(s, rng).prior == r && FootingOf(s, rng).createdAt == s.p.createdAt
    ensures NeverWaited(s.c.trail)
  {
    hide Diagnose;
    var d := Diagnose(s.p.errorReason, s.p.errorCode);
    assert [CaseCreated][..0] == [];
  }
}
