/** Two live workers at once (app/worker.py:55-74): neither sees what the other has not committed, and no lock is
    taken on the merchant's budget. The row lock a tick's first update takes serialises ticks that start at the same
    oldest case, which most do; they overlap when one of them starts at a case the other did not see, as an older one
    that was committed late. */
module Concurrency {
  import opened Enums
  import opened Fsm
  import opened Diagnosis
  import opened Strategies
  import opened PolicyRules
  import opened PolicyEngine
  import opened Rows
  import opened Verification
  import opened Decide
  import opened Executors
  import opened Pipeline
  import opened CaseRuns
  import opened Core
  import opened Limits
  import opened TableGate
  import opened BatchOutcome
  import opened Termination

  /** The table's decision about a case as it stands. */
  function TableSays(s: Sys, cfg: PolicyConfig): Decision {
    FallbackDecision(s.p, Pipeline.Age(s.now, s.p), s.c.hasToken, cfg, s.c.retryCount)
  }

  /** A fresh failed case that the table would retry and the gate has no reason to refuse, with `used` charges of
      the merchant's committed elsewhere. */
  ghost predicate ReadyToCharge(s: Sys, prior: nat, cfg: PolicyConfig, used: nat) {
    && FreshCase(s.c, prior) && s.p.status == PayFailed && Scorable(s.p.amountMinor) && prior < cfg.maxRetries
    && Retries(Some(TableSays(s, cfg)))
    && Pipeline.Age(s.now, s.p) < cfg.ttlHours * HOUR && used < cfg.simulationBudget && cfg.contactCap7d > 0
  }

  /** What a worker meets while it drives one case: no model, and the other cases as last committed. */
  ghost predicate Meets(envs: nat -> Env, used: nat) {
    forall n: nat :: FallbackSource(envs(n)) && envs(n).usedElsewhere == used
  }

  /** The case under way to its first charge: only the status, the trail and the table's stamps have changed. */
  ghost predicate Underway(k: Core, start: Core, status: CaseStatus, d: Option<Decision>) {
    if d.None? then k == start.(status := status, trail := k.trail)
    else k == start.(status := status, trail := k.trail, latest := d, diagnosis := Some(d.value.diagnosis),
                     confidence := Some(d.value.diagnosisConfidence))
  }

  lemma PlanningMoves(k: Core, start: Core, cfg: PolicyConfig, i: Input, d: Decision)
    requires start.status == Detected && Scorable(start.facts.amountMinor) && i.proposal == d
    ensures Underway(k, start, Detected, None) ==>
      CoreStep(k, cfg, i).CoreDone? && CoreStep(k, cfg, i).moved
        && Underway(CoreStep(k, cfg, i).k, start, Analyzing, None)
    ensures Underway(k, start, Analyzing, None) ==>
      CoreStep(k, cfg, i).CoreDone? && CoreStep(k, cfg, i).moved
        && Underway(CoreStep(k, cfg, i).k, start, Diagnosed, Some(d))
    ensures Underway(k, start, Diagnosed, Some(d)) ==>
      CoreStep(k, cfg, i).CoreDone? && CoreStep(k, cfg, i).moved
        && Underway(CoreStep(k, cfg, i).k, start, Planned, Some(d))
    ensures Underway(k, start, Planned, Some(d)) ==>
      CoreStep(k, cfg, i).CoreDone? && CoreStep(k, cfg, i).moved
        && Underway(CoreStep(k, cfg, i).k, start, PolicyCheck, Some(d))
  {
    hide CorePolicyCheck, CoreApproved, CoreVerifying;
  }

  lemma GateAllows(k: Core, start: Core, cfg: PolicyConfig, p: PaymentRow, hasToken: bool, d: Decision, used: nat)
    requires start.payStatus == PayFailed && start.lastAttemptAt.None? && start.chargeTimes == []
    requires p.amountMinor == start.facts.amountMinor
    requires d == FallbackDecision(p, start.Age(), hasToken, cfg, start.retryCount) && Retries(Some(d))
    requires Underway(k, start, PolicyCheck, Some(d)) && start.retryCount < cfg.maxRetries
    requires start.Age() < cfg.ttlHours * HOUR && used < cfg.simulationBudget
    ensures VerdictOf(Triggered(CoreCtx(k, d, cfg, used))) == Allow
  {
    hide FallbackDecision, GateCooldown;
    TableChoices(p, start.Age(), hasToken, cfg, start.retryCount);
  }

  lemma GateMoves(k: Core, start: Core, cfg: PolicyConfig, i: Input, d: Decision)
    requires Underway(k, start, PolicyCheck, Some(d))
    requires VerdictOf(Triggered(CoreCtx(k, d, cfg, i.usedElsewhere))) == Allow
    ensures CoreStep(k, cfg, i).CoreDone? && CoreStep(k, cfg, i).moved
    ensures Underway(CoreStep(k, cfg, i).k, start, Approved, Some(d))
  {
    hide Triggered, CoreCtx;
  }

  /** The charge recovers the case, or leaves it in verification, where a live drive stops. */
  lemma ChargeMoves(k: Core, start: Core, cfg: PolicyConfig, i: Input, d: Decision)
    requires Underway(k, start, Approved, Some(d)) && Retries(Some(d)) && start.payStatus == PayFailed
    requires start.chargeTimes == [] && start.links == 0 && start.notices == 0 && d.diagnosis != InstrumentInvalid
    ensures
      var r := CoreStep(k, cfg, i);
      && r.CoreDone? && r.moved && r.k.Charges() == 1 && (r.k.status == Recovered || StopsHere(r.k))
  {
    hide Charge, Capture;
    var k1 := Jump(k, Executing, Executor);
    Shapes(k1, LinkCreated, ExecutorRetry);
    Shapes(Charge(k1), LinkCreated, ExecutorRetry);
    assert [] + [k.now] == [k.now];
  }

  ghost predicate StopsHere(k: Core) {
    && k.status == Verifying && k.payStatus == PayFailed && k.links == 0 && k.notices == 0
    && (k.latest.Some? ==> k.latest.value.strategy != S6) && k.diagnosis != Some(InstrumentInvalid)
  }

  lemma LiveStops(k: Core, cfg: PolicyConfig, i: Input)
    requires StopsHere(k) && !i.fastForward && cfg.contactCap7d > 0
    ensures CoreStep(k, cfg, i) == CoreDone(k, false)
  {
    hide Capture, Close, Force;
  }

  // ----- One drive -----

  lemma ProposesTable(s: Sys, start: Sys, cfg: PolicyConfig, env: Env, status: CaseStatus, d: Option<Decision>)
    requires Underway(Abs(s), Abs(start), status, d) && FallbackSource(env)
    ensures Proposal(s, cfg, env.attempts) == TableSays(start, cfg)
  {
    hide Numbered, ChargeTimes, CountKind, Chosen, SelectStrategy, Diagnose;
    FallbackIsChosen(env, 0, TableSays(s, cfg));
  }

  lemma DriveMovesOn(s: Sys, deps: Deps, envs: nat -> Env, steps: nat, cr: CoreResult)
    requires steps < MAX_STEPS && !IsTerminal(s.c.status) && cr.CoreDone? && cr.moved
    requires CoreStep(Abs(s), deps.cfg, Inputs(s, deps, envs(steps))) == cr
    ensures
      var r := Step(s, deps, envs(steps));
      r.Done? && r.moved && Abs(r.s) == cr.k && Drive(s, deps, envs, steps) == Drive(r.s, deps, envs, steps + 1)
  {
    hide Step, CoreStep, Abs, Drive, Inputs;
    StepRefines(s, deps, envs(steps));
    DriveOneStep(s, deps, envs, steps);
  }

  lemma PlansOn(s: Sys, start: Sys, deps: Deps, envs: nat -> Env, steps: nat, used: nat, status: CaseStatus,
                d: Option<Decision>,
                nextStatus: CaseStatus, next: Option<Decision>)
    requires Underway(Abs(s), Abs(start), status, d) && start.c.status == Detected
    requires Scorable(start.p.amountMinor) && steps < MAX_STEPS && Meets(envs, used)
    requires (status, d, nextStatus, next) in
      {(Detected, None, Analyzing, None), (Analyzing, None, Diagnosed, Some(TableSays(start, deps.cfg))),
       (Diagnosed, Some(TableSays(start, deps.cfg)), Planned, Some(TableSays(start, deps.cfg))),
       (Planned, Some(TableSays(start, deps.cfg)), PolicyCheck, Some(TableSays(start, deps.cfg)))}
    ensures
      var r := Step(s, deps, envs(steps));
      r.Done? && Underway(Abs(r.s), Abs(start), nextStatus, next)
      && Drive(s, deps, envs, steps) == Drive(r.s, deps, envs, steps + 1)
  {
    hide Numbered, ChargeTimes, CountKind, Step, CoreStep, Drive, TableSays, FallbackSource;
    ProposesTable(s, start, deps.cfg, envs(steps), status, d);
    PlanningMoves(Abs(s), Abs(start), deps.cfg, Inputs(s, deps, envs(steps)), TableSays(start, deps.cfg));
    DriveMovesOn(s, deps, envs, steps, CoreStep(Abs(s), deps.cfg, Inputs(s, deps, envs(steps))));
  }

  lemma ReachesGate(start: Sys, deps: Deps, envs: nat -> Env, used: nat) returns (s: Sys)
    requires start.c.status == Detected && Scorable(start.p.amountMinor) && Meets(envs, used)
    ensures Underway(Abs(s), Abs(start), PolicyCheck, Some(TableSays(start, deps.cfg)))
    ensures Drive(start, deps, envs, 0) == Drive(s, deps, envs, 4)
  {
    hide Step, Drive, Abs, TableSays, Meets;
    var d := Some(TableSays(start, deps.cfg));
    assert Abs(start).status == Detected by { StatusOf(start); }
    assert Underway(Abs(start), Abs(start), Detected, None);
    hide Underway;
    PlansOn(start, start, deps, envs, 0, used, Detected, None, Analyzing, None);
    var s1 := Step(start, deps, envs(0)).s;
    PlansOn(s1, start, deps, envs, 1, used, Analyzing, None, Diagnosed, d);
    var s2 := Step(s1, deps, envs(1)).s;
    PlansOn(s2, start, deps, envs, 2, used, Diagnosed, d, Planned, d);
    var s3 := Step(s2, deps, envs(2)).s;
    PlansOn(s3, start, deps, envs, 3, used, Planned, d, PolicyCheck, d);
    s := Step(s3, deps, envs(3)).s;
  }

  lemma StatusOf(s: Sys)
    ensures Abs(s).status == s.c.status && Abs(s).Charges() == Charges(s.c)
  {
  }

  lemma ReadyTells(s: Sys, prior: nat, cfg: PolicyConfig, used: nat)
    requires ReadyToCharge(s, prior, cfg, used)
    ensures var k := Abs(s);
      && k.status == Detected && k.payStatus == PayFailed && k.lastAttemptAt.None? && k.chargeTimes == []
      && k.links == 0 && k.notices == 0 && k.retryCount == prior && k.facts.amountMinor == s.p.amountMinor
      && Scorable(s.p.amountMinor)
      && k.Age() == Pipeline.Age(s.now, s.p) && TableSays(s, cfg).diagnosis != InstrumentInvalid
  {
    hide FallbackDecision;
    TableChoices(s.p, Pipeline.Age(s.now, s.p), s.c.hasToken, cfg, s.c.retryCount);
  }

  /** From the gate on: allowed, charged, and stopped. */
  lemma ChargesOnce(s: Sys, start: Sys, prior: nat, deps: Deps, envs: nat -> Env, used: nat)
    requires ReadyToCharge(start, prior, deps.cfg, used) && Meets(envs, used) && !deps.fastForward
    requires Underway(Abs(s), Abs(start), PolicyCheck, Some(TableSays(start, deps.cfg)))
    ensures
      var end := Drive(s, deps, envs, 4);
      end.Ended? && Charges(end.s.c) == 1 && (end.s.c.status == Recovered || end.s.c.status == Verifying)
  {
    hide Numbered, ChargeTimes, CountKind, Step, CoreStep, Drive, TableSays, Triggered, CoreCtx;
    hide FallbackDecision, FallbackSource, Meets;
    var d, cfg := TableSays(start, deps.cfg), deps.cfg;
    ReadyTells(start, prior, cfg, used);
    StatusOf(s);
    var age := Pipeline.Age(start.now, start.p);
    assert d == FallbackDecision(start.p, age, start.c.hasToken, cfg, start.c.retryCount) by {
      TableSaysWhat(start, cfg);
    }
    GateAllows(Abs(s), Abs(start), cfg, start.p, start.c.hasToken, d, used);
    MetInputs(s, deps, envs, used, 4);
    GateMoves(Abs(s), Abs(start), cfg, Inputs(s, deps, envs(4)), d);
    DriveMovesOn(s, deps, envs, 4, CoreStep(Abs(s), cfg, Inputs(s, deps, envs(4))));
    var s5 := Step(s, deps, envs(4)).s;
    StatusOf(s5);
    ChargeMoves(Abs(s5), Abs(start), cfg, Inputs(s5, deps, envs(5)), d);
    DriveMovesOn(s5, deps, envs, 5, CoreStep(Abs(s5), cfg, Inputs(s5, deps, envs(5))));
    hide Underway, Abs;
    Stops(Step(s5, deps, envs(5)).s, deps, envs);
  }

  lemma MetInputs(s: Sys, deps: Deps, envs: nat -> Env, used: nat, n: nat)
    requires Meets(envs, used)
    ensures Inputs(s, deps, envs(n)).usedElsewhere == used
  {
    hide Proposal;
  }

  lemma TableSaysWhat(s: Sys, cfg: PolicyConfig)
    ensures TableSays(s, cfg) == FallbackDecision(s.p, Pipeline.Age(s.now, s.p), s.c.hasToken, cfg, s.c.retryCount)
  {
  }

  lemma Stops(s: Sys, deps: Deps, envs: nat -> Env)
    requires !deps.fastForward && deps.cfg.contactCap7d > 0 && Abs(s).Charges() == 1
    requires Abs(s).status == Recovered || StopsHere(Abs(s))
    ensures
      var end := Drive(s, deps, envs, 6);
      end.Ended? && Charges(end.s.c) == 1 && (end.s.c.status == Recovered || end.s.c.status == Verifying)
  {
    hide Numbered, ChargeTimes, CountKind, Step, CoreStep;
    StatusOf(s);
    if s.c.status == Verifying {
      LiveStops(Abs(s), deps.cfg, Inputs(s, deps, envs(6)));
      StepRefines(s, deps, envs(6));
      StatusOf(Step(s, deps, envs(6)).s);
    }
  }

  /** A live drive of such a case commits with exactly one charge. */
  lemma LiveDriveCharges(s: Sys, prior: nat, deps: Deps, envs: nat -> Env, used: nat)
    requires ReadyToCharge(s, prior, deps.cfg, used) && Meets(envs, used) && !deps.fastForward
    ensures Advance(s, deps, envs).Ended? && Charges(Advance(s, deps, envs).s.c) == 1
  {
    hide Step, Drive, Abs, TableSays, Meets, Underway, CountKind, ReadyToCharge;
    assert s.c.status == Detected && Scorable(s.p.amountMinor) by { ReadyTells(s, prior, deps.cfg, used); StatusOf(s); }
    var gate := ReachesGate(s, deps, envs, used);
    ChargesOnce(gate, s, prior, deps, envs, used);
    ClosingKeepsCharges(Drive(s, deps, envs, 0).s.c);
    hide ClosedOff;
  }

  lemma ClosingKeepsCharges(c: CaseRow)
    ensures Charges(ClosedOff(c)) == Charges(c)
  {
    hide CountKind;
  }

  /** Two workers that each drive one such case, with one charge left in the merchant's budget as committed, both
      commit: the merchant ends one over. Driving cases one after another is what keeps the budget. */
  lemma TwoWorkersOverspend(a: Sys, b: Sys, priorA: nat, priorB: nat, deps: Deps, envsA: nat -> Env,
                            envsB: nat -> Env, used: nat)
    requires !deps.fastForward && used + 1 == deps.cfg.simulationBudget
    requires ReadyToCharge(a, priorA, deps.cfg, used) && Meets(envsA, used)
    requires ReadyToCharge(b, priorB, deps.cfg, used) && Meets(envsB, used)
    ensures
      && Advance(a, deps, envsA).Ended? && Advance(b, deps, envsB).Ended?
      && used + Charges(Advance(a, deps, envsA).s.c) + Charges(Advance(b, deps, envsB).s.c)
         == deps.cfg.simulationBudget + 1
  {
    hide Advance, ReadyToCharge, Meets, Charges;
    LiveDriveCharges(a, priorA, deps, envsA, used);
    LiveDriveCharges(b, priorB, deps, envsB, used);
  }
}
