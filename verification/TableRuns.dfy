/** Over a whole `advance_case` run under the decision table, with room for two retries in the config, the
    gate never asks a human, and blocks only for the payment's state, the contact cap, the age or the
    merchant's budget. */
module TableRuns {
  import opened Enums
  import opened Fsm
  import opened PolicyRules
  import opened PolicyEngine
  import opened Gateway
  import opened Trail
  import opened Rows
  import opened Decide
  import opened Executors
  import opened Pipeline
  import opened CaseRuns
  import opened Core
  import opened Limits
  import opened TableGate
  import opened BatchOutcome
  import opened Termination

  /** The decision passes, as far as the case's own columns go, the rules the table is built around. */
  predicate Vetted(k: Core, cfg: PolicyConfig) {
    k.latest.Some? && k.latest.value.origin == FromFallback &&
    var d := k.latest.value;
    && (Retries(k.latest) ==>
          k.retryCount < cfg.maxRetries && k.diagnosis !in {Some(InstrumentInvalid), Some(DuplicateSelfHealed)})
    && (Retries(k.latest) || Links(k.latest) ==>
          && k.facts.amountMinor <= cfg.approvalLimitMinor
          && d.diagnosisConfidence >= cfg.confidenceFloor && d.strategyConfidence >= cfg.confidenceFloor)
    && (d.delayMinutes.Some? ==> d.delayMinutes.value == 240)
  }

  /** Where the latest decision may still reach the gate unrevised. */
  predicate Pending(k: Core) {
    k.status in {Planned, PolicyCheck, Approved} || (k.status in {Diagnosed, Verifying} && k.retryCount == 0)
  }

  predicate Harmless(e: Event) {
    e.PolicyEvaluated? ==>
      && e.verdict != Escalate
      && (e.verdict == Wait ==> e.triggered == Some(P04))
      && (e.verdict == Block ==> e.triggered in {Some(P01), Some(P08), Some(P11), Some(P12)})
  }

  ghost predicate Tabled(k: Core, cfg: PolicyConfig) {
    && k.status != Executing
    && (Pending(k) ==> Vetted(k, cfg))
    && AllHarmless(k.trail)
  }

  ghost predicate AllHarmless(t: seq<Event>) { forall e | e in t :: Harmless(e) }

  lemma HarmlessAppend()
    ensures forall t: seq<Event>, e: Event {:trigger AllHarmless(t + [e])} ::
      AllHarmless(t + [e]) <==> AllHarmless(t) && Harmless(e)
  {
    forall t: seq<Event>, e: Event
      ensures AllHarmless(t + [e]) <==> AllHarmless(t) && Harmless(e)
    {
      assert e in t + [e];
    }
  }

  /** A decision of the table about this case. */
  predicate FromTable(k: Core, cfg: PolicyConfig, d: Decision) {
    Vetted(Choose(k, d), cfg)
  }

  lemma TableIsVetted(k: Core, cfg: PolicyConfig, p: PaymentRow, age: int, hasToken: bool)
    requires cfg.maxRetries >= 2 && p.amountMinor == k.facts.amountMinor
    ensures FromTable(k, cfg, FallbackDecision(p, age, hasToken, cfg, k.retryCount))
  {
    hide FallbackDecision;
    TableChoices(p, age, hasToken, cfg, k.retryCount);
  }

  lemma GateIsHarmless(k: Core, cfg: PolicyConfig, used: nat)
    requires Vetted(k, cfg)
    ensures var rule := Triggered(CoreCtx(k, k.latest.value, cfg, used));
      VerdictOf(rule) != Escalate && Harmless(PolicyEvaluated(VerdictOf(rule), rule))
  {
    var ctx := CoreCtx(k, k.latest.value, cfg, used);
    VerdictsLeft(ctx);
    hide Triggered;
  }

  ghost predicate TabledResult(r: CoreResult, cfg: PolicyConfig) { r.CoreDone? ==> Tabled(r.k, cfg) }

  lemma GateTabled(k: Core, cfg: PolicyConfig, i: Input)
    requires Tabled(k, cfg) && k.status == PolicyCheck
    ensures TabledResult(CoreStep(k, cfg, i), cfg)
  {
    hide Triggered, CoreCtx, AllHarmless, Vetted;
    HarmlessAppend();
    GateIsHarmless(k, cfg, i.usedElsewhere);
    VettedAnywhere(k, cfg);
  }

  lemma VettedAnywhere(k: Core, cfg: PolicyConfig)
    ensures forall to, t, now :: Vetted(k.(status := to, trail := t, now := now), cfg) == Vetted(k, cfg)
    ensures Vetted(k, cfg) ==> k.latest.Some? && k.latest.value.origin == FromFallback
  {
  }

  lemma RetryTabled(k: Core, cfg: PolicyConfig, paid: bool)
    requires Tabled(k, cfg) && k.status == Approved && k.payStatus == PayFailed
    ensures TabledResult(CoreRetry(Jump(k, Executing, Executor), paid), cfg)
  {
    hide Vetted, AllHarmless;
    HarmlessAppend();
  }

  lemma StillVetted(k: Core, k': Core, cfg: PolicyConfig)
    requires k'.latest == k.latest && k'.retryCount == k.retryCount && k'.diagnosis == k.diagnosis
    requires k'.facts == k.facts
    ensures Vetted(k', cfg) == Vetted(k, cfg)
  {
  }

  lemma SentTabled(sent: Core, cfg: PolicyConfig)
    requires sent.status == Executing && sent.payStatus == PayFailed && AllHarmless(sent.trail)
    requires sent.retryCount == 0 ==> Vetted(sent, cfg)
    ensures Tabled(Jump(sent, Failed, Executor), cfg)
    ensures TabledResult(CoreAfterAttempt(sent), cfg)
    ensures TabledResult(CoreAfterAttempt(Capture(sent, ExecutorLink)), cfg)
  {
    hide Vetted, AllHarmless;
    HarmlessAppend();
    StillVetted(sent, Jump(sent.(lastAttemptAt := Some(sent.now)), Verifying, Executor), cfg);
  }

  lemma LinkTabled(k: Core, cfg: PolicyConfig, link: LinkReply, paid: bool)
    requires Tabled(k, cfg) && k.status == Approved && k.payStatus == PayFailed
    ensures TabledResult(CoreLink(Jump(k, Executing, Executor), link, paid), cfg)
  {
    hide Vetted, AllHarmless, TabledResult, CoreAfterAttempt, Capture;
    var sent := SendLink(Jump(k, Executing, Executor), link);
    assert AllHarmless(sent.trail) by { HarmlessAppend(); }
    StillVetted(k, sent, cfg);
    SentTabled(sent, cfg);
    hide SendLink;
    Unfold(CoreLink(Jump(k, Executing, Executor), link, paid), cfg);
  }

  lemma Unfold(r: CoreResult, cfg: PolicyConfig)
    ensures TabledResult(r, cfg) <==> (r.CoreDone? ==> Tabled(r.k, cfg))
  {
  }

  lemma ApprovedTabled(k: Core, cfg: PolicyConfig, i: Input)
    requires Tabled(k, cfg) && k.status == Approved && k.payStatus == PayFailed
    ensures TabledResult(CoreApproved(k, i), cfg)
  {
    hide CoreRetry, CoreLink;
    RetryTabled(k, cfg, i.paid);
    LinkTabled(k, cfg, i.link, i.paid);
  }

  lemma ForcedIsVetted(k: Core, cfg: PolicyConfig)
    ensures Vetted(Jump(Force(k), Diagnosed, System), cfg)
  {
  }

  lemma VerifyingTabled(k: Core, cfg: PolicyConfig, i: Input)
    requires Tabled(k, cfg) && k.status == Verifying
    ensures TabledResult(CoreVerifying(k, cfg, i), cfg)
  {
    hide Vetted, AllHarmless;
    HarmlessAppend();
    ForcedIsVetted(k, cfg);
    VettedAnywhere(k, cfg);
  }

  lemma PlanningTabled(k: Core, cfg: PolicyConfig, i: Input)
    requires Tabled(k, cfg) && FromTable(k, cfg, i.proposal)
    requires k.status in {Detected, Analyzing, Diagnosed, Planned, AwaitingApproval}
    ensures TabledResult(CoreStep(k, cfg, i), cfg)
  {
    hide AllHarmless;
    HarmlessAppend();
  }

  lemma StepTabled(k: Core, cfg: PolicyConfig, i: Input)
    requires Tabled(k, cfg) && FromTable(k, cfg, i.proposal) && !IsTerminal(k.status)
    requires k.status == Approved ==> k.payStatus == PayFailed
    ensures TabledResult(CoreStep(k, cfg, i), cfg)
  {
    hide TabledResult, FromTable;
    if k.status == PolicyCheck {
      GateTabled(k, cfg, i);
    } else if k.status == Approved {
      ApprovedTabled(k, cfg, i);
    } else if k.status == Verifying {
      VerifyingTabled(k, cfg, i);
    } else {
      PlanningTabled(k, cfg, i);
    }
  }

  // ----- Runs -----

  lemma SysStepTabled(s: Sys, cfg: PolicyConfig, rng: Stream, env: Env)
    requires Tabled(Abs(s), cfg) && Grounded(Abs(s), cfg) && TableEnv(env) && !IsTerminal(s.c.status)
    requires cfg.maxRetries >= 2
    ensures
      var r := Step(s, Deps(cfg, true, rng), env);
      r.Done? && r.moved && Grounded(Abs(r.s), cfg) && Tabled(Abs(r.s), cfg)
  {
    hide Numbered, ChargeTimes, CountKind, Measure, Step, CoreStep, FallbackDecision, FromTable, Tabled;
    var deps := Deps(cfg, true, rng);
    var fallback := FallbackDecision(s.p, Pipeline.Age(s.now, s.p), s.c.hasToken, cfg, s.c.retryCount);
    FallbackIsChosen(env, 0, fallback);
    TableIsVetted(Abs(s), cfg, s.p, Pipeline.Age(s.now, s.p), s.c.hasToken);
    StepRefines(s, deps, env);
    SysStepDescends(s, cfg, rng, env);
    StepTabled(Abs(s), cfg, Inputs(s, deps, env));
  }

  lemma {:induction false} DriveTabled(s: Sys, cfg: PolicyConfig, rng: Stream, envs: nat -> Env, steps: nat,
                                       budget: nat)
    requires Tabled(Abs(s), cfg) && Grounded(Abs(s), cfg) && forall n: nat :: TableEnv(envs(n))
    requires cfg.maxRetries >= 2
    ensures
      var end := DriveFor(s, Deps(cfg, true, rng), envs, steps, budget);
      end.Ended? && forall e | e in end.s.c.trail :: Harmless(e)
    decreases budget
  {
    hide Step, Grounded, TableEnv;
    if IsTerminal(s.c.status) || budget == 0 {
      assert s.c.trail == Abs(s).trail;
    } else {
      hide Tabled, Harmless, Abs;
      SysStepTabled(s, cfg, rng, envs(steps));
      DriveTabled(Step(s, Deps(cfg, true, rng), envs(steps)).s, cfg, rng, envs, steps + 1, budget - 1);
    }
  }

  /** Over every run under the decision table, whatever the step budget, no policy evaluation on the trail is
      an ESCALATE, every WAIT is the cooldown's and every BLOCK comes from P01, P08, P11 or P12; it raises only when
      the amount cannot be scored. */
  lemma TableRunsAreHarmless(s: Sys, r: nat, cfg: PolicyConfig, rng: Stream, envs: nat -> Env, budget: nat)
    requires FreshCase(s.c, r) && forall n: nat :: TableEnv(envs(n))
    requires cfg.maxRetries >= 2
    ensures
      var end := DriveFor(s, Deps(cfg, true, rng), envs, 0, budget);
      && (end.Ended? <==> Scorable(s.p.amountMinor) || budget == 0)
      && (end.Ended? ==> forall e | e in end.s.c.trail :: Harmless(e))
  {
    if Scorable(s.p.amountMinor) {
      assert Tabled(Abs(s), cfg) && Grounded(Abs(s), cfg);
      hide Tabled, Grounded, DriveFor;
      DriveTabled(s, cfg, rng, envs, 0, budget);
    }
  }
}
