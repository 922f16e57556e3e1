/** Runs from a fresh case that reach the states the conditions of the run theorems exclude. They belong to a
    driver that commits between steps, which the transition table and the decision endpoint allow and the
    shipped drivers do not do: no committed state of theirs is one of these (see `Transactions`). */
module Witnesses {
  import opened Enums
  import opened Strategies
  import opened PolicyRules
  import opened PolicyEngine
  import opened Gateway
  import opened Rows
  import opened Decide
  import opened Executors
  import opened Pipeline
  import opened CaseRuns
  import opened Core
  import opened Limits
  import opened GatewayRuns
  import opened Spacing

  // ----- The columns a witness follows -----

  datatype Mark = Mark(
    status: CaseStatus,
    latest: Option<Decision>,
    diagnosis: Option<DiagnosisClass>,
    retryCount: nat,
    times: seq<int>,
    links: nat,
    lastAttemptAt: Option<int>,
    parked: bool,
    payStatus: PaymentStatus,
    now: int)

  function MarkOf(k: Core): Mark {
    Mark(k.status, k.latest, k.diagnosis, k.retryCount, k.chargeTimes, k.links, k.lastAttemptAt, k.parked, k.payStatus,
         k.now)
  }

  /** A gateway on which nobody pays. */
  const NEVER: Stream := (n: nat) => 1.0

  const MIRROR := PaymentRow(PayFailed, 100, None, None, 0)

  const START := Sys(NewCaseRow("pay_1", true, Some(0.5)), MIRROR, 0, FRESH)

  const FACTS := Facts("pay_1", true, Some(0.5), None, None, 100, 0)

  ghost predicate Matches(k: Core, m: Mark) { MarkOf(k) == m && k.notices == 0 && k.facts == FACTS }

  ghost predicate At(s: Sys, m: Mark) { Matches(Abs(s), m) && !Latent(NEVER, s.g, "pay_1", 0.5) }

  /** A model answer for a bank outage: retry, or send a link, with the given confidence. */
  function Says(strategy: Strategy, confidence: int): RawOutput {
    RawOutput(Some("BANK_DOWNTIME"), Some(NameOf(strategy)), Some(90), Some(confidence), None)
  }

  function NameOf(strategy: Strategy): string {
    if strategy == S1 then "S1_IMMEDIATE_RETRY" else "S3_NOTIFY_WITH_LINK"
  }

  function Plan(strategy: Strategy, confidence: int): Decision {
    Decision(FromLlm, BankDowntime, 90, strategy, confidence, None)
  }

  function Work(strategy: Strategy, confidence: int): CaseEvent {
    WorkerStep(true, Env([Some(Says(strategy, confidence))], NoRealAdapter, 0))
  }

  // ----- One event at a time -----

  lemma Answered(s: Sys, cfg: PolicyConfig, strategy: Strategy, confidence: int)
    requires strategy == S1 || strategy == S3
    requires 0 <= confidence <= 100
    ensures Proposal(s, cfg, [Some(Says(strategy, confidence))]) == Plan(strategy, confidence)
  {
  }

  /** A step at which neither the gate nor an executor has a say. */
  function Planned(m: Mark, d: Decision): Mark {
    match m.status
    case Detected => m.(status := Analyzing)
    case Analyzing => m.(status := Diagnosed, latest := Some(d), diagnosis := Some(d.diagnosis))
    case Diagnosed =>
      if m.retryCount > 0 then m.(status := CaseStatus.Planned, latest := Some(d), diagnosis := Some(d.diagnosis))
      else m.(status := CaseStatus.Planned)
    case Planned => m.(status := PolicyCheck)
    case _ => m.(status := Verifying)
  }

  /** A worker step follows the columns' step, and the payment stays unpaid. */
  lemma Follows(s: Sys, m: Mark, cfg: PolicyConfig, strategy: Strategy, confidence: int, next: Core, moved: bool,
                after: Mark)
    requires At(s, m) && (strategy == S1 || strategy == S3) && 0 <= confidence <= 100
    requires CoreStep(Abs(s), cfg, InputOf(m, strategy, confidence)) == CoreDone(next, moved) && MarkOf(next) == after
    requires next.notices == 0
    ensures At(Apply(s, cfg, NEVER, Work(strategy, confidence)), after)
  {
    hide Numbered, ChargeTimes, CountKind, Step, CoreStep, Chosen, FallbackDecision, Latent, Rolled, Asks, Says;
    var deps, env := Deps(cfg, true, NEVER), Work(strategy, confidence).env;
    Answered(s, cfg, strategy, confidence);
    StepRefines(s, deps, env);
    assert Inputs(s, deps, env) == InputOf(m, strategy, confidence);
    FactsKept(Abs(s), cfg, Inputs(s, deps, env));
    StepAsks(s, deps, env);
    NeverPays(s.g);
  }

  function InputOf(m: Mark, strategy: Strategy, confidence: int): Input {
    Input(true, Plan(strategy, confidence), NoRealAdapter, false, 0)
  }

  lemma NeverPays(g: GatewayState)
    ensures !Latent(NEVER, g, "pay_1", 0.5) ==> !Latent(NEVER, Rolled(NEVER, g, "pay_1", 0.5), "pay_1", 0.5)
  {
  }

  lemma PlansAt(s: Sys, m: Mark, cfg: PolicyConfig, strategy: Strategy, confidence: int)
    requires At(s, m) && (strategy == S1 || strategy == S3) && 0 <= confidence <= 100
    requires m.status in {Detected, Analyzing, Diagnosed, CaseStatus.Planned, Executing}
    ensures At(Apply(s, cfg, NEVER, Work(strategy, confidence)), Planned(m, Plan(strategy, confidence)))
  {
    var r := CoreStep(Abs(s), cfg, InputOf(m, strategy, confidence));
    hide Abs, Latent, Apply;
    Follows(s, m, cfg, strategy, confidence, r.k, r.moved, Planned(m, Plan(strategy, confidence)));
  }

  lemma GatesAt(s: Sys, m: Mark, cfg: PolicyConfig, strategy: Strategy, confidence: int, d: Decision, verdict: Verdict)
    requires At(s, m) && (strategy == S1 || strategy == S3) && 0 <= confidence <= 100
    requires m.status == PolicyCheck && m.latest == Some(d)
    requires verdict == VerdictOf(Triggered(CoreCtx(Abs(s), d, cfg, 0))) && (verdict == Allow || verdict == Escalate)
    ensures At(Apply(s, cfg, NEVER, Work(strategy, confidence)),
               if verdict == Allow then m.(status := Approved) else m.(status := AwaitingApproval, parked := true))
  {
    hide Triggered, CoreCtx, Abs, Latent, Apply;
    var r := CoreStep(Abs(s), cfg, InputOf(m, strategy, confidence));
    Follows(s, m, cfg, strategy, confidence, r.k, r.moved,
            if verdict == Allow then m.(status := Approved) else m.(status := AwaitingApproval, parked := true));
  }

  lemma ChargesAt(s: Sys, m: Mark, cfg: PolicyConfig, strategy: Strategy, confidence: int)
    requires At(s, m) && (strategy == S1 || strategy == S3) && 0 <= confidence <= 100
    requires m.status == Approved && Retries(m.latest)
    ensures At(Apply(s, cfg, NEVER, Work(strategy, confidence)),
               m.(status := if m.payStatus == PayCaptured then Executing else Verifying, retryCount := m.retryCount + 1,
                  times := m.times + [m.now],
                  lastAttemptAt := if m.payStatus == PayCaptured then m.lastAttemptAt else Some(m.now)))
  {
    hide Abs, Latent, Apply, Charge, Capture;
    Shapes(Jump(Abs(s), Executing, Executor), NoRealAdapter, ExecutorRetry);
    var r := CoreStep(Abs(s), cfg, InputOf(m, strategy, confidence));
    Follows(s, m, cfg, strategy, confidence, r.k, r.moved,
            m.(status := if m.payStatus == PayCaptured then Executing else Verifying, retryCount := m.retryCount + 1,
               times := m.times + [m.now],
               lastAttemptAt := if m.payStatus == PayCaptured then m.lastAttemptAt else Some(m.now)));
  }

  lemma LinksAt(s: Sys, m: Mark, cfg: PolicyConfig, strategy: Strategy, confidence: int)
    requires At(s, m) && (strategy == S1 || strategy == S3) && 0 <= confidence <= 100
    requires m.status == Approved && Links(m.latest) && m.payStatus == PayFailed
    ensures At(Apply(s, cfg, NEVER, Work(strategy, confidence)),
               m.(status := Verifying, links := m.links + 1, lastAttemptAt := Some(m.now)))
  {
    hide Abs, Latent, Apply, SendLink, Capture;
    Shapes(Jump(Abs(s), Executing, Executor), NoRealAdapter, ExecutorLink);
    var r := CoreStep(Abs(s), cfg, InputOf(m, strategy, confidence));
    Follows(s, m, cfg, strategy, confidence, r.k, r.moved,
            m.(status := Verifying, links := m.links + 1, lastAttemptAt := Some(m.now)));
  }

  lemma ReturnsAt(s: Sys, m: Mark, cfg: PolicyConfig, strategy: Strategy, confidence: int)
    requires At(s, m) && (strategy == S1 || strategy == S3) && 0 <= confidence <= 100
    requires m.status == Verifying && m.payStatus == PayFailed && Retries(m.latest)
    requires m.links == 0 && cfg.contactCap7d > 0
    ensures At(Apply(s, cfg, NEVER, Work(strategy, confidence)),
               m.(status := Diagnosed, now := m.now + CooldownMinutes(m.retryCount)))
  {
    hide Abs, Latent, Apply, CooldownMinutes;
    var r := CoreStep(Abs(s), cfg, InputOf(m, strategy, confidence));
    Follows(s, m, cfg, strategy, confidence, r.k, r.moved,
            m.(status := Diagnosed, now := m.now + CooldownMinutes(m.retryCount)));
  }

  lemma ApprovesAt(s: Sys, m: Mark, cfg: PolicyConfig)
    requires At(s, m) && (m.status == AwaitingApproval || m.status == PolicyCheck) && m.parked
    ensures At(Apply(s, cfg, NEVER, HumanDecision(0, true)), m.(status := Approved))
    ensures SkipsGate(s, HumanDecision(0, true)) <==> m.status == PolicyCheck
    ensures Approves(s, HumanDecision(0, true))
  {
    hide Numbered, ChargeTimes, CountKind, Latent;
  }

  lemma MirrorsAt(s: Sys, m: Mark, cfg: PolicyConfig, status: PaymentStatus)
    requires At(s, m)
    ensures At(Apply(s, cfg, NEVER, FailedWebhook(MIRROR.(status := status))), m.(payStatus := status))
  {
    hide Numbered, ChargeTimes, CountKind, Latent;
  }

  lemma StartsAt()
    ensures FreshCase(START.c, 0) && At(START, Mark(Detected, None, None, 0, [], 0, None, false, PayFailed, 0))
  {
  }

  // ----- Whole runs -----

  /** A run of these events from the fresh case ends at the mark, with `skips` approvals in the gate's place and
      `approvals` in all. */
  ghost predicate Reached(cfg: PolicyConfig, es: seq<CaseEvent>, m: Mark, skips: nat, approvals: nat) {
    && At(Run(START, cfg, NEVER, es), m)
    && Skips(START, cfg, NEVER, es) == skips && Approvals(START, cfg, NEVER, es) == approvals
  }

  lemma Extends(cfg: PolicyConfig, es: seq<CaseEvent>, e: CaseEvent, m: Mark, skips: nat, approvals: nat, after: Mark)
    requires Reached(cfg, es, m, skips, approvals) && At(Apply(Run(START, cfg, NEVER, es), cfg, NEVER, e), after)
    ensures Reached(cfg, es + [e], after,
                    skips + (if SkipsGate(Run(START, cfg, NEVER, es), e) then 1 else 0),
                    approvals + if Approves(Run(START, cfg, NEVER, es), e) then 1 else 0)
  {
    hide At, Apply, SkipsGate, Approves;
    assert (es + [e])[..|es|] == es;
  }

  lemma Plans(cfg: PolicyConfig, es: seq<CaseEvent>, m: Mark, skips: nat, approvals: nat, strategy: Strategy,
              confidence: int)
    requires Reached(cfg, es, m, skips, approvals) && (strategy == S1 || strategy == S3) && 0 <= confidence <= 100
    requires m.status in {Detected, Analyzing, Diagnosed, CaseStatus.Planned, Executing}
    ensures Reached(cfg, es + [Work(strategy, confidence)], Planned(m, Plan(strategy, confidence)), skips, approvals)
  {
    hide At, Apply, Run, Skips, Approvals;
    PlansAt(Run(START, cfg, NEVER, es), m, cfg, strategy, confidence);
    Extends(cfg, es, Work(strategy, confidence), m, skips, approvals, Planned(m, Plan(strategy, confidence)));
  }

  /** What the gate says to a first plan for the witness payment, under a config it fits. */
  lemma GateSays(k: Core, m: Mark, cfg: PolicyConfig, strategy: Strategy, confidence: int)
    requires Matches(k, m) && m.status == PolicyCheck && m.payStatus == PayFailed && m.diagnosis == Some(BankDowntime)
    requires strategy == S1 || strategy == S3
    requires 0 <= m.now < cfg.ttlHours * HOUR && 100 <= cfg.approvalLimitMinor && cfg.confidenceFloor <= 90
    requires strategy == S1 ==>
      m.retryCount < cfg.maxRetries && m.lastAttemptAt.None? && |m.times| < cfg.simulationBudget
    requires strategy == S3 ==> confidence < cfg.confidenceFloor
    ensures VerdictOf(Triggered(CoreCtx(k, Plan(strategy, confidence), cfg, 0)))
            == if confidence < cfg.confidenceFloor then Escalate else Allow
  {
  }

  lemma Gates(cfg: PolicyConfig, es: seq<CaseEvent>, m: Mark, skips: nat, approvals: nat, strategy: Strategy,
              confidence: int)
    requires Reached(cfg, es, m, skips, approvals) && (strategy == S1 || strategy == S3) && 0 <= confidence <= 100
    requires m.status == PolicyCheck && m.payStatus == PayFailed && m.diagnosis == Some(BankDowntime)
    requires m.latest == Some(Plan(strategy, confidence))
    requires 0 <= m.now < cfg.ttlHours * HOUR && 100 <= cfg.approvalLimitMinor && cfg.confidenceFloor <= 90
    requires strategy == S1 ==>
      m.retryCount < cfg.maxRetries && m.lastAttemptAt.None? && |m.times| < cfg.simulationBudget
    requires strategy == S3 ==> confidence < cfg.confidenceFloor
    ensures Reached(cfg, es + [Work(strategy, confidence)],
                    if confidence < cfg.confidenceFloor then m.(status := AwaitingApproval, parked := true)
                    else m.(status := Approved), skips, approvals)
  {
    hide Apply, Run, Skips, Approvals, Triggered, CoreCtx, Abs, Matches, Latent;
    var s, d := Run(START, cfg, NEVER, es), Plan(strategy, confidence);
    GateSays(Abs(s), m, cfg, strategy, confidence);
    var verdict := VerdictOf(Triggered(CoreCtx(Abs(s), d, cfg, 0)));
    GatesAt(s, m, cfg, strategy, confidence, d, verdict);
    Extends(cfg, es, Work(strategy, confidence), m, skips, approvals,
            if verdict == Allow then m.(status := Approved) else m.(status := AwaitingApproval, parked := true));
  }

  lemma Charges(cfg: PolicyConfig, es: seq<CaseEvent>, m: Mark, skips: nat, approvals: nat, confidence: int)
    requires Reached(cfg, es, m, skips, approvals) && 0 <= confidence <= 100
    requires m.status == Approved && Retries(m.latest)
    ensures
      var unstamped := m.payStatus == PayCaptured;
      Reached(cfg, es + [Work(S1, confidence)],
              m.(status := if unstamped then Executing else Verifying, retryCount := m.retryCount + 1,
                 times := m.times + [m.now], lastAttemptAt := if unstamped then m.lastAttemptAt else Some(m.now)),
              skips, approvals)
  {
    hide At, Apply, Run, Skips, Approvals;
    ChargesAt(Run(START, cfg, NEVER, es), m, cfg, S1, confidence);
    Extends(cfg, es, Work(S1, confidence), m, skips, approvals,
            m.(status := if m.payStatus == PayCaptured then Executing else Verifying, retryCount := m.retryCount + 1,
               times := m.times + [m.now],
               lastAttemptAt := if m.payStatus == PayCaptured then m.lastAttemptAt else Some(m.now)));
  }

  lemma Returns(cfg: PolicyConfig, es: seq<CaseEvent>, m: Mark, skips: nat, approvals: nat, confidence: int)
    requires Reached(cfg, es, m, skips, approvals) && 0 <= confidence <= 100
    requires m.status == Verifying && m.payStatus == PayFailed && Retries(m.latest) && m.links == 0
    requires cfg.contactCap7d > 0
    ensures Reached(cfg, es + [Work(S1, confidence)],
                    m.(status := Diagnosed, now := m.now + CooldownMinutes(m.retryCount)), skips, approvals)
  {
    hide At, Apply, Run, Skips, Approvals;
    ReturnsAt(Run(START, cfg, NEVER, es), m, cfg, S1, confidence);
    Extends(cfg, es, Work(S1, confidence), m, skips, approvals,
            m.(status := Diagnosed, now := m.now + CooldownMinutes(m.retryCount)));
  }

  lemma IsApproved(cfg: PolicyConfig, es: seq<CaseEvent>, m: Mark, skips: nat, approvals: nat)
    requires Reached(cfg, es, m, skips, approvals)
    requires (m.status == AwaitingApproval || m.status == PolicyCheck) && m.parked
    ensures Reached(cfg, es + [HumanDecision(0, true)], m.(status := Approved),
                    skips + (if m.status == PolicyCheck then 1 else 0), approvals + 1)
  {
    hide At, Apply, Run, Skips, Approvals, SkipsGate, Approves;
    ApprovesAt(Run(START, cfg, NEVER, es), m, cfg);
    Extends(cfg, es, HumanDecision(0, true), m, skips, approvals, m.(status := Approved));
  }

  lemma Mirrors(cfg: PolicyConfig, es: seq<CaseEvent>, m: Mark, skips: nat, approvals: nat, status: PaymentStatus)
    requires Reached(cfg, es, m, skips, approvals)
    ensures Reached(cfg, es + [FailedWebhook(MIRROR.(status := status))], m.(payStatus := status), skips, approvals)
  {
    hide At, Apply, Run, Skips, Approvals;
    MirrorsAt(Run(START, cfg, NEVER, es), m, cfg, status);
    Extends(cfg, es, FailedWebhook(MIRROR.(status := status)), m, skips, approvals, m.(payStatus := status));
  }

  /** The case at its first policy check, the model having proposed the strategy. */
  function FirstCheck(strategy: Strategy, confidence: int): Mark {
    Mark(PolicyCheck, Some(Plan(strategy, confidence)), Some(BankDowntime), 0, [], 0, None, false, PayFailed, 0)
  }

  lemma ReachesDiagnosis(cfg: PolicyConfig, strategy: Strategy, confidence: int)
    requires (strategy == S1 || strategy == S3) && 0 <= confidence <= 100
    ensures
      var w, d := Work(strategy, confidence), Plan(strategy, confidence);
      Reached(cfg, [w, w], FirstCheck(strategy, confidence).(status := Diagnosed), 0, 0)
  {
    hide At, Apply;
    var w, d := Work(strategy, confidence), Plan(strategy, confidence);
    var m0 := Mark(Detected, None, None, 0, [], 0, None, false, PayFailed, 0);
    StartsAt();
    assert Reached(cfg, [], m0, 0, 0);
    hide Run, Skips, Approvals, Reached, Work;
    Plans(cfg, [], m0, 0, 0, strategy, confidence);
    assert [] + [w] == [w];
    Plans(cfg, [w], Planned(m0, d), 0, 0, strategy, confidence);
    assert [w] + [w] == [w, w];
  }

  lemma ReachesFirstCheck(cfg: PolicyConfig, strategy: Strategy, confidence: int)
    requires (strategy == S1 || strategy == S3) && 0 <= confidence <= 100
    ensures var w := Work(strategy, confidence);
      Reached(cfg, [w, w, w, w], FirstCheck(strategy, confidence), 0, 0)
  {
    hide Reached, Work;
    var w, m := Work(strategy, confidence), FirstCheck(strategy, confidence).(status := Diagnosed);
    ReachesDiagnosis(cfg, strategy, confidence);
    Plans(cfg, [w, w], m, 0, 0, strategy, confidence);
    assert [w, w] + [w] == [w, w, w];
    Plans(cfg, [w, w, w], m.(status := CaseStatus.Planned), 0, 0, strategy, confidence);
    assert [w, w, w] + [w] == [w, w, w, w];
  }

  lemma ReachedTells(cfg: PolicyConfig, es: seq<CaseEvent>, m: Mark, skips: nat, approvals: nat)
    requires Reached(cfg, es, m, skips, approvals)
    ensures var c := Run(START, cfg, NEVER, es).c;
      && FreshCase(START.c, 0)
      && c.retryCount == m.retryCount && ChargeTimes(c.actions) == m.times && Contacts(c) == m.links
      && Skips(START, cfg, NEVER, es) == skips && Approvals(START, cfg, NEVER, es) == approvals
  {
    hide Run, Skips, Approvals, ChargeTimes, CountKind, Numbered, Latent;
    StartsAt();
  }

  // ----- Past the retry bound -----

  const ONE_RETRY := DEFAULT_CONFIG.(maxRetries := 1)

  /** An unsure retry goes to a human, is approved and fails; the second retry is approved while the case is in
      POLICY_CHECK. */
  function SkippingRun(): seq<CaseEvent> {
    var w, h := Work(S1, 10), HumanDecision(0, true);
    [w, w, w, w, w, h, w, w, w, w, h, w]
  }

  lemma SkippingRunIsAsked()
    ensures var w := Work(S1, 10);
      Reached(ONE_RETRY, [w, w, w, w, w], FirstCheck(S1, 10).(status := AwaitingApproval, parked := true), 0, 0)
  {
    hide Reached, Work;
    var w, m := Work(S1, 10), FirstCheck(S1, 10);
    ReachesFirstCheck(ONE_RETRY, S1, 10);
    Gates(ONE_RETRY, [w, w, w, w], m, 0, 0, S1, 10);
    assert [w, w, w, w] + [w] == [w, w, w, w, w];
  }

  lemma SkippingRunIsApproved()
    ensures var w, h := Work(S1, 10), HumanDecision(0, true);
      Reached(ONE_RETRY, [w, w, w, w, w, h], FirstCheck(S1, 10).(status := Approved, parked := true), 0, 1)
  {
    hide Reached, Work;
    var w, h, m := Work(S1, 10), HumanDecision(0, true), FirstCheck(S1, 10);
    SkippingRunIsAsked();
    IsApproved(ONE_RETRY, [w, w, w, w, w], m.(status := AwaitingApproval, parked := true), 0, 0);
    assert [w, w, w, w, w] + [h] == [w, w, w, w, w, h];
  }

  /** After its one charge failed, the case is back where the model retries. */
  function Retried(confidence: int, lastAttemptAt: Option<int>, parked: bool): Mark {
    FirstCheck(S1, confidence).(status := Diagnosed, retryCount := 1, times := [0], lastAttemptAt := lastAttemptAt,
                                parked := parked, now := 120)
  }

  lemma SkippingRunReturns()
    ensures var w, h := Work(S1, 10), HumanDecision(0, true);
      Reached(ONE_RETRY, [w, w, w, w, w, h, w, w], Retried(10, Some(0), true), 0, 1)
  {
    hide Reached, Work;
    var w, h, m := Work(S1, 10), HumanDecision(0, true), FirstCheck(S1, 10);
    SkippingRunIsApproved();
    Charges(ONE_RETRY, [w, w, w, w, w, h], m.(status := Approved, parked := true), 0, 1, 10);
    assert [w, w, w, w, w, h] + [w] == [w, w, w, w, w, h, w];
    assert [] + [0] == [0];
    Returns(ONE_RETRY, [w, w, w, w, w, h, w],
            m.(status := Verifying, parked := true, retryCount := 1, times := [0], lastAttemptAt := Some(0)), 0, 1, 10);
    assert [w, w, w, w, w, h, w] + [w] == [w, w, w, w, w, h, w, w];
  }

  lemma SkippingRunIsChecked()
    ensures var w, h := Work(S1, 10), HumanDecision(0, true);
      Reached(ONE_RETRY, [w, w, w, w, w, h, w, w, w, w], Retried(10, Some(0), true).(status := PolicyCheck), 0, 1)
  {
    hide Reached, Work;
    var w, h, m := Work(S1, 10), HumanDecision(0, true), Retried(10, Some(0), true);
    SkippingRunReturns();
    Plans(ONE_RETRY, [w, w, w, w, w, h, w, w], m, 0, 1, S1, 10);
    assert [w, w, w, w, w, h, w, w] + [w] == [w, w, w, w, w, h, w, w, w];
    Plans(ONE_RETRY, [w, w, w, w, w, h, w, w, w], m.(status := CaseStatus.Planned), 0, 1, S1, 10);
    assert [w, w, w, w, w, h, w, w, w] + [w] == [w, w, w, w, w, h, w, w, w, w];
  }

  lemma SkippingRunEnds()
    ensures Reached(ONE_RETRY, SkippingRun(),
                    Retried(10, Some(120), true).(status := Verifying, retryCount := 2, times := [0, 120]), 1, 2)
  {
    hide Reached, Work;
    var w, h, m := Work(S1, 10), HumanDecision(0, true), Retried(10, Some(0), true);
    SkippingRunIsChecked();
    IsApproved(ONE_RETRY, [w, w, w, w, w, h, w, w, w, w], m.(status := PolicyCheck), 0, 1);
    assert [w, w, w, w, w, h, w, w, w, w] + [h] == [w, w, w, w, w, h, w, w, w, w, h];
    Charges(ONE_RETRY, [w, w, w, w, w, h, w, w, w, w, h], m.(status := Approved), 1, 2, 10);
    assert [0] + [120] == [0, 120];
    assert [w, w, w, w, w, h, w, w, w, w, h] + [w] == SkippingRun();
  }

  /** The retry bound of `AttemptsAreBounded` is attained: with one approval in the gate's place, retry_count is
      one more than max(prior, max_retries). */
  lemma SkippedGatePassesRetryBound()
    ensures FreshCase(START.c, 0) && Skips(START, ONE_RETRY, NEVER, SkippingRun()) == 1
    ensures Run(START, ONE_RETRY, NEVER, SkippingRun()).c.retryCount == Max(0, ONE_RETRY.maxRetries) + 1
  {
    hide Reached, Work, Run, Skips, Approvals, FreshCase, ChargeTimes, CountKind;
    SkippingRunEnds();
    ReachedTells(ONE_RETRY, SkippingRun(),
                 Retried(10, Some(120), true).(status := Verifying, retryCount := 2, times := [0, 120]), 1, 2);
  }

  // ----- Past the contact cap -----

  const NO_CONTACT := DEFAULT_CONFIG.(contactCap7d := 0)

  function ContactRun(): seq<CaseEvent> {
    var l := Work(S3, 10);
    [l, l, l, l, l, HumanDecision(0, true), l]
  }

  lemma ContactRunIsAsked()
    ensures var l := Work(S3, 10);
      Reached(NO_CONTACT, [l, l, l, l, l], FirstCheck(S3, 10).(status := AwaitingApproval, parked := true), 0, 0)
  {
    hide Reached, Work;
    var l, m := Work(S3, 10), FirstCheck(S3, 10);
    ReachesFirstCheck(NO_CONTACT, S3, 10);
    Gates(NO_CONTACT, [l, l, l, l], m, 0, 0, S3, 10);
    assert [l, l, l, l] + [l] == [l, l, l, l, l];
  }

  lemma ContactRunIsApproved()
    ensures var l, h := Work(S3, 10), HumanDecision(0, true);
      Reached(NO_CONTACT, [l, l, l, l, l, h], FirstCheck(S3, 10).(status := Approved, parked := true), 0, 1)
  {
    hide Reached, Work;
    var l, h, m := Work(S3, 10), HumanDecision(0, true), FirstCheck(S3, 10);
    ContactRunIsAsked();
    IsApproved(NO_CONTACT, [l, l, l, l, l], m.(status := AwaitingApproval, parked := true), 0, 0);
    assert [l, l, l, l, l] + [h] == [l, l, l, l, l, h];
  }

  lemma ContactRunEnds()
    ensures Reached(NO_CONTACT, ContactRun(),
                    FirstCheck(S3, 10).(status := Verifying, parked := true, links := 1, lastAttemptAt := Some(0)),
                    0, 1)
  {
    hide Reached, Work;
    var l, h, m := Work(S3, 10), HumanDecision(0, true), FirstCheck(S3, 10);
    ContactRunIsApproved();
    LinksReached(NO_CONTACT, [l, l, l, l, l, h], m.(status := Approved, parked := true), 0, 1);
    assert [l, l, l, l, l, h] + [l] == ContactRun();
  }

  /** The contact bound is attained: one approval, and one contact beyond the cap. */
  lemma ApprovalPassesContactCap()
    ensures FreshCase(START.c, 0) && Approvals(START, NO_CONTACT, NEVER, ContactRun()) == 1
    ensures Skips(START, NO_CONTACT, NEVER, ContactRun()) == 0
    ensures Contacts(Run(START, NO_CONTACT, NEVER, ContactRun()).c) == Max(0, NO_CONTACT.contactCap7d) + 1
  {
    hide Reached, Work, Run, Skips, Approvals, FreshCase, ChargeTimes, CountKind;
    ContactRunEnds();
    ReachedTells(NO_CONTACT, ContactRun(),
                 FirstCheck(S3, 10).(status := Verifying, parked := true, links := 1, lastAttemptAt := Some(0)), 0, 1);
  }

  lemma LinksReached(cfg: PolicyConfig, es: seq<CaseEvent>, m: Mark, skips: nat, approvals: nat)
    requires Reached(cfg, es, m, skips, approvals) && m.status == Approved && Links(m.latest)
    requires m.payStatus == PayFailed
    ensures Reached(cfg, es + [Work(S3, 10)],
                    m.(status := Verifying, links := m.links + 1, lastAttemptAt := Some(m.now)),
                    skips, approvals)
  {
    hide At, Apply, Run, Skips, Approvals;
    LinksAt(Run(START, cfg, NEVER, es), m, cfg, S3, 10);
    Extends(cfg, es, Work(S3, 10), m, skips, approvals,
            m.(status := Verifying, links := m.links + 1, lastAttemptAt := Some(m.now)));
  }

  // ----- Charges too close -----

  const SLOW := DEFAULT_CONFIG.(cooldownBaseMin := 200)

  /** A webhook claims a capture just before the first charge, and another takes it back after. */
  function UnstampedRun(): seq<CaseEvent> {
    var w := Work(S1, 90);
    [w, w, w, w, w, CLAIM, w, BACK, w, w, w, w, w, w]
  }

  const CLAIM := FailedWebhook(MIRROR.(status := PayCaptured))
  const BACK := FailedWebhook(MIRROR.(status := PayFailed))

  lemma UnstampedRunCharges()
    ensures var w := Work(S1, 90);
      Reached(SLOW, [w, w, w, w, w, CLAIM, w],
              FirstCheck(S1, 90).(status := Executing, payStatus := PayCaptured, retryCount := 1, times := [0]), 0, 0)
  {
    hide Reached, Work;
    var w, m := Work(S1, 90), FirstCheck(S1, 90);
    ReachesFirstCheck(SLOW, S1, 90);
    Gates(SLOW, [w, w, w, w], m, 0, 0, S1, 90);
    assert [w, w, w, w] + [w] == [w, w, w, w, w];
    Mirrors(SLOW, [w, w, w, w, w], m.(status := Approved), 0, 0, PayCaptured);
    assert [w, w, w, w, w] + [CLAIM] == [w, w, w, w, w, CLAIM];
    Charges(SLOW, [w, w, w, w, w, CLAIM], m.(status := Approved, payStatus := PayCaptured), 0, 0, 90);
    assert [] + [0] == [0];
    assert [w, w, w, w, w, CLAIM] + [w] == [w, w, w, w, w, CLAIM, w];
  }

  lemma UnstampedRunVerifies()
    ensures var w := Work(S1, 90);
      Reached(SLOW, [w, w, w, w, w, CLAIM, w, BACK, w],
              FirstCheck(S1, 90).(status := Verifying, retryCount := 1, times := [0]), 0, 0)
  {
    hide Reached, Work;
    var w := Work(S1, 90);
    var m := FirstCheck(S1, 90).(status := Executing, payStatus := PayCaptured, retryCount := 1, times := [0]);
    UnstampedRunCharges();
    Mirrors(SLOW, [w, w, w, w, w, CLAIM, w], m, 0, 0, PayFailed);
    assert [w, w, w, w, w, CLAIM, w] + [BACK] == [w, w, w, w, w, CLAIM, w, BACK];
    Plans(SLOW, [w, w, w, w, w, CLAIM, w, BACK], m.(payStatus := PayFailed), 0, 0, S1, 90);
    assert [w, w, w, w, w, CLAIM, w, BACK] + [w] == [w, w, w, w, w, CLAIM, w, BACK, w];
  }

  lemma UnstampedRunReturns()
    ensures var w := Work(S1, 90);
      Reached(SLOW, [w, w, w, w, w, CLAIM, w, BACK, w, w, w], Retried(90, None, false).(status := CaseStatus.Planned),
              0, 0)
  {
    hide Reached, Work;
    var w := Work(S1, 90);
    UnstampedRunVerifies();
    Returns(SLOW, [w, w, w, w, w, CLAIM, w, BACK, w],
            FirstCheck(S1, 90).(status := Verifying, retryCount := 1, times := [0]),
            0, 0, 90);
    assert [w, w, w, w, w, CLAIM, w, BACK, w] + [w] == [w, w, w, w, w, CLAIM, w, BACK, w, w];
    Plans(SLOW, [w, w, w, w, w, CLAIM, w, BACK, w, w], Retried(90, None, false), 0, 0, S1, 90);
    assert [w, w, w, w, w, CLAIM, w, BACK, w, w] + [w] == [w, w, w, w, w, CLAIM, w, BACK, w, w, w];
  }

  lemma UnstampedRunIsApproved()
    ensures var w := Work(S1, 90);
      Reached(SLOW, [w, w, w, w, w, CLAIM, w, BACK, w, w, w, w, w], Retried(90, None, false).(status := Approved), 0, 0)
  {
    hide Reached, Work;
    var w, m := Work(S1, 90), Retried(90, None, false);
    UnstampedRunReturns();
    Plans(SLOW, [w, w, w, w, w, CLAIM, w, BACK, w, w, w], m.(status := CaseStatus.Planned), 0, 0, S1, 90);
    assert [w, w, w, w, w, CLAIM, w, BACK, w, w, w] + [w] == [w, w, w, w, w, CLAIM, w, BACK, w, w, w, w];
    Gates(SLOW, [w, w, w, w, w, CLAIM, w, BACK, w, w, w, w], m.(status := PolicyCheck), 0, 0, S1, 90);
    assert [w, w, w, w, w, CLAIM, w, BACK, w, w, w, w] + [w] == [w, w, w, w, w, CLAIM, w, BACK, w, w, w, w, w];
  }

  lemma UnstampedRunEnds()
    ensures Reached(SLOW, UnstampedRun(),
                    Retried(90, Some(120), false).(status := Verifying, retryCount := 2, times := [0, 120]), 0, 0)
  {
    hide Reached, Work;
    var w, m := Work(S1, 90), Retried(90, None, false);
    UnstampedRunIsApproved();
    Charges(SLOW, [w, w, w, w, w, CLAIM, w, BACK, w, w, w, w, w], m.(status := Approved), 0, 0, 90);
    assert [0] + [120] == [0, 120];
    assert [w, w, w, w, w, CLAIM, w, BACK, w, w, w, w, w] + [w] == UnstampedRun();
  }

  lemma SlowCooldown()
    ensures GateCooldown(SLOW, 1) == 400
    ensures !WellSpaced([0, 120], SLOW, 0)
  {
    assert Pow2(1) == 2 * Pow2(0);
    assert [0, 120][1] - [0, 120][0] < GateCooldown(SLOW, 0 + 1);
  }

  /** An unstamped charge does not hold back the next one: no approval was skipped, and the two charges are 120
      minutes apart where the gate asks for 400. */
  lemma UnstampedChargesComeTooClose()
    ensures FreshCase(START.c, 0) && Approvals(START, SLOW, NEVER, UnstampedRun()) == 0
    ensures ChargeTimes(Run(START, SLOW, NEVER, UnstampedRun()).c.actions) == [0, 120] && GateCooldown(SLOW, 1) == 400
    ensures !Orderly(START, SLOW, NEVER, UnstampedRun())
  {
    hide Reached, Work, Run, Skips, Approvals, FreshCase, ChargeTimes, CountKind, Orderly, WellSpaced, GateCooldown;
    UnstampedRunEnds();
    SlowCooldown();
    ReachedTells(SLOW, UnstampedRun(),
                 Retried(90, Some(120), false).(status := Verifying, retryCount := 2, times := [0, 120]), 0, 0);
    if Orderly(START, SLOW, NEVER, UnstampedRun()) {
      ChargesAreSpaced(START, 0, SLOW, NEVER, UnstampedRun());
    }
  }
}
