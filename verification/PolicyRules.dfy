/** Policy configuration and the rule catalog P01..P14 (app/policy/config.py, app/policy/rules.py).
    Time is in integer minutes, confidence in hundredths, money in paise. */
module PolicyRules {
  import opened Enums
  import opened Strategies

  datatype PolicyConfig = PolicyConfig(
    maxRetries: int,
    approvalLimitMinor: int,
    cooldownBaseMin: int,
    confidenceFloor: int,
    contactCap7d: int,
    ttlHours: int,
    simulationBudget: int)

  const DEFAULT_CONFIG := PolicyConfig(3, 25_000_00, 30, 60, 3, 72, 200)

  datatype PolicyContext = PolicyContext(
    caseStatus: CaseStatus,
    paymentStatus: PaymentStatus,
    capturedForOrder: bool,
    amountMinor: int,
    retryCount: nat,
    lastAttemptAt: Option<int>,
    diagnosis: Option<DiagnosisClass>,
    diagnosisConfidence: int,
    strategyConfidence: int,
    contactCount: nat,
    downtimeActive: bool,
    ageMinutes: int,
    simulationBudgetRemaining: int,
    proposedAction: ActionType,
    proposedDelayMinutes: Option<int>,
    linkAmountMinor: Option<int>,
    channel: Option<string>,
    existingAction: bool,
    config: PolicyConfig,
    now: int)

  function Pow2(n: nat): (r: int)
    ensures r >= 1
    ensures n > 0 ==> r >= 2
  {
    if n == 0 then 1 else 2 * Pow2(n - 1)
  }

  /** The gate's own bound: base times 2^n, clamped to [base, 24h] with base winning a conflict. */
  function GateCooldown(cfg: PolicyConfig, attemptNo: nat): int {
    Max(cfg.cooldownBaseMin, Min(cfg.cooldownBaseMin * Pow2(attemptNo), 24 * HOUR))
  }

  predicate IsRetry(a: ActionType) { a == RetryCharge }

  predicate IsContact(a: ActionType) { a == SendRecoveryLink || a == NotifyCustomer }

  /** Does the rule hold of the context? */
  predicate Passes(rule: RuleId, ctx: PolicyContext) {
    match rule
    case P01 =>
      && ctx.caseStatus in {Diagnosed, Planned, PolicyCheck, Approved, AwaitingApproval}
      && ctx.paymentStatus == PayFailed
    case P02 => !(ctx.paymentStatus == PayCaptured || ctx.capturedForOrder)
    case P03 => IsRetry(ctx.proposedAction) ==> ctx.retryCount < ctx.config.maxRetries
    case P04 =>
      IsRetry(ctx.proposedAction) && ctx.lastAttemptAt.Some? ==>
        ctx.now - ctx.lastAttemptAt.value >= GateCooldown(ctx.config, ctx.retryCount)
    case P05 => ctx.proposedAction != CreateEscalation ==> ctx.amountMinor <= ctx.config.approvalLimitMinor
    case P06 =>
      ctx.proposedAction != CreateEscalation ==>
        Min(ctx.diagnosisConfidence, ctx.strategyConfidence) >= ctx.config.confidenceFloor
    case P07 => !ctx.existingAction
    case P08 => IsContact(ctx.proposedAction) ==> ctx.contactCount < ctx.config.contactCap7d
    case P09 => IsRetry(ctx.proposedAction) ==> !ctx.downtimeActive
    case P10 =>
      IsRetry(ctx.proposedAction) ==>
        ctx.diagnosis != Some(InstrumentInvalid) && ctx.diagnosis != Some(DuplicateSelfHealed)
    case P11 => ctx.ageMinutes < ctx.config.ttlHours * HOUR
    case P12 => IsRetry(ctx.proposedAction) ==> ctx.simulationBudgetRemaining > 0
    case P13 =>
      && (ctx.proposedDelayMinutes.Some? ==> 15 <= ctx.proposedDelayMinutes.value <= 72 * HOUR)
      && (ctx.linkAmountMinor.Some? ==> ctx.linkAmountMinor.value == ctx.amountMinor)
      && (ctx.channel.Some? ==> ctx.channel.value in {"sms", "email"})
    case P14 => true
  }

  const RULE_ORDER: seq<RuleId> := [P01, P02, P03, P04, P05, P06, P07, P08, P09, P10, P11, P12, P13, P14]
}
