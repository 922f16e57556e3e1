/** How the deterministic decision table and the policy gate fit together (app/agent/decide.py:38-64,
    app/domain/strategies.py:37-120, app/policy/rules.py:78-174). */
module TableGate {
  import opened Enums
  import opened Diagnosis
  import opened Strategies
  import opened PolicyRules
  import opened PolicyEngine
  import opened Rows
  import opened Decide
  import opened Pipeline

  /** A gate context that proposes decision `d` for payment `p` as the pipeline builds it: every other part
      (statuses, contacts, budget, age, clock, last attempt) is arbitrary. */
  predicate Proposes(ctx: PolicyContext, d: Decision, p: PaymentRow, cfg: PolicyConfig, retryCount: nat) {
    && ctx.config == cfg && ctx.retryCount == retryCount && ctx.amountMinor == p.amountMinor
    && ctx.diagnosis == Some(d.diagnosis)
    && ctx.diagnosisConfidence == d.diagnosisConfidence && ctx.strategyConfidence == d.strategyConfidence
    && ctx.proposedAction == (if ActionOf(d.strategy).Some? then ActionOf(d.strategy).value else CreateEscalation)
    && ctx.proposedDelayMinutes == d.delayMinutes
    && ctx.linkAmountMinor.None? && ctx.channel.None?
  }

  /** The lookups the pipeline fixes to false. */
  predicate AsPipeline(ctx: PolicyContext) { !ctx.capturedForOrder && !ctx.downtimeActive && !ctx.existingAction }

  /** What the table's choices have in common, whatever the inputs. */
  lemma TableChoices(p: PaymentRow, age: int, hasToken: bool, cfg: PolicyConfig, retryCount: nat)
    ensures var d := FallbackDecision(p, age, hasToken, cfg, retryCount);
      && d.origin == FromFallback && d.strategyConfidence == d.diagnosisConfidence
      && (d.strategy != S5 && d.strategy != S6 ==>
            && age <= 48 * HOUR && p.amountMinor < cfg.approvalLimitMinor
            && d.diagnosisConfidence >= cfg.confidenceFloor && d.diagnosis != UnknownCause && retryCount < 2)
      && (ActionOf(d.strategy) == Some(RetryCharge) ==>
            d.diagnosis in {BankDowntime, InsufficientFunds, NetworkInfra})
      && (d.delayMinutes.Some? ==> d.delayMinutes.value == 240)
  {
  }

  /** Which strategy the table chooses, for any inputs: stopping for a capture already made or a stale failure; a human
      for large, unsure, unknown or twice retried ones; a delayed retry for funds that may come and, an hour on, for a
      bank still down; an immediate retry once the bank or the network is back; a link where the customer must act or
      has no token; and never the alternate flow. */
  lemma TableIsExact(dx: DiagnosisClass, retryCount: int, hasToken: bool, amount: int, confidence: int, age: int,
                     down: bool, limit: int, floor: int)
    ensures
      var choice := SelectStrategy(dx, retryCount, hasToken, amount, confidence, age, down, limit, floor);
      var stale := dx == DuplicateSelfHealed || age > 2880;
      var human := amount >= limit || confidence < floor || dx == UnknownCause || retryCount >= 2;
      && choice.confidence == confidence
      && (choice.strategy == S6 <==> stale)
      && (choice.strategy == S5 <==> !stale && human)
      && (choice.strategy == S2 <==>
            !stale && !human && ((dx == InsufficientFunds && hasToken) || (dx == BankDowntime && down)))
      && (choice.strategy == S1 <==>
            !stale && !human && ((dx == NetworkInfra && hasToken) || (dx == BankDowntime && !down)))
      && choice.strategy != S4
      && choice.delayMinutes
         == if choice.strategy != S2 then None else if dx == BankDowntime then Some(60) else Some(240)
  {
  }

  /** With room for two retries, the table never proposes anything the rules on the retry budget, amount,
      confidence, diagnosis or parameters refuse. */
  lemma TableRespectsGate(p: PaymentRow, age: int, hasToken: bool, cfg: PolicyConfig, retryCount: nat,
                          ctx: PolicyContext)
    requires cfg.maxRetries >= 2
    requires Proposes(ctx, FallbackDecision(p, age, hasToken, cfg, retryCount), p, cfg, retryCount)
    ensures Passes(P03, ctx) && Passes(P05, ctx) && Passes(P06, ctx) && Passes(P10, ctx) && Passes(P13, ctx)
  {
    hide Diagnose, FallbackDecision;
    TableChoices(p, age, hasToken, cfg, retryCount);
  }

  /** What is left for the gate to object to once those five rules pass. */
  lemma VerdictsLeft(ctx: PolicyContext)
    requires Passes(P03, ctx) && Passes(P05, ctx) && Passes(P06, ctx) && Passes(P10, ctx) && Passes(P13, ctx)
    requires AsPipeline(ctx)
    ensures VerdictOf(Triggered(ctx)) != Escalate
    ensures VerdictOf(Triggered(ctx)) == Wait ==> Triggered(ctx) == Some(P04)
    ensures VerdictOf(Triggered(ctx)) == Block ==> Triggered(ctx) in {Some(P01), Some(P08), Some(P11), Some(P12)}
  {
  }

  /** So without a model the gate never asks a human, waits only for the cooldown, and blocks only for the
      payment's state, the contact cap, the age or the merchant's budget. */
  lemma TableVerdicts(p: PaymentRow, age: int, hasToken: bool, cfg: PolicyConfig, retryCount: nat, ctx: PolicyContext)
    requires cfg.maxRetries >= 2 && AsPipeline(ctx)
    requires Proposes(ctx, FallbackDecision(p, age, hasToken, cfg, retryCount), p, cfg, retryCount)
    ensures VerdictOf(Triggered(ctx)) != Escalate
    ensures VerdictOf(Triggered(ctx)) == Wait ==> Triggered(ctx) == Some(P04)
    ensures VerdictOf(Triggered(ctx)) == Block ==> Triggered(ctx) in {Some(P01), Some(P08), Some(P11), Some(P12)}
  {
    hide FallbackDecision, Triggered, Passes;
    TableRespectsGate(p, age, hasToken, cfg, retryCount, ctx);
    VerdictsLeft(ctx);
  }

  /** Does the table, on these inputs, stay within the gate's retry budget? */
  predicate WithinRetries(p: PaymentRow, age: int, hasToken: bool, cfg: PolicyConfig, retryCount: nat) {
    ActionOf(FallbackDecision(p, age, hasToken, cfg, retryCount).strategy) == Some(RetryCharge) ==>
      retryCount < cfg.maxRetries
  }

  /** The condition on max_retries is exact: one retry less, and some payment is proposed a retry the gate
      blocks (unless no diagnosis is ever confident enough to retry). */
  lemma TwoRetriesNeeded(cfg: PolicyConfig)
    ensures (cfg.maxRetries >= 2 || cfg.confidenceFloor > 90) <==>
      forall p: PaymentRow, age: int, hasToken: bool, retryCount: nat ::
        WithinRetries(p, age, hasToken, cfg, retryCount)
  {
    if cfg.maxRetries >= 2 || cfg.confidenceFloor > 90 {
      forall p: PaymentRow, age: int, hasToken: bool, retryCount: nat
        ensures WithinRetries(p, age, hasToken, cfg, retryCount)
      {
        hide Diagnose, FallbackDecision;
        TableChoices(p, age, hasToken, cfg, retryCount);
        ConfidenceIsAtMost90(p, age, hasToken, cfg, retryCount);
      }
    } else {
      var p := PaymentRow(PayFailed, cfg.approvalLimitMinor - 1, Some("bank_error"), None, 0);
      var r := Max(0, cfg.maxRetries);
      assert Diagnose(p.errorReason, p.errorCode) == (BankDowntime, 90);
      assert FallbackDecision(p, 0, false, cfg, r).strategy == S1;
      assert !WithinRetries(p, 0, false, cfg, r);
    }
  }

  lemma ConfidenceIsAtMost90(p: PaymentRow, age: int, hasToken: bool, cfg: PolicyConfig, retryCount: nat)
    ensures FallbackDecision(p, age, hasToken, cfg, retryCount).diagnosisConfidence <= 90
  {
    var r := Diagnose(p.errorReason, p.errorCode);
    hide Diagnose;
  }

  // ----- Cooldowns -----

  lemma ProductAtLeast(base: int, n: nat)
    ensures base >= 0 ==> base * Pow2(n) >= base
    ensures base < 0 ==> base * Pow2(n) <= base
  {
    if base >= 0 {
      assert base * (Pow2(n) - 1) >= 0;
    } else {
      assert -base * (Pow2(n) - 1) >= 0;
    }
  }

  /** Under any config, the fast-forward after a WAIT covers the whole cooldown the gate asks for. */
  lemma WaitCoversCooldown(cfg: PolicyConfig, n: nat)
    ensures GateCooldown(cfg, n) <= WaitMinutes(cfg, n)
  {
    ProductAtLeast(cfg.cooldownBaseMin, n);
  }

  /** So a retry waits at most once: after the fast-forward P04 passes. */
  lemma OneWaitSuffices(ctx: PolicyContext, later: PolicyContext)
    requires later == ctx.(now := ctx.now + WaitMinutes(ctx.config, ctx.retryCount))
    requires ctx.lastAttemptAt.Some? ==> ctx.lastAttemptAt.value <= ctx.now
    ensures Passes(P04, later)
  {
    WaitCoversCooldown(ctx.config, ctx.retryCount);
  }

  lemma PowerAtLeast32(n: nat)
    requires n >= 5
    ensures Pow2(n) >= 32
  {
    if n == 5 {
      assert Pow2(5) == 2 * Pow2(4);
      assert Pow2(3) == 8;
    } else {
      PowerAtLeast32(n - 1);
    }
  }

  /** With the default config the 30/120/480 minute ladder covers the gate's cooldown for the first five
      attempt numbers and for no later one. */
  lemma LadderDominatesGate(n: nat)
    ensures CooldownMinutes(n) >= GateCooldown(DEFAULT_CONFIG, n) <==> n <= 4
  {
    if n <= 4 {
      assert Pow2(0) == 1 && Pow2(1) == 2;
      assert Pow2(2) == 4;
      assert Pow2(3) == 8;
      assert Pow2(4) == 16;
    } else {
      PowerAtLeast32(n);
    }
  }
}
