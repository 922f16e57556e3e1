/** What the gate's answers mean for the case, its payment and the decision, in plain comparisons
    (app/policy/rules.py:87-174, app/policy/engine.py:24-60); and over every run, what each attempt was cleared of. */
module GateLaws {
  import opened Enums
  import opened PolicyRules
  import opened PolicyEngine
  import opened Gateway
  import opened Trail
  import opened Rows
  import opened Decide
  import opened Pipeline
  import opened CaseRuns
  import opened Core
  import opened Spacing
  import opened Attempts

  // ----- The gate's answer -----

  predicate AsksToCharge(d: Decision) { d.strategy == S1 || d.strategy == S2 }

  predicate AsksToLink(d: Decision) { d.strategy == S3 || d.strategy == S4 }

  /** The last attempt is the base cooldown ago, doubled for every retry made, but never more than a day of that. */
  predicate Cooled(s: Sys, cfg: PolicyConfig) {
    s.c.lastAttemptAt.Some? ==>
      var elapsed := s.now - s.c.lastAttemptAt.value;
      elapsed >= cfg.cooldownBaseMin && (elapsed >= cfg.cooldownBaseMin * Pow2(s.c.retryCount) || elapsed >= 1440)
  }

  /** What the gate looks at before amount and confidence. */
  predicate InTurn(s: Sys, d: Decision, cfg: PolicyConfig) {
    s.p.status == PayFailed && (AsksToCharge(d) ==> s.c.retryCount < cfg.maxRetries && Cooled(s, cfg))
  }

  /** An attempt of an amount within the ceiling, by a decision sure enough of both diagnosis and strategy. */
  predicate WithinMandate(s: Sys, d: Decision, cfg: PolicyConfig) {
    && s.p.amountMinor <= cfg.approvalLimitMinor
    && d.diagnosisConfidence >= cfg.confidenceFloor && d.strategyConfidence >= cfg.confidenceFloor
  }

  /** All an attempt, or a decision without one, must meet to be allowed; `used` charges are the merchant's others. */
  predicate Cleared(s: Sys, d: Decision, cfg: PolicyConfig, used: nat) {
    && InTurn(s, d, cfg)
    && (AsksToCharge(d) || AsksToLink(d) ==> WithinMandate(s, d, cfg))
    && (AsksToLink(d) ==> Contacts(s.c) < cfg.contactCap7d)
    && (AsksToCharge(d) ==>
          && s.c.diagnosis != Some(InstrumentInvalid) && s.c.diagnosis != Some(DuplicateSelfHealed)
          && used + Charges(s.c) < cfg.simulationBudget)
    && s.now - s.p.createdAt < 60 * cfg.ttlHours && 0 < cfg.ttlHours
    && (d.delayMinutes.Some? ==> 15 <= d.delayMinutes.value <= 4320)
  }

  /** The shipped config in figures: three retries half an hour apart and doubling, 25000 rupees, 60 percent, three
      contacts, three days, and a budget of 200 charges. */
  lemma ClearedByDefault(s: Sys, d: Decision, used: nat)
    ensures Cleared(s, d, DEFAULT_CONFIG, used) <==>
      && s.p.status == PayFailed && s.now - s.p.createdAt < 4320
      && (d.delayMinutes.Some? ==> 15 <= d.delayMinutes.value <= 4320)
      && (AsksToCharge(d) || AsksToLink(d) ==>
            s.p.amountMinor <= 2_500_000 && d.diagnosisConfidence >= 60 && d.strategyConfidence >= 60)
      && (AsksToLink(d) ==> Contacts(s.c) < 3)
      && (AsksToCharge(d) ==>
            && s.c.retryCount < 3 && used + Charges(s.c) < 200
            && s.c.diagnosis != Some(InstrumentInvalid) && s.c.diagnosis != Some(DuplicateSelfHealed)
            && (s.c.lastAttemptAt.Some? ==>
                  s.now - s.c.lastAttemptAt.value >= [30, 60, 120][s.c.retryCount]))
  {
    hide CountKind;
    if s.c.retryCount < 3 {
      assert Pow2(0) == 1 && Pow2(1) == 2 && Pow2(2) == 4;
    }
  }

  /** The answer recorded by a step at the gate. */
  function Answered(s: Sys, d: Decision, deps: Deps, env: Env): Event {
    match StepPolicyCheck(s, d, deps, env)
    case Done(s', _) => if |s.c.trail| < |s'.c.trail| then s'.c.trail[|s.c.trail|] else CaseClosed
    case Error => CaseClosed
  }

  lemma VerdictExtends(s: Sys, d: Decision, verdict: Verdict, deps: Deps, env: Env)
    ensures StepVerdict(s, d, verdict, deps, env).Done?
    ensures
      var c' := StepVerdict(s, d, verdict, deps, env).s.c;
      s.c.trail <= c'.trail
      && (c'.status == Approved <==>
            verdict == Allow || (verdict == Wait && !deps.fastForward && s.c.status == Approved))
      && (verdict == Allow ==> c'.decisions == s.c.decisions)
  {
    hide Chosen, FallbackDecision, EnsuredReason;
  }

  lemma AnswerIsVerdict(s: Sys, d: Decision, deps: Deps, env: Env)
    ensures
      var rule := Triggered(PolicyCtx(s.c, s.p, d, s.now, deps.cfg, env.usedElsewhere));
      Answered(s, d, deps, env) == PolicyEvaluated(VerdictOf(rule), rule)
  {
    hide Triggered, PolicyCtx, CountKind, StepVerdict;
    var rule := Triggered(PolicyCtx(s.c, s.p, d, s.now, deps.cfg, env.usedElsewhere));
    VerdictExtends(s.(c := Emit(s.c, PolicyEvaluated(VerdictOf(rule), rule))), d, VerdictOf(rule), deps, env);
  }

  /** The evaluator on any context, also one the pipeline never builds: when it allows, asks a human and waits. */
  lemma ContextAnswers(ctx: PolicyContext)
    ensures
      var verdict, cfg := VerdictOf(Triggered(ctx)), ctx.config;
      var charge, attempt := ctx.proposedAction == RetryCharge, ctx.proposedAction != CreateEscalation;
      var open := && ctx.caseStatus in {Diagnosed, Planned, PolicyCheck, AwaitingApproval, Approved}
                  && ctx.paymentStatus == PayFailed && !ctx.capturedForOrder
                  && (charge ==> ctx.retryCount < cfg.maxRetries);
      var early := charge && ctx.lastAttemptAt.Some?
                   && ctx.now - ctx.lastAttemptAt.value < GateCooldown(cfg, ctx.retryCount);
      var sure := && ctx.amountMinor <= cfg.approvalLimitMinor
                  && ctx.diagnosisConfidence >= cfg.confidenceFloor && ctx.strategyConfidence >= cfg.confidenceFloor;
      var capped := ctx.proposedAction in {SendRecoveryLink, NotifyCustomer} && cfg.contactCap7d <= ctx.contactCount;
      && (verdict == Escalate <==> open && !early && attempt && !sure)
      && (verdict == Wait <==>
            open && (early || ((attempt ==> sure) && !ctx.existingAction && !capped && charge && ctx.downtimeActive)))
      && (verdict == Allow <==>
            && open && !early && (attempt ==> sure) && !ctx.existingAction && !capped
            && (charge ==> && !ctx.downtimeActive && ctx.simulationBudgetRemaining > 0
                           && ctx.diagnosis !in {Some(InstrumentInvalid), Some(DuplicateSelfHealed)})
            && ctx.ageMinutes < 60 * cfg.ttlHours
            && (ctx.proposedDelayMinutes.Some? ==> 15 <= ctx.proposedDelayMinutes.value <= 4320)
            && (ctx.linkAmountMinor.Some? ==> ctx.linkAmountMinor.value == ctx.amountMinor)
            && (ctx.channel.Some? ==> ctx.channel.value == "sms" || ctx.channel.value == "email"))
  {
    hide GateCooldown;
  }

  lemma CtxAnswers(s: Sys, d: Decision, cfg: PolicyConfig, used: nat)
    requires s.c.status == PolicyCheck
    ensures
      var verdict := VerdictOf(Triggered(PolicyCtx(s.c, s.p, d, s.now, cfg, used)));
      && (verdict == Allow <==> Cleared(s, d, cfg, used))
      && (verdict == Escalate <==>
            InTurn(s, d, cfg) && (AsksToCharge(d) || AsksToLink(d)) && !WithinMandate(s, d, cfg))
      && (verdict == Wait <==>
            s.p.status == PayFailed && AsksToCharge(d) && s.c.retryCount < cfg.maxRetries && !Cooled(s, cfg))
  {
    hide CountKind, Pow2;
  }

  /** The gate's answer to a decision: it allows exactly what is cleared; it asks a human exactly about an attempt in
      its turn, of a failed payment, that is beyond the ceiling or not sure enough; it waits exactly for a charge's
      cooldown; and it blocks the rest. */
  lemma GateAnswersPlainly(s: Sys, d: Decision, deps: Deps, env: Env)
    requires s.c.status == PolicyCheck
    ensures
      var e := Answered(s, d, deps, env);
      && e.PolicyEvaluated?
      && (e.verdict == Allow <==> Cleared(s, d, deps.cfg, env.usedElsewhere))
      && (e.verdict == Escalate <==>
            InTurn(s, d, deps.cfg) && (AsksToCharge(d) || AsksToLink(d)) && !WithinMandate(s, d, deps.cfg))
      && (e.verdict == Wait <==>
            s.p.status == PayFailed && AsksToCharge(d) && s.c.retryCount < deps.cfg.maxRetries && !Cooled(s, deps.cfg))
  {
    hide Cleared, InTurn, WithinMandate, Cooled, Answered, Triggered, PolicyCtx, CountKind;
    AnswerIsVerdict(s, d, deps, env);
    CtxAnswers(s, d, deps.cfg, env.usedElsewhere);
  }

  /** The rule named with the answer: the first in the catalog that the case, its payment or the decision offends. */
  function FirstOffended(s: Sys, d: Decision, cfg: PolicyConfig, used: nat): Option<RuleId> {
    var attempt := AsksToCharge(d) || AsksToLink(d);
    if s.p.status != PayFailed then Some(P01)
    else if AsksToCharge(d) && cfg.maxRetries <= s.c.retryCount then Some(P03)
    else if AsksToCharge(d) && !Cooled(s, cfg) then Some(P04)
    else if attempt && cfg.approvalLimitMinor < s.p.amountMinor then Some(P05)
    else if attempt && (d.diagnosisConfidence < cfg.confidenceFloor || d.strategyConfidence < cfg.confidenceFloor)
    then Some(P06)
    else if AsksToLink(d) && cfg.contactCap7d <= Contacts(s.c) then Some(P08)
    else if AsksToCharge(d) && s.c.diagnosis in {Some(InstrumentInvalid), Some(DuplicateSelfHealed)} then Some(P10)
    else if 60 * cfg.ttlHours <= s.now - s.p.createdAt || cfg.ttlHours <= 0 then Some(P11)
    else if AsksToCharge(d) && cfg.simulationBudget <= used + Charges(s.c) then Some(P12)
    else if d.delayMinutes.Some? && (d.delayMinutes.value < 15 || 4320 < d.delayMinutes.value) then Some(P13)
    else None
  }

  /** The gate's record names that rule, and its verdict is the rule's: P05 and P06 ask a human, P04 waits, the others
      block. P02, P07, P09 and P14 are never named: what they ask is settled before, or never so in the pipeline. */
  lemma GateNamesTheRule(s: Sys, d: Decision, deps: Deps, env: Env)
    requires s.c.status == PolicyCheck
    ensures
      var rule := FirstOffended(s, d, deps.cfg, env.usedElsewhere);
      var verdict := match rule
                     case None => Allow
                     case Some(P04) => Wait
                     case Some(P05) | Some(P06) => Escalate
                     case _ => Block;
      Answered(s, d, deps, env) == PolicyEvaluated(verdict, rule)
  {
    hide Answered, FirstOffended, Triggered, PolicyCtx;
    AnswerIsVerdict(s, d, deps, env);
    CtxOffends(s, d, deps.cfg, env.usedElsewhere);
    NeverNamed(s, d, deps.cfg, env.usedElsewhere);
  }

  lemma NeverNamed(s: Sys, d: Decision, cfg: PolicyConfig, used: nat)
    ensures FirstOffended(s, d, cfg, used) !in {Some(P02), Some(P07), Some(P09), Some(P14)}
  {
    hide CountKind, Pow2;
  }

  lemma CtxOffends(s: Sys, d: Decision, cfg: PolicyConfig, used: nat)
    requires s.c.status == PolicyCheck
    ensures Triggered(PolicyCtx(s.c, s.p, d, s.now, cfg, used)) == FirstOffended(s, d, cfg, used)
  {
    hide CountKind, Pow2;
  }

  // ----- How a case comes to be approved -----

  lemma StepApprovesCleared(s: Sys, deps: Deps, env: Env)
    requires Step(s, deps, env).Done? && s.c.status == PolicyCheck && Step(s, deps, env).s.c.status == Approved
    ensures LatestDecision(s.c).Some? && Cleared(s, LatestDecision(s.c).value, deps.cfg, env.usedElsewhere)
    ensures Step(s, deps, env).s.c.decisions == s.c.decisions
  {
    hide Cleared, StepVerdict, Triggered, PolicyCtx;
    var d := LatestDecision(s.c).value;
    var rule := Triggered(PolicyCtx(s.c, s.p, d, s.now, deps.cfg, env.usedElsewhere));
    VerdictExtends(s.(c := Emit(s.c, PolicyEvaluated(VerdictOf(rule), rule))), d, VerdictOf(rule), deps, env);
    CtxAnswers(s, d, deps.cfg, env.usedElsewhere);
  }

  lemma ApprovedMovesOn(s: Sys, deps: Deps, env: Env)
    requires Step(s, deps, env).Done? && s.c.status == Approved
    ensures Step(s, deps, env).s.c.status != Approved
  {
    hide Numbered, ChargeTimes, CountKind, Step, CoreApproved;
    StepRefines(s, deps, env);
    ApprovedIsLeft(Abs(s), Inputs(s, deps, env));
  }

  lemma NoOtherStepApproves(s: Sys, deps: Deps, env: Env)
    requires Step(s, deps, env).Done? && s.c.status != PolicyCheck && s.c.status != Approved
    ensures Step(s, deps, env).s.c.status != Approved
  {
    hide CountKind, Chosen, FallbackDecision;
  }

  /** The event by which a case comes to be approved: a person's approval, or the gate's of a cleared decision. */
  ghost predicate Approval(t: Sys, cfg: PolicyConfig, e: CaseEvent) {
    || Approves(t, e)
    || (&& e.WorkerStep? && t.c.status == PolicyCheck && LatestDecision(t.c).Some?
        && Cleared(t, LatestDecision(t.c).value, cfg, e.env.usedElsewhere))
  }

  lemma BecomesApproved(s: Sys, cfg: PolicyConfig, rng: Stream, e: CaseEvent)
    requires Apply(s, cfg, rng, e).c.status == Approved
    ensures Apply(s, cfg, rng, e).c.decisions == s.c.decisions
    ensures s.c.status == Approved || Approval(s, cfg, e)
  {
    hide Step, Cleared, Rolled;
    if e.WorkerStep? {
      var deps := Deps(cfg, e.fastForward, rng);
      if Step(s, deps, e.env).Done? {
        if s.c.status == PolicyCheck {
          StepApprovesCleared(s, deps, e.env);
        } else if s.c.status == Approved {
          ApprovedMovesOn(s, deps, e.env);
        } else {
          NoOtherStepApproves(s, deps, e.env);
        }
      }
    }
  }

  /** Event `k` approved the case, which stood approved from then on until event `n`. */
  ghost predicate ApprovedFrom(s: Sys, cfg: PolicyConfig, rng: Stream, es: seq<CaseEvent>, k: nat, n: nat) {
    && k < n <= |es| && Approval(Run(s, cfg, rng, es[..k]), cfg, es[k])
    && Run(s, cfg, rng, es[..k]).c.decisions == Run(s, cfg, rng, es[..n]).c.decisions
    && forall m | k < m <= n :: Run(s, cfg, rng, es[..m]).c.status == Approved
  }

  lemma {:induction false} ApprovalFound(s: Sys, cfg: PolicyConfig, rng: Stream, es: seq<CaseEvent>, n: nat)
    returns (k: nat)
    requires n <= |es| && s.c.status != Approved && Run(s, cfg, rng, es[..n]).c.status == Approved
    ensures ApprovedFrom(s, cfg, rng, es, k, n)
  {
    hide Apply, Approval;
    k := 0;
    assert es[..0] == [];
    if n > 0 {
      assert es[..n][..n - 1] == es[..n - 1];
      BecomesApproved(Run(s, cfg, rng, es[..n - 1]), cfg, rng, es[n - 1]);
      if Run(s, cfg, rng, es[..n - 1]).c.status == Approved {
        k := ApprovalFound(s, cfg, rng, es, n - 1);
      } else {
        k := n - 1;
      }
    }
  }

  // ----- What every attempt was cleared of -----

  /** Row `i` was left by event `n`, which ran a decision that event `k` had approved before. */
  ghost predicate AttemptCleared(s: Sys, cfg: PolicyConfig, rng: Stream, es: seq<CaseEvent>, k: nat, n: nat, i: nat,
                                 a: Action)
  {
    && Inserts(s, cfg, rng, es, n, i) && ApprovedFrom(s, cfg, rng, es, k, n)
    && var t := Run(s, cfg, rng, es[..k]);
    && LatestDecision(t.c).Some?
    && a.kind == KindAsked(LatestDecision(t.c).value.strategy)
  }

  /** Over every run and decision source, each action row rests on an approval that still stood: a person's, or the
      gate's of a decision that was cleared as things were at the gate. So a charge or link the policy approved was
      decided with both confidences at or above the floor and a delay absent or in [15, 4320], at an amount within the
      ceiling; a charge besides with a retry left, after the cooldown, within the merchant's budget, and of no
      diagnosis that forbids it; a link within the contact cap. */
  lemma {:induction false} EveryAttemptWasCleared(s: Sys, prior: nat, cfg: PolicyConfig, rng: Stream,
                                                  es: seq<CaseEvent>, i: nat) returns (k: nat, n: nat)
    requires FreshCase(s.c, prior) && i < |Run(s, cfg, rng, es).c.actions|
    ensures AttemptCleared(s, cfg, rng, es, k, n, i, Run(s, cfg, rng, es).c.actions[i])
    ensures
      var t, a := Run(s, cfg, rng, es[..k]), Run(s, cfg, rng, es).c.actions[i];
      var d := LatestDecision(t.c).value;
      !Approves(t, es[k]) && a.kind in {RetryCharge, SendRecoveryLink} ==>
        && t.p.status == PayFailed && t.p.amountMinor <= cfg.approvalLimitMinor
        && d.diagnosisConfidence >= cfg.confidenceFloor && d.strategyConfidence >= cfg.confidenceFloor
        && (d.delayMinutes.Some? ==> 15 <= d.delayMinutes.value <= 4320)
        && t.now - t.p.createdAt < 60 * cfg.ttlHours
        && (a.kind == SendRecoveryLink ==> Contacts(t.c) < cfg.contactCap7d)
        && (a.kind == RetryCharge ==>
              && t.c.retryCount < cfg.maxRetries && Cooled(t, cfg)
              && t.c.diagnosis != Some(InstrumentInvalid) && t.c.diagnosis != Some(DuplicateSelfHealed)
              && es[k].env.usedElsewhere + Charges(t.c) < cfg.simulationBudget)
  {
    n := EveryRowHasItsStep(s, prior, cfg, rng, es, i);
    InsertsApproved(s, cfg, rng, es, n, i);
    k := ApprovalFound(s, cfg, rng, es, n);
    hide Run, Apply, Step;
  }

  lemma InsertsApproved(s: Sys, cfg: PolicyConfig, rng: Stream, es: seq<CaseEvent>, n: nat, i: nat)
    requires Inserts(s, cfg, rng, es, n, i)
    ensures n < |es| && Run(s, cfg, rng, es[..n]).c.status == Approved
  {
  }
}
