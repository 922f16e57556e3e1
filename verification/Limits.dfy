/** How many retries and contacts a case can see, whatever the model proposes and whatever happens in
    between. */
module Limits {
  import opened Enums
  import opened Fsm
  import opened Strategies
  import opened PolicyRules
  import opened PolicyEngine
  import opened Gateway
  import opened Trail
  import opened Rows
  import opened Verification
  import opened Executors
  import opened Pipeline
  import opened HumanDecisions
  import opened CaseRuns
  import opened Core

  // ----- What a verdict tells -----

  /** ALLOW means every rule passed; ESCALATE means only that P01..P04 did: the rules after the amount and
      confidence checks were skipped. */
  lemma VerdictTells(ctx: PolicyContext)
    ensures VerdictOf(Triggered(ctx)) == Allow ==>
      Passes(P01, ctx) && Passes(P03, ctx) && Passes(P04, ctx) && Passes(P08, ctx) && Passes(P12, ctx)
    ensures VerdictOf(Triggered(ctx)) == Escalate ==> Passes(P01, ctx) && Passes(P03, ctx) && Passes(P04, ctx)
  {
  }

  // ----- Retries, contacts, cooldown -----

  predicate Retries(d: Option<Decision>) { d.Some? && ActionOf(d.value.strategy) == Some(RetryCharge) }

  predicate Links(d: Option<Decision>) { d.Some? && ActionOf(d.value.strategy) == Some(SendRecoveryLink) }

  /** `prior` attempts were made before the case opened, `humans` approvals were given by people, `skips` of
      them in the gate's place. */
  ghost predicate Bounded(k: Core, cfg: PolicyConfig, prior: nat, humans: nat, skips: nat) {
    && k.retryCount == prior + k.Charges()
    && k.retryCount <= Max(prior, cfg.maxRetries) + skips
    && k.notices == 0
    && k.links <= Max(0, cfg.contactCap7d) + humans
    && (k.lastAttemptAt.Some? ==> k.lastAttemptAt.value <= k.now)
    && ((k.status == Approved || k.status == AwaitingApproval) && Retries(k.latest) ==>
          k.retryCount < Max(prior, cfg.maxRetries) + skips)
    && (k.status == Approved && Links(k.latest) ==> k.links < Max(0, cfg.contactCap7d) + humans)
  }

  /** A retry that the gate let through, or sent to a human, has waited its cooldown. */
  ghost predicate Waited(k: Core, cfg: PolicyConfig, bypassed: bool) {
    && ((k.status == Approved && !bypassed) || k.status == AwaitingApproval)
    && Retries(k.latest) && k.lastAttemptAt.Some? ==>
      k.now - k.lastAttemptAt.value >= GateCooldown(cfg, k.retryCount)
  }

  ghost predicate BoundedResult(r: CoreResult, cfg: PolicyConfig, prior: nat, humans: nat, skips: nat) {
    r.CoreDone? ==> Bounded(r.k, cfg, prior, humans, skips)
  }

  /** An ALLOW or ESCALATE verdict on a retry vouches for the retry budget and the cooldown; an ALLOW on a
      link vouches for the contact budget. */
  lemma GateVouches(k: Core, d: Decision, cfg: PolicyConfig, usedElsewhere: nat)
    ensures
      var verdict := VerdictOf(Triggered(CoreCtx(k, d, cfg, usedElsewhere)));
      && ((verdict == Allow || verdict == Escalate) && Retries(Some(d)) ==>
            && k.retryCount < cfg.maxRetries
            && (k.lastAttemptAt.Some? ==> k.now - k.lastAttemptAt.value >= GateCooldown(cfg, k.retryCount)))
      && (verdict == Allow && Links(Some(d)) ==> k.Contacts() < cfg.contactCap7d)
  {
    hide GateCooldown;
    VerdictTells(CoreCtx(k, d, cfg, usedElsewhere));
  }

  lemma PolicyCheckBounded(k: Core, cfg: PolicyConfig, i: Input, prior: nat, humans: nat, skips: nat)
    requires Bounded(k, cfg, prior, humans, skips) && k.status == PolicyCheck && k.latest.Some?
    ensures BoundedResult(CorePolicyCheck(k, k.latest.value, cfg, i), cfg, prior, humans, skips)
  {
    hide GateCooldown, Triggered;
    GateVouches(k, k.latest.value, cfg, i.usedElsewhere);
  }

  lemma RetryBounded(k: Core, cfg: PolicyConfig, paid: bool, prior: nat, humans: nat, skips: nat)
    requires Bounded(k, cfg, prior, humans, skips) && k.status == Executing
    requires k.retryCount < Max(prior, cfg.maxRetries) + skips
    ensures BoundedResult(CoreRetry(k, paid), cfg, prior, humans, skips)
  {
    hide GateCooldown;
  }

  lemma LinkBounded(k: Core, cfg: PolicyConfig, link: LinkReply, paid: bool, prior: nat, humans: nat, skips: nat)
    requires Bounded(k, cfg, prior, humans, skips) && k.status == Executing
    requires k.links < Max(0, cfg.contactCap7d) + humans
    ensures BoundedResult(CoreLink(k, link, paid), cfg, prior, humans, skips)
  {
    hide GateCooldown;
    var sent := SendLink(k, link);
    assert Bounded(sent, cfg, prior, humans, skips) && sent.status == Executing;
    hide SendLink;
  }

  lemma ApprovedBounded(k: Core, cfg: PolicyConfig, i: Input, prior: nat, humans: nat, skips: nat)
    requires Bounded(k, cfg, prior, humans, skips) && k.status == Approved
    ensures BoundedResult(CoreApproved(k, i), cfg, prior, humans, skips)
  {
    hide GateCooldown, CoreRetry, CoreLink;
    var k1 := Jump(k, Executing, Executor);
    assert Bounded(k1, cfg, prior, humans, skips);
    if Retries(k.latest) {
      RetryBounded(k1, cfg, i.paid, prior, humans, skips);
    } else if Links(k.latest) {
      LinkBounded(k1, cfg, i.link, i.paid, prior, humans, skips);
    }
  }

  lemma VerifyingBounded(k: Core, cfg: PolicyConfig, i: Input, prior: nat, humans: nat, skips: nat)
    requires Bounded(k, cfg, prior, humans, skips) && k.status == Verifying
    ensures BoundedResult(CoreVerifying(k, cfg, i), cfg, prior, humans, skips)
  {
    hide GateCooldown;
  }

  lemma StepBounded(k: Core, cfg: PolicyConfig, i: Input, prior: nat, humans: nat, skips: nat)
    requires Bounded(k, cfg, prior, humans, skips)
    ensures BoundedResult(CoreStep(k, cfg, i), cfg, prior, humans, skips)
  {
    hide GateCooldown, CorePolicyCheck, CoreApproved, CoreVerifying;
    if k.status == PolicyCheck && k.latest.Some? {
      PolicyCheckBounded(k, cfg, i, prior, humans, skips);
    } else if k.status == Approved {
      ApprovedBounded(k, cfg, i, prior, humans, skips);
    } else if k.status == Verifying {
      VerifyingBounded(k, cfg, i, prior, humans, skips);
    }
  }

  // ----- Runs -----

  lemma HumanBounded(s: Sys, escalation: nat, approve: bool, cfg: PolicyConfig, prior: nat, humans: nat, skips: nat)
    requires Bounded(Abs(s), cfg, prior, humans, skips) && HumanDecided(s.c, escalation, approve).Ok?
    ensures
      var e := HumanDecision(escalation, approve);
      Bounded(Abs(s.(c := HumanDecided(s.c, escalation, approve).value)), cfg, prior,
              humans + (if Approves(s, e) then 1 else 0), skips + if SkipsGate(s, e) then 1 else 0)
  {
    hide Numbered, ChargeTimes, CountKind;
  }

  lemma WorkerBounded(s: Sys, deps: Deps, env: Env, prior: nat, humans: nat, skips: nat)
    requires Bounded(Abs(s), deps.cfg, prior, humans, skips) && Step(s, deps, env).Done?
    ensures Bounded(Abs(Step(s, deps, env).s), deps.cfg, prior, humans, skips)
  {
    hide Bounded, Step, CoreStep, Abs, Inputs;
    StepRefines(s, deps, env);
    StepBounded(Abs(s), deps.cfg, Inputs(s, deps, env), prior, humans, skips);
  }

  /** What webhooks, time, other questions to the gateway and the final close may change: never a decision, a
      count or an attempt, and the status only to a terminal one. */
  ghost predicate OnlyOutside(k: Core, next: Core) {
    && next == k.(facts := next.facts, status := next.status, diagnosis := next.diagnosis,
                  recoveredMinor := next.recoveredMinor, outcome := next.outcome, trail := next.trail,
                  payStatus := next.payStatus, now := next.now)
    && next.now >= k.now && (next.status == k.status || IsTerminal(next.status))
  }

  lemma HealedOutside(s: Sys, entity: PaymentRow)
    requires CanTransition(s.c.status, Recovered)
    ensures OnlyOutside(Abs(s), Abs(s.(c := SelfHealed(s.c, entity.amountMinor),
                                       p := if s.c.status == Recovered then entity
                                         else entity.(status := PayCaptured))))
  {
    hide Numbered, ChargeTimes, CountKind;
  }

  lemma ClosedOutside(s: Sys)
    ensures OnlyOutside(Abs(s), Abs(s.(c := ClosedOff(s.c))))
  {
    hide Numbered, ChargeTimes, CountKind;
  }

  lemma OutsideEvents(s: Sys, cfg: PolicyConfig, rng: Stream, e: CaseEvent)
    requires !e.WorkerStep? && !e.HumanDecision?
    ensures OnlyOutside(Abs(s), Abs(Apply(s, cfg, rng, e)))
  {
    hide Numbered, ChargeTimes, CountKind, Step, HumanDecided, SelfHealed, ClosedOff;
    match e
    case CaptureWebhook(entity) =>
      if CanTransition(s.c.status, Recovered) {
        HealedOutside(s, entity);
      }
    case GiveUp => ClosedOutside(s);
    case _ =>
  }

  lemma OutsideBounded(k: Core, next: Core, cfg: PolicyConfig, prior: nat, humans: nat, skips: nat)
    requires Bounded(k, cfg, prior, humans, skips) && OnlyOutside(k, next)
    ensures Bounded(next, cfg, prior, humans, skips)
  {
  }

  lemma ApplyBounded(s: Sys, cfg: PolicyConfig, rng: Stream, e: CaseEvent, prior: nat, humans: nat, skips: nat)
    requires Bounded(Abs(s), cfg, prior, humans, skips)
    ensures Bounded(Abs(Apply(s, cfg, rng, e)), cfg, prior,
                    humans + (if Approves(s, e) then 1 else 0), skips + if SkipsGate(s, e) then 1 else 0)
  {
    hide Numbered, ChargeTimes, CountKind, Step, Bounded, Abs, OnlyOutside;
    if e.WorkerStep? {
      if Step(s, Deps(cfg, e.fastForward, rng), e.env).Done? {
        WorkerBounded(s, Deps(cfg, e.fastForward, rng), e.env, prior, humans, skips);
      }
    } else if e.HumanDecision? {
      if HumanDecided(s.c, e.escalation, e.approve).Ok? {
        HumanBounded(s, e.escalation, e.approve, cfg, prior, humans, skips);
      }
    } else {
      OutsideEvents(s, cfg, rng, e);
      OutsideBounded(Abs(s), Abs(Apply(s, cfg, rng, e)), cfg, prior, humans, skips);
    }
  }

  lemma {:induction false} RunBounded(s: Sys, cfg: PolicyConfig, rng: Stream, es: seq<CaseEvent>, prior: nat)
    requires Bounded(Abs(s), cfg, prior, 0, 0)
    ensures Bounded(Abs(Run(s, cfg, rng, es)), cfg, prior, Approvals(s, cfg, rng, es), Skips(s, cfg, rng, es))
  {
    hide Bounded, Apply, Abs, Approves, SkipsGate;
    if |es| > 0 {
      var before := es[..|es| - 1];
      RunBounded(s, cfg, rng, before, prior);
      ApplyBounded(Run(s, cfg, rng, before), cfg, rng, es[|es| - 1], prior, Approvals(s, cfg, rng, before),
                   Skips(s, cfg, rng, before));
    }
  }

  lemma FreshIsBounded(s: Sys, prior: nat, cfg: PolicyConfig)
    requires FreshCase(s.c, prior)
    ensures Bounded(Abs(s), cfg, prior, 0, 0)
  {
  }

  // ----- The theorems -----

  /** Over every run, retry_count is the prior attempts plus the charges made; it passes max(prior,
      max_retries) by at most one per approval given in the gate's place, and the contacts pass the cap by at
      most one per approval. */
  lemma {:induction false} AttemptsAreBounded(s: Sys, prior: nat, cfg: PolicyConfig, rng: Stream, es: seq<CaseEvent>)
    requires FreshCase(s.c, prior)
    ensures var c := Run(s, cfg, rng, es).c;
      && c.retryCount == prior + Charges(c)
      && c.retryCount <= Max(prior, cfg.maxRetries) + Skips(s, cfg, rng, es)
      && Contacts(c) <= Max(0, cfg.contactCap7d) + Approvals(s, cfg, rng, es)
  {
    hide Run, Skips, Approvals, FreshCase;
    FreshIsBounded(s, prior, cfg);
    RunBounded(s, cfg, rng, es, prior);
  }

  /** No charge was made and no attempt stamped. */
  predicate Idle(k: Core, k': Core) {
    && k'.chargeTimes == k.chargeTimes && k'.lastAttemptAt == k.lastAttemptAt
    && (k'.payStatus == k.payStatus || k'.status == Recovered)
  }

  lemma VerdictIsIdle(k: Core, d: Decision, verdict: Verdict, cfg: PolicyConfig, i: Input)
    ensures CoreVerdict(k, d, verdict, cfg, i).CoreDone? && Idle(k, CoreVerdict(k, d, verdict, cfg, i).k)
  {
  }

  lemma VerifyingIsIdle(k: Core, cfg: PolicyConfig, i: Input)
    ensures CoreVerifying(k, cfg, i).CoreDone? && Idle(k, CoreVerifying(k, cfg, i).k)
  {
  }

  /** Only an approved case charges or stamps an attempt. */
  lemma OnlyApprovedCharges(k: Core, cfg: PolicyConfig, i: Input)
    requires k.status != Approved && CoreStep(k, cfg, i).CoreDone?
    ensures Idle(k, CoreStep(k, cfg, i).k)
    ensures IsTerminal(k.status) ==> CoreStep(k, cfg, i).k == k
  {
    hide Triggered, CoreCtx, CoreVerdict, CoreVerifying;
    if k.status == PolicyCheck {
      var rule := Triggered(CoreCtx(k, k.latest.value, cfg, i.usedElsewhere));
      VerdictIsIdle(Noted(k, PolicyEvaluated(VerdictOf(rule), rule)), k.latest.value, VerdictOf(rule), cfg, i);
    } else if k.status == Verifying {
      VerifyingIsIdle(k, cfg, i);
    }
  }

  // ----- What one approval can do -----
  // These two concern a driver that commits between steps; `Witnesses` reaches both states from a fresh case, and
  // `Transactions` shows that the shipped drivers never commit one of them.

  /** An approval that lands on a case in POLICY_CHECK skips the gate: the next worker step charges however
      many retries were made, so the retry bound then survives exactly when one more was allowed. */
  lemma ApprovalDuringCheckSkipsGate(s: Sys, cfg: PolicyConfig, rng: Stream, env: Env, prior: nat)
    requires s.c.status == PolicyCheck && |s.c.escalations| > 0 && Retries(LatestDecision(s.c))
    ensures
      var approved := Apply(s, cfg, rng, HumanDecision(0, true));
      var after := Apply(approved, cfg, rng, WorkerStep(true, env)).c;
      && after.retryCount == s.c.retryCount + 1 && Charges(after) == Charges(s.c) + 1
      && (after.retryCount <= Max(prior, cfg.maxRetries) <==> s.c.retryCount < Max(prior, cfg.maxRetries))
  {
    hide Numbered, ChargeTimes, CountKind, Step, CoreApproved;
    var approved := Apply(s, cfg, rng, HumanDecision(0, true));
    assert Abs(approved) == Jump(Abs(s), Approved, Human);
    StepRefines(approved, Deps(cfg, true, rng), env);
    ChargeCounts(Abs(approved), Inputs(approved, Deps(cfg, true, rng), env));
  }

  lemma ChargeCounts(k: Core, i: Input)
    requires k.status == Approved && Retries(k.latest)
    ensures CoreApproved(k, i).CoreDone?
    ensures CoreApproved(k, i).k.retryCount == k.retryCount + 1
    ensures CoreApproved(k, i).k.Charges() == k.Charges() + 1
    ensures CoreApproved(k, i).k.status != Approved
  {
    hide Charge, Capture;
    var k1 := Jump(k, Executing, Executor);
    Shapes(k1, LinkCreated, ExecutorRetry);
    Shapes(Charge(k1), LinkCreated, ExecutorRetry);
  }

  /** At the contact cap the gate blocks a link only if the amount and confidence rules pass; otherwise it
      asks a human first, and after the approval the link is sent beyond the cap. */
  lemma HumanApprovalPassesContactCap(s: Sys, d: Decision, cfg: PolicyConfig, rng: Stream, env: Env)
    requires s.c.status == PolicyCheck && s.p.status == PayFailed && LatestDecision(s.c) == Some(d) && Links(Some(d))
    requires Contacts(s.c) >= cfg.contactCap7d && env.link != LinkError
    ensures
      var ctx := PolicyCtx(s.c, s.p, d, s.now, cfg, env.usedElsewhere);
      var asked := Apply(s, cfg, rng, WorkerStep(true, env));
      var approved := Apply(asked, cfg, rng, HumanDecision(0, true));
      var sent := Apply(approved, cfg, rng, WorkerStep(true, env));
      if Passes(P05, ctx) && Passes(P06, ctx) then VerdictOf(Triggered(ctx)) == Block
      else asked.c.status == AwaitingApproval && approved.c.status == Approved && Contacts(sent.c) == Contacts(s.c) + 1
  {
    hide Numbered, ChargeTimes, CountKind, Step;
    var ctx := PolicyCtx(s.c, s.p, d, s.now, cfg, env.usedElsewhere);
    var deps := Deps(cfg, true, rng);
    CapVerdict(ctx);
    assert ctx == CoreCtx(Abs(s), d, cfg, env.usedElsewhere);
    hide PolicyCtx, CoreCtx, Triggered, Passes;
    if VerdictOf(Triggered(ctx)) == Escalate {
      StepRefines(s, deps, env);
      var asked := Apply(s, cfg, rng, WorkerStep(true, env));
      assert Abs(asked).status == AwaitingApproval && Abs(asked).parked && Abs(asked).latest == Some(d);
      assert Abs(asked).Contacts() == Contacts(s.c);
      hide CoreStep;
      ApprovedLinkIsSent(asked, d, cfg, rng, env);
    }
  }

  /** A link proposed at the contact cap on a failed payment: the rules on amount and confidence come first. */
  lemma CapVerdict(ctx: PolicyContext)
    requires ctx.caseStatus == PolicyCheck && ctx.paymentStatus == PayFailed && !ctx.capturedForOrder
    requires ctx.proposedAction == SendRecoveryLink && ctx.contactCount >= ctx.config.contactCap7d
    requires !ctx.existingAction
    ensures VerdictOf(Triggered(ctx)) == if Passes(P05, ctx) && Passes(P06, ctx) then Block else Escalate
  {
  }

  lemma ApprovedLinkIsSent(asked: Sys, d: Decision, cfg: PolicyConfig, rng: Stream, env: Env)
    requires asked.c.status == AwaitingApproval && |asked.c.escalations| > 0
    requires LatestDecision(asked.c) == Some(d) && Links(Some(d)) && env.link != LinkError
    ensures
      var approved := Apply(asked, cfg, rng, HumanDecision(0, true));
      approved.c.status == Approved
      && Contacts(Apply(approved, cfg, rng, WorkerStep(true, env)).c) == Contacts(asked.c) + 1
  {
    hide Numbered, ChargeTimes, CountKind, Step, CoreApproved;
    var approved := Apply(asked, cfg, rng, HumanDecision(0, true));
    assert Abs(approved) == Jump(Abs(asked), Approved, Human);
    StepRefines(approved, Deps(cfg, true, rng), env);
    LinkCounts(Abs(approved), Inputs(approved, Deps(cfg, true, rng), env));
  }

  lemma LinkCounts(k: Core, i: Input)
    requires k.status == Approved && Links(k.latest) && i.link != LinkError
    ensures CoreApproved(k, i).CoreDone?
    ensures CoreApproved(k, i).k.Contacts() == k.Contacts() + 1
  {
    hide SendLink, Capture;
    var k1 := Jump(k, Executing, Executor);
    Shapes(k1, i.link, ExecutorLink);
    Shapes(SendLink(k1, i.link), i.link, ExecutorLink);
  }

  lemma OthersDoNotCharge(k: Core, i: Input)
    requires k.status == Approved && !Retries(k.latest)
    ensures CoreApproved(k, i).CoreDone? ==>
      CoreApproved(k, i).k.chargeTimes == k.chargeTimes && CoreApproved(k, i).k.status != Approved
  {
    hide SendLink, Capture;
    var k1 := Jump(k, Executing, Executor);
    Shapes(k1, i.link, ExecutorLink);
    Shapes(SendLink(k1, i.link), i.link, ExecutorLink);
  }
}
