/** Waiting for a cooldown, over whole runs: when the clock is fast-forwarded an attempt waits at most once
    (app/services/pipeline.py:296-317). */
module Waiting {
  import opened Enums
  import opened Fsm
  import opened PolicyRules
  import opened PolicyEngine
  import opened Gateway
  import opened Trail
  import opened Rows
  import opened Verification
  import opened Decide
  import opened Executors
  import opened Pipeline
  import opened HumanDecisions
  import opened CaseRuns
  import opened Core
  import opened Limits
  import opened GateLaws
  import opened TableGate

  /** What decides about an attempt: the gate, or a human in its place. */
  datatype Ruling = Evaluated(verdict: Verdict) | HumanApproved

  function Rulings(t: seq<Event>): seq<Ruling> {
    if |t| == 0 then []
    else
      var before, e := Rulings(t[..|t| - 1]), t[|t| - 1];
      if e.PolicyEvaluated? then before + [Evaluated(e.verdict)]
      else if IsApproval(e) && e.actor == Human then before + [HumanApproved]
      else before
  }

  lemma RulingsAppend()
    ensures forall t: seq<Event>, e: Event {:trigger Rulings(t + [e])} ::
      Rulings(t + [e]) == Rulings(t) + (if e.PolicyEvaluated? then [Evaluated(e.verdict)]
                                        else if IsApproval(e) && e.actor == Human then [HumanApproved] else [])
  {
    forall t: seq<Event>, e: Event
      ensures Rulings(t + [e]) == Rulings(t) + (if e.PolicyEvaluated? then [Evaluated(e.verdict)]
                                                else if IsApproval(e) && e.actor == Human then [HumanApproved] else [])
    {
      assert (t + [e])[..|t|] == t;
    }
  }

  // ----- Steps rule once, at the gate -----

  lemma VerdictRules(k: Core, d: Decision, verdict: Verdict, cfg: PolicyConfig, i: Input)
    ensures CoreVerdict(k, d, verdict, cfg, i).CoreDone?
    ensures Rulings(CoreVerdict(k, d, verdict, cfg, i).k.trail) == Rulings(k.trail)
  {
    hide Rulings;
    RulingsAppend();
  }

  lemma VerifyingRules(k: Core, cfg: PolicyConfig, i: Input)
    ensures CoreVerifying(k, cfg, i).CoreDone?
    ensures Rulings(CoreVerifying(k, cfg, i).k.trail) == Rulings(k.trail)
  {
    hide Rulings;
    RulingsAppend();
  }

  lemma EffectsRule(k: Core, link: LinkReply, source: CaptureSource)
    ensures Rulings(Charge(k).trail) == Rulings(k.trail) && Rulings(SendLink(k, link).trail) == Rulings(k.trail)
    ensures Rulings(Capture(k, source).trail) == Rulings(k.trail)
    ensures Rulings(RaiseEscalation(k).trail) == Rulings(k.trail)
  {
    hide Rulings;
    RulingsAppend();
  }

  lemma AttemptRules(k: Core, i: Input)
    ensures CoreRetry(k, i.paid).CoreDone? ==> Rulings(CoreRetry(k, i.paid).k.trail) == Rulings(k.trail)
    ensures CoreLink(k, i.link, i.paid).CoreDone? ==> Rulings(CoreLink(k, i.link, i.paid).k.trail) == Rulings(k.trail)
  {
    hide Rulings, Charge, SendLink, Capture;
    RulingsAppend();
    EffectsRule(k, i.link, ExecutorRetry);
    EffectsRule(Charge(k), i.link, ExecutorRetry);
    EffectsRule(SendLink(k, i.link), i.link, ExecutorLink);
  }

  lemma ApprovedRules(k: Core, i: Input)
    ensures CoreApproved(k, i).CoreDone? ==> Rulings(CoreApproved(k, i).k.trail) == Rulings(k.trail)
  {
    hide Rulings, CoreRetry, CoreLink, RaiseEscalation;
    RulingsAppend();
    AttemptRules(Jump(k, Executing, Executor), i);
    EffectsRule(Jump(k, Executing, Executor), i.link, ExecutorLink);
  }

  /** A worker step adds a ruling exactly when it passes the gate: the gate's verdict. */
  lemma StepRules(k: Core, cfg: PolicyConfig, i: Input)
    requires CoreStep(k, cfg, i).CoreDone?
    ensures Rulings(CoreStep(k, cfg, i).k.trail) == Rulings(k.trail) +
      if k.status == PolicyCheck
      then [Evaluated(VerdictOf(Triggered(CoreCtx(k, k.latest.value, cfg, i.usedElsewhere))))] else []
  {
    hide Rulings, Triggered, CoreCtx, CoreVerdict, CoreVerifying, CoreApproved;
    RulingsAppend();
    if k.status == PolicyCheck {
      var rule := Triggered(CoreCtx(k, k.latest.value, cfg, i.usedElsewhere));
      VerdictRules(Noted(k, PolicyEvaluated(VerdictOf(rule), rule)), k.latest.value, VerdictOf(rule), cfg, i);
    } else if k.status == Approved {
      ApprovedRules(k, i);
    } else if k.status == Verifying {
      VerifyingRules(k, cfg, i);
    }
  }

  // ----- No attempt waits twice -----

  predicate MustWait(k: Core, cfg: PolicyConfig) {
    Retries(k.latest) && k.lastAttemptAt.Some? && k.now - k.lastAttemptAt.value < GateCooldown(cfg, k.retryCount)
  }

  function Newest(rs: seq<Ruling>): Option<Ruling> { if |rs| == 0 then None else Some(rs[|rs| - 1]) }

  ghost predicate NoTwoWaits(rs: seq<Ruling>) {
    forall i | 0 <= i < |rs| - 1 :: !(rs[i] == Evaluated(Wait) && rs[i + 1] == Evaluated(Wait))
  }

  lemma NoTwoWaitsAppend(rs: seq<Ruling>, r: Ruling)
    requires NoTwoWaits(rs) && (r == Evaluated(Wait) ==> Newest(rs) != Some(Evaluated(Wait)))
    ensures NoTwoWaits(rs + [r])
  {
  }

  /** After a WAIT the case has waited enough, until the next ruling. */
  ghost predicate Rested(k: Core, cfg: PolicyConfig) {
    && NoTwoWaits(Rulings(k.trail))
    && (k.lastAttemptAt.Some? ==> k.lastAttemptAt.value <= k.now)
    && (Newest(Rulings(k.trail)) == Some(Evaluated(Wait)) ==>
          IsTerminal(k.status) || ((k.status == Planned || k.status == PolicyCheck) && !MustWait(k, cfg)))
  }

  lemma GateWaits(k: Core, d: Decision, cfg: PolicyConfig, used: nat)
    requires VerdictOf(Triggered(CoreCtx(k, d, cfg, used))) == Wait && k.latest == Some(d)
    ensures MustWait(k, cfg)
  {
    hide GateCooldown;
  }

  lemma WaitIsEnough(k: Core, cfg: PolicyConfig, next: Core)
    requires k.lastAttemptAt.Some? ==> k.lastAttemptAt.value <= k.now
    requires next.latest == k.latest && next.lastAttemptAt == k.lastAttemptAt && next.retryCount == k.retryCount
    requires next.now == k.now + WaitMinutes(cfg, k.retryCount)
    ensures !MustWait(next, cfg)
  {
    WaitCoversCooldown(cfg, k.retryCount);
    hide GateCooldown, WaitMinutes;
  }

  /** What a fast-forwarded WAIT leaves, and that other verdicts do not wait. */
  lemma GateLeaves(k: Core, cfg: PolicyConfig, i: Input)
    requires k.status == PolicyCheck && k.latest.Some? && i.fastForward
    ensures
      var verdict := VerdictOf(Triggered(CoreCtx(k, k.latest.value, cfg, i.usedElsewhere)));
      var next := CoreStep(k, cfg, i).k;
      && CoreStep(k, cfg, i).CoreDone? && next.lastAttemptAt == k.lastAttemptAt && next.now >= k.now
      && (verdict == Wait ==> next.status == Planned && next.latest == k.latest && next.retryCount == k.retryCount
                              && next.now == k.now + WaitMinutes(cfg, k.retryCount))
  {
    hide Triggered, CoreCtx;
  }

  /** A step away from the gate: the attempt's clock stays in order. */
  lemma StepKeepsClock(k: Core, cfg: PolicyConfig, i: Input)
    requires CoreStep(k, cfg, i).CoreDone? && (k.lastAttemptAt.Some? ==> k.lastAttemptAt.value <= k.now)
    ensures var k' := CoreStep(k, cfg, i).k; k'.lastAttemptAt.Some? ==> k'.lastAttemptAt.value <= k'.now
  {
    hide CoreApproved, Triggered, CoreCtx;
    FactsKept(k, cfg, i);
    if k.status != Approved {
      OnlyApprovedCharges(k, cfg, i);
      hide CoreStep;
    } else {
      ApprovedKeepsClock(k, i);
    }
  }

  lemma ApprovedKeepsClock(k: Core, i: Input)
    requires CoreApproved(k, i).CoreDone?
    ensures
      var k' := CoreApproved(k, i).k;
      k'.now == k.now && (k'.lastAttemptAt == k.lastAttemptAt || k'.lastAttemptAt == Some(k.now))
  {
    hide CoreRetry, CoreLink;
    AttemptKeepsClock(Jump(k, Executing, Executor), i);
  }

  lemma AttemptKeepsClock(k: Core, i: Input)
    ensures CoreRetry(k, i.paid).CoreDone? ==>
      var k' := CoreRetry(k, i.paid).k;
      k'.now == k.now && (k'.lastAttemptAt == k.lastAttemptAt || k'.lastAttemptAt == Some(k.now))
    ensures CoreLink(k, i.link, i.paid).CoreDone? ==>
      var k' := CoreLink(k, i.link, i.paid).k;
      k'.now == k.now && (k'.lastAttemptAt == k.lastAttemptAt || k'.lastAttemptAt == Some(k.now))
  {
    hide Charge, SendLink, Capture;
    Shapes(k, i.link, ExecutorLink);
    Shapes(Charge(k), i.link, ExecutorRetry);
    Shapes(SendLink(k, i.link), i.link, ExecutorLink);
  }

  lemma StepRested(k: Core, cfg: PolicyConfig, i: Input)
    requires Rested(k, cfg) && i.fastForward && CoreStep(k, cfg, i).CoreDone?
    ensures Rested(CoreStep(k, cfg, i).k, cfg)
  {
    hide Rulings, NoTwoWaits, CoreVerdict, CoreVerifying, CoreApproved, CorePolicyCheck, Triggered, CoreCtx;
    hide GateCooldown, MustWait;
    StepRules(k, cfg, i);
    StepKeepsClock(k, cfg, i);
    var rs := Rulings(k.trail);
    if k.status == PolicyCheck {
      var verdict := VerdictOf(Triggered(CoreCtx(k, k.latest.value, cfg, i.usedElsewhere)));
      if verdict == Wait {
        GateWaits(k, k.latest.value, cfg, i.usedElsewhere);
        WaitIsEnoughAt(k, cfg, i);
      }
      NoTwoWaitsAppend(rs, Evaluated(verdict));
    } else if k.status == Planned {
      PlannedWaits(k, cfg, i);
      assert rs + [] == rs;
    } else {
      assert rs + [] == rs;
      if IsTerminal(k.status) {
        TerminalStays(k, cfg, i);
      }
    }
    hide CoreStep;
  }

  lemma WaitIsEnoughAt(k: Core, cfg: PolicyConfig, i: Input)
    requires k.status == PolicyCheck && k.latest.Some? && i.fastForward
    requires k.lastAttemptAt.Some? ==> k.lastAttemptAt.value <= k.now
    requires VerdictOf(Triggered(CoreCtx(k, k.latest.value, cfg, i.usedElsewhere))) == Wait
    ensures
      var next := CoreStep(k, cfg, i).k;
      CoreStep(k, cfg, i).CoreDone? && next.status == Planned && !MustWait(next, cfg)
  {
    hide Triggered, CoreCtx, CoreStep, MustWait, WaitMinutes;
    GateLeaves(k, cfg, i);
    WaitIsEnough(k, cfg, CoreStep(k, cfg, i).k);
  }

  lemma PlannedWaits(k: Core, cfg: PolicyConfig, i: Input)
    requires k.status == Planned
    ensures CoreStep(k, cfg, i).CoreDone? && CoreStep(k, cfg, i).k.status == PolicyCheck
    ensures MustWait(CoreStep(k, cfg, i).k, cfg) == MustWait(k, cfg)
  {
  }

  lemma TerminalStays(k: Core, cfg: PolicyConfig, i: Input)
    requires IsTerminal(k.status)
    ensures CoreStep(k, cfg, i) == CoreDone(k, false)
  {
  }

  // ----- Runs -----

  lemma WorkerRested(s: Sys, cfg: PolicyConfig, rng: Stream, env: Env)
    requires Rested(Abs(s), cfg) && Step(s, Deps(cfg, true, rng), env).Done?
    ensures Rested(Abs(Step(s, Deps(cfg, true, rng), env).s), cfg)
  {
    hide Rested, Step, CoreStep, Abs;
    StepRefines(s, Deps(cfg, true, rng), env);
    StepRested(Abs(s), cfg, Inputs(s, Deps(cfg, true, rng), env));
  }

  lemma OutsideRules(s: Sys, cfg: PolicyConfig, rng: Stream, e: CaseEvent)
    requires !e.WorkerStep? && !e.HumanDecision?
    ensures Rulings(Apply(s, cfg, rng, e).c.trail) == Rulings(s.c.trail)
  {
    hide Rulings;
    RulingsAppend();
  }

  lemma OutsideRested(k: Core, next: Core, cfg: PolicyConfig)
    requires Rested(k, cfg) && OnlyOutside(k, next) && Rulings(next.trail) == Rulings(k.trail)
    ensures Rested(next, cfg)
  {
    hide Rulings, NoTwoWaits, GateCooldown;
  }

  lemma HumanRested(s: Sys, cfg: PolicyConfig, escalation: nat, approve: bool)
    requires Rested(Abs(s), cfg) && HumanDecided(s.c, escalation, approve).Ok?
    ensures Rested(Abs(s.(c := HumanDecided(s.c, escalation, approve).value)), cfg)
  {
    hide Rulings, NoTwoWaits, GateCooldown, Numbered, ChargeTimes, CountKind;
    RulingsAppend();
    NoTwoWaitsAppend(Rulings(s.c.trail), HumanApproved);
    assert Rulings(s.c.trail) + [] == Rulings(s.c.trail);
  }

  predicate FastForwards(e: CaseEvent) { e.WorkerStep? ==> e.fastForward }

  lemma ApplyRested(s: Sys, cfg: PolicyConfig, rng: Stream, e: CaseEvent)
    requires Rested(Abs(s), cfg) && FastForwards(e)
    ensures Rested(Abs(Apply(s, cfg, rng, e)), cfg)
  {
    hide Rested, Step, Abs, HumanDecided, OnlyOutside, Rulings;
    if e.WorkerStep? {
      if Step(s, Deps(cfg, true, rng), e.env).Done? {
        WorkerRested(s, cfg, rng, e.env);
      }
    } else if e.HumanDecision? {
      if HumanDecided(s.c, e.escalation, e.approve).Ok? {
        HumanRested(s, cfg, e.escalation, e.approve);
      }
    } else {
      OutsideEvents(s, cfg, rng, e);
      OutsideRules(s, cfg, rng, e);
      TrailOf(s);
      TrailOf(Apply(s, cfg, rng, e));
      OutsideRested(Abs(s), Abs(Apply(s, cfg, rng, e)), cfg);
    }
  }

  lemma TrailOf(s: Sys)
    ensures Abs(s).trail == s.c.trail
  {
  }

  lemma {:induction false} RunRested(s: Sys, cfg: PolicyConfig, rng: Stream, es: seq<CaseEvent>)
    requires Rested(Abs(s), cfg) && forall e | e in es :: FastForwards(e)
    ensures Rested(Abs(Run(s, cfg, rng, es)), cfg)
  {
    hide Rested, Abs, Apply;
    if |es| > 0 {
      RunRested(s, cfg, rng, es[..|es| - 1]);
      ApplyRested(Run(s, cfg, rng, es[..|es| - 1]), cfg, rng, es[|es| - 1]);
    }
  }

  lemma FreshIsRested(s: Sys, prior: nat, cfg: PolicyConfig)
    requires FreshCase(s.c, prior)
    ensures Rested(Abs(s), cfg)
  {
    assert [CaseCreated][..0] == [];
  }

  /** Under any config, decision source and interleaving, when worker steps fast-forward the clock no attempt
      waits twice: on the trail, a WAIT is always followed by an evaluation that is not one, or by a human's
      approval, before the next WAIT. */
  lemma {:induction false} NoAttemptWaitsTwice(s: Sys, prior: nat, cfg: PolicyConfig, rng: Stream, es: seq<CaseEvent>)
    requires FreshCase(s.c, prior) && forall e | e in es :: FastForwards(e)
    ensures NoTwoWaits(Rulings(Run(s, cfg, rng, es).c.trail))
  {
    hide Run, FreshCase, Rulings, NoTwoWaits, MustWait;
    FreshIsRested(s, prior, cfg);
    RunRested(s, cfg, rng, es);
  }

  // ----- The clock -----

  /** How far a step moves the pipeline's clock, if it fast-forwards: by the approval window of two days; by the
      cooldown of a charge that comes too early, at least a minute; or by half an hour, two hours or eight between
      attempts. */
  function Elapses(s: Sys, cfg: PolicyConfig): int {
    match s.c.status
    case AwaitingApproval => 2880
    case PolicyCheck =>
      if LatestDecision(s.c).Some? && s.p.status == PayFailed && AsksToCharge(LatestDecision(s.c).value)
         && s.c.retryCount < cfg.maxRetries && !Cooled(s, cfg)
      then (if cfg.cooldownBaseMin > 0 then cfg.cooldownBaseMin * Pow2(s.c.retryCount) else 1)
      else 0
    case Verifying =>
      if || s.p.status == PayCaptured
         || (LatestDecision(s.c).Some? && LatestDecision(s.c).value.strategy == S6)
         || (s.c.diagnosis == Some(InstrumentInvalid) && Contacts(s.c) > 0)
         || Contacts(s.c) >= cfg.contactCap7d
      then 0
      else if s.c.retryCount == 0 then 30 else if s.c.retryCount == 1 then 120 else 480
    case _ => 0
  }

  lemma VerdictMoves(s: Sys, d: Decision, verdict: Verdict, deps: Deps, env: Env)
    ensures
      var r := StepVerdict(s, d, verdict, deps, env);
      r.Done? && r.s.now == if verdict == Wait && deps.fastForward then s.now + WaitMinutes(deps.cfg, s.c.retryCount)
                            else s.now
  {
    hide WaitMinutes, Chosen, FallbackDecision, EscalationEnsured;
  }

  lemma WaitIsCooldown(cfg: PolicyConfig, retryCount: nat)
    ensures
      WaitMinutes(cfg, retryCount) == if cfg.cooldownBaseMin > 0 then cfg.cooldownBaseMin * Pow2(retryCount) else 1
  {
    var base, factor := cfg.cooldownBaseMin, Pow2(retryCount);
    if base > 0 {
      assert base * factor >= 1 * 1;
    } else {
      assert base * factor <= 0;
    }
  }

  lemma GateMoves(s: Sys, d: Decision, deps: Deps, env: Env)
    requires s.c.status == PolicyCheck && LatestDecision(s.c) == Some(d)
    ensures
      var r := StepPolicyCheck(s, d, deps, env);
      r.Done? && r.s.now == s.now + if deps.fastForward then Elapses(s, deps.cfg) else 0
  {
    hide Triggered, PolicyCtx, StepVerdict, Cleared, InTurn, WithinMandate, Cooled, Pow2, WaitMinutes;
    var rule := Triggered(PolicyCtx(s.c, s.p, d, s.now, deps.cfg, env.usedElsewhere));
    CtxAnswers(s, d, deps.cfg, env.usedElsewhere);
    WaitIsCooldown(deps.cfg, s.c.retryCount);
    VerdictMoves(s.(c := Emit(s.c, PolicyEvaluated(VerdictOf(rule), rule))), d, VerdictOf(rule), deps, env);
  }

  /** A step moves the clock exactly so far, and a live step never does. */
  lemma ClockMoves(s: Sys, deps: Deps, env: Env)
    requires Step(s, deps, env).Done?
    ensures Step(s, deps, env).s.now == s.now + if deps.fastForward then Elapses(s, deps.cfg) else 0
  {
    hide StepPolicyCheck, Cooled, Pow2, CountKind, Chosen, FallbackDecision, Latent, Rolled;
    hide Captured, ClosedOff, EscalationForced, EscalationRaised, ChargeOutcome, LinkOutcome;
    if s.c.status == PolicyCheck {
      GateMoves(s, LatestDecision(s.c).value, deps, env);
    }
  }
}
