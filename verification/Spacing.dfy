/** How far apart the charges of a case are. */
module Spacing {
  import opened Enums
  import opened Fsm
  import opened PolicyRules
  import opened PolicyEngine
  import opened Gateway
  import opened Rows
  import opened Executors
  import opened HumanDecisions
  import opened Pipeline
  import opened CaseRuns
  import opened Core
  import opened Limits

  // ----- The gate's word -----

  lemma GateWaited(k: Core, cfg: PolicyConfig, i: Input)
    requires k.status == PolicyCheck && k.latest.Some?
    ensures CorePolicyCheck(k, k.latest.value, cfg, i).CoreDone? ==>
      Waited(CorePolicyCheck(k, k.latest.value, cfg, i).k, cfg, false)
  {
    hide GateCooldown, Triggered;
    GateVouches(k, k.latest.value, cfg, i.usedElsewhere);
  }

  lemma ApprovedIsLeft(k: Core, i: Input)
    requires k.status == Approved && CoreApproved(k, i).CoreDone?
    ensures
      var k' := CoreApproved(k, i).k;
      k'.status != Approved && (k'.status == AwaitingApproval ==> !Retries(k'.latest))
  {
    hide CoreRetry, CoreLink;
    AttemptIsNoWait(Jump(k, Executing, Executor), i);
  }

  lemma AttemptIsNoWait(k: Core, i: Input)
    requires k.status == Executing
    ensures CoreRetry(k, i.paid).CoreDone? ==> CoreRetry(k, i.paid).k.status !in {Approved, AwaitingApproval}
    ensures CoreLink(k, i.link, i.paid).CoreDone? ==>
      CoreLink(k, i.link, i.paid).k.status !in {Approved, AwaitingApproval}
  {
    hide Charge, SendLink, Capture;
    Shapes(k, i.link, ExecutorLink);
    Shapes(Charge(k), i.link, ExecutorRetry);
    Shapes(SendLink(k, i.link), i.link, ExecutorLink);
  }

  /** After a worker step a case that stands approved was approved by the gate. */
  lemma StepWaited(k: Core, cfg: PolicyConfig, i: Input, bypassed: bool)
    requires Waited(k, cfg, bypassed) && CoreStep(k, cfg, i).CoreDone?
    ensures Waited(CoreStep(k, cfg, i).k, cfg, false)
  {
    hide GateCooldown, CorePolicyCheck, CoreApproved;
    if k.status == PolicyCheck {
      GateWaited(k, cfg, i);
    } else if k.status == Approved {
      ApprovedIsLeft(k, i);
    }
  }

  // ----- Spacing of charges -----

  /** Charge number i was started at least the gate's cooldown after charge i - 1. */
  ghost predicate WellSpaced(times: seq<int>, cfg: PolicyConfig, prior: nat) {
    forall i | 1 <= i < |times| :: times[i] - times[i - 1] >= GateCooldown(cfg, prior + i)
  }

  /** Charges are spaced, and while the case is open the newest is covered by the stamped attempt. */
  ghost predicate Spaced(k: Core, cfg: PolicyConfig, prior: nat) {
    && WellSpaced(k.chargeTimes, cfg, prior)
    && (|k.chargeTimes| > 0 && !IsTerminal(k.status) ==>
          k.lastAttemptAt.Some? && k.chargeTimes[|k.chargeTimes| - 1] <= k.lastAttemptAt.value)
  }

  lemma SpacedAppend(times: seq<int>, t: int, cfg: PolicyConfig, prior: nat)
    requires WellSpaced(times, cfg, prior)
    requires |times| > 0 ==> t - times[|times| - 1] >= GateCooldown(cfg, prior + |times|)
    ensures WellSpaced(times + [t], cfg, prior)
  {
  }

  /** A refused charge is stamped exactly when the payment's mirror does not say CAPTURED: otherwise the case
      stays EXECUTING with the attempt unstamped. */
  lemma UnstampedCharge(k: Core, i: Input)
    requires k.status == Approved && Retries(k.latest)
    ensures
      var r := CoreApproved(k, i);
      && r.CoreDone? && r.k.chargeTimes == k.chargeTimes + [k.now]
      && (r.k.status == Executing <==> k.payStatus == PayCaptured && !i.paid)
      && r.k.lastAttemptAt == (if k.payStatus == PayCaptured || i.paid then k.lastAttemptAt else Some(k.now))
      && (r.k.status == Recovered <==> i.paid)
  {
    hide Charge, Capture;
    var k1 := Jump(k, Executing, Executor);
    Shapes(k1, LinkCreated, ExecutorRetry);
    Shapes(Charge(k1), LinkCreated, ExecutorRetry);
  }

  /** A charge that the gate vouched for and that does not go unstamped. */
  predicate ChargesInOrder(k: Core, paid: bool, bypassed: bool) {
    k.status == Approved && Retries(k.latest) ==> !bypassed && (k.payStatus != PayCaptured || paid)
  }

  lemma ChargeSpaced(k: Core, cfg: PolicyConfig, i: Input, prior: nat, bypassed: bool)
    requires k.retryCount == prior + k.Charges() && Waited(k, cfg, bypassed) && Spaced(k, cfg, prior)
    requires k.status == Approved && Retries(k.latest) && ChargesInOrder(k, i.paid, bypassed)
    ensures CoreApproved(k, i).CoreDone? && Spaced(CoreApproved(k, i).k, cfg, prior)
  {
    hide GateCooldown, CoreApproved;
    SpacedAppend(k.chargeTimes, k.now, cfg, prior);
    UnstampedCharge(k, i);
    hide WellSpaced;
  }

  lemma LinkSpaced(k: Core, cfg: PolicyConfig, link: LinkReply, paid: bool, prior: nat)
    requires Spaced(k, cfg, prior) && k.status == Executing
    requires k.lastAttemptAt.Some? ==> k.lastAttemptAt.value <= k.now
    ensures CoreLink(k, link, paid).CoreDone? ==> Spaced(CoreLink(k, link, paid).k, cfg, prior)
  {
    hide WellSpaced, SendLink, Capture;
    Shapes(k, link, ExecutorLink);
    Shapes(SendLink(k, link), link, ExecutorLink);
  }

  lemma OtherSpaced(k: Core, cfg: PolicyConfig, i: Input, prior: nat)
    requires Spaced(k, cfg, prior) && k.status == Approved && !Retries(k.latest)
    requires k.lastAttemptAt.Some? ==> k.lastAttemptAt.value <= k.now
    ensures CoreApproved(k, i).CoreDone? ==> Spaced(CoreApproved(k, i).k, cfg, prior)
  {
    hide CoreRetry, CoreLink, WellSpaced;
    LinkSpaced(Jump(k, Executing, Executor), cfg, i.link, i.paid, prior);
  }

  lemma StepSpaced(k: Core, cfg: PolicyConfig, i: Input, prior: nat, bypassed: bool)
    requires k.retryCount == prior + k.Charges() && (k.lastAttemptAt.Some? ==> k.lastAttemptAt.value <= k.now)
    requires Waited(k, cfg, bypassed) && Spaced(k, cfg, prior) && ChargesInOrder(k, i.paid, bypassed)
    requires CoreStep(k, cfg, i).CoreDone?
    ensures Spaced(CoreStep(k, cfg, i).k, cfg, prior)
  {
    hide WellSpaced, CoreApproved, Waited;
    if k.status != Approved {
      OnlyApprovedCharges(k, cfg, i);
      hide CoreStep;
    } else if Retries(k.latest) {
      ChargeSpaced(k, cfg, i, prior, bypassed);
    } else {
      OtherSpaced(k, cfg, i, prior);
    }
  }

  // ----- Runs -----

  /** Does the gateway hold, or now roll, that the payment will be paid? */
  predicate Pays(s: Sys, rng: Stream) { Latent(rng, s.g, s.c.paymentId, CaptureProbability(s.c)) }

  /** Every charge of the run was vouched for by the gate, and none was refused while the payment's mirror
      said CAPTURED. */
  ghost predicate Orderly(s: Sys, cfg: PolicyConfig, rng: Stream, es: seq<CaseEvent>) {
    |es| == 0 ||
    var before := es[..|es| - 1];
    var t := Run(s, cfg, rng, before);
    && Orderly(s, cfg, rng, before)
    && (es[|es| - 1].WorkerStep? ==> ChargesInOrder(Abs(t), Pays(t, rng), Bypassed(s, cfg, rng, before)))
  }

  lemma WorkerSpaced(s: Sys, deps: Deps, env: Env, prior: nat, humans: nat, skips: nat, bypassed: bool)
    requires Bounded(Abs(s), deps.cfg, prior, humans, skips) && Waited(Abs(s), deps.cfg, bypassed)
    requires Spaced(Abs(s), deps.cfg, prior) && ChargesInOrder(Abs(s), Pays(s, deps.rng), bypassed)
    requires Step(s, deps, env).Done?
    ensures Spaced(Abs(Step(s, deps, env).s), deps.cfg, prior)
  {
    hide Waited, Spaced, Step, CoreStep, Abs, ChargesInOrder;
    StepRefines(s, deps, env);
    StepSpaced(Abs(s), deps.cfg, Inputs(s, deps, env), prior, bypassed);
  }

  lemma WorkerWaited(s: Sys, deps: Deps, env: Env, bypassed: bool)
    requires Waited(Abs(s), deps.cfg, bypassed) && Step(s, deps, env).Done?
    ensures Waited(Abs(Step(s, deps, env).s), deps.cfg, false)
  {
    hide Waited, Step, CoreStep, Abs, Inputs;
    StepRefines(s, deps, env);
    StepWaited(Abs(s), deps.cfg, Inputs(s, deps, env), bypassed);
  }

  lemma OutsideWaited(k: Core, next: Core, cfg: PolicyConfig, bypassed: bool)
    requires Waited(k, cfg, bypassed) && OnlyOutside(k, next)
    ensures Waited(next, cfg, k.status == Approved && bypassed)
  {
    hide GateCooldown;
  }

  lemma HumanWaited(s: Sys, cfg: PolicyConfig, escalation: nat, approve: bool, bypassed: bool)
    requires Waited(Abs(s), cfg, bypassed) && HumanDecided(s.c, escalation, approve).Ok?
    ensures Waited(Abs(s.(c := HumanDecided(s.c, escalation, approve).value)), cfg,
                   SkipsGate(s, HumanDecision(escalation, approve)) || (s.c.status == Approved && bypassed))
  {
    hide GateCooldown, Numbered, ChargeTimes, CountKind;
  }

  lemma ApplyWaited(s: Sys, cfg: PolicyConfig, rng: Stream, e: CaseEvent, bypassed: bool)
    requires Waited(Abs(s), cfg, bypassed)
    ensures Waited(Abs(Apply(s, cfg, rng, e)), cfg, SkipsGate(s, e) || (s.c.status == Approved && bypassed))
  {
    hide Waited, Step, HumanDecided, OnlyOutside;
    StandsApproved(s);
    hide Abs;
    if e.WorkerStep? {
      if Step(s, Deps(cfg, e.fastForward, rng), e.env).Done? {
        WorkerWaited(s, Deps(cfg, e.fastForward, rng), e.env, bypassed);
        MoreBypassed(Abs(Apply(s, cfg, rng, e)), cfg, s.c.status == Approved && bypassed);
      } else {
        WaitedApart(Abs(s), cfg, bypassed, s.c.status == Approved && bypassed);
      }
    } else if e.HumanDecision? {
      if HumanDecided(s.c, e.escalation, e.approve).Ok? {
        HumanWaited(s, cfg, e.escalation, e.approve, bypassed);
      } else {
        WaitedApart(Abs(s), cfg, bypassed, s.c.status == Approved && bypassed);
      }
    } else {
      OutsideEvents(s, cfg, rng, e);
      OutsideWaited(Abs(s), Abs(Apply(s, cfg, rng, e)), cfg, bypassed);
    }
  }

  lemma StandsApproved(s: Sys)
    ensures Abs(s).status == s.c.status
  {
  }

  lemma MoreBypassed(k: Core, cfg: PolicyConfig, bypassed: bool)
    requires Waited(k, cfg, false)
    ensures Waited(k, cfg, bypassed)
  {
  }

  lemma WaitedApart(k: Core, cfg: PolicyConfig, bypassed: bool, b: bool)
    requires Waited(k, cfg, bypassed) && (k.status == Approved ==> b == bypassed)
    ensures Waited(k, cfg, b)
  {
  }

  lemma ApplySpaced(s: Sys, cfg: PolicyConfig, rng: Stream, e: CaseEvent, prior: nat, humans: nat, skips: nat,
                    bypassed: bool)
    requires Bounded(Abs(s), cfg, prior, humans, skips) && Waited(Abs(s), cfg, bypassed) && Spaced(Abs(s), cfg, prior)
    requires e.WorkerStep? ==> ChargesInOrder(Abs(s), Pays(s, rng), bypassed)
    ensures Spaced(Abs(Apply(s, cfg, rng, e)), cfg, prior)
  {
    hide WellSpaced, Numbered, ChargeTimes, CountKind, Step, Waited;
    if e.WorkerStep? {
      if Step(s, Deps(cfg, e.fastForward, rng), e.env).Done? {
        WorkerSpaced(s, Deps(cfg, e.fastForward, rng), e.env, prior, humans, skips, bypassed);
      }
    } else if !e.HumanDecision? {
      OutsideEvents(s, cfg, rng, e);
      hide Apply;
    }
  }

  lemma {:induction false} RunWaited(s: Sys, cfg: PolicyConfig, rng: Stream, es: seq<CaseEvent>)
    requires Waited(Abs(s), cfg, false)
    ensures Waited(Abs(Run(s, cfg, rng, es)), cfg, Bypassed(s, cfg, rng, es))
  {
    hide Waited, Apply, Abs, SkipsGate;
    if |es| > 0 {
      var before := es[..|es| - 1];
      RunWaited(s, cfg, rng, before);
      ApplyWaited(Run(s, cfg, rng, before), cfg, rng, es[|es| - 1], Bypassed(s, cfg, rng, before));
    }
  }

  lemma {:induction false} RunSpaced(s: Sys, cfg: PolicyConfig, rng: Stream, es: seq<CaseEvent>, prior: nat)
    requires Bounded(Abs(s), cfg, prior, 0, 0) && Waited(Abs(s), cfg, false) && Spaced(Abs(s), cfg, prior)
    requires Orderly(s, cfg, rng, es)
    ensures Spaced(Abs(Run(s, cfg, rng, es)), cfg, prior)
  {
    hide Bounded, Waited, Spaced, Apply, Abs, ChargesInOrder, Bypassed, Approvals, Skips;
    if |es| > 0 {
      var before := es[..|es| - 1];
      RunSpaced(s, cfg, rng, before, prior);
      RunBounded(s, cfg, rng, before, prior);
      RunWaited(s, cfg, rng, before);
      ApplySpaced(Run(s, cfg, rng, before), cfg, rng, es[|es| - 1], prior, Approvals(s, cfg, rng, before),
                  Skips(s, cfg, rng, before), Bypassed(s, cfg, rng, before));
    }
  }

  lemma FreshIsSpaced(s: Sys, prior: nat, cfg: PolicyConfig)
    requires FreshCase(s.c, prior)
    ensures Waited(Abs(s), cfg, false) && Spaced(Abs(s), cfg, prior)
  {
  }

  // ----- The theorems -----

  lemma ChargingStepWaited(k: Core, cfg: PolicyConfig, i: Input, bypassed: bool)
    requires Waited(k, cfg, bypassed) && !bypassed && CoreStep(k, cfg, i).CoreDone?
    requires CoreStep(k, cfg, i).k.Charges() > k.Charges() && k.lastAttemptAt.Some?
    ensures k.now - k.lastAttemptAt.value >= GateCooldown(cfg, k.retryCount)
  {
    hide GateCooldown, CoreApproved;
    if k.status != Approved {
      OnlyApprovedCharges(k, cfg, i);
      hide CoreStep;
    } else if !Retries(k.latest) {
      OthersDoNotCharge(k, i);
    }
  }

  /** In any state a run reaches, a worker step that charges does so at least the gate's cooldown after the
      last attempt stamped on the case, unless the approval it stands on was given in the gate's place. */
  lemma {:induction false} ChargesRespectCooldown(s: Sys, prior: nat, cfg: PolicyConfig, rng: Stream,
                                                  es: seq<CaseEvent>,
                                                  fastForward: bool, env: Env)
    requires FreshCase(s.c, prior)
    ensures
      var before := Run(s, cfg, rng, es);
      var after := Apply(before, cfg, rng, WorkerStep(fastForward, env));
      Charges(after.c) > Charges(before.c) && before.c.lastAttemptAt.Some? && !Bypassed(s, cfg, rng, es) ==>
        before.now - before.c.lastAttemptAt.value >= GateCooldown(cfg, before.c.retryCount)
  {
    hide GateCooldown, Numbered, ChargeTimes, CountKind, Step, CoreStep, Run, FreshCase, Waited, Bypassed;
    var before := Run(s, cfg, rng, es);
    var deps := Deps(cfg, fastForward, rng);
    FreshIsSpaced(s, prior, cfg);
    RunWaited(s, cfg, rng, es);
    if Step(before, deps, env).Done? && Charges(Step(before, deps, env).s.c) > Charges(before.c)
       && before.c.lastAttemptAt.Some? && !Bypassed(s, cfg, rng, es) {
      StepRefines(before, deps, env);
      ChargingStepWaited(Abs(before), cfg, Inputs(before, deps, env), false);
    }
  }

  /** The clamped geometric sum of the cooldowns before charges `first`..`first + n - 1`. */
  function CooldownSum(cfg: PolicyConfig, first: nat, n: nat): int {
    if n == 0 then 0 else CooldownSum(cfg, first, n - 1) + GateCooldown(cfg, first + n - 1)
  }

  lemma {:induction false} SpacedSpan(times: seq<int>, cfg: PolicyConfig, prior: nat)
    requires WellSpaced(times, cfg, prior) && |times| > 0
    ensures times[|times| - 1] - times[0] >= CooldownSum(cfg, prior + 1, |times| - 1)
  {
    if |times| > 1 {
      SpacedSpan(times[..|times| - 1], cfg, prior);
    }
  }

  /** Over every orderly run, consecutive charges are at least the gate's cooldown apart, so n charges span at
      least the matching clamped geometric sum. */
  lemma {:induction false} ChargesAreSpaced(s: Sys, prior: nat, cfg: PolicyConfig, rng: Stream, es: seq<CaseEvent>)
    requires FreshCase(s.c, prior) && Orderly(s, cfg, rng, es)
    ensures var times := ChargeTimes(Run(s, cfg, rng, es).c.actions);
      && WellSpaced(times, cfg, prior)
      && (|times| > 0 ==> times[|times| - 1] - times[0] >= CooldownSum(cfg, prior + 1, |times| - 1))
  {
    hide Run, Orderly, FreshCase, ChargeTimes, CountKind, Numbered;
    FreshIsBounded(s, prior, cfg);
    FreshIsSpaced(s, prior, cfg);
    RunSpaced(s, cfg, rng, es, prior);
    var times := ChargeTimes(Run(s, cfg, rng, es).c.actions);
    if |times| > 0 {
      SpacedSpan(times, cfg, prior);
    }
  }
}
