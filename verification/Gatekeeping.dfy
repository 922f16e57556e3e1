/** Over every run of a case, its trail tells its status, every side effect was approved, and money is
    recorded exactly once. */
module Gatekeeping {
  import opened Enums
  import opened Fsm
  import opened Strategies
  import opened PolicyRules
  import opened PolicyEngine
  import opened Gateway
  import opened Trail
  import opened Rows
  import opened Verification
  import opened Executors
  import opened Pipeline
  import opened HumanDecisions
  import opened CaseRuns
  import opened Core

  /** The trail replays to the case's status along legal edges, knows the latest decision, holds a live
      approval whenever the case is Approved, and every action in it was backed by one. */
  ghost predicate Faithful(k: Core) {
    var t := Scan(k.trail);
    && t.status == k.status && t.legal && t.gated
    && t.current == (if k.latest.Some? then Some(k.latest.value.strategy) else None)
    && (k.status == Approved ==> t.approvalAt.Some?)
  }

  /** Money is on the case exactly when it is recovered, and the trail holds its one capture. */
  ghost predicate Honest(k: Core) {
    var t := Scan(k.trail);
    && (k.status == Recovered <==> (k.outcome == Some(OutRecovered) || k.outcome == Some(OutSelfHealed)))
    && t.captures == (if k.status == Recovered then 1 else 0)
    && t.captured == k.recoveredMinor
    && (k.status != Recovered ==> k.recoveredMinor == 0)
  }

  ghost predicate Sound(k: Core) { Faithful(k) && Honest(k) }

  lemma JumpKeeps(k: Core, to: CaseStatus, actor: Actor)
    requires Sound(k) && CanTransition(k.status, to) && to != Recovered && k.status != Recovered
    requires to == Approved ==> actor == Human || (actor == Policy && Scan(k.trail).allowed)
    ensures Sound(Jump(k, to, actor))
    ensures to == Executing ==> Scan(Jump(k, to, actor).trail).approvalAt == Scan(k.trail).approvalAt
  {
    ScanAppend(k.trail, StateTransition(actor, k.status, to));
  }

  lemma ChooseKeeps(k: Core, d: Decision)
    requires Sound(k) && k.status != Approved
    ensures Sound(Choose(k, d))
  {
    ScanAppend(k.trail, DecisionRecorded(d.origin, d.diagnosis, d.strategy, d.diagnosisConfidence, k.retryCount));
  }

  lemma ForceKeeps(k: Core)
    requires Sound(k) && k.status != Approved
    ensures Sound(Force(k))
  {
    ScanAppend(k.trail, LadderOverride);
  }

  /** Events that report without deciding, moving, acting or capturing. */
  predicate Reports(e: Event) {
    || e.RiskScored? || e.PolicyEvaluated? || e.EscalationCreated?
    || e.NotificationsQueued? || e.ActionFinished? || e.CaseClosed?
  }

  lemma NoteKeeps(k: Core, e: Event)
    requires Sound(k) && Reports(e)
    ensures Sound(Noted(k, e))
    ensures e == PolicyEvaluated(Allow, None) ==> Scan(Noted(k, e).trail).allowed
  {
    ScanAppend(k.trail, e);
  }

  lemma StartKeeps(k: Core, kind: ActionType, mode: ExecutionMode)
    requires Sound(k) && k.status == Executing && Scan(k.trail).approvalAt.Some?
    requires k.latest.Some? && ActionOf(k.latest.value.strategy) == Some(kind)
    ensures Sound(Noted(k, ActionStarted(kind, mode)))
  {
    ScanAppend(k.trail, ActionStarted(kind, mode));
  }

  lemma CaptureKeeps(k: Core, source: CaptureSource)
    requires Sound(k) && CanTransition(k.status, Recovered)
    ensures Sound(Capture(k, source))
  {
    if k.status != Recovered {
      var jumped := k.trail + [StateTransition(Verifier, k.status, Recovered)];
      ScanAppend(k.trail, StateTransition(Verifier, k.status, Recovered));
      ScanAppend(jumped, CaptureConfirmed(source, k.facts.amountMinor));
    }
  }

  lemma CloseKeeps(k: Core)
    requires Sound(k) && k.status == Verifying
    ensures Sound(Close(k))
  {
    var k1 := k.(outcome := Some(OutUnrecovered));
    JumpKeeps(k1, ClosedUnrecovered, System);
    NoteKeeps(Jump(k1, ClosedUnrecovered, System), CaseClosed);
  }

  lemma ParkKeeps(k: Core, cfg: PolicyConfig)
    requires Sound(k)
    ensures Sound(Park(k, cfg))
  {
    if !k.parked {
      var confidence := if k.confidence == Some(0) then None else k.confidence;
      NoteKeeps(k.(parked := true),
                EscalationCreated(EnsuredReason(k.diagnosis, confidence, k.facts.amountMinor, k.retryCount, cfg)));
    }
  }

  lemma ClockKeeps(k: Core, now: int)
    requires Sound(k)
    ensures Sound(k.(now := now))
  {
  }

  /** Neither counters nor the clock matter to soundness. */
  lemma CountersKeep(k: Core, times: seq<int>, retryCount: nat, links: nat)
    requires Sound(k)
    ensures Sound(k.(chargeTimes := times, retryCount := retryCount))
    ensures Sound(k.(links := links))
  {
  }

  lemma ChargeKeeps(k: Core)
    requires Sound(k) && k.status == Executing && Scan(k.trail).approvalAt.Some?
    requires k.latest.Some? && ActionOf(k.latest.value.strategy) == Some(RetryCharge)
    ensures Sound(Charge(k))
  {
    hide Sound, Scan;
    CountersKeep(k, k.chargeTimes + [k.now], k.retryCount + 1, k.links);
    var k1 := k.(chargeTimes := k.chargeTimes + [k.now], retryCount := k.retryCount + 1);
    StartKeeps(k1, RetryCharge, Simulated);
    NoteKeeps(Noted(k1, ActionStarted(RetryCharge, Simulated)), ActionFinished(true));
  }

  lemma LinkKeeps(k: Core, link: LinkReply)
    requires Sound(k) && k.status == Executing && Scan(k.trail).approvalAt.Some?
    requires k.latest.Some? && ActionOf(k.latest.value.strategy) == Some(SendRecoveryLink)
    ensures Sound(SendLink(k, link))
  {
    hide Sound, Scan;
    CountersKeep(k, k.chargeTimes, k.retryCount, k.links + 1);
    var k1 := k.(links := k.links + 1);
    var mode := if link == NoRealAdapter then Simulated else RealRzp;
    StartKeeps(k1, SendRecoveryLink, mode);
    var k2 := Noted(k1, ActionStarted(SendRecoveryLink, mode));
    NoteKeeps(k2, ActionFinished(false));
    NoteKeeps(k2, NotificationsQueued);
    NoteKeeps(Noted(k2, NotificationsQueued), ActionFinished(true));
  }

  lemma EscalateKeeps(k: Core)
    requires Sound(k) && k.status == Executing && Scan(k.trail).approvalAt.Some?
    requires k.latest.Some? && ActionOf(k.latest.value.strategy) == Some(CreateEscalation)
    ensures Sound(RaiseEscalation(k))
  {
    StartKeeps(k, CreateEscalation, Outbox);
    NoteKeeps(Noted(k, ActionStarted(CreateEscalation, Outbox)), ActionFinished(true));
  }

  // ----- Steps -----

  ghost predicate SoundResult(r: CoreResult) { r.CoreDone? ==> Sound(r.k) }

  lemma VerdictKeeps(k: Core, d: Decision, verdict: Verdict, cfg: PolicyConfig, i: Input)
    requires Sound(k) && k.status == PolicyCheck && (verdict == Allow ==> Scan(k.trail).allowed)
    ensures SoundResult(CoreVerdict(k, d, verdict, cfg, i))
  {
    hide Sound, Jump, Park, Choose;
    match verdict
    case Allow => JumpKeeps(k, Approved, Policy);
    case Escalate => ParkedKeeps(k, cfg);
    case Wait =>
      JumpKeeps(k, Planned, Policy);
      ClockKeeps(Jump(k, Planned, Policy), k.now + WaitMinutes(cfg, k.retryCount));
    case Block => BlockKeeps(k, i);
  }

  lemma ParkedKeeps(k: Core, cfg: PolicyConfig)
    requires Sound(k) && k.status == PolicyCheck
    ensures Sound(Jump(Park(k, cfg), AwaitingApproval, Policy))
  {
    ParkKeeps(k, cfg);
    JumpKeeps(Park(k, cfg), AwaitingApproval, Policy);
  }

  lemma BlockKeeps(k: Core, i: Input)
    requires Sound(k) && k.status == PolicyCheck
    ensures Sound(Jump(Choose(k, i.proposal), Planned, Policy)) && Sound(Jump(k, Blocked, Policy))
  {
    ChooseKeeps(k, i.proposal);
    JumpKeeps(Choose(k, i.proposal), Planned, Policy);
    JumpKeeps(k, Blocked, Policy);
  }

  lemma PolicyCheckKeeps(k: Core, d: Decision, cfg: PolicyConfig, i: Input)
    requires Sound(k) && k.status == PolicyCheck
    ensures SoundResult(CorePolicyCheck(k, d, cfg, i))
  {
    var rule := Triggered(CoreCtx(k, d, cfg, i.usedElsewhere));
    NoteKeeps(k, PolicyEvaluated(VerdictOf(rule), rule));
    VerdictKeeps(Noted(k, PolicyEvaluated(VerdictOf(rule), rule)), d, VerdictOf(rule), cfg, i);
  }

  lemma AfterAttemptKeeps(k: Core)
    requires Sound(k) && (k.payStatus != PayCaptured ==> k.status == Executing)
    ensures SoundResult(CoreAfterAttempt(k))
  {
    if k.payStatus != PayCaptured {
      JumpKeeps(k.(lastAttemptAt := Some(k.now)), Verifying, Executor);
    }
  }

  lemma Vouched(k: Core)
    requires Sound(k) && k.status == Approved
    ensures Scan(k.trail).approvalAt.Some?
  {
  }

  lemma ApprovedKeeps(k0: Core, i: Input)
    requires Sound(k0) && k0.status == Approved
    ensures SoundResult(CoreApproved(k0, i))
  {
    Vouched(k0);
    hide Sound, Scan, CoreRetry, CoreLink;
    JumpKeeps(k0, Executing, Executor);
    var k := Jump(k0, Executing, Executor);
    match k0.latest
    case None => JumpKeeps(k, AwaitingApproval, Executor);
    case Some(d) =>
      match d.strategy
      case S6 => JumpKeeps(k, Verifying, Executor);
      case S5 =>
        EscalateKeeps(k);
        JumpKeeps(RaiseEscalation(k), AwaitingApproval, Executor);
      case S1 | S2 => RetryKeeps(k, i.paid);
      case S3 | S4 => LinkStepKeeps(k, i.link, i.paid);
  }

  lemma RetryKeeps(k: Core, paid: bool)
    requires Sound(k) && k.status == Executing && Scan(k.trail).approvalAt.Some?
    requires k.latest.Some? && ActionOf(k.latest.value.strategy) == Some(RetryCharge)
    ensures SoundResult(CoreRetry(k, paid))
  {
    ChargeKeeps(k);
    if paid {
      CaptureKeeps(Charge(k), ExecutorRetry);
    }
    AfterAttemptKeeps(if paid then Capture(Charge(k), ExecutorRetry) else Charge(k));
  }

  lemma LinkStepKeeps(k: Core, link: LinkReply, paid: bool)
    requires Sound(k) && k.status == Executing && Scan(k.trail).approvalAt.Some?
    requires k.latest.Some? && ActionOf(k.latest.value.strategy) == Some(SendRecoveryLink)
    ensures SoundResult(CoreLink(k, link, paid))
  {
    LinkKeeps(k, link);
    SentKeeps(SendLink(k, link), link, paid);
  }

  lemma SentKeeps(sent: Core, link: LinkReply, paid: bool)
    requires Sound(sent) && sent.status == Executing
    ensures Sound(Jump(sent, Failed, Executor))
    ensures SoundResult(CoreAfterAttempt(sent))
    ensures paid ==> SoundResult(CoreAfterAttempt(Capture(sent, ExecutorLink)))
  {
    hide Sound, Jump, Scan;
    JumpKeeps(sent, Failed, Executor);
    AfterAttemptKeeps(sent);
    if paid {
      CaptureKeeps(sent, ExecutorLink);
      AfterAttemptKeeps(Capture(sent, ExecutorLink));
    }
  }

  lemma VerifyingKeeps(k: Core, cfg: PolicyConfig, i: Input)
    requires Sound(k) && k.status == Verifying
    ensures SoundResult(CoreVerifying(k, cfg, i))
  {
    hide Sound, Capture, Close, Force, Jump;
    if k.payStatus == PayCaptured {
      CaptureKeeps(k, VerifierPoll);
    } else {
      CloseKeeps(k);
      ReentryKeeps(k);
      ClockKeeps(Jump(k, Diagnosed, System), k.now + CooldownMinutes(k.retryCount));
    }
  }

  lemma ReentryKeeps(k: Core)
    requires Sound(k) && k.status == Verifying
    ensures Sound(Jump(Force(k), Diagnosed, System)) && Sound(Jump(k, Diagnosed, System))
  {
    ForceKeeps(k);
    JumpKeeps(Force(k), Diagnosed, System);
    JumpKeeps(k, Diagnosed, System);
  }

  lemma CoreStepKeeps(k: Core, cfg: PolicyConfig, i: Input)
    requires Sound(k)
    ensures SoundResult(CoreStep(k, cfg, i))
  {
    match k.status
    case Detected =>
      JumpKeeps(k, Analyzing, System);
      NoteKeeps(Jump(k, Analyzing, System), RiskScored);
    case Analyzing =>
      ChooseKeeps(k, i.proposal);
      JumpKeeps(Choose(k, i.proposal), Diagnosed, System);
    case Diagnosed =>
      ChooseKeeps(k, i.proposal);
      JumpKeeps(if k.retryCount > 0 then Choose(k, i.proposal) else k, Planned, System);
    case Planned => JumpKeeps(k, PolicyCheck, System);
    case PolicyCheck =>
      if k.latest.Some? {
        PolicyCheckKeeps(k, k.latest.value, cfg, i);
      }
    case Approved => ApprovedKeeps(k, i);
    case Executing => JumpKeeps(k, Verifying, Executor);
    case Verifying => VerifyingKeeps(k, cfg, i);
    case AwaitingApproval => JumpKeeps(k, Escalated, Human);
    case _ =>
  }

  // ----- Runs -----

  lemma HumanKeeps(s: Sys, escalation: nat, approve: bool)
    requires Sound(Abs(s)) && HumanDecided(s.c, escalation, approve).Ok?
    ensures Sound(Abs(s.(c := HumanDecided(s.c, escalation, approve).value)))
  {
    var to := if approve then Approved else Escalated;
    var decided := s.c.escalations[escalation].(status := if approve then EscApproved else EscRejected);
    var s1 := s.(c := s.c.(escalations := s.c.escalations[escalation := decided]));
    assert Abs(s1) == Abs(s);
    MovedRefines(s1, to, Human);
    JumpKeeps(Abs(s1), to, Human);
  }

  lemma SelfHealKeeps(s: Sys, entity: PaymentRow)
    requires Sound(Abs(s)) && CanTransition(s.c.status, Recovered)
    ensures Sound(Abs(s.(c := SelfHealed(s.c, entity.amountMinor),
                         p := if s.c.status == Recovered then entity else entity.(status := PayCaptured))))
  {
    var s1 := s.(c := s.c.(diagnosis := Some(DuplicateSelfHealed), strategy := Some(S6)), p := entity);
    assert Sound(Abs(s1));
    CaptureRefines(s1, WebhookSelfHeal);
    CaptureKeeps(Abs(s1), WebhookSelfHeal);
  }

  lemma GiveUpKeeps(s: Sys)
    requires Sound(Abs(s)) && CanTransition(s.c.status, ClosedUnrecovered)
    ensures Sound(Abs(s.(c := ClosedOff(s.c))))
  {
    hide Numbered, ChargeTimes, CountKind, Sound, Scan;
    CloseRefines(s);
    if s.c.status == Verifying {
      CloseKeeps(Abs(s));
    }
  }

  /** The payment's mirror, its facts, the clock and the gateway do not matter to soundness. */
  lemma MirrorKeeps(s: Sys, p: PaymentRow, now: int, g: GatewayState)
    requires Sound(Abs(s))
    ensures Sound(Abs(s.(p := p, now := now, g := g)))
  {
    hide Numbered, ChargeTimes, CountKind, Scan;
  }

  lemma ApplyKeeps(s: Sys, cfg: PolicyConfig, rng: Stream, e: CaseEvent)
    requires Sound(Abs(s))
    ensures Sound(Abs(Apply(s, cfg, rng, e)))
  {
    hide Sound, Step, CoreStep, Abs, HumanDecided, SelfHealed, ClosedOff, Rolled;
    match e
    case WorkerStep(fastForward, env) =>
      StepRefines(s, Deps(cfg, fastForward, rng), env);
      CoreStepKeeps(Abs(s), cfg, Inputs(s, Deps(cfg, fastForward, rng), env));
    case HumanDecision(escalation, approve) =>
      if HumanDecided(s.c, escalation, approve).Ok? {
        HumanKeeps(s, escalation, approve);
      }
    case CaptureWebhook(entity) =>
      if CanTransition(s.c.status, Recovered) {
        SelfHealKeeps(s, entity);
      }
    case GiveUp =>
      if CanTransition(s.c.status, ClosedUnrecovered) {
        GiveUpKeeps(s);
      }
    case FailedWebhook(entity) => MirrorKeeps(s, entity, s.now, s.g);
    case TimePasses(minutes) => MirrorKeeps(s, s.p, s.now + minutes, s.g);
    case GatewayAsked(key, probability) => MirrorKeeps(s, s.p, s.now, Rolled(rng, s.g, key, probability));
  }

  lemma {:induction false} RunKeeps(s: Sys, cfg: PolicyConfig, rng: Stream, es: seq<CaseEvent>)
    requires Sound(Abs(s))
    ensures Sound(Abs(Run(s, cfg, rng, es)))
  {
    if |es| > 0 {
      RunKeeps(s, cfg, rng, es[..|es| - 1]);
      ApplyKeeps(Run(s, cfg, rng, es[..|es| - 1]), cfg, rng, es[|es| - 1]);
    }
  }

  lemma FreshIsSound(s: Sys, prior: nat)
    requires FreshCase(s.c, prior)
    ensures Sound(Abs(s))
  {
    assert [CaseCreated][..0] == [];
    assert Scan([CaseCreated]) == Absorb(NOTHING_YET, CaseCreated);
  }

  /** Over every run and every decision source, each action row rests on its own earlier approval (a policy
      ALLOW or a human's) of the decision that was current, with no decision appended in between. */
  lemma {:induction false} EveryActionApproved(s: Sys, prior: nat, cfg: PolicyConfig, rng: Stream, es: seq<CaseEvent>)
    requires FreshCase(s.c, prior)
    ensures EveryActionBacked(Run(s, cfg, rng, es).c.trail)
  {
    FreshIsSound(s, prior);
    RunKeeps(s, cfg, rng, es);
    GatedMeansBacked(Run(s, cfg, rng, es).c.trail);
  }

  /** Over every run, replaying the STATE_TRANSITION events gives the case's status, so each was a legal
      edge; and a terminal status is never left. */
  lemma {:induction false} TrailReplaysStatus(s: Sys, prior: nat, cfg: PolicyConfig, rng: Stream, es: seq<CaseEvent>)
    requires FreshCase(s.c, prior)
    ensures var c := Run(s, cfg, rng, es).c;
      && Replay(c.trail) == Some(c.status)
      && forall i | 0 <= i <= |c.trail| && Replay(c.trail[..i]).Some? && IsTerminal(Replay(c.trail[..i]).value) ::
           c.status == Replay(c.trail[..i]).value
  {
    FreshIsSound(s, prior);
    RunKeeps(s, cfg, rng, es);
    var c := Run(s, cfg, rng, es).c;
    ReplayIsScan(c.trail);
    forall i | 0 <= i <= |c.trail| && Replay(c.trail[..i]).Some? && IsTerminal(Replay(c.trail[..i]).value)
      ensures c.status == Replay(c.trail[..i]).value
    {
      ReplayIsScan(c.trail[..i]);
      TerminalIsForGood(c.trail, i);
    }
  }

  /** Over every run, a case is RECOVERED exactly when its outcome says so, exactly when its trail holds
      one CAPTURE_CONFIRMED; that event carries the recovered amount, and no other case has any. */
  lemma {:induction false} MoneyIsHonest(s: Sys, prior: nat, cfg: PolicyConfig, rng: Stream, es: seq<CaseEvent>)
    requires FreshCase(s.c, prior)
    ensures var c := Run(s, cfg, rng, es).c;
      && (c.status == Recovered <==> (c.outcome == Some(OutRecovered) || c.outcome == Some(OutSelfHealed)))
      && Captures(c.trail) == (if c.status == Recovered then [c.recoveredMinor] else [])
      && (c.recoveredMinor != 0 ==> c.status == Recovered)
  {
    FreshIsSound(s, prior);
    RunKeeps(s, cfg, rng, es);
    CapturesAreScanned(Run(s, cfg, rng, es).c.trail);
  }
}
