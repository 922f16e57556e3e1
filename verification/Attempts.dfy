/** What an approved step leaves behind: at most one action row, settled, and its events
    (app/executors/actions.py:62-251, app/services/pipeline.py:333-359). */
module Attempts {
  import opened Enums
  import opened PolicyRules
  import opened PolicyEngine
  import opened Gateway
  import opened Trail
  import opened Rows
  import opened CaseService
  import opened Verification
  import opened Decide
  import opened Executors
  import opened Pipeline
  import opened CaseRuns
  import opened Core
  import opened Limits

  // ----- One attempt -----

  lemma StartsAndFinishes(c: CaseRow, a: Action, s: ActionStatus)
    ensures SettleAction(InsertAction(c, a), s).actions == c.actions + [a.(status := s)]
  {
    assert (c.actions + [a])[|c.actions| := a.(status := s)] == c.actions + [a.(status := s)];
  }

  /** A charge: one settled row and one retry counted. */
  lemma ChargeLeaves(c: CaseRow, now: int)
    ensures ChargeRetried(c, now) == c.(
      actions := c.actions
                 + [Action(RetryCharge, CountKind(c.actions, RetryCharge) + 1, Simulated, ActionSucceeded, now)],
      retryCount := c.retryCount + 1,
      trail := c.trail + [ActionStarted(RetryCharge, Simulated), ActionFinished(true)])
  {
    hide CountKind;
    StartsAndFinishes(c, Action(RetryCharge, CountKind(c.actions, RetryCharge) + 1, Simulated, ActionExecuting, now),
                      ActionSucceeded);
  }

  /** A link: refused by the adapter the row fails, otherwise it succeeds and the customer is notified. */
  lemma LinkLeaves(c: CaseRow, link: LinkReply, now: int)
    ensures
      var mode := if link == NoRealAdapter then Simulated else RealRzp;
      var status := if link == LinkRefused then ActionFailed else ActionSucceeded;
      LinkSent(c, link, now) == c.(
        actions := c.actions
                   + [Action(SendRecoveryLink, CountKind(c.actions, SendRecoveryLink) + 1, mode, status, now)],
        trail := c.trail + [ActionStarted(SendRecoveryLink, mode)]
                 + if link == LinkRefused then [ActionFinished(false)] else [NotificationsQueued, ActionFinished(true)])
  {
    hide CountKind;
    var mode := if link == NoRealAdapter then Simulated else RealRzp;
    var started := Action(SendRecoveryLink, CountKind(c.actions, SendRecoveryLink) + 1, mode, ActionExecuting, now);
    StartsAndFinishes(c, started, ActionSucceeded);
    StartsAndFinishes(c, started, ActionFailed);
  }

  /** An escalation: one settled row and one open escalation. */
  lemma EscalationLeaves(c: CaseRow, amount: int, cfg: PolicyConfig, now: int)
    ensures
      var after := EscalationRaised(c, amount, cfg, now);
      && |after.escalations| == |c.escalations| + 1 && after.escalations[|c.escalations|].status == EscOpen
      && after == c.(
           actions := c.actions + [Action(CreateEscalation, CountKind(c.actions, CreateEscalation) + 1, Outbox,
                                          ActionSucceeded, now)],
           escalations := c.escalations + [after.escalations[|c.escalations|]],
           trail := c.trail + [ActionStarted(CreateEscalation, Outbox), ActionFinished(true)])
  {
    hide CountKind, ReasonFor;
    var attemptNo := CountKind(c.actions, CreateEscalation) + 1;
    StartsAndFinishes(c, Action(CreateEscalation, attemptNo, Outbox, ActionExecuting, now), ActionSucceeded);
  }

  // ----- One step -----

  function KindAsked(strategy: Strategy): ActionType {
    if strategy == S1 || strategy == S2 then RetryCharge
    else if strategy == S3 || strategy == S4 then SendRecoveryLink
    else CreateEscalation
  }

  /** The row an approved strategy other than stopping leaves. */
  function RowLeft(c: CaseRow, strategy: Strategy, link: LinkReply, now: int): Action {
    var kind := KindAsked(strategy);
    Action(kind, CountKind(c.actions, kind) + 1,
           if kind == RetryCharge || (kind == SendRecoveryLink && link == NoRealAdapter) then Simulated
           else if kind == SendRecoveryLink then RealRzp
           else Outbox,
           if kind == SendRecoveryLink && link == LinkRefused then ActionFailed else ActionSucceeded, now)
  }

  /** The `ok` flags of the ACTION_FINISHED events, oldest first. */
  function Finishes(t: seq<Event>): seq<bool> {
    if |t| == 0 then []
    else
      var before, e := Finishes(t[..|t| - 1]), t[|t| - 1];
      if e.ActionFinished? then before + [e.ok] else before
  }

  lemma FinishesAppend()
    ensures forall t: seq<Event>, e: Event {:trigger Finishes(t + [e])} ::
      Finishes(t + [e]) == Finishes(t) + if e.ActionFinished? then [e.ok] else []
  {
    forall t: seq<Event>, e: Event
      ensures Finishes(t + [e]) == Finishes(t) + if e.ActionFinished? then [e.ok] else []
    {
      assert (t + [e])[..|t|] == t;
    }
  }

  /** No attempt was made or settled. */
  ghost predicate NoAttempt(c: CaseRow, c': CaseRow) {
    c'.actions == c.actions && Finishes(c'.trail) == Finishes(c.trail)
  }

  lemma QuietChanges(c: CaseRow, p: PaymentRow, now: int, cfg: PolicyConfig, attempts: seq<Option<RawOutput>>,
                     to: CaseStatus, actor: Actor, source: CaptureSource)
    ensures NoAttempt(c, Moved(c, to, actor)) && NoAttempt(c, Captured(c, p.amountMinor, source))
    ensures NoAttempt(c, ClosedOff(c)) && NoAttempt(c, EscalationForced(c))
    ensures NoAttempt(c, EscalationEnsured(c, p.amountMinor, cfg))
    ensures NoAttempt(c, WithDecision(c, p, Pipeline.Age(now, p), cfg, attempts))
  {
    hide Finishes, EnsuredReason, Chosen, FallbackDecision;
    FinishesAppend();
  }

  lemma VerdictIsQuiet(s: Sys, d: Decision, verdict: Verdict, deps: Deps, env: Env)
    ensures
      var r := StepVerdict(s, d, verdict, deps, env);
      r.Done? && NoAttempt(s.c, r.s.c)
  {
    hide NoAttempt, Moved, WithDecision, EscalationEnsured;
    var c1 := EscalationEnsured(s.c, s.p.amountMinor, deps.cfg);
    var c2 := WithDecision(s.c, s.p, Pipeline.Age(s.now, s.p), deps.cfg, env.attempts);
    QuietChanges(s.c, s.p, s.now, deps.cfg, env.attempts, Approved, Policy, VerifierPoll);
    QuietChanges(s.c, s.p, s.now, deps.cfg, env.attempts, Planned, Policy, VerifierPoll);
    QuietChanges(s.c, s.p, s.now, deps.cfg, env.attempts, Blocked, Policy, VerifierPoll);
    QuietChanges(c1, s.p, s.now, deps.cfg, env.attempts, AwaitingApproval, Policy, VerifierPoll);
    QuietChanges(c2, s.p, s.now, deps.cfg, env.attempts, Planned, Policy, VerifierPoll);
    QuietItself(s.c);
    QuietTwice(s.c, c1, Moved(c1, AwaitingApproval, Policy));
    QuietTwice(s.c, c2, Moved(c2, Planned, Policy));
  }

  lemma QuietItself(c: CaseRow)
    ensures NoAttempt(c, c)
  {
  }

  lemma QuietTwice(a: CaseRow, b: CaseRow, c: CaseRow)
    ensures NoAttempt(a, b) && NoAttempt(b, c) ==> NoAttempt(a, c)
  {
  }

  /** What an approved step adds: nothing but a stop's transitions, or the row its strategy leaves. */
  ghost predicate Attempted(c: CaseRow, c': CaseRow, a: Action) {
    && c'.actions == c.actions + [a]
    && Finishes(c'.trail) == Finishes(c.trail) + [a.status == ActionSucceeded]
  }

  lemma ChargeAttempts(c: CaseRow, amount: int, now: int, paid: bool)
    ensures Attempted(c, ChargeOutcome(c, amount, now, paid), RowLeft(c, S1, NoRealAdapter, now))
    ensures RowLeft(c, S2, NoRealAdapter, now) == RowLeft(c, S1, NoRealAdapter, now)
  {
    hide CountKind, Finishes, ChargeRetried;
    ChargeLeaves(c, now);
    FinishesAppend();
    assert c.trail + [ActionStarted(RetryCharge, Simulated), ActionFinished(true)]
           == c.trail + [ActionStarted(RetryCharge, Simulated)] + [ActionFinished(true)];
  }

  lemma LinkAttempts(c: CaseRow, amount: int, link: LinkReply, now: int, paid: bool)
    ensures Attempted(c, LinkOutcome(c, amount, link, now, paid), RowLeft(c, S3, link, now))
    ensures RowLeft(c, S4, link, now) == RowLeft(c, S3, link, now)
  {
    hide CountKind, Finishes, LinkSent;
    LinkLeaves(c, link, now);
    FinishesAppend();
    var mode := if link == NoRealAdapter then Simulated else RealRzp;
    var t := c.trail + [ActionStarted(SendRecoveryLink, mode)];
    assert t + [NotificationsQueued, ActionFinished(true)] == t + [NotificationsQueued] + [ActionFinished(true)];
  }

  lemma EscalationAttempts(c: CaseRow, amount: int, cfg: PolicyConfig, now: int)
    ensures Attempted(c, EscalationRaised(c, amount, cfg, now), RowLeft(c, S5, NoRealAdapter, now))
  {
    hide CountKind, Finishes, EscalationRaised;
    EscalationLeaves(c, amount, cfg, now);
    FinishesAppend();
    assert c.trail + [ActionStarted(CreateEscalation, Outbox), ActionFinished(true)]
           == c.trail + [ActionStarted(CreateEscalation, Outbox)] + [ActionFinished(true)];
  }

  lemma MovesAfter(c: CaseRow, tried: CaseRow, a: Action, to: CaseStatus, actor: Actor)
    requires Attempted(c, tried, a)
    ensures Attempted(c, Moved(tried, to, actor), a)
    ensures forall at :: Attempted(c, Moved(tried.(lastAttemptAt := at), to, actor), a)
  {
    hide Finishes;
    FinishesAppend();
  }

  lemma MovesBefore(c: CaseRow, c': CaseRow, a: Action, to: CaseStatus, actor: Actor)
    requires Attempted(Moved(c, to, actor), c', a)
    ensures Attempted(c, c', a)
  {
    hide Finishes;
    FinishesAppend();
  }

  lemma SameRow(c: CaseRow, to: CaseStatus, actor: Actor, strategy: Strategy, link: LinkReply, now: int)
    ensures RowLeft(Moved(c, to, actor), strategy, link, now) == RowLeft(c, strategy, link, now)
  {
    hide CountKind;
  }

  lemma AttemptLeavesRow(s: Sys, strategy: Strategy, deps: Deps, env: Env)
    requires strategy in {S1, S2, S3, S4} && StepAttempt(s, strategy, deps, env).Done?
    ensures Attempted(s.c, StepAttempt(s, strategy, deps, env).s.c, RowLeft(s.c, strategy, env.link, s.now))
  {
    hide Attempted, ChargeOutcome, LinkOutcome, Moved, Latent, Rolled;
    var paid := Latent(deps.rng, s.g, s.c.paymentId, CaptureProbability(s.c));
    if strategy == S1 || strategy == S2 {
      ChargeAttempts(s.c, s.p.amountMinor, s.now, paid);
      var tried := ChargeOutcome(s.c, s.p.amountMinor, s.now, paid);
      MovesAfter(s.c, tried, RowLeft(s.c, S1, NoRealAdapter, s.now), Verifying, Executor);
    } else {
      var a := RowLeft(s.c, S3, env.link, s.now);
      LinkAttempts(s.c, s.p.amountMinor, env.link, s.now, paid);
      LinkAttempts(s.c, s.p.amountMinor, env.link, s.now, false);
      MovesAfter(s.c, LinkOutcome(s.c, s.p.amountMinor, env.link, s.now, paid), a, Verifying, Executor);
      MovesAfter(s.c, LinkOutcome(s.c, s.p.amountMinor, env.link, s.now, false), a, Verifying, Executor);
      MovesAfter(s.c, LinkOutcome(s.c, s.p.amountMinor, env.link, s.now, false), a, Failed, Executor);
    }
  }

  /** Does the step run a strategy that acts? */
  predicate Acts(c: CaseRow) {
    c.status == Approved && LatestDecision(c).Some? && LatestDecision(c).value.strategy != S6
  }

  lemma ApprovedLeavesRow(s: Sys, deps: Deps, env: Env)
    requires s.c.status == Approved && StepApproved(s, deps, env).Done?
    ensures
      var c' := StepApproved(s, deps, env).s.c;
      if Acts(s.c) then Attempted(s.c, c', RowLeft(s.c, LatestDecision(s.c).value.strategy, env.link, s.now))
      else NoAttempt(s.c, c')
  {
    hide Attempted, NoAttempt, Moved, StepAttempt, EscalationRaised, RowLeft;
    var c := Moved(s.c, Executing, Executor);
    QuietChanges(s.c, s.p, s.now, deps.cfg, env.attempts, Executing, Executor, VerifierPoll);
    if Acts(s.c) {
      var strategy := LatestDecision(s.c).value.strategy;
      SameRow(s.c, Executing, Executor, strategy, env.link, s.now);
      if strategy == S5 {
        EscalationAttempts(c, s.p.amountMinor, deps.cfg, s.now);
        var raised := EscalationRaised(c, s.p.amountMinor, deps.cfg, s.now);
        LinkIsNoMatter(c, env.link, s.now);
        MovesAfter(c, raised, RowLeft(c, S5, env.link, s.now), AwaitingApproval, Executor);
        MovesBefore(s.c, Moved(raised, AwaitingApproval, Executor), RowLeft(c, S5, env.link, s.now),
                    Executing, Executor);
      } else {
        AttemptLeavesRow(s.(c := c), strategy, deps, env);
        MovesBefore(s.c, StepApproved(s, deps, env).s.c, RowLeft(c, strategy, env.link, s.now), Executing, Executor);
      }
    } else {
      QuietChanges(c, s.p, s.now, deps.cfg, env.attempts, AwaitingApproval, Executor, VerifierPoll);
      QuietChanges(c, s.p, s.now, deps.cfg, env.attempts, Verifying, Executor, VerifierPoll);
      QuietTwice(s.c, c, Moved(c, AwaitingApproval, Executor));
      QuietTwice(s.c, c, Moved(c, Verifying, Executor));
    }
  }

  lemma LinkIsNoMatter(c: CaseRow, link: LinkReply, now: int)
    ensures RowLeft(c, S5, link, now) == RowLeft(c, S5, NoRealAdapter, now)
  {
  }

  lemma PolicyCheckIsQuiet(s: Sys, d: Decision, deps: Deps, env: Env)
    ensures
      var r := StepPolicyCheck(s, d, deps, env);
      r.Done? && NoAttempt(s.c, r.s.c)
  {
    hide StepVerdict, Triggered, PolicyCtx, Finishes;
    var rule := Triggered(PolicyCtx(s.c, s.p, d, s.now, deps.cfg, env.usedElsewhere));
    var noted := Emit(s.c, PolicyEvaluated(VerdictOf(rule), rule));
    FinishesAppend();
    assert NoAttempt(s.c, noted);
    hide NoAttempt, Emit;
    VerdictIsQuiet(s.(c := noted), d, VerdictOf(rule), deps, env);
    QuietTwice(s.c, noted, StepPolicyCheck(s, d, deps, env).s.c);
  }

  lemma PlanningIsQuiet(s: Sys, deps: Deps, env: Env)
    ensures NoAttempt(s.c, StepDetected(s.c))
    ensures NoAttempt(s.c, StepAnalyzing(s.c, s.p, s.now, deps.cfg, env.attempts))
    ensures NoAttempt(s.c, StepDiagnosed(s.c, s.p, s.now, deps.cfg, env.attempts))
    ensures NoAttempt(s.c, StepAwaiting(s, deps).s.c)
  {
    hide Finishes, Chosen, FallbackDecision, Expire;
    FinishesAppend();
  }

  lemma VerifyingIsQuiet(s: Sys, deps: Deps)
    ensures NoAttempt(s.c, StepVerifying(s, deps).s.c)
  {
    hide Finishes, CountKind;
    FinishesAppend();
  }

  /** A step inserts and settles the row its approved strategy leaves, and no other step does either. */
  lemma StepLeavesRow(s: Sys, deps: Deps, env: Env)
    requires Step(s, deps, env).Done?
    ensures
      var c' := Step(s, deps, env).s.c;
      if Acts(s.c) then Attempted(s.c, c', RowLeft(s.c, LatestDecision(s.c).value.strategy, env.link, s.now))
      else NoAttempt(s.c, c')
  {
    hide Attempted, NoAttempt, Moved, StepApproved, StepVerifying, StepAwaiting, StepDetected, StepAnalyzing;
    hide StepDiagnosed, StepPolicyCheck, RowLeft;
    match s.c.status
    case Approved => ApprovedLeavesRow(s, deps, env);
    case PolicyCheck => PolicyCheckIsQuiet(s, LatestDecision(s.c).value, deps, env);
    case Verifying => VerifyingIsQuiet(s, deps);
    case Planned => QuietChanges(s.c, s.p, s.now, deps.cfg, env.attempts, PolicyCheck, System, VerifierPoll);
    case Executing => QuietChanges(s.c, s.p, s.now, deps.cfg, env.attempts, Verifying, Executor, VerifierPoll);
    case _ =>
      PlanningIsQuiet(s, deps, env);
      QuietItself(s.c);
  }

  /** Nothing else that happens to a case makes an attempt. */
  lemma OthersAttemptNothing(s: Sys, cfg: PolicyConfig, rng: Stream, e: CaseEvent)
    requires !e.WorkerStep?
    ensures NoAttempt(s.c, Apply(s, cfg, rng, e).c)
  {
    hide Finishes, Rolled;
    FinishesAppend();
  }

  // ----- Runs -----

  /** Event `n` of the run inserts row `i`. */
  ghost predicate Inserts(s: Sys, cfg: PolicyConfig, rng: Stream, es: seq<CaseEvent>, n: nat, i: nat) {
    && n < |es| && es[n].WorkerStep?
    && var before := Run(s, cfg, rng, es[..n]);
    && |before.c.actions| == i && Acts(before.c)
    && Step(before, Deps(cfg, es[n].fastForward, rng), es[n].env).Done?
  }

  /** Row `i` is the one that event `n` left. */
  ghost predicate RowOf(s: Sys, cfg: PolicyConfig, rng: Stream, es: seq<CaseEvent>, n: nat, i: nat, a: Action) {
    && Inserts(s, cfg, rng, es, n, i)
    && var before := Run(s, cfg, rng, es[..n]);
    && a == RowLeft(before.c, LatestDecision(before.c).value.strategy, es[n].env.link, before.now)
  }

  lemma RowOfExtends(s: Sys, cfg: PolicyConfig, rng: Stream, es: seq<CaseEvent>, m: nat, n: nat, i: nat, a: Action)
    requires m <= |es| && n < m
    ensures RowOf(s, cfg, rng, es[..m], n, i, a) <==> RowOf(s, cfg, rng, es, n, i, a)
  {
    assert es[..m][..n] == es[..n] && es[..m][n] == es[n];
    hide Run, RowLeft, Step;
  }

  lemma ApplyLeavesRow(s: Sys, cfg: PolicyConfig, rng: Stream, e: CaseEvent)
    ensures
      var s' := Apply(s, cfg, rng, e);
      if e.WorkerStep? && Acts(s.c) && Step(s, Deps(cfg, e.fastForward, rng), e.env).Done? then
        Attempted(s.c, s'.c, RowLeft(s.c, LatestDecision(s.c).value.strategy, e.env.link, s.now))
      else NoAttempt(s.c, s'.c)
  {
    hide Attempted, NoAttempt, RowLeft, Step;
    QuietItself(s.c);
    if e.WorkerStep? {
      if Step(s, Deps(cfg, e.fastForward, rng), e.env).Done? {
        StepLeavesRow(s, Deps(cfg, e.fastForward, rng), e.env);
      }
    } else {
      OthersAttemptNothing(s, cfg, rng, e);
      hide Apply;
    }
  }

  /** Over every run, each action row is the one that a step of its own left: the decision then latest chose its kind,
      the adapter's reply its mode and status, and the clock its start. */
  lemma {:induction false} EveryRowHasItsStep(s: Sys, prior: nat, cfg: PolicyConfig, rng: Stream, es: seq<CaseEvent>,
                                              i: nat) returns (n: nat)
    requires FreshCase(s.c, prior) && i < |Run(s, cfg, rng, es).c.actions|
    ensures RowOf(s, cfg, rng, es, n, i, Run(s, cfg, rng, es).c.actions[i])
  {
    hide Apply, RowLeft, Step, Inserts, Acts;
    n := 0;
    if |es| > 0 {
      var m := |es| - 1;
      var before := Run(s, cfg, rng, es[..m]);
      ApplyLeavesRow(before, cfg, rng, es[m]);
      if i < |before.c.actions| {
        n := EveryRowHasItsStep(s, prior, cfg, rng, es[..m], i);
        RowOfEarlier(s, cfg, rng, es[..m], n, i, before.c.actions[i]);
        RowOfExtends(s, cfg, rng, es, m, n, i, before.c.actions[i]);
      } else {
        n := m;
        InsertsLast(s, cfg, rng, es, i);
      }
    }
  }

  lemma RowOfEarlier(s: Sys, cfg: PolicyConfig, rng: Stream, es: seq<CaseEvent>, n: nat, i: nat, a: Action)
    requires RowOf(s, cfg, rng, es, n, i, a)
    ensures n < |es|
  {
  }

  lemma InsertsLast(s: Sys, cfg: PolicyConfig, rng: Stream, es: seq<CaseEvent>, i: nat)
    requires |es| > 0 && es[|es| - 1].WorkerStep? && Acts(Run(s, cfg, rng, es[..|es| - 1]).c)
    requires var e := es[|es| - 1];
      Step(Run(s, cfg, rng, es[..|es| - 1]), Deps(cfg, e.fastForward, rng), e.env).Done?
    requires i == |Run(s, cfg, rng, es[..|es| - 1]).c.actions|
    ensures Inserts(s, cfg, rng, es, |es| - 1, i)
  {
  }

  // ----- Settled rows -----

  /** The status of every row is the flag of its ACTION_FINISHED event; a failed one is the newest, of a failed case. */
  ghost predicate Settled(c: CaseRow) {
    var flags := Finishes(c.trail);
    && |flags| == |c.actions|
    && (forall i | 0 <= i < |flags| :: c.actions[i].status == if flags[i] then ActionSucceeded else ActionFailed)
    && (forall i | 0 <= i < |flags| :: c.actions[i].status == ActionFailed <==> i == |flags| - 1 && c.status == Failed)
  }

  lemma ApprovedFailsWhen(k: Core, i: Input)
    requires k.status == Approved && CoreApproved(k, i).CoreDone?
    ensures CoreApproved(k, i).k.status == Failed <==> Links(k.latest) && i.link == LinkRefused
  {
    hide Charge, SendLink, Capture;
    var k1 := Jump(k, Executing, Executor);
    Shapes(k1, i.link, ExecutorLink);
    Shapes(Charge(k1), i.link, ExecutorRetry);
    Shapes(SendLink(k1, i.link), i.link, ExecutorLink);
  }

  lemma CoreFailsWhen(k: Core, cfg: PolicyConfig, i: Input)
    requires CoreStep(k, cfg, i).CoreDone?
    ensures CoreStep(k, cfg, i).k.status == Failed <==>
      k.status == Failed || (k.status == Approved && Links(k.latest) && i.link == LinkRefused)
  {
    hide CoreApproved, Triggered, CoreCtx;
    if k.status == Approved {
      ApprovedFailsWhen(k, i);
    }
  }

  lemma CoreColumns(s: Sys, deps: Deps, env: Env)
    ensures Abs(s).status == s.c.status && Abs(s).latest == LatestDecision(s.c)
    ensures Inputs(s, deps, env).link == env.link
  {
  }

  lemma StepFailsWhen(s: Sys, deps: Deps, env: Env)
    requires Step(s, deps, env).Done?
    ensures Step(s, deps, env).s.c.status == Failed <==>
      s.c.status == Failed || (Acts(s.c) && LatestDecision(s.c).value.strategy in {S3, S4} && env.link == LinkRefused)
  {
    hide Step, CoreStep, Abs, Inputs, LatestDecision;
    CoreColumns(s, deps, env);
    CoreColumns(Step(s, deps, env).s, deps, env);
    StepRefines(s, deps, env);
    CoreFailsWhen(Abs(s), deps.cfg, Inputs(s, deps, env));
  }

  /** A case fails exactly when the adapter refuses its link. */
  lemma FailsWhen(s: Sys, cfg: PolicyConfig, rng: Stream, e: CaseEvent)
    ensures Apply(s, cfg, rng, e).c.status == Failed <==>
      || s.c.status == Failed
      || (&& e.WorkerStep? && Acts(s.c) && LatestDecision(s.c).value.strategy in {S3, S4}
          && e.env.link == LinkRefused && Step(s, Deps(cfg, e.fastForward, rng), e.env).Done?)
  {
    hide Step, Rolled, LatestDecision;
    if e.WorkerStep? && Step(s, Deps(cfg, e.fastForward, rng), e.env).Done? {
      StepFailsWhen(s, Deps(cfg, e.fastForward, rng), e.env);
    }
  }

  lemma ApplySettles(s: Sys, cfg: PolicyConfig, rng: Stream, e: CaseEvent)
    requires Settled(s.c)
    ensures Settled(Apply(s, cfg, rng, e).c)
  {
    hide Step, Apply, Finishes;
    ApplyLeavesRow(s, cfg, rng, e);
    FailsWhen(s, cfg, rng, e);
  }

  lemma FreshIsSettled(s: Sys, prior: nat)
    requires FreshCase(s.c, prior)
    ensures Settled(s.c)
  {
    assert [CaseCreated][..0] == [];
  }

  lemma {:induction false} RunSettles(s: Sys, cfg: PolicyConfig, rng: Stream, es: seq<CaseEvent>)
    requires Settled(s.c)
    ensures Settled(Run(s, cfg, rng, es).c)
  {
    hide Settled, Apply;
    if |es| > 0 {
      RunSettles(s, cfg, rng, es[..|es| - 1]);
      ApplySettles(Run(s, cfg, rng, es[..|es| - 1]), cfg, rng, es[|es| - 1]);
    }
  }

  /** A row once inserted stays as the step left it. */
  lemma {:induction false} InsertedRowStays(s: Sys, cfg: PolicyConfig, rng: Stream, es: seq<CaseEvent>, n: nat, i: nat)
    requires Inserts(s, cfg, rng, es, n, i)
    ensures i < |Run(s, cfg, rng, es).c.actions|
    ensures RowOf(s, cfg, rng, es, n, i, Run(s, cfg, rng, es).c.actions[i])
  {
    hide Apply, RowLeft, Step;
    var m := |es| - 1;
    ApplyLeavesRow(Run(s, cfg, rng, es[..m]), cfg, rng, es[m]);
    if n < m {
      assert es[..m][..n] == es[..n] && es[..m][n] == es[n];
      InsertedRowStays(s, cfg, rng, es[..m], n, i);
    }
  }

  /** Over every run: no action row is left EXECUTING; the i-th is SUCCEEDED exactly when the i-th ACTION_FINISHED of
      the trail has ok true; and a row is FAILED exactly when it is the newest row of a FAILED case, which is exactly
      when it is a link that the adapter refused. */
  lemma RowsAreSettled(s: Sys, prior: nat, cfg: PolicyConfig, rng: Stream, es: seq<CaseEvent>)
    requires FreshCase(s.c, prior)
    ensures Settled(Run(s, cfg, rng, es).c)
    ensures
      var actions := Run(s, cfg, rng, es).c.actions;
      forall n: nat, i: nat | Inserts(s, cfg, rng, es, n, i) ::
        && i < |actions|
        && (actions[i].status == ActionFailed <==> actions[i].kind == SendRecoveryLink && es[n].env.link == LinkRefused)
  {
    FreshIsSettled(s, prior);
    RunSettles(s, cfg, rng, es);
    forall n: nat, i: nat | Inserts(s, cfg, rng, es, n, i)
      ensures
        var actions := Run(s, cfg, rng, es).c.actions;
        && i < |actions|
        && (actions[i].status == ActionFailed <==> actions[i].kind == SendRecoveryLink && es[n].env.link == LinkRefused)
    {
      InsertedRowStays(s, cfg, rng, es, n, i);
    }
    hide Settled, Run, Inserts;
  }
}
