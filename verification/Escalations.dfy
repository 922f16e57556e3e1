/** What the status of an escalation row tells (app/services/pipeline.py:192-222, 397-424,
    app/executors/actions.py:232-251, app/main.py:234-267). */
module Escalations {
  import opened Enums
  import opened Fsm
  import opened PolicyRules
  import opened PolicyEngine
  import opened Gateway
  import opened Trail
  import opened Rows
  import opened CaseService
  import opened Decide
  import opened Executors
  import opened Pipeline
  import opened CaseRuns
  import opened Attempts
  import opened GateLaws

  /** The approval window elapses: a batch step of a case that waits for a person. */
  predicate WindowElapses(c: CaseRow, e: CaseEvent) { e.WorkerStep? && e.fastForward && c.status == AwaitingApproval }

  /** A person's decision on row `j` that takes effect. */
  predicate DecidesOn(c: CaseRow, e: CaseEvent, j: nat) {
    && e.HumanDecision? && e.escalation == j && j < |c.escalations|
    && CanTransition(c.status, if e.approve then Approved else Escalated)
  }

  /** The status row `j` has after an event. */
  function StatusAfter(c: CaseRow, e: CaseEvent, j: nat): EscalationStatus
    requires j < |c.escalations|
  {
    if DecidesOn(c, e, j) then (if e.approve then EscApproved else EscRejected)
    else if WindowElapses(c, e) && c.escalations[j].status == EscOpen then EscExpired
    else c.escalations[j].status
  }

  /** Is the case's confidence below the floor? At the gate, one that is zero or missing counts as full. */
  predicate Doubtful(c: CaseRow, cfg: PolicyConfig) {
    if c.confidence.Some? && (c.status != PolicyCheck || c.confidence != Some(0)) then
      c.confidence.value < cfg.confidenceFloor
    else c.status == PolicyCheck && 100 < cfg.confidenceFloor
  }

  /** Why a human is asked: for the amount, else for the unknown cause, else for doubt, else for the retries used up;
      and where nothing of this holds, for doubt. */
  predicate RaisedFor(c: CaseRow, amount: int, cfg: PolicyConfig, reason: EscalationReason) {
    && (reason == AmountCeiling <==> amount >= cfg.approvalLimitMinor)
    && (reason == UnknownDiagnosis <==> amount < cfg.approvalLimitMinor && c.diagnosis == Some(UnknownCause))
    && (reason == MaxRetriesExhausted <==>
          && amount < cfg.approvalLimitMinor && c.diagnosis != Some(UnknownCause) && !Doubtful(c, cfg)
          && c.retryCount >= cfg.maxRetries)
  }

  /** The event raises a row: an approved escalation always does, the gate when it asks and the case has none. */
  predicate Raises(s: Sys, cfg: PolicyConfig, e: CaseEvent) {
    && e.WorkerStep? && LatestDecision(s.c).Some?
    && var d := LatestDecision(s.c).value;
    || (s.c.status == Approved && d.strategy == S5)
    || (&& s.c.status == PolicyCheck && |s.c.escalations| == 0
        && InTurn(s, d, cfg) && (AsksToCharge(d) || AsksToLink(d)) && !WithinMandate(s, d, cfg))
  }

  /** Old rows keep their reason and change status only as told; a row that joins them is open and says why. */
  ghost predicate RowsMove(s: Sys, c': CaseRow, cfg: PolicyConfig, e: CaseEvent) {
    var n := |s.c.escalations|;
    && |c'.escalations| == (if Raises(s, cfg, e) then n + 1 else n)
    && (forall j | 0 <= j < n :: c'.escalations[j] == s.c.escalations[j].(status := StatusAfter(s.c, e, j)))
    && (Raises(s, cfg, e) ==>
          c'.escalations[n].status == EscOpen && RaisedFor(s.c, s.p.amountMinor, cfg, c'.escalations[n].reason))
  }

  /** The rows stay, or one open row joins them. */
  ghost predicate RowsStay(c: CaseRow, c': CaseRow, amount: int, cfg: PolicyConfig, raised: bool) {
    if raised then
      && |c'.escalations| == |c.escalations| + 1 && c'.escalations[..|c.escalations|] == c.escalations
      && c'.escalations[|c.escalations|].status == EscOpen
      && RaisedFor(c, amount, cfg, c'.escalations[|c.escalations|].reason)
    else c'.escalations == c.escalations
  }

  lemma EnsuredSaysWhy(c: CaseRow, amount: int, cfg: PolicyConfig)
    requires c.status == PolicyCheck
    ensures RowsStay(c, EscalationEnsured(c, amount, cfg), amount, cfg, |c.escalations| == 0)
  {
  }

  lemma RaisedSaysWhy(c: CaseRow, amount: int, cfg: PolicyConfig, now: int)
    requires c.status == Approved
    ensures RowsStay(c, EscalationRaised(Moved(c, Executing, Executor), amount, cfg, now), amount, cfg, true)
  {
    hide CountKind;
  }

  lemma VerdictRows(s: Sys, d: Decision, verdict: Verdict, deps: Deps, env: Env)
    requires s.c.status == PolicyCheck
    ensures
      var r := StepVerdict(s, d, verdict, deps, env);
      r.Done? && RowsStay(s.c, r.s.c, s.p.amountMinor, deps.cfg, verdict == Escalate && |s.c.escalations| == 0)
  {
    hide Chosen, FallbackDecision, EscalationEnsured, RaisedFor;
    EnsuredSaysWhy(s.c, s.p.amountMinor, deps.cfg);
  }

  lemma GateRows(s: Sys, d: Decision, deps: Deps, env: Env)
    requires s.c.status == PolicyCheck && LatestDecision(s.c) == Some(d)
    ensures
      var r, e := StepPolicyCheck(s, d, deps, env), WorkerStep(deps.fastForward, env);
      r.Done? && RowsStay(s.c, r.s.c, s.p.amountMinor, deps.cfg, Raises(s, deps.cfg, e))
  {
    hide Triggered, PolicyCtx, StepVerdict, InTurn, WithinMandate, AsksToCharge, AsksToLink, Cleared, Cooled;
    var rule := Triggered(PolicyCtx(s.c, s.p, d, s.now, deps.cfg, env.usedElsewhere));
    CtxAnswers(s, d, deps.cfg, env.usedElsewhere);
    VerdictRows(s.(c := Emit(s.c, PolicyEvaluated(VerdictOf(rule), rule))), d, VerdictOf(rule), deps, env);
  }

  /** What the trail tells of a parking at the gate: the evaluation, the new row with its reason if the case had none,
      and the transition. */
  lemma ParkingIsTold(s: Sys, deps: Deps, env: Env)
    requires s.c.status == PolicyCheck && LatestDecision(s.c).Some?
    requires
      var d := LatestDecision(s.c).value;
      InTurn(s, d, deps.cfg) && (AsksToCharge(d) || AsksToLink(d)) && !WithinMandate(s, d, deps.cfg)
    ensures
      var r := Step(s, deps, env);
      var rule := if s.p.amountMinor > deps.cfg.approvalLimitMinor then P05 else P06;
      && r.Done? && r.s.c.status == AwaitingApproval && |r.s.c.escalations| > 0
      && r.s.c.trail == s.c.trail + [PolicyEvaluated(Escalate, Some(rule))]
                        + (if |s.c.escalations| == 0 then [EscalationCreated(r.s.c.escalations[0].reason)] else [])
                        + [StateTransition(Policy, PolicyCheck, AwaitingApproval)]
  {
    hide Triggered, PolicyCtx, FirstOffended, EnsuredReason;
    var d := LatestDecision(s.c).value;
    CtxOffends(s, d, deps.cfg, env.usedElsewhere);
    MandateOffended(s, d, deps.cfg, env.usedElsewhere);
    hide InTurn, WithinMandate, AsksToCharge, AsksToLink;
  }

  lemma MandateOffended(s: Sys, d: Decision, cfg: PolicyConfig, used: nat)
    requires InTurn(s, d, cfg) && (AsksToCharge(d) || AsksToLink(d)) && !WithinMandate(s, d, cfg)
    ensures FirstOffended(s, d, cfg, used) == Some(if s.p.amountMinor > cfg.approvalLimitMinor then P05 else P06)
  {
    hide Cooled, CountKind;
  }

  lemma AttemptRows(s: Sys, strategy: Strategy, deps: Deps, env: Env)
    ensures
      var r := StepAttempt(s, strategy, deps, env);
      r.Done? ==> r.s.c.escalations == s.c.escalations
  {
    hide Latent, Rolled, ChargeRetried, LinkSent, CountKind;
    ChargeLeaves(s.c, s.now);
    LinkLeaves(s.c, env.link, s.now);
  }

  lemma ApprovedRows(s: Sys, deps: Deps, env: Env)
    requires s.c.status == Approved && StepApproved(s, deps, env).Done?
    ensures RowsStay(s.c, StepApproved(s, deps, env).s.c, s.p.amountMinor, deps.cfg,
                     Raises(s, deps.cfg, WorkerStep(deps.fastForward, env)))
  {
    hide StepAttempt, EscalationRaised, RaisedFor, InTurn, WithinMandate, AsksToCharge, AsksToLink;
    RaisedSaysWhy(s.c, s.p.amountMinor, deps.cfg, s.now);
    if LatestDecision(s.c).Some? {
      AttemptRows(s.(c := Moved(s.c, Executing, Executor)), LatestDecision(s.c).value.strategy, deps, env);
    }
  }

  lemma StepRows(s: Sys, deps: Deps, env: Env)
    requires Step(s, deps, env).Done? && !(s.c.status == AwaitingApproval && deps.fastForward)
    ensures RowsStay(s.c, Step(s, deps, env).s.c, s.p.amountMinor, deps.cfg,
                     Raises(s, deps.cfg, WorkerStep(deps.fastForward, env)))
  {
    hide StepPolicyCheck, StepApproved, Chosen, FallbackDecision, CountKind, RaisedFor, InTurn, WithinMandate;
    if s.c.status == Approved {
      ApprovedRows(s, deps, env);
    } else if s.c.status == PolicyCheck {
      GateRows(s, LatestDecision(s.c).value, deps, env);
    }
  }

  lemma WindowRows(s: Sys, deps: Deps)
    requires deps.fastForward
    ensures
      var rows := StepAwaiting(s, deps).s.c.escalations;
      && |rows| == |s.c.escalations|
      && forall j | 0 <= j < |rows| ::
           rows[j] == s.c.escalations[j].(status := if s.c.escalations[j].status == EscOpen then EscExpired
                                                   else s.c.escalations[j].status)
  {
  }

  /** What an event does to the escalation rows. */
  lemma ApplyMovesRows(s: Sys, cfg: PolicyConfig, rng: Stream, e: CaseEvent)
    requires e.WorkerStep? ==> Step(s, Deps(cfg, e.fastForward, rng), e.env).Done?
    ensures RowsMove(s, Apply(s, cfg, rng, e).c, cfg, e)
  {
    hide Step, Rolled, RaisedFor, InTurn, WithinMandate, LatestDecision;
    if e.WorkerStep? {
      var deps := Deps(cfg, e.fastForward, rng);
      if WindowElapses(s.c, e) {
        WindowRows(s, deps);
        WindowStep(s, deps, e.env);
      } else {
        StepRows(s, deps, e.env);
        var c' := Step(s, deps, e.env).s.c;
        assert forall j | 0 <= j < |s.c.escalations| :: c'.escalations[j] == c'.escalations[..|s.c.escalations|][j];
      }
    }
  }

  /** An event that raises an exception changes nothing. */
  lemma RaisedStays(s: Sys, cfg: PolicyConfig, rng: Stream, e: CaseEvent)
    requires e.WorkerStep? && Step(s, Deps(cfg, e.fastForward, rng), e.env) == Error
    ensures Apply(s, cfg, rng, e) == s && !WindowElapses(s.c, e)
  {
  }

  /** Whatever happens, old rows keep their reason and change status only as told, and new ones are open. */
  lemma RowsFollow(s: Sys, cfg: PolicyConfig, rng: Stream, e: CaseEvent)
    ensures
      var c' := Apply(s, cfg, rng, e).c;
      && |s.c.escalations| <= |c'.escalations|
      && (forall j | 0 <= j < |s.c.escalations| ::
            c'.escalations[j] == s.c.escalations[j].(status := StatusAfter(s.c, e, j)))
      && (forall j | |s.c.escalations| <= j < |c'.escalations| :: c'.escalations[j].status == EscOpen)
  {
    hide Step, Apply, Raises, RaisedFor;
    if e.WorkerStep? && Step(s, Deps(cfg, e.fastForward, rng), e.env).Error? {
      RaisedStays(s, cfg, rng, e);
    } else {
      ApplyMovesRows(s, cfg, rng, e);
    }
  }

  lemma WindowStep(s: Sys, deps: Deps, env: Env)
    requires s.c.status == AwaitingApproval
    ensures Step(s, deps, env) == StepAwaiting(s, deps)
  {
  }

  // ----- Runs -----

  /** Event `n` of the run decided on row `j`. */
  ghost predicate DecidedAt(s: Sys, cfg: PolicyConfig, rng: Stream, es: seq<CaseEvent>, n: nat, j: nat) {
    n < |es| && DecidesOn(Run(s, cfg, rng, es[..n]).c, es[n], j)
  }

  /** What a row's status tells about the run: it tells the newest decision on it, or, when nobody decided, whether the
      window elapsed while it was open. */
  ghost predicate RowTold(s: Sys, cfg: PolicyConfig, rng: Stream, es: seq<CaseEvent>, j: nat,
                          status: EscalationStatus)
  {
    && (status == EscApproved || status == EscRejected <==> exists n: nat :: DecidedAt(s, cfg, rng, es, n, j))
    && (forall n: nat | DecidedAt(s, cfg, rng, es, n, j)
          && (forall m: nat | m > n :: !DecidedAt(s, cfg, rng, es, m, j)) ::
          status == if es[n].approve then EscApproved else EscRejected)
  }

  lemma DecidedEarlier(s: Sys, cfg: PolicyConfig, rng: Stream, es: seq<CaseEvent>, before: seq<CaseEvent>, j: nat)
    requires |es| > 0 && before == es[..|es| - 1]
    ensures forall n: nat | n < |before| :: DecidedAt(s, cfg, rng, before, n, j) <==> DecidedAt(s, cfg, rng, es, n, j)
    ensures forall n: nat | DecidedAt(s, cfg, rng, es, n, j) :: n <= |before|
    ensures forall n: nat | DecidedAt(s, cfg, rng, before, n, j) :: n < |before|
    ensures DecidedAt(s, cfg, rng, es, |before|, j) <==> DecidesOn(Run(s, cfg, rng, before).c, es[|before|], j)
  {
    hide Run, DecidesOn;
    assert forall n: nat | n < |before| :: before[..n] == es[..n] && before[n] == es[n];
  }

  /** Over every run: a row is APPROVED or REJECTED exactly when a person decided on it, and it tells the newest of
      these decisions; and it is EXPIRED only if nobody decided on it and a batch let the approval window of the case
      elapse. */
  lemma {:induction false} RowsTellDecisions(s: Sys, prior: nat, cfg: PolicyConfig, rng: Stream, es: seq<CaseEvent>,
                                             j: nat)
    requires FreshCase(s.c, prior) && j < |Run(s, cfg, rng, es).c.escalations|
    ensures RowTold(s, cfg, rng, es, j, Run(s, cfg, rng, es).c.escalations[j].status)
    ensures Run(s, cfg, rng, es).c.escalations[j].status == EscExpired ==>
      exists n: nat :: n < |es| && WindowElapses(Run(s, cfg, rng, es[..n]).c, es[n])
  {
    hide Apply, DecidesOn, DecidedAt;
    if |es| > 0 {
      var m := |es| - 1;
      var before, e := es[..m], es[m];
      var c := Run(s, cfg, rng, before).c;
      RowsFollow(Run(s, cfg, rng, before), cfg, rng, e);
      DecidedEarlier(s, cfg, rng, es, before, j);
      assert forall n: nat | n < m :: before[..n] == es[..n] && before[n] == es[n];
      if j < |c.escalations| {
        RowsTellDecisions(s, prior, cfg, rng, before, j);
        assert DecidesOn(c, e, j) ==> DecidedAt(s, cfg, rng, es, m, j);
      } else {
        NoDecisionYet(s, prior, cfg, rng, before, j);
        NotDecided(c, e, j);
      }
    }
  }

  lemma NotDecided(c: CaseRow, e: CaseEvent, j: nat)
    requires j >= |c.escalations|
    ensures !DecidesOn(c, e, j)
  {
  }

  lemma {:induction false} NoDecisionYet(s: Sys, prior: nat, cfg: PolicyConfig, rng: Stream, es: seq<CaseEvent>, j: nat)
    requires FreshCase(s.c, prior) && j >= |Run(s, cfg, rng, es).c.escalations|
    ensures forall n: nat :: !DecidedAt(s, cfg, rng, es, n, j)
  {
    hide Apply, DecidesOn, DecidedAt;
    if |es| == 0 {
      NothingDecided(s, cfg, rng, es, j);
    } else {
      var before := es[..|es| - 1];
      RowsFollow(Run(s, cfg, rng, before), cfg, rng, es[|es| - 1]);
      NoDecisionYet(s, prior, cfg, rng, before, j);
      DecidedEarlier(s, cfg, rng, es, before, j);
      NotDecided(Run(s, cfg, rng, before).c, es[|es| - 1], j);
    }
  }

  lemma NothingDecided(s: Sys, cfg: PolicyConfig, rng: Stream, es: seq<CaseEvent>, j: nat)
    requires |es| == 0
    ensures forall n: nat :: !DecidedAt(s, cfg, rng, es, n, j)
  {
  }

  /** When the approval window elapses, no row of the case stays open. */
  lemma WindowLeavesNoneOpen(s: Sys, cfg: PolicyConfig, rng: Stream, e: CaseEvent)
    requires WindowElapses(s.c, e)
    ensures
      var c' := Apply(s, cfg, rng, e).c;
      c'.status == Escalated && forall j | 0 <= j < |c'.escalations| :: c'.escalations[j].status != EscOpen
  {
    hide Expire;
    WindowRows(s, Deps(cfg, true, rng));
    WindowStep(s, Deps(cfg, true, rng), e.env);
    hide Step;
  }
}
