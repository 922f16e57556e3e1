/** The payloads of a case's audit events, and what can be read back from them alone.

    `Scan` replays a trail. Its summary says which status the transitions lead to, whether each of them
    was a legal edge out of the status replayed so far, and whether every action was backed by an
    approval of the decision that was current at that moment. */
module Trail {
  import opened Enums
  import opened Fsm
  import opened Strategies

  datatype Event =
    | CaseCreated
    | RiskScored
    | DecisionRecorded(origin: Origin, diagnosis: DiagnosisClass, chosen: Strategy, confidence: int, retryCount: nat)
    | LadderOverride
    | PolicyEvaluated(verdict: Verdict, triggered: Option<RuleId>)
    | StateTransition(actor: Actor, frm: CaseStatus, to: CaseStatus)
    | EscalationCreated(reason: EscalationReason)
    | ActionStarted(kind: ActionType, mode: ExecutionMode)
    | NotificationsQueued
    | ActionFinished(ok: bool)
    | CaptureConfirmed(source: CaptureSource, amountMinor: int)
    | CaseClosed

  /** Events that append a decision row. */
  predicate IsDecision(e: Event) { e.DecisionRecorded? || e.LadderOverride? }

  function Decided(e: Event): Strategy
    requires IsDecision(e)
  {
    if e.DecisionRecorded? then e.chosen else S5
  }

  predicate IsApproval(e: Event) { e.StateTransition? && e.to == Approved }

  datatype Summary = Summary(
    length: nat,
    status: CaseStatus,
    legal: bool,
    decisionAt: Option<nat>,
    current: Option<Strategy>,
    approvalAt: Option<nat>,
    allowed: bool,
    gated: bool,
    captures: nat,
    captured: int)

  const NOTHING_YET := Summary(0, Detected, true, None, None, None, false, true, 0, 0)

  function Absorb(s: Summary, e: Event): (r: Summary)
    ensures r.length == s.length + 1
  {
    var next := s.(length := s.length + 1, allowed := e == PolicyEvaluated(Allow, None));
    match e
    case DecisionRecorded(_, _, _, _, _) =>
      next.(decisionAt := Some(s.length), current := Some(e.chosen), approvalAt := None)
    case LadderOverride =>
      next.(decisionAt := Some(s.length), current := Some(S5), approvalAt := None)
    case StateTransition(actor, frm, to) =>
      var moved := next.(status := to, legal := s.legal && frm == s.status && CanTransition(frm, to));
      if to == Approved then
        moved.(approvalAt := Some(s.length),
               gated := s.gated && (actor == Human || (actor == Policy && s.allowed)))
      else
        moved.(approvalAt := if to == Executing then s.approvalAt else None)
    case ActionStarted(kind, _) =>
      next.(approvalAt := None,
            gated := s.gated && s.approvalAt.Some? && s.current.Some? && ActionOf(s.current.value) == Some(kind))
    case CaptureConfirmed(_, amount) =>
      next.(captures := s.captures + 1, captured := s.captured + amount)
    case _ => next
  }

  function Scan(t: seq<Event>): (s: Summary)
    ensures s.length == |t|
  {
    if |t| == 0 then NOTHING_YET else Absorb(Scan(t[..|t| - 1]), t[|t| - 1])
  }

  lemma ScanAppend(t: seq<Event>, e: Event)
    ensures Scan(t + [e]) == Absorb(Scan(t), e)
  {
    assert (t + [e])[..|t|] == t;
  }

  /** The action at `i` was approved at `j`, and the decision approved is the one at `d`: no decision was
      appended after `d`, and neither an approval nor an action came between `j` and `i`. */
  ghost predicate BackedBy(t: seq<Event>, d: nat, j: nat, i: nat)
    requires i < |t|
  {
    && d < j < i
    && t[i].ActionStarted? && IsDecision(t[d]) && IsApproval(t[j])
    && ActionOf(Decided(t[d])) == Some(t[i].kind)
    && Entitled(t, j)
    && (forall k | d < k < i :: !IsDecision(t[k]))
    && (forall k | j < k < i :: !IsApproval(t[k]) && !t[k].ActionStarted?)
  }

  ghost predicate Backed(t: seq<Event>, i: nat)
    requires i < |t|
  {
    exists d, j :: 0 <= d && 0 <= j && BackedBy(t, d, j, i)
  }

  ghost predicate EveryActionBacked(t: seq<Event>) {
    forall i | 0 <= i < |t| && t[i].ActionStarted? :: Backed(t, i)
  }

  /** The bookmark on decisions points at the newest one. */
  ghost predicate DecisionMarked(t: seq<Event>) {
    var s := Scan(t);
    && (s.decisionAt.Some? <==> s.current.Some?)
    && (s.decisionAt.Some? ==>
          && s.decisionAt.value < |t|
          && IsDecision(t[s.decisionAt.value]) && Decided(t[s.decisionAt.value]) == s.current.value
          && forall k | s.decisionAt.value < k < |t| :: !IsDecision(t[k]))
  }

  /** The bookmark on approvals points at a live one: newer than the newest decision, and not yet used. */
  ghost predicate ApprovalMarked(t: seq<Event>) {
    var s := Scan(t);
    && (s.approvalAt.Some? && s.gated ==>
          && s.approvalAt.value < |t|
          && IsApproval(t[s.approvalAt.value])
          && Entitled(t, s.approvalAt.value)
          && (s.decisionAt.Some? ==> s.decisionAt.value < s.approvalAt.value)
          && forall k | s.approvalAt.value < k < |t| :: !IsApproval(t[k]) && !t[k].ActionStarted?)
    && (s.allowed ==> |t| > 0 && t[|t| - 1] == PolicyEvaluated(Allow, None))
  }

  /** An approval is a human's, or the policy's right after an ALLOW verdict. */
  ghost predicate Entitled(t: seq<Event>, j: nat)
    requires j < |t| && IsApproval(t[j])
  {
    t[j].actor == Human || (t[j].actor == Policy && j > 0 && t[j - 1] == PolicyEvaluated(Allow, None))
  }

  lemma {:induction false} DecisionsMarked(t: seq<Event>)
    ensures DecisionMarked(t)
  {
    if |t| > 0 {
      DecisionsMarked(t[..|t| - 1]);
    }
  }

  lemma {:induction false} ApprovalsMarked(t: seq<Event>)
    ensures ApprovalMarked(t)
  {
    if |t| > 0 {
      var before := t[..|t| - 1];
      ApprovalsMarked(before);
      DecisionsMarked(before);
      var s, s' := Scan(before), Scan(t);
      if s'.approvalAt.Some? && s'.gated {
        assert s'.approvalAt == s.approvalAt || s'.approvalAt == Some(|before|);
      }
    }
  }

  /** A trail the replay accepts has every action backed by its own approval. */
  lemma {:induction false} GatedMeansBacked(t: seq<Event>)
    requires Scan(t).gated
    ensures EveryActionBacked(t)
  {
    if |t| > 0 {
      var n := |t| - 1;
      var before := t[..n];
      GatedMeansBacked(before);
      DecisionsMarked(before);
      ApprovalsMarked(before);
      forall i | 0 <= i < |t| && t[i].ActionStarted?
        ensures Backed(t, i)
      {
        if i < n {
          assert before[i].ActionStarted?;
          var d, j :| 0 <= d && 0 <= j && BackedBy(before, d, j, i);
          assert BackedBy(t, d, j, i);
        } else {
          var s := Scan(before);
          assert BackedBy(t, s.decisionAt.value, s.approvalAt.value, i);
        }
      }
    }
  }

  /** One approval is consumed per action: two actions never rest on the same one. */
  lemma ApprovalsAreDistinct(t: seq<Event>, d1: nat, j1: nat, i1: nat, d2: nat, j2: nat, i2: nat)
    requires i1 < i2 < |t| && BackedBy(t, d1, j1, i1) && BackedBy(t, d2, j2, i2)
    ensures i1 < j2
  {
    assert t[i1].ActionStarted?;
  }

  /** Replaying only the transitions, a legal trail walks along legal edges, starting from Detected. */
  lemma {:induction false} LegalTrails(t: seq<Event>, i: nat)
    requires Scan(t).legal && i < |t| && t[i].StateTransition?
    ensures t[i].frm == Scan(t[..i]).status && CanTransition(t[i].frm, t[i].to)
    decreases |t|
  {
    var n := |t| - 1;
    if i < n {
      LegalTrails(t[..n], i);
      assert t[..n][..i] == t[..i];
    }
  }

  lemma LegalStep(s: Summary, e: Event)
    requires Absorb(s, e).legal
    ensures s.legal
    ensures IsTerminal(s.status) ==> Absorb(s, e).status == s.status
  {
  }

  /** Once a legal trail reaches a terminal status, it stays in it. */
  lemma {:induction false} TerminalIsForGood(t: seq<Event>, i: nat)
    requires Scan(t).legal && i <= |t| && IsTerminal(Scan(t[..i]).status)
    ensures Scan(t).status == Scan(t[..i]).status
    decreases |t|
  {
    if i == |t| {
      assert t[..i] == t;
    } else {
      var before := t[..|t| - 1];
      assert before[..i] == t[..i];
      LegalStep(Scan(before), t[|t| - 1]);
      TerminalIsForGood(before, i);
    }
  }

  // ----- Two plain readings of a trail -----

  /** Replays the transitions alone from Detected; None once one does not start where the last one ended
      or is not an edge. */
  function Replay(t: seq<Event>): Option<CaseStatus> {
    if |t| == 0 then Some(Detected)
    else
      var before, e := Replay(t[..|t| - 1]), t[|t| - 1];
      if !e.StateTransition? then before
      else if before == Some(e.frm) && CanTransition(e.frm, e.to) then Some(e.to)
      else None
  }

  /** The amounts of the CAPTURE_CONFIRMED events, in order. */
  function Captures(t: seq<Event>): seq<int> {
    if |t| == 0 then []
    else
      var before, e := Captures(t[..|t| - 1]), t[|t| - 1];
      if e.CaptureConfirmed? then before + [e.amountMinor] else before
  }

  lemma {:induction false} ReplayIsScan(t: seq<Event>)
    ensures Replay(t) == if Scan(t).legal then Some(Scan(t).status) else None
  {
    if |t| > 0 {
      ReplayIsScan(t[..|t| - 1]);
    }
  }

  lemma {:induction false} CapturesAreScanned(t: seq<Event>)
    ensures |Captures(t)| == Scan(t).captures
    ensures |Captures(t)| == 0 ==> Scan(t).captured == 0
    ensures |Captures(t)| == 1 ==> Scan(t).captured == Captures(t)[0]
  {
    if |t| > 0 {
      CapturesAreScanned(t[..|t| - 1]);
    }
  }
}
