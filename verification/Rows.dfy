/** The tables' rows (app/db/models.py). A case row carries the rows of the child tables that hold its
    case_id, in insertion order: decisions, actions, escalations and the payloads of its audit events. */
module Rows {
  import opened Enums
  import opened Trail

  datatype Decision = Decision(
    origin: Origin,
    diagnosis: DiagnosisClass,
    diagnosisConfidence: int,
    strategy: Strategy,
    strategyConfidence: int,
    delayMinutes: Option<int>)

  /** `startedAt` is a history variable: the pipeline clock's reading when the row was inserted. */
  datatype Action = Action(
    kind: ActionType,
    attemptNo: nat,
    mode: ExecutionMode,
    status: ActionStatus,
    startedAt: int)

  datatype Escalation = Escalation(reason: EscalationReason, status: EscalationStatus)

  datatype PaymentRow = PaymentRow(
    status: PaymentStatus,
    amountMinor: int,
    errorReason: Option<string>,
    errorCode: Option<string>,
    createdAt: int)

  datatype CaseRow = CaseRow(
    paymentId: string,
    hasToken: bool,
    captureProbability: Option<real>,
    status: CaseStatus,
    diagnosis: Option<DiagnosisClass>,
    strategy: Option<Strategy>,
    confidence: Option<int>,
    retryCount: nat,
    lastAttemptAt: Option<int>,
    recoveredMinor: int,
    outcome: Option<CaseOutcome>,
    closed: bool,
    decisions: seq<Decision>,
    actions: seq<Action>,
    escalations: seq<Escalation>,
    trail: seq<Event>)

  /** A case together with its payment: what one pipeline step reads and writes. */
  datatype View = View(c: CaseRow, p: PaymentRow)

  /** Rows of the given kind, as the attempt counter and the gate's counts see them. */
  function CountKind(actions: seq<Action>, kind: ActionType): (n: nat)
    ensures n <= |actions|
  {
    if |actions| == 0 then 0
    else CountKind(actions[..|actions| - 1], kind) + (if actions[|actions| - 1].kind == kind then 1 else 0)
  }

  /** When the case's retry charges were started, oldest first. */
  function ChargeTimes(actions: seq<Action>): (ts: seq<int>)
    ensures |ts| == CountKind(actions, RetryCharge)
  {
    if |actions| == 0 then []
    else
      var before, a := ChargeTimes(actions[..|actions| - 1]), actions[|actions| - 1];
      if a.kind == RetryCharge then before + [a.startedAt] else before
  }

  /** Every action carries the number of rows of its kind inserted before it, plus one. */
  ghost predicate Numbered(actions: seq<Action>) {
    forall i | 0 <= i < |actions| :: actions[i].attemptNo == CountKind(actions[..i], actions[i].kind) + 1
  }

  lemma NumberedAppend(actions: seq<Action>, a: Action)
    requires a.attemptNo == CountKind(actions, a.kind) + 1
    ensures Numbered(actions + [a]) <==> Numbered(actions)
    ensures ChargeTimes(actions + [a]) == ChargeTimes(actions) + if a.kind == RetryCharge then [a.startedAt] else []
  {
    var longer := actions + [a];
    assert longer[..|actions|] == actions;
    assert forall i | 0 <= i < |actions| :: longer[..i] == actions[..i];
    assert Numbered(longer) ==> forall i | 0 <= i < |actions| :: actions[i] == longer[i];
  }

  lemma SettleKeepsRows(actions: seq<Action>, s: ActionStatus)
    requires |actions| > 0
    ensures
      var settled := actions[|actions| - 1 := actions[|actions| - 1].(status := s)];
      && (Numbered(settled) <==> Numbered(actions))
      && ChargeTimes(settled) == ChargeTimes(actions)
  {
    var n := |actions| - 1;
    var settled := actions[n := actions[n].(status := s)];
    assert settled[..n] == actions[..n];
    assert forall i | 0 <= i <= n :: settled[..i] == actions[..i];
    assert forall i | 0 <= i <= n :: settled[i].attemptNo == actions[i].attemptNo && settled[i].kind == actions[i].kind;
  }

  function Charges(c: CaseRow): nat { CountKind(c.actions, RetryCharge) }

  /** Customer contacts: one per link or notify action, whatever the number of channels. */
  function Contacts(c: CaseRow): nat {
    CountKind(c.actions, SendRecoveryLink) + CountKind(c.actions, NotifyCustomer)
  }

  function LatestDecision(c: CaseRow): Option<Decision> {
    if |c.decisions| == 0 then None else Some(c.decisions[|c.decisions| - 1])
  }

  /** Appends one audit event to the case's trail. */
  function Emit(c: CaseRow, e: Event): CaseRow {
    c.(trail := c.trail + [e])
  }

  function InsertAction(c: CaseRow, a: Action): (r: CaseRow)
    ensures r == c.(actions := c.actions + [a])
    ensures forall k :: CountKind(r.actions, k) == CountKind(c.actions, k) + (if a.kind == k then 1 else 0)
    ensures r.actions[|r.actions| - 1] == a
  {
    assert (c.actions + [a])[..|c.actions|] == c.actions;
    c.(actions := c.actions + [a])
  }

  /** Rewrites the status of the newest action. */
  function SettleAction(c: CaseRow, s: ActionStatus): (r: CaseRow)
    requires |c.actions| > 0
    ensures |r.actions| == |c.actions|
    ensures r == c.(actions := c.actions[|c.actions| - 1 := c.actions[|c.actions| - 1].(status := s)])
    ensures forall k :: CountKind(r.actions, k) == CountKind(c.actions, k)
  {
    var n := |c.actions| - 1;
    var actions := c.actions[n := c.actions[n].(status := s)];
    assert actions[..n] == c.actions[..n];
    c.(actions := actions)
  }

  /** The row a new case is inserted with (app/services/case_service.py:39-57). */
  function NewCaseRow(paymentId: string, hasToken: bool, captureProbability: Option<real>): CaseRow {
    CaseRow(paymentId, hasToken, captureProbability, Detected, None, None, None, 0, None, 0, None, false,
            [], [], [], [CaseCreated])
  }

  /** The mapped objects the services mutate: each holds its current row and is updated column by column. */
  class RecoveryCase {
    var row: CaseRow

    constructor (row: CaseRow)
      ensures this.row == row
    {
      this.row := row;
    }
  }

  class Payment {
    var row: PaymentRow

    constructor (row: PaymentRow)
      ensures this.row == row
    {
      this.row := row;
    }
  }
}
