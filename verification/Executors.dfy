/** The executors: the only place where a side effect leaves the system (app/executors/actions.py). */
module Executors {
  import opened Enums
  import opened PolicyRules
  import opened Gateway
  import opened Trail
  import opened Rows
  import opened Verification

  /** What asking for a payment link leads to: no real adapter is configured, so the simulator creates
      the link; or the real one creates it, refuses it, or raises. */
  datatype LinkReply = NoRealAdapter | LinkCreated | LinkRefused | LinkError

  function CaptureProbability(c: CaseRow): real {
    if c.captureProbability.Some? then c.captureProbability.value else DefaultProbability(c.diagnosis)
  }

  /** A new action row, numbered after the rows of its kind that the case already has. */
  function NewAction(c: CaseRow, kind: ActionType, mode: ExecutionMode, now: int): (r: CaseRow)
    ensures |r.actions| == |c.actions| + 1
  {
    Emit(InsertAction(c, Action(kind, CountKind(c.actions, kind) + 1, mode, ActionExecuting, now)),
         ActionStarted(kind, mode))
  }

  function FinishedAction(c: CaseRow, ok: bool): CaseRow
    requires |c.actions| > 0
  {
    Emit(SettleAction(c, if ok then ActionSucceeded else ActionFailed), ActionFinished(ok))
  }

  function ChargeRetried(c: CaseRow, now: int): CaseRow {
    var started := NewAction(c, RetryCharge, Simulated, now);
    FinishedAction(started.(retryCount := started.retryCount + 1), true)
  }

  function LinkSent(c: CaseRow, link: LinkReply, now: int): CaseRow {
    var started := NewAction(c, SendRecoveryLink, if link == NoRealAdapter then Simulated else RealRzp, now);
    if link == LinkRefused then FinishedAction(started, false)
    else FinishedAction(Emit(started, NotificationsQueued), true)
  }

  /** A confidence of zero is falsy in the original, and then counts as full confidence. */
  function ReasonFor(diagnosis: Option<DiagnosisClass>, confidence: Option<int>, amountMinor: int, retryCount: nat,
                     cfg: PolicyConfig): EscalationReason
  {
    if amountMinor >= cfg.approvalLimitMinor then AmountCeiling
    else if diagnosis == Some(UnknownCause) then UnknownDiagnosis
    else if confidence.Some? && confidence.value < cfg.confidenceFloor then LowConfidence
    else if retryCount >= cfg.maxRetries then MaxRetriesExhausted
    else LowConfidence
  }

  function EscalationRaised(c: CaseRow, amountMinor: int, cfg: PolicyConfig, now: int): CaseRow {
    var started := NewAction(c, CreateEscalation, Outbox, now);
    var reason := ReasonFor(c.diagnosis, c.confidence, amountMinor, c.retryCount, cfg);
    FinishedAction(started.(escalations := started.escalations + [Escalation(reason, EscOpen)]), true)
  }

  /** The case after a retry charge, `paid` being the gateway's answer. */
  function ChargeOutcome(c: CaseRow, amountMinor: int, now: int, paid: bool): CaseRow {
    if paid then Captured(ChargeRetried(c, now), amountMinor, ExecutorRetry) else ChargeRetried(c, now)
  }

  /** The case after a link was sent, `paid` being the simulator's answer if it was asked. */
  function LinkOutcome(c: CaseRow, amountMinor: int, link: LinkReply, now: int, paid: bool): CaseRow {
    if paid then Captured(LinkSent(c, link, now), amountMinor, ExecutorLink) else LinkSent(c, link, now)
  }

  function PaidRow(p: PaymentRow, paid: bool): PaymentRow { if paid then p.(status := PayCaptured) else p }

  method StartAction(case_: RecoveryCase, kind: ActionType, mode: ExecutionMode, now: int)
    modifies case_
    ensures case_.row == NewAction(old(case_.row), kind, mode, now)
  {
    var attemptNo := CountKind(case_.row.actions, kind) + 1;
    case_.row := case_.row.(actions := case_.row.actions + [Action(kind, attemptNo, mode, ActionExecuting, now)]);
    case_.row := case_.row.(trail := case_.row.trail + [ActionStarted(kind, mode)]);
  }

  method FinishAction(case_: RecoveryCase, ok: bool)
    requires |case_.row.actions| > 0
    modifies case_
    ensures case_.row == FinishedAction(old(case_.row), ok)
  {
    var newest := |case_.row.actions| - 1;
    var action := case_.row.actions[newest].(status := if ok then ActionSucceeded else ActionFailed);
    case_.row := case_.row.(actions := case_.row.actions[newest := action]);
    case_.row := case_.row.(trail := case_.row.trail + [ActionFinished(ok)]);
    assert case_.row == FinishedAction(old(case_.row), ok);
  }

  method ExecuteRetryCharge(case_: RecoveryCase, payment: Payment, gateway: SimulatedGateway, now: int)
    requires case_.row.status == Executing
    modifies case_, payment, gateway
    ensures
      var c, p, g := old(case_.row), old(payment.row), old(gateway.State());
      var paid := Latent(gateway.rng, g, c.paymentId, CaptureProbability(c));
      && case_.row == ChargeOutcome(c, p.amountMinor, now, paid)
      && payment.row == PaidRow(p, paid)
      && gateway.State() == Rolled(gateway.rng, g, c.paymentId, CaptureProbability(c))
  {
    StartAction(case_, RetryCharge, Simulated, now);
    var paid := gateway.Ask(case_.row.paymentId, CaptureProbability(case_.row));
    case_.row := case_.row.(retryCount := case_.row.retryCount + 1);
    FinishAction(case_, true);
    assert case_.row == ChargeRetried(old(case_.row), now);
    if paid {
      var raised := RecordCapture(case_, payment, ExecutorRetry);
      assert !raised;
    }
  }

  method ExecuteSendLink(case_: RecoveryCase, payment: Payment, gateway: SimulatedGateway, link: LinkReply, now: int)
    returns (raised: bool)
    requires case_.row.status == Executing
    modifies case_, payment, gateway
    ensures raised <==> link == LinkError
    ensures !raised ==>
      var c, p, g := old(case_.row), old(payment.row), old(gateway.State());
      var paid := link == NoRealAdapter && Latent(gateway.rng, g, c.paymentId, CaptureProbability(c));
      && case_.row == LinkOutcome(c, p.amountMinor, link, now, paid)
      && payment.row == PaidRow(p, paid)
      && gateway.State()
         == if link == NoRealAdapter then Rolled(gateway.rng, g, c.paymentId, CaptureProbability(c)) else g
  {
    StartAction(case_, SendRecoveryLink, if link == NoRealAdapter then Simulated else RealRzp, now);
    if link == LinkError {
      return true;
    }
    if link == LinkRefused {
      FinishAction(case_, false);
      return false;
    }
    case_.row := case_.row.(trail := case_.row.trail + [NotificationsQueued]);
    FinishAction(case_, true);
    raised := false;
    if link == NoRealAdapter {
      var paid := gateway.Ask(case_.row.paymentId, CaptureProbability(case_.row));
      if paid {
        raised := RecordCapture(case_, payment, ExecutorLink);
      }
    }
  }

  method ExecuteEscalation(case_: RecoveryCase, payment: Payment, cfg: PolicyConfig, now: int)
    modifies case_
    ensures case_.row == EscalationRaised(old(case_.row), payment.row.amountMinor, cfg, now)
  {
    StartAction(case_, CreateEscalation, Outbox, now);
    var reason :=
      ReasonFor(case_.row.diagnosis, case_.row.confidence, payment.row.amountMinor, case_.row.retryCount, cfg);
    case_.row := case_.row.(escalations := case_.row.escalations + [Escalation(reason, EscOpen)]);
    FinishAction(case_, true);
  }
}
