/** Capture recording and closing: the only writers of money and of the closing outcome
    (app/verification/service.py). */
module Verification {
  import opened Enums
  import opened Fsm
  import opened Trail
  import opened Rows
  import opened CaseService

  function OutcomeOf(source: CaptureSource): CaseOutcome {
    if source.WebhookSelfHeal? then OutSelfHealed else OutRecovered
  }

  /** The case after a capture of `amount` is recorded; a case already recovered keeps its first capture. */
  function Captured(c: CaseRow, amount: int, source: CaptureSource): CaseRow {
    if c.status == Recovered then c
    else
      var paid := c.(recoveredMinor := amount, outcome := Some(OutcomeOf(source)));
      Emit(Moved(paid, Recovered, Verifier).(closed := true), CaptureConfirmed(source, amount))
  }

  function ClosedOff(c: CaseRow): CaseRow {
    if c.status == ClosedUnrecovered then c
    else Emit(Moved(c.(outcome := Some(OutUnrecovered)), ClosedUnrecovered, System).(closed := true), CaseClosed)
  }

  method RecordCapture(case_: RecoveryCase, payment: Payment, source: CaptureSource) returns (raised: bool)
    modifies case_, payment
    ensures raised <==> !CanTransition(old(case_.row.status), Recovered)
    ensures !raised ==> case_.row == Captured(old(case_.row), old(payment.row.amountMinor), source)
    ensures !raised ==>
      payment.row == if old(case_.row.status) == Recovered then old(payment.row)
                     else old(payment.row).(status := PayCaptured)
  {
    if case_.row.status == Recovered {
      return false;
    }
    payment.row := payment.row.(status := PayCaptured);
    case_.row := case_.row.(recoveredMinor := payment.row.amountMinor);
    case_.row := case_.row.(outcome := Some(OutcomeOf(source)));
    raised := Transition(case_, Recovered, Verifier);
    if raised {
      return;
    }
    case_.row := case_.row.(closed := true);
    case_.row := case_.row.(trail := case_.row.trail + [CaptureConfirmed(source, payment.row.amountMinor)]);
  }

  method CloseUnrecovered(case_: RecoveryCase) returns (raised: bool)
    modifies case_
    ensures raised <==> !CanTransition(old(case_.row.status), ClosedUnrecovered)
    ensures !raised ==> case_.row == ClosedOff(old(case_.row))
  {
    if case_.row.status == ClosedUnrecovered {
      return false;
    }
    case_.row := case_.row.(outcome := Some(OutUnrecovered));
    raised := Transition(case_, ClosedUnrecovered, System);
    if raised {
      return;
    }
    case_.row := case_.row.(closed := true);
    case_.row := case_.row.(trail := case_.row.trail + [CaseClosed]);
  }
}
