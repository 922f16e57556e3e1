/** The closed enumerations shared by every part of the engine (app/db/enums.py),
    together with the two result types the rest of the model is written in. */
module Enums {

  datatype Option<+T> = None | Some(value: T)

  /** What a database transaction did: it committed a value, or an exception rolled it back. */
  datatype Attempt<+T> = Ok(value: T) | Raised

  datatype CaseStatus =
    | Detected | Analyzing | Diagnosed | Planned | PolicyCheck | AwaitingApproval | Approved | Executing | Verifying
    | Recovered | ClosedUnrecovered | Blocked | Escalated | Expired | Cancelled | Failed

  datatype DiagnosisClass =
    | InsufficientFunds | CustomerAuthRequired | InstrumentInvalid | NetworkInfra | BankDowntime
    | DuplicateSelfHealed | UnknownCause

  datatype PaymentStatus = PayCreated | PayAuthorized | PayCaptured | PayFailed

  datatype ActionType = RetryCharge | SendRecoveryLink | NotifyCustomer | CreateEscalation

  datatype ActionStatus = ActionExecuting | ActionSucceeded | ActionFailed

  datatype ExecutionMode = RealRzp | Simulated | Outbox

  datatype Origin = FromLlm | FromFallback

  datatype Verdict = Allow | Block | Escalate | Wait

  datatype EscalationStatus = EscOpen | EscApproved | EscRejected | EscExpired

  datatype EscalationReason = MaxRetriesExhausted | AmountCeiling | LowConfidence | UnknownDiagnosis

  datatype CaseOutcome = OutRecovered | OutSelfHealed | OutUnrecovered

  datatype Actor = System | Agent | Policy | Executor | Verifier | Human

  datatype Strategy = S1 | S2 | S3 | S4 | S5 | S6

  datatype RuleId = P01 | P02 | P03 | P04 | P05 | P06 | P07 | P08 | P09 | P10 | P11 | P12 | P13 | P14

  /** Where a capture was observed. */
  datatype CaptureSource = ExecutorRetry | ExecutorLink | WebhookSelfHeal | VerifierPoll

  function Max(a: int, b: int): int { if a >= b then a else b }

  function Min(a: int, b: int): int { if a <= b then a else b }
}
