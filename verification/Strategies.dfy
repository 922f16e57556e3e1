/** The bounded strategy catalog and its decision table (app/domain/strategies.py). */
module Strategies {
  import opened Enums

  datatype Choice = Choice(strategy: Strategy, confidence: int, delayMinutes: Option<int>)

  const HOUR := 60

  /** The action a strategy asks the gate for; stopping (S6) asks for none. */
  function ActionOf(s: Strategy): Option<ActionType> {
    match s
    case S1 | S2 => Some(RetryCharge)
    case S3 | S4 => Some(SendRecoveryLink)
    case S5 => Some(CreateEscalation)
    case S6 => None
  }

  /** Spacing before attempt number `attemptNo`: 30 minutes, 2 hours, then 8 hours. */
  function CooldownMinutes(attemptNo: int): int {
    if attemptNo <= 0 then 30 else if attemptNo == 1 then 120 else 480
  }

  function SelectStrategy(diagnosis: DiagnosisClass, retryCount: int, hasToken: bool, amountMinor: int,
                          confidence: int, ageMinutes: int, downtimeActive: bool,
                          approvalLimitMinor: int, confidenceFloor: int): Choice
  {
    if diagnosis == DuplicateSelfHealed then Choice(S6, confidence, None)
    else if ageMinutes > 48 * HOUR then Choice(S6, confidence, None)
    else if amountMinor >= approvalLimitMinor then Choice(S5, confidence, None)
    else if confidence < confidenceFloor then Choice(S5, confidence, None)
    else if diagnosis == UnknownCause then Choice(S5, confidence, None)
    else if retryCount >= 2 then Choice(S5, confidence, None)
    else match diagnosis
      case BankDowntime =>
        if downtimeActive then Choice(S2, confidence, Some(60)) else Choice(S1, confidence, None)
      case InsufficientFunds =>
        if hasToken then Choice(S2, confidence, Some(240)) else Choice(S3, confidence, None)
      case NetworkInfra =>
        if hasToken then Choice(S1, confidence, None) else Choice(S3, confidence, None)
      case CustomerAuthRequired => Choice(S3, confidence, None)
      case InstrumentInvalid => Choice(S3, confidence, None)
      case _ => Choice(S5, confidence, None)
  }
}
