/** Deterministic error-code diagnosis (app/domain/diagnosis.py). Confidence is in hundredths. */
module Diagnosis {
  import opened Enums

  const REASON_MAP: map<string, DiagnosisClass> :=
    map[ "insufficient_funds" := InsufficientFunds,
         "gateway_error" := NetworkInfra,
         "network_error" := NetworkInfra,
         "timeout_error" := NetworkInfra,
         "timeout" := NetworkInfra,
         "authentication_failed" := CustomerAuthRequired,
         "wrong_pin" := CustomerAuthRequired,
         "pin_error" := CustomerAuthRequired,
         "otp_timeout" := CustomerAuthRequired,
         "card_expired" := InstrumentInvalid,
         "invalid_card" := InstrumentInvalid,
         "card_declined" := InstrumentInvalid,
         "bank_error" := BankDowntime,
         "bank_down" := BankDowntime,
         "downtime" := BankDowntime,
         "insufficient_balance" := InsufficientFunds,
         "unknown_failure" := UnknownCause ]

  const CODE_MAP: map<string, DiagnosisClass> :=
    map[ "GATEWAY_ERROR" := NetworkInfra,
         "TIMEOUT_ERROR" := NetworkInfra,
         "BAD_REQUEST_ERROR" := UnknownCause,
         "SERVER_ERROR" := NetworkInfra,
         "UNKNOWN_ERROR" := UnknownCause ]

  /** A structured reason outranks an error code; neither ever yields a self-heal, and only an
      unknown cause comes with confidence below 70. */
  function Diagnose(errorReason: Option<string>, errorCode: Option<string>): (r: (DiagnosisClass, int))
    ensures r.0 != DuplicateSelfHealed
    ensures r.1 in {90, 70, 40}
    ensures r.0 != UnknownCause ==> r.1 >= 70
    ensures errorReason.Some? && errorReason.value in REASON_MAP ==> r == (REASON_MAP[errorReason.value], 90)
    ensures r.1 == 90 <==> errorReason.Some? && errorReason.value in REASON_MAP
    ensures r.1 == 70 ==> errorCode.Some? && errorCode.value in CODE_MAP && r.0 == CODE_MAP[errorCode.value]
    ensures r.1 == 40 ==> r.0 == UnknownCause && (errorCode.Some? ==> errorCode.value !in CODE_MAP)
  {
    if errorReason.Some? && errorReason.value in REASON_MAP then
      (REASON_MAP[errorReason.value], 90)
    else if errorCode.Some? && errorCode.value in CODE_MAP then
      (CODE_MAP[errorCode.value], 70)
    else
      (UnknownCause, 40)
  }

  /** What each class is diagnosed from: four of them by reasons alone; a code tells only infrastructure or an unknown
      cause, and only where no reason is mapped. */
  lemma ClassesAreToldBy(errorReason: Option<string>, errorCode: Option<string>)
    ensures
      var (found, confidence) := Diagnose(errorReason, errorCode);
      var mapped := errorReason.Some? && errorReason.value in REASON_MAP;
      && (found == InsufficientFunds <==> errorReason in {Some("insufficient_funds"), Some("insufficient_balance")})
      && (found == CustomerAuthRequired <==>
            errorReason in {Some("authentication_failed"), Some("wrong_pin"), Some("pin_error"), Some("otp_timeout")})
      && (found == InstrumentInvalid <==>
            errorReason in {Some("card_expired"), Some("invalid_card"), Some("card_declined")})
      && (found == BankDowntime <==> errorReason in {Some("bank_error"), Some("bank_down"), Some("downtime")})
      && (found == NetworkInfra <==>
            || errorReason in {Some("gateway_error"), Some("network_error"), Some("timeout_error"), Some("timeout")}
            || (!mapped && errorCode in {Some("GATEWAY_ERROR"), Some("TIMEOUT_ERROR"), Some("SERVER_ERROR")}))
      && (confidence == 90 && found == UnknownCause <==> errorReason == Some("unknown_failure"))
      && (confidence == 70 && found == UnknownCause <==>
            !mapped && errorCode in {Some("BAD_REQUEST_ERROR"), Some("UNKNOWN_ERROR")})
  {
  }
}
