/** The decision engine (app/agent/decide.py): an LLM proposal that passes validation, or else the
    deterministic table. What the model answers is a parameter: one entry per call, None for a call that
    failed. Confidences are in hundredths. */
module Decide {
  import opened Enums
  import opened Diagnosis
  import opened Strategies
  import opened PolicyRules
  import opened Trail
  import opened Rows

  const MAX_LLM_ATTEMPTS := 2

  /** A decoded answer: None where the key is missing or has the wrong type. */
  datatype RawOutput = RawOutput(
    diagnosis: Option<string>,
    strategy: Option<string>,
    diagnosisConfidence: Option<int>,
    strategyConfidence: Option<int>,
    delayMinutes: Option<int>)

  const DIAGNOSIS_NAMES: map<string, DiagnosisClass> :=
    map[ "INSUFFICIENT_FUNDS" := InsufficientFunds,
         "CUSTOMER_AUTH_REQUIRED" := CustomerAuthRequired,
         "INSTRUMENT_INVALID" := InstrumentInvalid,
         "NETWORK_INFRA" := NetworkInfra,
         "BANK_DOWNTIME" := BankDowntime,
         "DUPLICATE_SELF_HEALED" := DuplicateSelfHealed,
         "UNKNOWN" := UnknownCause ]

  const STRATEGY_NAMES: map<string, Strategy> :=
    map[ "S1_IMMEDIATE_RETRY" := S1,
         "S2_DELAYED_RETRY" := S2,
         "S3_NOTIFY_WITH_LINK" := S3,
         "S4_ALT_PAYMENT_FLOW" := S4,
         "S5_HUMAN_ESCALATION" := S5,
         "S6_STOP_RECOVERY" := S6 ]

  predicate IsConfidence(v: Option<int>) { v.Some? && 0 <= v.value <= 100 }

  predicate ValidOutput(raw: RawOutput) {
    && raw.diagnosis.Some? && raw.diagnosis.value in DIAGNOSIS_NAMES
    && raw.strategy.Some? && raw.strategy.value in STRATEGY_NAMES
    && IsConfidence(raw.diagnosisConfidence) && IsConfidence(raw.strategyConfidence)
  }

  function FromOutput(raw: RawOutput): Decision
    requires ValidOutput(raw)
  {
    Decision(FromLlm, DIAGNOSIS_NAMES[raw.diagnosis.value], raw.diagnosisConfidence.value,
             STRATEGY_NAMES[raw.strategy.value], raw.strategyConfidence.value, raw.delayMinutes)
  }

  function FallbackDecision(p: PaymentRow, ageMinutes: int, hasToken: bool, cfg: PolicyConfig,
                            retryCount: nat): Decision
  {
    var (d, conf) := Diagnose(p.errorReason, p.errorCode);
    var choice := SelectStrategy(d, retryCount, hasToken, p.amountMinor, conf, ageMinutes, false,
                                 cfg.approvalLimitMinor, cfg.confidenceFloor);
    Decision(FromFallback, d, conf, choice.strategy, choice.confidence, choice.delayMinutes)
  }

  /** The decision taken: the first valid answer among the calls made, else the fallback. */
  function Chosen(attempts: seq<Option<RawOutput>>, k: nat, fallback: Decision): Decision
    decreases MAX_LLM_ATTEMPTS - k
  {
    if k >= MAX_LLM_ATTEMPTS || k >= |attempts| then fallback
    else if attempts[k].Some? && ValidOutput(attempts[k].value) then FromOutput(attempts[k].value)
    else Chosen(attempts, k + 1, fallback)
  }

  /** Whatever the model answers, the decision is the table's own or a validated answer to one of the
      first two calls, and its origin says which. */
  lemma {:induction false} DecisionIsVetted(attempts: seq<Option<RawOutput>>, k: nat, fallback: Decision)
    requires fallback.origin == FromFallback
    ensures var d := Chosen(attempts, k, fallback);
      && (d.origin == FromFallback ==> d == fallback)
      && (d.origin == FromLlm ==>
            && 0 <= d.diagnosisConfidence <= 100 && 0 <= d.strategyConfidence <= 100
            && exists i :: k <= i < MAX_LLM_ATTEMPTS && i < |attempts| && attempts[i].Some?
                           && ValidOutput(attempts[i].value) && d == FromOutput(attempts[i].value))
    decreases MAX_LLM_ATTEMPTS - k
  {
    if k >= MAX_LLM_ATTEMPTS || k >= |attempts| {
    } else if attempts[k].Some? && ValidOutput(attempts[k].value) {
      assert Chosen(attempts, k, fallback) == FromOutput(attempts[k].value);
    } else {
      DecisionIsVetted(attempts, k + 1, fallback);
    }
  }

  function Stamped(c: CaseRow, d: Decision): CaseRow {
    Emit(c.(decisions := c.decisions + [d], diagnosis := Some(d.diagnosis), strategy := Some(d.strategy),
            confidence := Some(d.diagnosisConfidence)),
         DecisionRecorded(d.origin, d.diagnosis, d.strategy, d.diagnosisConfidence, c.retryCount))
  }

  function WithDecision(c: CaseRow, p: PaymentRow, ageMinutes: int, cfg: PolicyConfig,
                        attempts: seq<Option<RawOutput>>): CaseRow {
    Stamped(c, Chosen(attempts, 0, FallbackDecision(p, ageMinutes, c.hasToken, cfg, c.retryCount)))
  }

  method Propose(attempts: seq<Option<RawOutput>>, fallback: Decision) returns (d: Decision)
    ensures d == Chosen(attempts, 0, fallback)
  {
    var proposal: Option<Decision> := None;
    var k := 0;
    while k < MAX_LLM_ATTEMPTS && k < |attempts| && proposal.None?
      invariant Chosen(attempts, 0, fallback) ==
                if proposal.Some? then proposal.value else Chosen(attempts, k, fallback)
    {
      if attempts[k].Some? && ValidOutput(attempts[k].value) {
        proposal := Some(FromOutput(attempts[k].value));
      }
      k := k + 1;
    }
    d := if proposal.Some? then proposal.value else fallback;
  }

  method DecideAndPersist(case_: RecoveryCase, payment: Payment, ageMinutes: int, cfg: PolicyConfig,
                          attempts: seq<Option<RawOutput>>)
    modifies case_
    ensures case_.row == WithDecision(old(case_.row), payment.row, ageMinutes, cfg, attempts)
  {
    var retryCount := case_.row.retryCount;
    var d := Propose(attempts, FallbackDecision(payment.row, ageMinutes, case_.row.hasToken, cfg, retryCount));
    case_.row := case_.row.(decisions := case_.row.decisions + [d]);
    case_.row := case_.row.(diagnosis := Some(d.diagnosis), strategy := Some(d.strategy),
                            confidence := Some(d.diagnosisConfidence));
    case_.row := case_.row.(trail := case_.row.trail +
      [DecisionRecorded(d.origin, d.diagnosis, d.strategy, d.diagnosisConfidence, retryCount)]);
  }
}
