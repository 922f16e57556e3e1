/** A human decides an escalation (app/main.py, decide_escalation). */
module HumanDecisions {
  import opened Enums
  import opened Fsm
  import opened Rows
  import opened CaseService

  /** An unknown escalation is a 404, an illegal transition rolls the decision back. */
  function HumanDecided(c: CaseRow, escalation: nat, approve: bool): Attempt<CaseRow> {
    var to := if approve then Approved else Escalated;
    if escalation >= |c.escalations| || !CanTransition(c.status, to) then Raised
    else
      var decided := c.escalations[escalation].(status := if approve then EscApproved else EscRejected);
      Ok(Moved(c.(escalations := c.escalations[escalation := decided]), to, Human))
  }

  method DecideEscalation(case_: RecoveryCase, escalation: nat, approve: bool) returns (raised: bool)
    modifies case_
    ensures HumanDecided(old(case_.row), escalation, approve) == if raised then Raised else Ok(case_.row)
    ensures raised ==> case_.row == old(case_.row)
  {
    if escalation >= |case_.row.escalations| {
      return true;
    }
    var before := case_.row;
    var decided := case_.row.escalations[escalation].(status := if approve then EscApproved else EscRejected);
    case_.row := case_.row.(escalations := case_.row.escalations[escalation := decided]);
    raised := Transition(case_, if approve then Approved else Escalated, Human);
    if raised {
      case_.row := before;
    }
  }
}
