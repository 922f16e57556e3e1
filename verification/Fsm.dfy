/** The case state machine (app/domain/fsm.py). */
module Fsm {
  import opened Enums

  /** The authoritative transition table, grouped by source status. */
  predicate IsEdge(frm: CaseStatus, to: CaseStatus) {
    match frm
    case Detected => to == Analyzing
    case Analyzing => to == Diagnosed || to == Failed
    case Diagnosed => to == Planned
    case Planned => to == PolicyCheck
    case PolicyCheck => to == Approved || to == AwaitingApproval || to == Planned || to == Blocked
    case AwaitingApproval => to == Approved || to == Escalated
    case Approved => to == Executing
    case Executing => to == Verifying || to == AwaitingApproval || to == Failed
    case Verifying => to == Recovered || to == ClosedUnrecovered || to == Diagnosed
    case _ => false
  }

  predicate IsTerminal(s: CaseStatus) {
    s.Recovered? || s.ClosedUnrecovered? || s.Expired? || s.Cancelled? || s.Blocked? || s.Escalated? || s.Failed?
  }

  predicate CanTransition(frm: CaseStatus, to: CaseStatus) {
    || frm == to
    || IsEdge(frm, to)
    || (!IsTerminal(frm) && (to == Expired || to == Cancelled))
    || (!IsTerminal(frm) && to == Recovered)
  }
}
