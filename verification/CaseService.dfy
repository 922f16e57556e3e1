/** FSM-guarded transitions (app/services/case_service.py). */
module CaseService {
  import opened Enums
  import opened Fsm
  import opened Trail
  import opened Rows

  /** The case after a legal move: the new status and one audit event. */
  function Moved(c: CaseRow, to: CaseStatus, actor: Actor): CaseRow {
    Emit(c.(status := to), StateTransition(actor, c.status, to))
  }

  /** An illegal edge raises before anything is written. */
  method Transition(case_: RecoveryCase, to: CaseStatus, actor: Actor) returns (raised: bool)
    modifies case_
    ensures raised <==> !CanTransition(old(case_.row.status), to)
    ensures case_.row == if raised then old(case_.row) else Moved(old(case_.row), to, actor)
  {
    var frm := case_.row.status;
    if !CanTransition(frm, to) {
      return true;
    }
    case_.row := case_.row.(status := to);
    case_.row := case_.row.(trail := case_.row.trail + [StateTransition(actor, frm, to)]);
    raised := false;
  }
}
