/** Everything that can happen to one case, in any order: worker steps in batch or live mode under any
    model replies, human decisions, webhooks about its payment, time passing, and questions to the gateway
    from other cases or from steps that were rolled back (the gateway's memory is not), and the close of a case
    left in verification. An exception leaves the state as it was (app/db/session.py:40-45). */
module CaseRuns {
  import opened Enums
  import opened Fsm
  import opened PolicyRules
  import opened Gateway
  import opened Rows
  import opened Verification
  import opened Pipeline
  import opened HumanDecisions

  datatype CaseEvent =
    | WorkerStep(fastForward: bool, env: Env)
    | HumanDecision(escalation: nat, approve: bool)
    | CaptureWebhook(entity: PaymentRow)
    | FailedWebhook(entity: PaymentRow)
    | TimePasses(minutes: nat)
    | GatewayAsked(key: string, probability: real)
    | GiveUp

  /** A capture webhook for a known case: stamp the diagnosis, then record the capture. */
  function SelfHealed(c: CaseRow, amountMinor: int): CaseRow {
    Captured(c.(diagnosis := Some(DuplicateSelfHealed), strategy := Some(S6)), amountMinor, WebhookSelfHeal)
  }

  function Apply(s: Sys, cfg: PolicyConfig, rng: Stream, e: CaseEvent): Sys {
    match e
    case WorkerStep(fastForward, env) =>
      (match Step(s, Deps(cfg, fastForward, rng), env)
       case Done(s', _) => s'
       case Error => s)
    case HumanDecision(escalation, approve) =>
      (match HumanDecided(s.c, escalation, approve)
       case Ok(c') => s.(c := c')
       case Raised => s)
    case CaptureWebhook(entity) =>
      if !CanTransition(s.c.status, Recovered) then s
      else
        s.(c := SelfHealed(s.c, entity.amountMinor),
           p := if s.c.status == Recovered then entity else entity.(status := PayCaptured))
    case FailedWebhook(entity) => s.(p := entity)
    case TimePasses(minutes) => s.(now := s.now + minutes)
    case GatewayAsked(key, probability) =>
      s.(g := Rolled(rng, s.g, key, probability))
    case GiveUp => if CanTransition(s.c.status, ClosedUnrecovered) then s.(c := ClosedOff(s.c)) else s
  }

  function Run(s: Sys, cfg: PolicyConfig, rng: Stream, es: seq<CaseEvent>): Sys {
    if |es| == 0 then s else Apply(Run(s, cfg, rng, es[..|es| - 1]), cfg, rng, es[|es| - 1])
  }

  /** An approval that takes effect: the escalation exists and the case can move to Approved. */
  predicate Approves(s: Sys, e: CaseEvent) {
    e.HumanDecision? && e.approve && HumanDecided(s.c, e.escalation, true).Ok?
  }

  /** The transition table lets APPROVED follow POLICY_CHECK whoever the actor is: such an approval takes the
      gate's place. */
  predicate SkipsGate(s: Sys, e: CaseEvent) { Approves(s, e) && s.c.status == PolicyCheck }

  /** Approvals by people that took effect in a run. */
  function Approvals(s: Sys, cfg: PolicyConfig, rng: Stream, es: seq<CaseEvent>): nat {
    if |es| == 0 then 0
    else
      var before := es[..|es| - 1];
      Approvals(s, cfg, rng, before) + if Approves(Run(s, cfg, rng, before), es[|es| - 1]) then 1 else 0
  }

  /** Those among them that took the gate's place. */
  function Skips(s: Sys, cfg: PolicyConfig, rng: Stream, es: seq<CaseEvent>): nat {
    if |es| == 0 then 0
    else
      var before := es[..|es| - 1];
      Skips(s, cfg, rng, before) + if SkipsGate(Run(s, cfg, rng, before), es[|es| - 1]) then 1 else 0
  }

  /** Was the approval the case now stands on given in the gate's place? */
  predicate Bypassed(s: Sys, cfg: PolicyConfig, rng: Stream, es: seq<CaseEvent>) {
    |es| > 0 &&
    var before := es[..|es| - 1];
    var t := Run(s, cfg, rng, before);
    SkipsGate(t, es[|es| - 1]) || (t.c.status == Approved && Bypassed(s, cfg, rng, before))
  }

  lemma {:induction false} SkipsAreApprovals(s: Sys, cfg: PolicyConfig, rng: Stream, es: seq<CaseEvent>)
    ensures Skips(s, cfg, rng, es) <= Approvals(s, cfg, rng, es)
    ensures Skips(s, cfg, rng, es) == 0 ==> !Bypassed(s, cfg, rng, es)
  {
    hide Run, Approves;
    if |es| > 0 {
      SkipsAreApprovals(s, cfg, rng, es[..|es| - 1]);
    }
  }

  /** A case as ingestion creates it, `prior` attempts having been made elsewhere. */
  predicate FreshCase(c: CaseRow, prior: nat) {
    c == NewCaseRow(c.paymentId, c.hasToken, c.captureProbability).(retryCount := prior)
  }
}
