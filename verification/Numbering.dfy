/** Attempt numbers and idempotency keys over every run of a case (app/executors/actions.py:53-76). */
module Numbering {
  import opened Enums
  import opened PolicyRules
  import opened Gateway
  import opened Rows
  import opened Pipeline
  import opened CaseRuns
  import opened Core
  import opened Refs

  /** The attempt numbers of the rows of one kind, in creation order. */
  function AttemptNos(actions: seq<Action>, kind: ActionType): (ns: seq<nat>)
    ensures |ns| == CountKind(actions, kind)
  {
    if |actions| == 0 then []
    else
      var before, a := AttemptNos(actions[..|actions| - 1], kind), actions[|actions| - 1];
      if a.kind == kind then before + [a.attemptNo] else before
  }

  lemma NumberedPrefix(actions: seq<Action>, n: nat)
    requires Numbered(actions) && n <= |actions|
    ensures Numbered(actions[..n])
  {
    assert forall i | 0 <= i < n :: actions[..n][..i] == actions[..i];
  }

  /** Numbered rows of one kind carry 1, 2, ..., n in creation order. */
  lemma {:induction false} OneToN(actions: seq<Action>, kind: ActionType)
    requires Numbered(actions)
    ensures forall i | 0 <= i < CountKind(actions, kind) :: AttemptNos(actions, kind)[i] == i + 1
  {
    if |actions| > 0 {
      NumberedPrefix(actions, |actions| - 1);
      OneToN(actions[..|actions| - 1], kind);
    }
  }

  lemma {:induction false} CountGrows(actions: seq<Action>, i: nat, j: nat)
    requires i < j <= |actions|
    ensures CountKind(actions[..i], actions[i].kind) < CountKind(actions[..j], actions[i].kind)
  {
    assert actions[..j][..j - 1] == actions[..j - 1];
    if i + 1 < j {
      CountGrows(actions, i, j - 1);
    }
  }

  lemma NumberedKeysDiffer(caseId: string, actions: seq<Action>, i: nat, j: nat)
    requires Numbered(actions) && ':' !in caseId && i < j < |actions|
    ensures IdempotencyKey(caseId, actions[i].kind, actions[i].attemptNo)
            != IdempotencyKey(caseId, actions[j].kind, actions[j].attemptNo)
  {
    CountGrows(actions, i, j);
    KeysAreInjective(caseId, actions[i].kind, actions[i].attemptNo, caseId, actions[j].kind, actions[j].attemptNo);
  }

  lemma ApplyNumbered(s: Sys, cfg: PolicyConfig, rng: Stream, e: CaseEvent)
    requires Numbered(s.c.actions)
    ensures Numbered(Apply(s, cfg, rng, e).c.actions)
  {
    hide Numbered, CountKind, ChargeTimes, Step;
    match e
    case WorkerStep(fastForward, env) =>
      StepRefines(s, Deps(cfg, fastForward, rng), env);
      FactsKept(Abs(s), cfg, Inputs(s, Deps(cfg, fastForward, rng), env));
      hide CoreStep;
    case _ =>
  }

  lemma {:induction false} RunNumbered(s: Sys, cfg: PolicyConfig, rng: Stream, es: seq<CaseEvent>)
    requires Numbered(s.c.actions)
    ensures Numbered(Run(s, cfg, rng, es).c.actions)
  {
    hide Numbered, Apply;
    if |es| > 0 {
      RunNumbered(s, cfg, rng, es[..|es| - 1]);
      ApplyNumbered(Run(s, cfg, rng, es[..|es| - 1]), cfg, rng, es[|es| - 1]);
    }
  }

  /** Over every run, the attempts of each kind are numbered exactly 1..n in creation order, so the next
      number (the count plus one) is never taken; and no two actions share an idempotency key. */
  lemma {:induction false} AttemptsAreNumbered(s: Sys, prior: nat, cfg: PolicyConfig, rng: Stream, es: seq<CaseEvent>,
                                               caseId: string)
    requires FreshCase(s.c, prior) && ':' !in caseId
    ensures var actions := Run(s, cfg, rng, es).c.actions;
      && (forall kind, n | 0 <= n < CountKind(actions, kind) :: AttemptNos(actions, kind)[n] == n + 1)
      && (forall i, j | 0 <= i < j < |actions| ::
            IdempotencyKey(caseId, actions[i].kind, actions[i].attemptNo)
            != IdempotencyKey(caseId, actions[j].kind, actions[j].attemptNo))
  {
    RunNumbered(s, cfg, rng, es);
    hide Run, IdempotencyKey;
    var actions := Run(s, cfg, rng, es).c.actions;
    forall kind: ActionType
      ensures forall n | 0 <= n < CountKind(actions, kind) :: AttemptNos(actions, kind)[n] == n + 1
    {
      OneToN(actions, kind);
    }
    forall i, j | 0 <= i < j < |actions|
      ensures IdempotencyKey(caseId, actions[i].kind, actions[i].attemptNo)
              != IdempotencyKey(caseId, actions[j].kind, actions[j].attemptNo)
    {
      NumberedKeysDiffer(caseId, actions, i, j);
    }
  }
}
