/** What a whole batch leaves, item by item: the closed form, the bounds, one attempt behind each recovery, and
    one draw per payment attempted (app/batch/run_eval.py:183-197). */
module BatchResults {
  import opened Enums
  import opened Diagnosis
  import opened Fsm
  import opened PolicyRules
  import opened Gateway
  import opened Rows
  import opened Executors
  import opened Pipeline
  import opened CaseRuns
  import opened Core
  import opened GatewayRuns
  import opened Ladder
  import opened BatchOutcome
  import opened BatchRuns
  import opened Batch

  /** The state the batch is in when it reaches case `i`. */
  ghost function AtTurn(st: BatchState, i: nat, cfg: PolicyConfig, rng: Stream, t0: int, replies: Replies): BatchState
    requires i <= |st.items| && Driven(st, i, cfg, rng, t0, replies).Some?
  {
    Driven(st, i, cfg, rng, t0, replies).value
  }

  /** In a batch that got past case `i`, the case was driven once, as it was when the batch started, and was not
      touched again. */
  lemma {:induction false} EachIsDrivenOnce(st: BatchState, n: nat, i: nat, cfg: PolicyConfig, rng: Stream, t0: int,
                                            replies: Replies)
    requires i < n <= |st.items| && Driven(st, n, cfg, rng, t0, replies).Some?
    ensures Driven(st, i, cfg, rng, t0, replies).Some?
    ensures
      var before := AtTurn(st, i, cfg, rng, t0, replies);
      var driven := DriveItem(before, i, cfg, rng, t0, replies);
      && before.items[i] == st.items[i] && driven.Ended?
      && Driven(st, n, cfg, rng, t0, replies).value.items[i] == Item(driven.s.c, driven.s.p)
  {
    hide DriveItem;
    if i < n - 1 {
      EachIsDrivenOnce(st, n - 1, i, cfg, rng, t0, replies);
    } else {
      LaterUntouched(st, i, i, cfg, rng, t0, replies);
    }
  }

  lemma {:induction false} LaterUntouched(st: BatchState, n: nat, i: nat, cfg: PolicyConfig, rng: Stream, t0: int,
                                          replies: Replies)
    requires n <= i < |st.items| && Driven(st, n, cfg, rng, t0, replies).Some?
    ensures Driven(st, n, cfg, rng, t0, replies).value.items[i] == st.items[i]
  {
    hide DriveItem;
    if n > 0 {
      LaterUntouched(st, n - 1, i, cfg, rng, t0, replies);
    }
  }

  predicate FreshItem(x: Item) { FreshCase(x.c, x.c.retryCount) }

  // ----- Bounds and recoveries -----

  ghost predicate WithinBounds(x: Item, c: CaseRow, cfg: PolicyConfig) {
    && c.retryCount == x.c.retryCount + Charges(c) && c.retryCount <= Max(x.c.retryCount, cfg.maxRetries)
    && Contacts(c) <= Max(0, cfg.contactCap7d)
    && (ExecutorCaptures(c.trail) > 0 ==>
          CountKind(c.actions, RetryCharge) + CountKind(c.actions, SendRecoveryLink) == 1)
  }

  /** Under any decision source and config, every fresh case of a finished batch keeps its retry and contact
      bounds, and has one attempt behind an executor's recovery. */
  lemma {:induction false} BatchCasesAreBounded(st: BatchState, n: nat, i: nat, cfg: PolicyConfig, rng: Stream, t0: int,
                                                replies: Replies)
    requires i < n <= |st.items| && Driven(st, n, cfg, rng, t0, replies).Some? && FreshItem(st.items[i])
    ensures WithinBounds(st.items[i], Driven(st, n, cfg, rng, t0, replies).value.items[i].c, cfg)
  {
    hide Advance, FreshCase, ExecutorCaptures, CountKind, Driven;
    EachIsDrivenOnce(st, n, i, cfg, rng, t0, replies);
    var before := AtTurn(st, i, cfg, rng, t0, replies);
    var s := Sys(before.items[i].c, before.items[i].p, t0, before.g);
    var deps, envs := Deps(cfg, true, rng), Envs(before.items, i, replies);
    DrivenCaseIsBounded(s, st.items[i].c.retryCount, deps, envs);
    DrivenCaseRecoversAtOnce(s, st.items[i].c.retryCount, deps, envs);
  }

  // ----- The closed form -----

  /** A fresh failed case of a scorable amount. */
  predicate FailedItem(x: Item) { FreshItem(x) && x.p.status == PayFailed && Scorable(x.p.amountMinor) }

  ghost predicate NoModel(replies: Replies) {
    forall i: nat, n: nat :: FallbackSource(Env(replies(i, n), NoRealAdapter, 0))
  }

  function FateAt(st: BatchState, i: nat, rng: Stream, t0: int): Landing
    requires i < |st.items|
  {
    FateOf(Sys(st.items[i].c, st.items[i].p, t0, st.g), st.items[i].c.retryCount, rng)
  }

  predicate IsAt(c: CaseRow, fate: Landing) {
    c.status == fate.status && Charges(c) == fate.charges && Contacts(c) == fate.links
  }

  lemma ReachesFate(st: BatchState, i: nat, rng: Stream, t0: int, replies: Replies)
    requires i < |st.items| && FailedItem(st.items[i]) && NoModel(replies)
    requires RoomFor(FateAt(st, i, rng, t0).charges, UsedElsewhere(st.items, i))
    ensures
      var end := DriveItem(st, i, DEFAULT_CONFIG, rng, t0, replies);
      end.Ended? && IsAt(end.s.c, FateAt(st, i, rng, t0))
  {
    hide Advance, FateOf, FreshCase, Charges, Contacts, NeverWaited, UsedElsewhere, RoomFor;
    var s := Sys(st.items[i].c, st.items[i].p, t0, st.g);
    var envs := Envs(st.items, i, replies);
    forall n: nat
      ensures BatchEnv(envs(n)) && envs(n).usedElsewhere == UsedElsewhere(st.items, i)
    {
      assert FallbackSource(Env(replies(i, n), NoRealAdapter, 0));
    }
    AdvanceIsFate(s, st.items[i].c.retryCount, rng, envs);
  }

  lemma FreshIsUntouched(x: Item)
    requires FreshItem(x)
    ensures Charges(x.c) == 0 && x.c.status == Detected
  {
  }

  /** A charge beyond the budget is never made. */
  lemma NoRoomNoFate(st: BatchState, i: nat, rng: Stream, t0: int, replies: Replies)
    requires i < |st.items| && FreshItem(st.items[i])
    requires !RoomFor(FateAt(st, i, rng, t0).charges, UsedElsewhere(st.items, i))
    ensures
      var end := DriveItem(st, i, DEFAULT_CONFIG, rng, t0, replies);
      end.Ended? ==> !IsAt(end.s.c, FateAt(st, i, rng, t0))
  {
    hide Advance, FateAt, FreshItem, Charges, Contacts, Used, UsedElsewhere;
    FreshIsUntouched(st.items[i]);
    var used := UsedElsewhere(st.items, i);
    AdvanceBudgeted(Sys(st.items[i].c, st.items[i].p, t0, st.g), Deps(DEFAULT_CONFIG, true, rng),
                    Envs(st.items, i, replies), used, Max(used, DEFAULT_CONFIG.simulationBudget));
  }

  /** In any batch under the decision table and the default config that got past case `i`, whatever its other cases
      are: a case that was fresh and failed ended at its own closed form, with the gateway as it stood at its turn,
      if and only if the budget then had room for the closed form's charges. */
  lemma {:induction false} CaseEndsAtFateIff(st: BatchState, n: nat, i: nat, rng: Stream, t0: int, replies: Replies)
    requires i < n <= |st.items| && Driven(st, n, DEFAULT_CONFIG, rng, t0, replies).Some?
    requires FailedItem(st.items[i]) && NoModel(replies)
    ensures Driven(st, i, DEFAULT_CONFIG, rng, t0, replies).Some?
    ensures
      var before := AtTurn(st, i, DEFAULT_CONFIG, rng, t0, replies);
      var fate := FateAt(before, i, rng, t0);
      IsAt(Driven(st, n, DEFAULT_CONFIG, rng, t0, replies).value.items[i].c, fate)
      <==> RoomFor(fate.charges, UsedElsewhere(before.items, i))
  {
    hide Driven, DriveItem, FateAt, FreshItem, NoModel, IsAt, UsedElsewhere, RoomFor;
    EachIsDrivenOnce(st, n, i, DEFAULT_CONFIG, rng, t0, replies);
    var before := AtTurn(st, i, DEFAULT_CONFIG, rng, t0, replies);
    if RoomFor(FateAt(before, i, rng, t0).charges, UsedElsewhere(before.items, i)) {
      ReachesFate(before, i, rng, t0, replies);
    } else {
      NoRoomNoFate(before, i, rng, t0, replies);
    }
  }

  // ----- Batches that go through -----

  /** A batch as ingestion leaves it: each case is fresh and failed, or ended already, as a self-healed one has. */
  predicate FailedOrEnded(x: Item) { FailedItem(x) || IsTerminal(x.c.status) }

  /** The most charges the closed form can bring, the gateway refusing all. */
  function MostCharges(x: Item, rng: Stream, t0: int): nat {
    var s := Sys(x.c, x.p, t0, FRESH);
    if FailedItem(x) then Fate(FootingOf(s, rng).(paid := false), t0 - x.p.createdAt, x.c.retryCount).charges else 0
  }

  function MostTotal(items: seq<Item>, rng: Stream, t0: int): nat {
    if |items| == 0 then 0
    else MostTotal(items[..|items| - 1], rng, t0) + MostCharges(items[|items| - 1], rng, t0)
  }

  lemma {:induction false} TotalGrows(items: seq<Item>, i: nat, rng: Stream, t0: int)
    requires i < |items|
    ensures MostTotal(items[..i], rng, t0) + MostCharges(items[i], rng, t0) <= MostTotal(items, rng, t0)
  {
    hide MostCharges;
    var n := |items| - 1;
    if i < n {
      assert items[..n][..i] == items[..i];
      TotalGrows(items[..n], i, rng, t0);
    }
  }

  lemma RefusedChargesMost(f: Footing, a: int, r: nat)
    ensures Fate(f, a, r).charges <= Fate(f.(paid := false), a, r).charges
  {
  }

  lemma FateWithinMost(st: BatchState, i: nat, rng: Stream, t0: int)
    requires i < |st.items| && FailedItem(st.items[i])
    ensures FateAt(st, i, rng, t0).charges <= MostCharges(st.items[i], rng, t0)
  {
    hide Fate, Diagnose, FreshItem;
    var x := st.items[i];
    RefusedChargesMost(FootingOf(Sys(x.c, x.p, t0, st.g), rng), t0 - x.p.createdAt, x.c.retryCount);
  }

  lemma EndedStays(st: BatchState, i: nat, cfg: PolicyConfig, rng: Stream, t0: int, replies: Replies)
    requires i < |st.items| && IsTerminal(st.items[i].c.status)
    ensures
      var end := DriveItem(st, i, cfg, rng, t0, replies);
      end.Ended? && end.s == Sys(st.items[i].c, st.items[i].p, t0, st.g)
  {
  }

  /** What driving one case adds to the merchant's use. */
  lemma DriveUses(st: BatchState, i: nat, rng: Stream, t0: int, replies: Replies)
    requires i < |st.items| && FailedOrEnded(st.items[i]) && NoModel(replies)
    requires RoomFor(MostCharges(st.items[i], rng, t0), Used(st.items))
    ensures
      var end := DriveItem(st, i, DEFAULT_CONFIG, rng, t0, replies);
      && end.Ended?
      && Used(Put(st, i, end.s).items) <= Used(st.items) + MostCharges(st.items[i], rng, t0)
      && (FailedItem(st.items[i]) ==> IsAt(end.s.c, FateAt(st, i, rng, t0)))
      && (!FailedItem(st.items[i]) ==> end.s.c == st.items[i].c)
  {
    hide DriveItem, FateAt, FreshItem, NoModel, Used, UsedElsewhere, Charges, Contacts, FootingOf, Fate;
    UsedSplits(st.items, i);
    if FailedItem(st.items[i]) {
      FreshIsUntouched(st.items[i]);
      FateWithinMost(st, i, rng, t0);
      ReachesFate(st, i, rng, t0, replies);
    } else {
      EndedStays(st, i, DEFAULT_CONFIG, rng, t0, replies);
    }
    var end := DriveItem(st, i, DEFAULT_CONFIG, rng, t0, replies).s;
    PutKeepsOthers(st.items, i, Item(end.c, end.p));
    UsedSplits(st.items[i := Item(end.c, end.p)], i);
  }

  lemma {:induction false} BatchGoesThrough(st: BatchState, n: nat, rng: Stream, t0: int, replies: Replies)
    requires n <= |st.items| && (forall x | x in st.items :: FailedOrEnded(x)) && NoModel(replies)
    requires RoomFor(MostTotal(st.items, rng, t0), Used(st.items))
    ensures
      var end := Driven(st, n, DEFAULT_CONFIG, rng, t0, replies);
      end.Some? && Used(end.value.items) <= Used(st.items) + MostTotal(st.items[..n], rng, t0)
  {
    hide Used, DriveItem, FailedOrEnded, FailedItem, NoModel, MostCharges, FateAt, IsAt, Put;
    if n > 0 {
      var i := n - 1;
      BatchGoesThrough(st, i, rng, t0, replies);
      var before := AtTurn(st, i, DEFAULT_CONFIG, rng, t0, replies);
      LaterUntouched(st, i, i, DEFAULT_CONFIG, rng, t0, replies);
      assert st.items[i] in st.items && st.items[..n][..i] == st.items[..i];
      TotalGrows(st.items, i, rng, t0);
      DriveUses(before, i, rng, t0, replies);
    }
  }

  /** A batch under the decision table and the default config, of fresh failed cases and cases already ended, goes
      through without raising if the budget has room for the charges the closed forms bring at most; each fresh
      case ends at its own closed form, with the gateway as it stood at the case's turn, and the others stay. */
  lemma {:induction false} BatchEndsAtFates(st: BatchState, i: nat, rng: Stream, t0: int, replies: Replies)
    requires i < |st.items| && (forall x | x in st.items :: FailedOrEnded(x)) && NoModel(replies)
    requires RoomFor(MostTotal(st.items, rng, t0), Used(st.items))
    ensures Driven(st, |st.items|, DEFAULT_CONFIG, rng, t0, replies).Some?
    ensures Driven(st, i, DEFAULT_CONFIG, rng, t0, replies).Some?
    ensures
      var c := Driven(st, |st.items|, DEFAULT_CONFIG, rng, t0, replies).value.items[i].c;
      if FailedItem(st.items[i]) then IsAt(c, FateAt(AtTurn(st, i, DEFAULT_CONFIG, rng, t0, replies), i, rng, t0))
      else c == st.items[i].c
  {
    hide Used, DriveItem, FailedOrEnded, FailedItem, NoModel, FateAt, MostCharges, Driven, IsAt;
    BatchGoesThrough(st, |st.items|, rng, t0, replies);
    BatchGoesThrough(st, i, rng, t0, replies);
    EachIsDrivenOnce(st, |st.items|, i, DEFAULT_CONFIG, rng, t0, replies);
    var before := AtTurn(st, i, DEFAULT_CONFIG, rng, t0, replies);
    assert st.items[i] in st.items;
    TotalGrows(st.items, i, rng, t0);
    DriveUses(before, i, rng, t0, replies);
  }

  // ----- The gateway's draws -----

  /** The gateway after a drive: it drew once for each new payment it remembers, and the only payment it can have
      learnt is the driven one, exactly when that was attempted. */
  ghost predicate Drew(s: Sys, end: Sys) {
    && end.c.paymentId == s.c.paymentId && Attempts(Abs(s)) <= Attempts(Abs(end))
    && end.g.draws - s.g.draws == |end.g.rolls| - |s.g.rolls|
    && end.g.rolls.Keys == s.g.rolls.Keys + if Attempts(Abs(end)) > Attempts(Abs(s)) then {s.c.paymentId} else {}
  }

  lemma RolledDraws(rng: Stream, g: GatewayState, key: string, probability: real)
    ensures var g' := Rolled(rng, g, key, probability);
      g'.draws - g.draws == |g'.rolls| - |g.rolls| && g'.rolls.Keys == g.rolls.Keys + {key}
  {
    var g' := Rolled(rng, g, key, probability);
    assert g'.rolls.Keys == g.rolls.Keys + {key};
    if key in g.rolls {
      assert g.rolls.Keys + {key} == g.rolls.Keys;
    }
  }

  lemma AsksOnce(k: Core, cfg: PolicyConfig, i: Input)
    requires i.link == NoRealAdapter && CoreStep(k, cfg, i).CoreDone?
    ensures Attempts(CoreStep(k, cfg, i).k) == Attempts(k) + if Asks(k) then 1 else 0
  {
    hide ExecutorCaptures, CoreApproved;
    if Asks(k) {
      AskedOnce(k, i);
    } else {
      StepQuiet(k, cfg, i);
      hide CoreStep;
    }
  }

  lemma AskedOnce(k: Core, i: Input)
    requires Asks(k) && i.link == NoRealAdapter
    ensures CoreApproved(k, i).CoreDone? && Attempts(CoreApproved(k, i).k) == Attempts(k) + 1
  {
    hide Charge, SendLink, Capture;
    var k1 := Jump(k, Executing, Executor);
    Shapes(k1, NoRealAdapter, ExecutorLink);
    Shapes(Charge(k1), NoRealAdapter, ExecutorRetry);
    Shapes(SendLink(k1, NoRealAdapter), NoRealAdapter, ExecutorLink);
    ChargeGrows(k1);
  }

  lemma ChargeGrows(k: Core)
    ensures Charge(k).Charges() == k.Charges() + 1 && Charge(k).links == k.links
  {
  }

  lemma StepParts(s: Sys, deps: Deps, env: Env)
    requires env.link == NoRealAdapter && Step(s, deps, env).Done?
    ensures
      var next := Step(s, deps, env).s;
      && next.c.paymentId == s.c.paymentId
      && Attempts(Abs(next)) == Attempts(Abs(s)) + (if Asks(Abs(s)) then 1 else 0)
      && next.g == if Asks(Abs(s)) then Rolled(deps.rng, s.g, s.c.paymentId, CaptureProbability(s.c)) else s.g
  {
    hide Step, CoreStep, Abs, Attempts, Asks, Rolled, Inputs;
    InputLink(s, deps, env);
    StepRefines(s, deps, env);
    StepAsks(s, deps, env);
    AsksOnce(Abs(s), deps.cfg, Inputs(s, deps, env));
    FactsKept(Abs(s), deps.cfg, Inputs(s, deps, env));
    PaymentIn(s);
    PaymentIn(Step(s, deps, env).s);
  }

  lemma InputLink(s: Sys, deps: Deps, env: Env)
    ensures Inputs(s, deps, env).link == env.link
  {
  }

  lemma StepDrew(s: Sys, deps: Deps, env: Env)
    requires env.link == NoRealAdapter && Step(s, deps, env).Done?
    ensures Drew(s, Step(s, deps, env).s)
  {
    hide Step, Abs, Attempts, Asks, Rolled;
    StepParts(s, deps, env);
    RolledDraws(deps.rng, s.g, s.c.paymentId, CaptureProbability(s.c));
    assert s.g.rolls.Keys + {} == s.g.rolls.Keys;
  }

  lemma PaymentIn(s: Sys)
    ensures Abs(s).facts.paymentId == s.c.paymentId
  {
  }

  lemma DrewThenDrew(a: Sys, b: Sys, c: Sys)
    requires Drew(a, b) && Drew(b, c)
    ensures Drew(a, c)
  {
    hide Abs, Attempts;
  }

  lemma {:induction false} DriveDrew(s: Sys, deps: Deps, envs: nat -> Env, steps: nat)
    requires steps <= MAX_STEPS && forall n: nat :: envs(n).link == NoRealAdapter
    ensures Drive(s, deps, envs, steps).Ended? ==> Drew(s, Drive(s, deps, envs, steps).s)
    decreases MAX_STEPS - steps
  {
    hide Step, Abs;
    if !IsTerminal(s.c.status) && steps < MAX_STEPS && Step(s, deps, envs(steps)).Done? {
      StepDrew(s, deps, envs(steps));
      if Step(s, deps, envs(steps)).moved {
        DriveDrew(Step(s, deps, envs(steps)).s, deps, envs, steps + 1);
        if Drive(Step(s, deps, envs(steps)).s, deps, envs, steps + 1).Ended? {
          DrewThenDrew(s, Step(s, deps, envs(steps)).s, Drive(Step(s, deps, envs(steps)).s, deps, envs, steps + 1).s);
        }
      }
    }
  }

  lemma AdvanceDrew(s: Sys, deps: Deps, envs: nat -> Env)
    requires Advance(s, deps, envs).Ended? && forall n: nat :: envs(n).link == NoRealAdapter
    ensures Drew(s, Advance(s, deps, envs).s)
  {
    hide Drive, Numbered, ChargeTimes, CountKind;
    DriveDrew(s, deps, envs, 0);
  }

  /** The case has a charge or a link behind it. */
  predicate Attempted(c: CaseRow) { CountKind(c.actions, RetryCharge) + CountKind(c.actions, SendRecoveryLink) > 0 }

  ghost function AttemptedPayments(items: seq<Item>): set<string> {
    set x | x in items && Attempted(x.c) :: x.c.paymentId
  }

  lemma AttemptsOf(s: Sys)
    ensures Attempts(Abs(s)) > 0 <==> Attempted(s.c)
  {
  }

  lemma PutAttempts(items: seq<Item>, i: nat, x: Item)
    requires i < |items| && !Attempted(items[i].c)
    ensures AttemptedPayments(items[i := x])
            == AttemptedPayments(items) + if Attempted(x.c) then {x.c.paymentId} else {}
  {
    hide Attempted;
    var after := items[i := x];
    assert forall j | 0 <= j < |items| && j != i :: after[j] == items[j];
    forall p
      ensures p in AttemptedPayments(after) <==>
              p in AttemptedPayments(items) || (Attempted(x.c) && p == x.c.paymentId)
    {
      if p in AttemptedPayments(items) {
        var j :| 0 <= j < |items| && Attempted(items[j].c) && items[j].c.paymentId == p;
        assert after[j] in after;
      }
      assert after[i] in after;
    }
  }

  lemma ItemDrew(st: BatchState, i: nat, cfg: PolicyConfig, rng: Stream, t0: int, replies: Replies)
    requires i < |st.items| && !Attempted(st.items[i].c) && DriveItem(st, i, cfg, rng, t0, replies).Ended?
    ensures
      var end := DriveItem(st, i, cfg, rng, t0, replies).s;
      && end.g.draws - st.g.draws == |end.g.rolls| - |st.g.rolls|
      && end.g.rolls.Keys == st.g.rolls.Keys + if Attempted(end.c) then {end.c.paymentId} else {}
  {
    hide Advance, Abs, Attempts, Attempted;
    var s := Sys(st.items[i].c, st.items[i].p, t0, st.g);
    AdvanceDrew(s, Deps(cfg, true, rng), Envs(st.items, i, replies));
    AttemptsOf(s);
    AttemptsOf(DriveItem(st, i, cfg, rng, t0, replies).s);
  }

  lemma NoneAttempted(items: seq<Item>)
    requires forall x | x in items :: !Attempted(x.c)
    ensures AttemptedPayments(items) == {}
  {
    hide Attempted;
  }

  lemma {:induction false} BatchRolls(st: BatchState, n: nat, cfg: PolicyConfig, rng: Stream, t0: int, replies: Replies)
    requires n <= |st.items| && (forall x | x in st.items :: !Attempted(x.c)) && st.g == FRESH
    ensures var end := Driven(st, n, cfg, rng, t0, replies);
      end.Some? ==>
        end.value.g.draws == |end.value.g.rolls| && end.value.g.rolls.Keys == AttemptedPayments(end.value.items)
  {
    hide DriveItem, Attempted, AttemptedPayments;
    if n == 0 {
      NoneAttempted(st.items);
    } else {
      BatchRolls(st, n - 1, cfg, rng, t0, replies);
      var before := Driven(st, n - 1, cfg, rng, t0, replies);
      if before.Some? && DriveItem(before.value, n - 1, cfg, rng, t0, replies).Ended? {
        LaterUntouched(st, n - 1, n - 1, cfg, rng, t0, replies);
        assert st.items[n - 1] in st.items;
        ItemDrew(before.value, n - 1, cfg, rng, t0, replies);
        var end := DriveItem(before.value, n - 1, cfg, rng, t0, replies).s;
        PutAttempts(before.value.items, n - 1, Item(end.c, end.p));
      }
    }
  }

  /** From a new gateway, a batch of cases not attempted yet draws exactly once for each distinct payment that was
      attempted, under any decision source. */
  lemma {:induction false} BatchDrawsOncePerPayment(st: BatchState, cfg: PolicyConfig, rng: Stream, t0: int,
                                                    replies: Replies)
    requires (forall x | x in st.items :: !Attempted(x.c)) && st.g == FRESH
    ensures var end := Driven(st, |st.items|, cfg, rng, t0, replies);
      end.Some? ==> end.value.g.draws == |AttemptedPayments(end.value.items)|
  {
    hide Driven, Attempted;
    BatchRolls(st, |st.items|, cfg, rng, t0, replies);
    var end := Driven(st, |st.items|, cfg, rng, t0, replies);
    if end.Some? {
      assert |end.value.g.rolls| == |end.value.g.rolls.Keys|;
    }
  }
}
