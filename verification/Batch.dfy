/** The batch runner: every case is driven to its end, one after another, each with its own clock, and then
    the totals are scored (app/batch/run_eval.py:183-304). */
module Batch {
  import opened Enums
  import opened Fsm
  import opened PolicyRules
  import opened PolicyEngine
  import opened Gateway
  import opened Rows
  import opened Decide
  import opened Executors
  import opened Pipeline
  import opened Core
  import opened Limits

  datatype Item = Item(c: CaseRow, p: PaymentRow)

  datatype BatchState = BatchState(items: seq<Item>, g: GatewayState)

  /** The model's replies in step `n` of case `i`. */
  type Replies = (nat, nat) -> seq<Option<RawOutput>>

  /** RETRY_CHARGE rows of the merchant. */
  function Used(items: seq<Item>): nat {
    if |items| == 0 then 0 else Used(items[..|items| - 1]) + Charges(items[|items| - 1].c)
  }

  function UsedElsewhere(items: seq<Item>, i: nat): nat
    requires i < |items|
  {
    Used(items[..i]) + Used(items[i + 1..])
  }

  function Envs(items: seq<Item>, i: nat, replies: Replies): nat -> Env
    requires i < |items|
  {
    (n: nat) => Env(replies(i, n), NoRealAdapter, UsedElsewhere(items, i))
  }

  function DriveItem(st: BatchState, i: nat, cfg: PolicyConfig, rng: Stream, t0: int, replies: Replies): Ending
    requires i < |st.items|
  {
    Advance(Sys(st.items[i].c, st.items[i].p, t0, st.g), Deps(cfg, true, rng), Envs(st.items, i, replies))
  }

  function Put(st: BatchState, i: nat, s: Sys): BatchState
    requires i < |st.items|
  {
    BatchState(st.items[i := Item(s.c, s.p)], s.g)
  }

  /** The first `n` cases have been driven; None once one of them raised, which rolls the whole run back. */
  function Driven(st: BatchState, n: nat, cfg: PolicyConfig, rng: Stream, t0: int,
                  replies: Replies): (r: Option<BatchState>)
    requires n <= |st.items|
    ensures r.Some? ==> |r.value.items| == |st.items|
  {
    if n == 0 then Some(st)
    else
      match Driven(st, n - 1, cfg, rng, t0, replies)
      case None => None
      case Some(before) =>
        match DriveItem(before, n - 1, cfg, rng, t0, replies)
        case Crashed => None
        case Ended(s, _) => Some(Put(before, n - 1, s))
  }

  // ----- The merchant's budget -----

  lemma {:induction false} UsedSplits(items: seq<Item>, i: nat)
    requires i < |items|
    ensures Used(items) == UsedElsewhere(items, i) + Charges(items[i].c)
    decreases |items|
  {
    var n := |items| - 1;
    if i < n {
      UsedSplits(items[..n], i);
      assert items[..n][..i] == items[..i];
      assert items[..n][i + 1..] == items[i + 1..][..n - i - 1];
    } else {
      assert items[i + 1..] == [];
    }
  }

  lemma PutKeepsOthers(items: seq<Item>, i: nat, x: Item)
    requires i < |items|
    ensures UsedElsewhere(items[i := x], i) == UsedElsewhere(items, i)
  {
    assert items[i := x][..i] == items[..i];
    assert items[i := x][i + 1..] == items[i + 1..];
  }

  /** The case's charges fit the budget, or at least did not grow past where they started. */
  ghost predicate Budgeted(k: Core, cfg: PolicyConfig, elsewhere: nat, most: int) {
    && elsewhere + k.Charges() <= most && cfg.simulationBudget <= most
    && (k.status == Approved && Retries(k.latest) ==> elsewhere + k.Charges() < cfg.simulationBudget)
  }

  lemma StepBudgeted(k: Core, cfg: PolicyConfig, i: Input, most: int)
    requires Budgeted(k, cfg, i.usedElsewhere, most) && CoreStep(k, cfg, i).CoreDone?
    ensures Budgeted(CoreStep(k, cfg, i).k, cfg, i.usedElsewhere, most)
  {
    hide CoreVerifying, CoreApproved, Triggered, CoreCtx;
    if k.status == PolicyCheck {
      BudgetVouched(k, k.latest.value, cfg, i.usedElsewhere);
    } else if k.status == Approved {
      ApprovedBudgeted(k, cfg, i, most);
    } else if k.status == Verifying {
      OnlyApprovedCharges(k, cfg, i);
      assert CoreStep(k, cfg, i).k.status != Approved by { VerifyingMovesOn(k, cfg, i); }
    }
  }

  lemma VerifyingMovesOn(k: Core, cfg: PolicyConfig, i: Input)
    requires k.status == Verifying
    ensures CoreVerifying(k, cfg, i).CoreDone? && CoreVerifying(k, cfg, i).k.status != Approved
  {
  }

  lemma BudgetVouched(k: Core, d: Decision, cfg: PolicyConfig, used: nat)
    ensures VerdictOf(Triggered(CoreCtx(k, d, cfg, used))) == Allow && Retries(Some(d)) ==>
      used + k.Charges() < cfg.simulationBudget
  {
    VerdictTells(CoreCtx(k, d, cfg, used));
    hide Triggered;
  }

  lemma ApprovedBudgeted(k: Core, cfg: PolicyConfig, i: Input, most: int)
    requires Budgeted(k, cfg, i.usedElsewhere, most) && k.status == Approved && CoreApproved(k, i).CoreDone?
    ensures Budgeted(CoreApproved(k, i).k, cfg, i.usedElsewhere, most)
  {
    hide CoreApproved;
    if Retries(k.latest) {
      ChargeCounts(k, i);
    } else {
      OthersDoNotCharge(k, i);
    }
  }

  lemma {:induction false} DriveBudgeted(s: Sys, deps: Deps, envs: nat -> Env, steps: nat, elsewhere: nat, most: int)
    requires Budgeted(Abs(s), deps.cfg, elsewhere, most) && steps <= MAX_STEPS
    requires forall n: nat :: envs(n).usedElsewhere == elsewhere
    ensures Drive(s, deps, envs, steps).Ended? ==>
      Budgeted(Abs(Drive(s, deps, envs, steps).s), deps.cfg, elsewhere, most)
    decreases MAX_STEPS - steps
  {
    hide Step, CoreStep, Abs, Budgeted;
    if !IsTerminal(s.c.status) && steps < MAX_STEPS && Step(s, deps, envs(steps)).Done? {
      StepRefines(s, deps, envs(steps));
      StepBudgeted(Abs(s), deps.cfg, Inputs(s, deps, envs(steps)), most);
      if Step(s, deps, envs(steps)).moved {
        DriveBudgeted(Step(s, deps, envs(steps)).s, deps, envs, steps + 1, elsewhere, most);
      }
    }
  }

  lemma AdvanceBudgeted(s: Sys, deps: Deps, envs: nat -> Env, elsewhere: nat, most: int)
    requires s.c.status != Approved && elsewhere + Charges(s.c) <= most && deps.cfg.simulationBudget <= most
    requires forall n: nat :: envs(n).usedElsewhere == elsewhere
    ensures Advance(s, deps, envs).Ended? ==> elsewhere + Charges(Advance(s, deps, envs).s.c) <= most
  {
    assert Budgeted(Abs(s), deps.cfg, elsewhere, most);
    DriveBudgeted(s, deps, envs, 0, elsewhere, most);
    hide Drive;
  }

  /** No case waits for an executor when the batch starts. */
  predicate NoneApproved(items: seq<Item>) { forall x | x in items :: x.c.status != Approved }

  /** However many cases the batch drives and whatever the model proposes, the merchant's RETRY_CHARGE rows
      never exceed the larger of what it started with and the simulation budget. */
  lemma {:induction false} BudgetIsKept(st: BatchState, n: nat, cfg: PolicyConfig, rng: Stream, t0: int,
                                        replies: Replies)
    requires n <= |st.items| && NoneApproved(st.items)
    ensures var end := Driven(st, n, cfg, rng, t0, replies);
      end.Some? ==>
        && Used(end.value.items) <= Max(Used(st.items), cfg.simulationBudget)
        && forall i | n <= i < |st.items| :: end.value.items[i] == st.items[i]
  {
    hide Used, UsedElsewhere, Advance;
    if n > 0 {
      BudgetIsKept(st, n - 1, cfg, rng, t0, replies);
      var before := Driven(st, n - 1, cfg, rng, t0, replies);
      if before.Some? && DriveItem(before.value, n - 1, cfg, rng, t0, replies).Ended? {
        var items, i := before.value.items, n - 1;
        var s := Sys(items[i].c, items[i].p, t0, before.value.g);
        var end := DriveItem(before.value, i, cfg, rng, t0, replies).s;
        assert items[i] in st.items;
        UsedSplits(items, i);
        AdvanceBudgeted(s, Deps(cfg, true, rng), Envs(items, i, replies), UsedElsewhere(items, i),
                        Max(Used(st.items), cfg.simulationBudget));
        PutKeepsOthers(items, i, Item(end.c, end.p));
        UsedSplits(items[i := Item(end.c, end.p)], i);
      }
    }
  }

  // ----- The loop -----

  function ItemsOf(cases: seq<RecoveryCase>, payments: seq<Payment>): (items: seq<Item>)
    requires |cases| == |payments|
    reads cases, payments
    ensures |items| == |cases|
  {
    seq(|cases|, i requires 0 <= i < |cases| reads cases, payments => Item(cases[i].row, payments[i].row))
  }

  lemma {:induction false} CrashEndsRun(st: BatchState, k: nat, n: nat, cfg: PolicyConfig, rng: Stream, t0: int,
                                        replies: Replies)
    requires k <= n <= |st.items| && Driven(st, k, cfg, rng, t0, replies).None?
    ensures Driven(st, n, cfg, rng, t0, replies).None?
  {
    hide DriveItem, Put;
    if k < n {
      CrashEndsRun(st, k, n - 1, cfg, rng, t0, replies);
    }
  }

  /** Drives every case in order; one that raises ends the run. */
  method RunBatch(cases: seq<RecoveryCase>, payments: seq<Payment>, gateway: SimulatedGateway, cfg: PolicyConfig,
                  t0: int, replies: Replies)
    returns (raised: bool)
    requires |cases| == |payments|
    requires forall i, j | 0 <= i < j < |cases| :: cases[i] != cases[j] && payments[i] != payments[j]
    modifies cases, payments, gateway
    ensures
      var start := BatchState(old(ItemsOf(cases, payments)), old(gateway.State()));
      Driven(start, |cases|, cfg, gateway.rng, t0, replies)
      == if raised then None else Some(BatchState(ItemsOf(cases, payments), gateway.State()))
  {
    hide Advance, Used, CountKind;
    ghost var start := BatchState(ItemsOf(cases, payments), gateway.State());
    raised := false;
    for k := 0 to |cases|
      invariant !raised
      invariant Driven(start, k, cfg, gateway.rng, t0, replies)
                == Some(BatchState(ItemsOf(cases, payments), gateway.State()))
    {
      var items := ItemsOf(cases, payments);
      ghost var g := gateway.State();
      var clock := new VirtualClock(t0);
      ghost var steps;
      raised, steps := AdvanceCase(cases[k], payments[k], gateway, clock, cfg, true, Envs(items, k, replies));
      if raised {
        CrashEndsRun(start, k + 1, |cases|, cfg, gateway.rng, t0, replies);
        return;
      }
      assert ItemsOf(cases, payments) == items[k := Item(cases[k].row, payments[k].row)];
    }
  }
}
