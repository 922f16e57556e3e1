/** The totals of a batch report (app/batch/run_eval.py:235-304), and why they can be trusted: they equal
    what the audit trails say. */
module Scoring {
  import opened Enums
  import opened PolicyRules
  import opened Gateway
  import opened Trail
  import opened Pipeline
  import opened CaseRuns
  import opened Core
  import opened Gatekeeping
  import opened World
  import opened BatchRuns
  import opened Batch

  datatype Report = Report(
    total: nat,
    recovered: nat,
    selfHealed: nat,
    agentRecovered: int,
    unrecovered: nat,
    escalated: nat,
    recoveredMinor: int)

  function Count<K(==)>(counts: map<K, nat>, key: K): nat {
    if key in counts then counts[key] else 0
  }

  function WithStatus(items: seq<Item>, status: CaseStatus): nat {
    if |items| == 0 then 0
    else WithStatus(items[..|items| - 1], status) + if items[|items| - 1].c.status == status then 1 else 0
  }

  function WithOutcome(items: seq<Item>, outcome: Option<CaseOutcome>): nat {
    if |items| == 0 then 0
    else WithOutcome(items[..|items| - 1], outcome) + if items[|items| - 1].c.outcome == outcome then 1 else 0
  }

  function Money(items: seq<Item>): int {
    if |items| == 0 then 0
    else
      var c := items[|items| - 1].c;
      Money(items[..|items| - 1]) + if c.status == Recovered then c.recoveredMinor else 0
  }

  /** One pass over the cases, counting statuses and outcomes in two counters. */
  method Score(items: seq<Item>) returns (r: Report)
    ensures r.total == |items| && r.recoveredMinor == Money(items)
    ensures r.recovered == WithStatus(items, Recovered) && r.selfHealed == WithOutcome(items, Some(OutSelfHealed))
    ensures r.unrecovered == WithStatus(items, ClosedUnrecovered) && r.escalated == WithStatus(items, Escalated)
    ensures r.agentRecovered == WithStatus(items, Recovered) - WithOutcome(items, Some(OutSelfHealed))
  {
    var outcomes: map<Option<CaseOutcome>, nat> := map[];
    var statuses: map<CaseStatus, nat> := map[];
    var recoveredMinor := 0;
    for k := 0 to |items|
      invariant forall o :: Count(outcomes, o) == WithOutcome(items[..k], o)
      invariant forall s :: Count(statuses, s) == WithStatus(items[..k], s)
      invariant recoveredMinor == Money(items[..k])
    {
      var c := items[k].c;
      assert items[..k + 1][..k] == items[..k];
      outcomes := outcomes[c.outcome := Count(outcomes, c.outcome) + 1];
      statuses := statuses[c.status := Count(statuses, c.status) + 1];
      if c.status == Recovered {
        recoveredMinor := recoveredMinor + c.recoveredMinor;
      }
    }
    assert items[..|items|] == items;
    var recovered, selfHealed := Count(statuses, Recovered), Count(outcomes, Some(OutSelfHealed));
    r := Report(|items|, recovered, selfHealed, (recovered as int) - selfHealed,
                Count(statuses, ClosedUnrecovered), Count(statuses, Escalated), recoveredMinor);
  }

  // ----- What the trails say -----

  function Total(amounts: seq<int>): int {
    if |amounts| == 0 then 0 else Total(amounts[..|amounts| - 1]) + amounts[|amounts| - 1]
  }

  /** The sum over all CAPTURE_CONFIRMED events. */
  function CapturedTotal(items: seq<Item>): int {
    if |items| == 0 then 0 else CapturedTotal(items[..|items| - 1]) + Total(Captures(items[|items| - 1].c.trail))
  }

  ghost predicate SoundItem(x: Item) { forall now, g :: Sound(Abs(Sys(x.c, x.p, now, g))) }

  lemma SoundAnywhere(s: Sys)
    requires Sound(Abs(s))
    ensures SoundItem(Item(s.c, s.p))
  {
    forall now, g
      ensures Sound(Abs(Sys(s.c, s.p, now, g)))
    {
      ClockKeeps(Abs(s), now);
      assert Abs(Sys(s.c, s.p, now, g)) == Abs(s).(now := now);
    }
  }

  /** What soundness says about one case's money. */
  lemma SoundMoney(x: Item)
    requires SoundItem(x)
    ensures x.c.status == Recovered <==> x.c.outcome == Some(OutRecovered) || x.c.outcome == Some(OutSelfHealed)
    ensures Total(Captures(x.c.trail)) == if x.c.status == Recovered then x.c.recoveredMinor else 0
  {
    assert Sound(Abs(Sys(x.c, x.p, 0, FRESH)));
    CapturesAreScanned(x.c.trail);
    hide Scan, Captures, SoundItem;
  }

  /** On sound cases the report's amount is the sum over CAPTURE_CONFIRMED events, and the cases credited to
      the agent are exactly those with outcome RECOVERED. */
  lemma {:induction false} TotalsAreHonest(items: seq<Item>)
    requires forall x | x in items :: SoundItem(x)
    ensures Money(items) == CapturedTotal(items)
    ensures WithStatus(items, Recovered) - WithOutcome(items, Some(OutSelfHealed))
            == WithOutcome(items, Some(OutRecovered))
  {
    hide SoundItem;
    if |items| > 0 {
      TotalsAreHonest(items[..|items| - 1]);
      SoundMoney(items[|items| - 1]);
    }
  }

  // ----- The batch keeps cases sound -----

  lemma AdvanceKeeps(s: Sys, deps: Deps, envs: nat -> Env)
    requires Sound(Abs(s))
    ensures Advance(s, deps, envs).Ended? ==> Sound(Abs(Advance(s, deps, envs).s))
  {
    hide Advance, Run, Abs, Sound;
    AdvanceIsARun(s, deps, envs);
    RunKeeps(s, deps.cfg, deps.rng, AdvanceEvents(s, deps, envs));
  }

  lemma PutItems(st: BatchState, i: nat, s: Sys)
    requires i < |st.items|
    ensures forall x | x in Put(st, i, s).items :: x in st.items || x == Item(s.c, s.p)
  {
  }

  lemma ItemSound(x: Item, now: int, g: GatewayState)
    requires SoundItem(x)
    ensures Sound(Abs(Sys(x.c, x.p, now, g)))
  {
  }

  lemma {:induction false} BatchKeeps(st: BatchState, n: nat, cfg: PolicyConfig, rng: Stream, t0: int, replies: Replies)
    requires n <= |st.items| && forall x | x in st.items :: SoundItem(x)
    ensures var end := Driven(st, n, cfg, rng, t0, replies);
      end.Some? ==> forall x | x in end.value.items :: SoundItem(x)
  {
    hide SoundItem, Sound, Abs, Advance, Put;
    if n > 0 {
      BatchKeeps(st, n - 1, cfg, rng, t0, replies);
      var before := Driven(st, n - 1, cfg, rng, t0, replies);
      if before.Some? && DriveItem(before.value, n - 1, cfg, rng, t0, replies).Ended? {
        var x := before.value.items[n - 1];
        var s := Sys(x.c, x.p, t0, before.value.g);
        assert x in before.value.items;
        ItemSound(x, t0, before.value.g);
        AdvanceKeeps(s, Deps(cfg, true, rng), Envs(before.value.items, n - 1, replies));
        var end := DriveItem(before.value, n - 1, cfg, rng, t0, replies).s;
        SoundAnywhere(end);
        PutItems(before.value, n - 1, end);
      }
    }
  }

  /** The case has come out of some run of events, as every ingested case has. */
  ghost predicate HasHistory(x: Item, cfg: PolicyConfig, rng: Stream) {
    exists s: Sys :: s.c == x.c && s.p == x.p && EndsARun(s, cfg, rng)
  }

  lemma HistoryIsSound(x: Item, cfg: PolicyConfig, rng: Stream)
    requires HasHistory(x, cfg, rng)
    ensures SoundItem(x)
  {
    hide Sound, FreshCase, Run, Abs;
    var s: Sys :| s.c == x.c && s.p == x.p && EndsARun(s, cfg, rng);
    var start: Sys, prior: nat, es: seq<CaseEvent> :| FreshCase(start.c, prior) && s == Run(start, cfg, rng, es);
    FreshIsSound(start, prior);
    RunKeeps(start, cfg, rng, es);
    SoundAnywhere(s);
  }

  /** Whatever happened to the cases before and whatever the model proposes, a finished batch reports exactly
      the money its CAPTURE_CONFIRMED events confirm, and credits the agent with exactly the cases whose
      outcome is RECOVERED. */
  lemma {:induction false} BatchReportIsHonest(st: BatchState, cfg: PolicyConfig, rng: Stream, t0: int,
                                               replies: Replies)
    requires forall x | x in st.items :: HasHistory(x, cfg, rng)
    ensures var end := Driven(st, |st.items|, cfg, rng, t0, replies);
      end.Some? ==>
        && Money(end.value.items) == CapturedTotal(end.value.items)
        && WithStatus(end.value.items, Recovered) - WithOutcome(end.value.items, Some(OutSelfHealed))
           == WithOutcome(end.value.items, Some(OutRecovered))
  {
    hide SoundItem, HasHistory;
    forall x | x in st.items
      ensures SoundItem(x)
    {
      HistoryIsSound(x, cfg, rng);
    }
    BatchKeeps(st, |st.items|, cfg, rng, t0, replies);
    if Driven(st, |st.items|, cfg, rng, t0, replies).Some? {
      TotalsAreHonest(Driven(st, |st.items|, cfg, rng, t0, replies).value.items);
    }
  }
}
