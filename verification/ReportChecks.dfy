/** The invariants a batch report states about the database it leaves: every case's audit chain validates, and no two
    actions share an idempotency key (app/batch/run_eval.py:269-282). */
module ReportChecks {
  import opened PolicyRules
  import opened Gateway
  import opened Rows
  import opened Pipeline
  import opened CaseRuns
  import opened Refs
  import opened Numbering
  import opened World
  import opened BatchRuns
  import opened Batch
  import opened Scoring
  import opened Audit

  // ----- Audit chains -----

  /** The report's flag: one pass over the cases. */
  method ChainsValid<E(==)>(log: AuditLog<E>, caseIds: seq<string>) returns (ok: bool)
    ensures ok <==> forall id | id in caseIds :: ChainValid(log.rows, id)
  {
    ok := true;
    for k := 0 to |caseIds|
      invariant ok <==> forall id | id in caseIds[..k] :: ChainValid(log.rows, id)
    {
      var valid := log.ValidateChain(caseIds[k]);
      assert caseIds[..k + 1] == caseIds[..k] + [caseIds[k]];
      if !valid {
        ok := false;
      }
    }
    assert caseIds[..|caseIds|] == caseIds;
  }

  /** Whatever was appended for which cases, in whatever interleaving, the flag is true. */
  lemma ReportedChainsAreValid<E>(entries: seq<Entry<E>>, caseIds: seq<string>)
    requires KeysIncrease(entries)
    ensures forall id | id in caseIds :: ChainValid(AppendAll(entries), id)
  {
    forall id | id in caseIds
      ensures ChainValid(AppendAll(entries), id)
    {
      AppendsKeepChains(entries, id);
    }
  }

  // ----- Idempotency keys -----

  function KeysOf(caseId: string, actions: seq<Action>): (keys: seq<string>)
    ensures |keys| == |actions|
  {
    seq(|actions|, i requires 0 <= i < |actions| => IdempotencyKey(caseId, actions[i].kind, actions[i].attemptNo))
  }

  /** The keys of all action rows. */
  function AllKeys(items: seq<Item>, caseIds: seq<string>): seq<string>
    requires |items| == |caseIds|
  {
    if |items| == 0 then []
    else
      var n := |items| - 1;
      AllKeys(items[..n], caseIds[..n]) + KeysOf(caseIds[n], items[n].c.actions)
  }

  /** GROUP BY idempotency_key HAVING count(*) > 1: the groups the report counts as violations. */
  function Violations(keys: seq<string>): set<string> { set k | k in keys && multiset(keys)[k] > 1 }

  predicate NoRepeats(keys: seq<string>) {
    forall i, j | 0 <= i < j < |keys| :: keys[i] != keys[j]
  }

  lemma {:induction false} RepeatsAreViolations(keys: seq<string>)
    ensures NoRepeats(keys) <==> Violations(keys) == {}
  {
    if |keys| > 0 {
      var before, last := keys[..|keys| - 1], keys[|keys| - 1];
      assert keys == before + [last];
      RepeatsAreViolations(before);
      if last in before {
        assert last in Violations(keys);
      } else {
        assert forall k | k in Violations(keys) :: k in Violations(before);
        assert forall k | k in Violations(before) :: k in Violations(keys);
      }
      if Violations(before) != {} {
        var k :| k in Violations(before);
        assert k in Violations(keys);
      }
    }
  }

  /** Ids of different cases, as the database gives them: pairwise different, and without a colon. */
  predicate CaseIds(ids: seq<string>) {
    && (forall id | id in ids :: ':' !in id)
    && (forall i, j | 0 <= i < j < |ids| :: ids[i] != ids[j])
  }

  lemma {:induction false} KeyComesFrom(items: seq<Item>, caseIds: seq<string>, a: nat) returns (i: nat, j: nat)
    requires |items| == |caseIds| && a < |AllKeys(items, caseIds)|
    ensures i < |items| && j < |items[i].c.actions|
    ensures
      var x := items[i].c.actions[j];
      AllKeys(items, caseIds)[a] == IdempotencyKey(caseIds[i], x.kind, x.attemptNo)
  {
    hide IdempotencyKey;
    var n := |items| - 1;
    var before := AllKeys(items[..n], caseIds[..n]);
    if a < |before| {
      i, j := KeyComesFrom(items[..n], caseIds[..n], a);
    } else {
      i, j := n, a - |before|;
    }
  }

  lemma {:induction false} KeysNeverRepeat(items: seq<Item>, caseIds: seq<string>)
    requires |items| == |caseIds| && CaseIds(caseIds) && forall x | x in items :: Numbered(x.c.actions)
    ensures NoRepeats(AllKeys(items, caseIds))
  {
    hide IdempotencyKey, Numbered;
    if |items| > 0 {
      var n := |items| - 1;
      var before, own := AllKeys(items[..n], caseIds[..n]), KeysOf(caseIds[n], items[n].c.actions);
      assert items[n] in items && caseIds[n] in caseIds;
      KeysNeverRepeat(items[..n], caseIds[..n]);
      forall a, b | 0 <= a < |before| && 0 <= b < |own|
        ensures before[a] != own[b]
      {
        var i, j := KeyComesFrom(items[..n], caseIds[..n], a);
        var x, y := items[i].c.actions[j], items[n].c.actions[b];
        assert caseIds[i] in caseIds && caseIds[i] != caseIds[n];
        KeysAreInjective(caseIds[i], x.kind, x.attemptNo, caseIds[n], y.kind, y.attemptNo);
      }
      forall a, b | 0 <= a < b < |own|
        ensures own[a] != own[b]
      {
        NumberedKeysDiffer(caseIds[n], items[n].c.actions, a, b);
      }
    }
  }

  // ----- The batch -----

  lemma HistoryIsNumbered(x: Item, cfg: PolicyConfig, rng: Stream)
    requires HasHistory(x, cfg, rng)
    ensures Numbered(x.c.actions)
  {
    hide Run;
    var s: Sys :| s.c == x.c && s.p == x.p && EndsARun(s, cfg, rng);
    var start: Sys, prior: nat, es: seq<CaseEvent> :| FreshCase(start.c, prior) && s == Run(start, cfg, rng, es);
    RunNumbered(start, cfg, rng, es);
  }

  lemma {:induction false} BatchNumbers(st: BatchState, n: nat, cfg: PolicyConfig, rng: Stream, t0: int,
                                        replies: Replies)
    requires n <= |st.items| && forall x | x in st.items :: Numbered(x.c.actions)
    ensures var end := Driven(st, n, cfg, rng, t0, replies);
      end.Some? ==> forall x | x in end.value.items :: Numbered(x.c.actions)
  {
    hide Numbered, Advance, Put, Run;
    if n > 0 {
      BatchNumbers(st, n - 1, cfg, rng, t0, replies);
      var before := Driven(st, n - 1, cfg, rng, t0, replies);
      if before.Some? && DriveItem(before.value, n - 1, cfg, rng, t0, replies).Ended? {
        var x := before.value.items[n - 1];
        var s := Sys(x.c, x.p, t0, before.value.g);
        var deps, envs := Deps(cfg, true, rng), Envs(before.value.items, n - 1, replies);
        assert x in before.value.items;
        AdvanceIsARun(s, deps, envs);
        RunNumbered(s, cfg, rng, AdvanceEvents(s, deps, envs));
        PutItems(before.value, n - 1, DriveItem(before.value, n - 1, cfg, rng, t0, replies).s);
      }
    }
  }

  /** Whatever happened to the cases before and whatever the model proposes, a finished batch reports no idempotency
      violation. */
  lemma {:induction false} BatchReportsNoViolations(st: BatchState, caseIds: seq<string>, cfg: PolicyConfig,
                                                    rng: Stream,
                                                    t0: int, replies: Replies)
    requires |st.items| == |caseIds| && CaseIds(caseIds) && forall x | x in st.items :: HasHistory(x, cfg, rng)
    ensures var end := Driven(st, |st.items|, cfg, rng, t0, replies);
      end.Some? ==> Violations(AllKeys(end.value.items, caseIds)) == {}
  {
    hide Numbered, HasHistory, Driven, AllKeys, CaseIds;
    forall x | x in st.items
      ensures Numbered(x.c.actions)
    {
      HistoryIsNumbered(x, cfg, rng);
    }
    BatchNumbers(st, |st.items|, cfg, rng, t0, replies);
    var end := Driven(st, |st.items|, cfg, rng, t0, replies);
    if end.Some? {
      KeysNeverRepeat(end.value.items, caseIds);
      RepeatsAreViolations(AllKeys(end.value.items, caseIds));
    }
  }
}
