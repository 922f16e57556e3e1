/** The hash-chained audit log (app/services/audit.py). A digest is an injective structure: two digests are
    equal exactly when everything hashed into them is. `E` is the payload of an event: its actor, type and
    detail. */
module Audit {
  import opened Enums

  datatype Digest<E> = Digest(prev: Option<Digest<E>>, caseId: Option<string>, body: E)

  /** A row; `createdAt` and `id` order the rows and are not hashed. */
  datatype AuditRow<E> = AuditRow(
    createdAt: int,
    id: int,
    caseId: Option<string>,
    body: E,
    prev: Option<Digest<E>>,
    hash: Digest<E>)
  {
    predicate Before(that: AuditRow<E>) {
      createdAt < that.createdAt || (createdAt == that.createdAt && id < that.id)
    }
  }

  // ----- Queries -----

  /** WHERE case_id = ? */
  function OfCase<E>(rows: seq<AuditRow<E>>, caseId: string): (r: seq<AuditRow<E>>)
    ensures forall x | x in r :: x in rows && x.caseId == Some(caseId)
    ensures forall x | x in rows && x.caseId == Some(caseId) :: x in r
  {
    if |rows| == 0 then []
    else
      var before, x := OfCase(rows[..|rows| - 1], caseId), rows[|rows| - 1];
      if x.caseId == Some(caseId) then before + [x] else before
  }

  /** ORDER BY created_at DESC, id DESC LIMIT 1. */
  function Latest<E>(rows: seq<AuditRow<E>>): Option<AuditRow<E>> {
    if |rows| == 0 then None
    else
      var best, x := Latest(rows[..|rows| - 1]), rows[|rows| - 1];
      if best.Some? && x.Before(best.value) then best else Some(x)
  }

  function Insert<E>(sorted: seq<AuditRow<E>>, x: AuditRow<E>): seq<AuditRow<E>> {
    if |sorted| == 0 || !x.Before(sorted[|sorted| - 1]) then sorted + [x]
    else Insert(sorted[..|sorted| - 1], x) + [sorted[|sorted| - 1]]
  }

  /** ORDER BY created_at, id. */
  function Ascending<E>(rows: seq<AuditRow<E>>): seq<AuditRow<E>> {
    if |rows| == 0 then [] else Insert(Ascending(rows[..|rows| - 1]), rows[|rows| - 1])
  }

  predicate Increasing<E>(rows: seq<AuditRow<E>>) {
    forall i, j | 0 <= i < j < |rows| :: rows[i].Before(rows[j])
  }

  function HashOf<E>(row: Option<AuditRow<E>>): Option<Digest<E>> {
    if row.Some? then Some(row.value.hash) else None
  }

  /** The row an append inserts: it chains onto the case's latest event. */
  function Chained<E>(rows: seq<AuditRow<E>>, createdAt: int, id: int, caseId: Option<string>, body: E): AuditRow<E> {
    var prev := if caseId.Some? then HashOf(Latest(OfCase(rows, caseId.value))) else None;
    AuditRow(createdAt, id, caseId, body, prev, Digest(prev, caseId, body))
  }

  /** The chain from `prev` on is intact. */
  predicate ValidFrom<E(==)>(events: seq<AuditRow<E>>, caseId: string, prev: Option<Digest<E>>) {
    |events| == 0 ||
    (&& events[0].hash == Digest(prev, Some(caseId), events[0].body)
     && events[0].prev == prev
     && ValidFrom(events[1..], caseId, Some(events[0].hash)))
  }

  /** What `validate_chain` answers for a case. */
  predicate ChainValid<E(==)>(rows: seq<AuditRow<E>>, caseId: string) {
    ValidFrom(Ascending(OfCase(rows, caseId)), caseId, None)
  }

  class AuditLog<E(==)> {
    var rows: seq<AuditRow<E>>

    constructor ()
      ensures rows == []
    {
      rows := [];
    }

    /** `createdAt` and `id` are what the database and the key generator assign. */
    method AppendEvent(createdAt: int, id: int, caseId: Option<string>, body: E)
      modifies this
      ensures rows == old(rows) + [Chained(old(rows), createdAt, id, caseId, body)]
    {
      var prev: Option<Digest<E>> := None;
      if caseId.Some? {
        prev := HashOf(Latest(OfCase(rows, caseId.value)));
      }
      rows := rows + [AuditRow(createdAt, id, caseId, body, prev, Digest(prev, caseId, body))];
    }

    method ValidateChain(caseId: string) returns (ok: bool)
      ensures ok <==> ChainValid(rows, caseId)
    {
      var events := Ascending(OfCase(rows, caseId));
      var prev: Option<Digest<E>> := None;
      for k := 0 to |events|
        invariant ValidFrom(events, caseId, None) == ValidFrom(events[k..], caseId, prev)
      {
        var expected := Digest(prev, Some(caseId), events[k].body);
        assert events[k..][1..] == events[k + 1..];
        if events[k].hash != expected || events[k].prev != prev {
          return false;
        }
        prev := Some(events[k].hash);
      }
      ok := true;
    }
  }

  // ----- What the queries return -----

  predicate Ordered<E>(rows: seq<AuditRow<E>>) {
    forall i, j | 0 <= i < j < |rows| :: !rows[j].Before(rows[i])
  }

  lemma {:induction false} InsertKeeps<E>(sorted: seq<AuditRow<E>>, x: AuditRow<E>)
    ensures multiset(Insert(sorted, x)) == multiset(sorted) + multiset{x}
    ensures forall y | y in Insert(sorted, x) :: y == x || y in sorted
  {
    if |sorted| > 0 {
      var before, last := sorted[..|sorted| - 1], sorted[|sorted| - 1];
      InsertKeeps(before, x);
      assert sorted == before + [last];
    }
  }

  lemma {:induction false} InsertOrders<E>(sorted: seq<AuditRow<E>>, x: AuditRow<E>)
    requires Ordered(sorted)
    ensures Ordered(Insert(sorted, x))
  {
    if |sorted| > 0 && x.Before(sorted[|sorted| - 1]) {
      InsertOrders(sorted[..|sorted| - 1], x);
      InsertKeeps(sorted[..|sorted| - 1], x);
      var shorter, last := Insert(sorted[..|sorted| - 1], x), sorted[|sorted| - 1];
      assert forall y | y in shorter :: !last.Before(y);
      assert forall i | 0 <= i < |shorter| :: shorter[i] in shorter;
    }
  }

  /** ORDER BY keeps the rows and puts none before an earlier one. */
  lemma {:induction false} AscendingSorts<E>(rows: seq<AuditRow<E>>)
    ensures Ordered(Ascending(rows)) && multiset(Ascending(rows)) == multiset(rows)
  {
    if |rows| > 0 {
      AscendingSorts(rows[..|rows| - 1]);
      InsertOrders(Ascending(rows[..|rows| - 1]), rows[|rows| - 1]);
      InsertKeeps(Ascending(rows[..|rows| - 1]), rows[|rows| - 1]);
      assert rows == rows[..|rows| - 1] + [rows[|rows| - 1]];
    }
  }

  /** The row an append chains onto is one no other row of the case comes after. */
  lemma {:induction false} LatestIsMaximal<E>(rows: seq<AuditRow<E>>)
    ensures Latest(rows).None? <==> rows == []
    ensures Latest(rows).Some? ==> Latest(rows).value in rows && forall x | x in rows :: !Latest(rows).value.Before(x)
  {
    if |rows| > 0 {
      LatestIsMaximal(rows[..|rows| - 1]);
      assert forall x | x in rows :: x in rows[..|rows| - 1] || x == rows[|rows| - 1];
    }
  }

  // ----- Reading in either order -----

  lemma {:induction false} LatestIsLast<E>(rows: seq<AuditRow<E>>)
    requires Increasing(rows)
    ensures Latest(rows) == if |rows| == 0 then None else Some(rows[|rows| - 1])
  {
    if |rows| > 0 {
      LatestIsLast(rows[..|rows| - 1]);
    }
  }

  lemma {:induction false} AscendingIsSame<E>(rows: seq<AuditRow<E>>)
    requires Increasing(rows)
    ensures Ascending(rows) == rows
  {
    if |rows| > 0 {
      AscendingIsSame(rows[..|rows| - 1]);
      assert rows == rows[..|rows| - 1] + [rows[|rows| - 1]];
    }
  }

  lemma {:induction false} OfCaseIncreases<E>(rows: seq<AuditRow<E>>, caseId: string)
    requires Increasing(rows)
    ensures Increasing(OfCase(rows, caseId))
  {
    if |rows| > 0 {
      OfCaseIncreases(rows[..|rows| - 1], caseId);
    }
  }

  lemma OfCaseAppend<E>(rows: seq<AuditRow<E>>, x: AuditRow<E>, caseId: string)
    ensures OfCase(rows + [x], caseId) == OfCase(rows, caseId) + if x.caseId == Some(caseId) then [x] else []
  {
    assert (rows + [x])[..|rows|] == rows;
  }

  // ----- The chain -----

  function LastHash<E>(events: seq<AuditRow<E>>, prev: Option<Digest<E>>): Option<Digest<E>> {
    if |events| == 0 then prev else Some(events[|events| - 1].hash)
  }

  lemma {:induction false} ValidAppend<E>(events: seq<AuditRow<E>>, x: AuditRow<E>, caseId: string,
                                          prev: Option<Digest<E>>)
    ensures ValidFrom(events + [x], caseId, prev) <==>
      && ValidFrom(events, caseId, prev)
      && x.prev == LastHash(events, prev) && x.hash == Digest(x.prev, Some(caseId), x.body)
  {
    var longer := events + [x];
    if |events| == 0 {
      assert longer[1..] == [];
    } else {
      assert longer[1..] == events[1..] + [x];
      ValidAppend(events[1..], x, caseId, Some(events[0].hash));
    }
  }

  /** An append to be made, with the key the database assigns to it. */
  datatype Entry<E> = Entry(createdAt: int, id: int, caseId: Option<string>, body: E)

  function AppendAll<E>(entries: seq<Entry<E>>): (rows: seq<AuditRow<E>>)
    ensures |rows| == |entries|
    ensures forall i | 0 <= i < |rows| ::
      rows[i].createdAt == entries[i].createdAt && rows[i].id == entries[i].id && rows[i].caseId == entries[i].caseId
  {
    if |entries| == 0 then []
    else
      var rows, e := AppendAll(entries[..|entries| - 1]), entries[|entries| - 1];
      rows + [Chained(rows, e.createdAt, e.id, e.caseId, e.body)]
  }

  predicate KeysIncrease<E>(entries: seq<Entry<E>>) {
    forall i, j | 0 <= i < j < |entries| ::
      entries[i].createdAt < entries[j].createdAt
      || (entries[i].createdAt == entries[j].createdAt && entries[i].id < entries[j].id)
  }

  function Bodies<E>(events: seq<AuditRow<E>>): seq<E> { seq(|events|, i requires 0 <= i < |events| => events[i].body) }

  /** The payloads appended for one case, in order. */
  function Payloads<E>(entries: seq<Entry<E>>, caseId: string): seq<E> {
    if |entries| == 0 then []
    else
      var before, e := Payloads(entries[..|entries| - 1], caseId), entries[|entries| - 1];
      if e.caseId == Some(caseId) then before + [e.body] else before
  }

  lemma RowsIncrease<E>(entries: seq<Entry<E>>, caseId: string)
    requires KeysIncrease(entries)
    ensures Increasing(OfCase(AppendAll(entries), caseId))
    ensures Ascending(OfCase(AppendAll(entries), caseId)) == OfCase(AppendAll(entries), caseId)
    ensures Latest(OfCase(AppendAll(entries), caseId)) ==
      var events := OfCase(AppendAll(entries), caseId);
      if |events| == 0 then None else Some(events[|events| - 1])
  {
    OfCaseIncreases(AppendAll(entries), caseId);
    AscendingIsSame(OfCase(AppendAll(entries), caseId));
    LatestIsLast(OfCase(AppendAll(entries), caseId));
  }

  lemma BodiesAppend<E>(events: seq<AuditRow<E>>, x: AuditRow<E>)
    ensures Bodies(events + [x]) == Bodies(events) + [x.body]
  {
  }

  lemma {:induction false} CaseChain<E>(entries: seq<Entry<E>>, caseId: string)
    requires KeysIncrease(entries)
    ensures ValidFrom(OfCase(AppendAll(entries), caseId), caseId, None)
    ensures Bodies(OfCase(AppendAll(entries), caseId)) == Payloads(entries, caseId)
  {
    hide ValidFrom, Ascending, Latest, OfCase, Bodies;
    if |entries| == 0 {
      NoEvents<E>(caseId);
    } else {
      var before, e := entries[..|entries| - 1], entries[|entries| - 1];
      var rows := AppendAll(before);
      var x := Chained(rows, e.createdAt, e.id, e.caseId, e.body);
      CaseChain(before, caseId);
      RowsIncrease(before, caseId);
      OfCaseAppend(rows, x, caseId);
      ValidAppend(OfCase(rows, caseId), x, caseId, None);
      BodiesAppend(OfCase(rows, caseId), x);
      assert OfCase(rows, caseId) + [] == OfCase(rows, caseId);
    }
  }

  lemma NoEvents<E>(caseId: string)
    ensures ValidFrom(OfCase<E>([], caseId), caseId, None) && Bodies(OfCase<E>([], caseId)) == []
  {
  }

  /** Interleaved appends for any number of cases keep every case's chain valid, and reading a case's chain
      back yields exactly what was appended for it, in order. */
  lemma {:induction false} AppendsKeepChains<E>(entries: seq<Entry<E>>, caseId: string)
    requires KeysIncrease(entries)
    ensures ChainValid(AppendAll(entries), caseId)
    ensures Bodies(Ascending(OfCase(AppendAll(entries), caseId))) == Payloads(entries, caseId)
  {
    RowsIncrease(entries, caseId);
    CaseChain(entries, caseId);
  }

  /** Row `j` is the newest of its case before position `n`. */
  predicate NewestBefore<E>(rows: seq<AuditRow<E>>, j: nat, n: nat, caseId: string) {
    j < n <= |rows| && rows[j].caseId == Some(caseId) && forall k | j < k < n :: rows[k].caseId != Some(caseId)
  }

  lemma {:induction false} LastOfCase<E>(rows: seq<AuditRow<E>>, caseId: string) returns (j: nat)
    ensures
      var events := OfCase(rows, caseId);
      if |events| == 0 then forall x | x in rows :: x.caseId != Some(caseId)
      else NewestBefore(rows, j, |rows|, caseId) && rows[j] == events[|events| - 1]
  {
    j := 0;
    if |rows| > 0 {
      var n := |rows| - 1;
      if rows[n].caseId == Some(caseId) {
        j := n;
      } else {
        j := LastOfCase(rows[..n], caseId);
        assert rows == rows[..n] + [rows[n]];
      }
    }
  }

  /** Row `i` chains onto the newest row before it of its own case, onto nothing if there is none or it has none. */
  ghost predicate ChainsAt<E(!new)>(rows: seq<AuditRow<E>>, i: nat)
    requires i < |rows|
  {
    var x := rows[i];
    if x.caseId.None? then x.prev.None?
    else if x.prev.None? then forall k | 0 <= k < i :: rows[k].caseId != x.caseId
    else exists j: nat :: NewestBefore(rows, j, i, x.caseId.value) && x.prev == Some(rows[j].hash)
  }

  lemma EarlierChains<E(!new)>(before: seq<AuditRow<E>>, x: AuditRow<E>, i: nat)
    requires i < |before| && ChainsAt(before, i)
    ensures ChainsAt(before + [x], i)
  {
    var rows := before + [x];
    assert forall k | 0 <= k < |before| :: rows[k] == before[k];
    if before[i].caseId.Some? && before[i].prev.Some? {
      var j: nat :| NewestBefore(before, j, i, before[i].caseId.value) && before[i].prev == Some(before[j].hash);
      assert NewestBefore(rows, j, i, rows[i].caseId.value);
    }
  }

  lemma NewRowChains<E(!new)>(before: seq<AuditRow<E>>, x: AuditRow<E>, caseId: string)
    requires
      var events := OfCase(before, caseId);
      x.caseId == Some(caseId) && x.prev == if |events| == 0 then None else Some(events[|events| - 1].hash)
    ensures ChainsAt(before + [x], |before|)
  {
    hide OfCase;
    var rows := before + [x];
    var j := LastOfCase(before, caseId);
    assert forall k | 0 <= k < |before| :: rows[k] == before[k] && before[k] in before;
    if x.prev.Some? {
      assert NewestBefore(rows, j, |before|, caseId);
    }
  }

  /** Under increasing keys every row hashes what it was given, and chains within its own case. */
  lemma {:induction false} RowsChainWithinCases<E(!new)>(entries: seq<Entry<E>>, i: nat)
    requires KeysIncrease(entries) && i < |entries|
    ensures
      var rows := AppendAll(entries);
      && rows[i].body == entries[i].body && rows[i].hash == Digest(rows[i].prev, entries[i].caseId, entries[i].body)
      && ChainsAt(rows, i)
  {
    hide Latest, OfCase, Ascending, ChainsAt;
    var n := |entries| - 1;
    var before, e := AppendAll(entries[..n]), entries[n];
    var x := Chained(before, e.createdAt, e.id, e.caseId, e.body);
    assert AppendAll(entries) == before + [x];
    if i < n {
      RowsChainWithinCases(entries[..n], i);
      EarlierChains(before, x, i);
    } else if e.caseId.Some? {
      RowsIncrease(entries[..n], e.caseId.value);
      NewRowChains(before, x, e.caseId.value);
    } else {
      NoCaseChains(before, x);
    }
  }

  lemma NoCaseChains<E(!new)>(before: seq<AuditRow<E>>, x: AuditRow<E>)
    requires x.caseId.None? && x.prev.None?
    ensures ChainsAt(before + [x], |before|)
  {
  }

  // ----- Tampering -----

  /** Everything the hash covers. */
  predicate SameEvents<E(==)>(a: seq<AuditRow<E>>, b: seq<AuditRow<E>>) {
    |a| == |b| && forall i | 0 <= i < |a| :: a[i].body == b[i].body && a[i].prev == b[i].prev && a[i].hash == b[i].hash
  }

  lemma ValidPrefix<E>(events: seq<AuditRow<E>>, caseId: string)
    requires |events| > 0 && ValidFrom(events, caseId, None)
    ensures
      var before, x := events[..|events| - 1], events[|events| - 1];
      && ValidFrom(before, caseId, None)
      && x.prev == LastHash(before, None) && x.hash == Digest(x.prev, Some(caseId), x.body)
  {
    var before := events[..|events| - 1];
    assert events == before + [events[|events| - 1]];
    ValidAppend(before, events[|events| - 1], caseId, None);
  }

  /** Two valid chains with the same last hash are of the same case and hold the same events. */
  lemma {:induction false} LastHashFixesChain<E>(a: seq<AuditRow<E>>, b: seq<AuditRow<E>>, caseId: string,
                                                 other: string)
    requires ValidFrom(a, caseId, None) && ValidFrom(b, other, None)
    requires LastHash(a, None) == LastHash(b, None)
    ensures SameEvents(a, b) && (|a| > 0 ==> caseId == other)
  {
    if |a| > 0 {
      var m, n := |a| - 1, |b| - 1;
      ValidPrefix(a, caseId);
      ValidPrefix(b, other);
      LastHashFixesChain(a[..m], b[..n], caseId, other);
      assert forall i | 0 <= i < m :: a[i] == a[..m][i] && b[i] == b[..n][i];
    }
  }

  /** So against a log whose chain was valid, any change to a case's rows that keeps the last hash is found. */
  lemma TamperingShows<E>(rows: seq<AuditRow<E>>, tampered: seq<AuditRow<E>>, caseId: string)
    requires ChainValid(rows, caseId)
    requires LastHash(Ascending(OfCase(tampered, caseId)), None) == LastHash(Ascending(OfCase(rows, caseId)), None)
    ensures ChainValid(tampered, caseId) <==>
      SameEvents(Ascending(OfCase(tampered, caseId)), Ascending(OfCase(rows, caseId)))
  {
    var a, b := Ascending(OfCase(tampered, caseId)), Ascending(OfCase(rows, caseId));
    if ValidFrom(a, caseId, None) {
      LastHashFixesChain(a, b, caseId, caseId);
    }
    if SameEvents(a, b) {
      SameIsValid(a, b, caseId, None);
    }
  }

  lemma {:induction false} SameIsValid<E>(a: seq<AuditRow<E>>, b: seq<AuditRow<E>>, caseId: string,
                                          prev: Option<Digest<E>>)
    requires SameEvents(a, b) && ValidFrom(b, caseId, prev)
    ensures ValidFrom(a, caseId, prev)
  {
    if |a| > 0 {
      SameIsValid(a[1..], b[1..], caseId, Some(b[0].hash));
    }
  }

  /** Without the last hash to compare with, cutting events off the end goes unnoticed. */
  lemma {:induction false} CuttingTheEndIsValid<E>(events: seq<AuditRow<E>>, caseId: string, n: nat)
    requires ValidFrom(events, caseId, None) && n <= |events|
    ensures ValidFrom(events[..n], caseId, None)
  {
    if n == |events| {
      assert events[..n] == events;
    } else {
      ValidPrefix(events, caseId);
      CuttingTheEndIsValid(events[..|events| - 1], caseId, n);
      assert events[..|events| - 1][..n] == events[..n];
    }
  }

  // ----- Keys out of order -----

  function Depth<E>(d: Option<Digest<E>>): nat {
    if d.None? then 0 else 1 + Depth(d.value.prev)
  }

  lemma {:induction false} DepthIsPosition<E>(events: seq<AuditRow<E>>, caseId: string, i: nat)
    requires ValidFrom(events, caseId, None) && i < |events|
    ensures Depth(Some(events[i].hash)) == i + 1
    decreases |events|
  {
    var n := |events| - 1;
    ValidPrefix(events, caseId);
    if i < n {
      DepthIsPosition(events[..n], caseId, i);
    } else if n > 0 {
      DepthIsPosition(events[..n], caseId, n - 1);
    }
  }

  lemma {:induction false} InsertBeforeLast<E>(sorted: seq<AuditRow<E>>, x: AuditRow<E>)
    requires |sorted| > 0 && x.Before(sorted[|sorted| - 1])
    ensures var r := Insert(sorted, x);
      |r| == |sorted| + 1 && r[|sorted|] == sorted[|sorted| - 1] && exists i | 0 <= i < |sorted| :: r[i] == x
  {
    var shorter := Insert(sorted[..|sorted| - 1], x);
    InsertPlaces(sorted[..|sorted| - 1], x);
    var i :| 0 <= i < |shorter| && shorter[i] == x;
    assert Insert(sorted, x)[i] == x;
  }

  lemma {:induction false} InsertPlaces<E>(sorted: seq<AuditRow<E>>, x: AuditRow<E>)
    ensures var r := Insert(sorted, x);
      |r| == |sorted| + 1 && exists i | 0 <= i < |r| :: r[i] == x
  {
    if |sorted| == 0 || !x.Before(sorted[|sorted| - 1]) {
      assert Insert(sorted, x)[|sorted|] == x;
    } else {
      InsertPlaces(sorted[..|sorted| - 1], x);
      var shorter := Insert(sorted[..|sorted| - 1], x);
      var i :| 0 <= i < |shorter| && shorter[i] == x;
      assert Insert(sorted, x)[i] == x;
    }
  }

  /** The condition on keys is exact: an append to an intact, ordered chain keeps it valid if and only if its
      key does not come before the latest one of the case. */
  lemma LateKeysBreakTheChain<E>(rows: seq<AuditRow<E>>, createdAt: int, id: int, caseId: string, body: E)
    requires Increasing(rows) && ChainValid(rows, caseId)
    ensures
      var x := Chained(rows, createdAt, id, Some(caseId), body);
      var latest := Latest(OfCase(rows, caseId));
      ChainValid(rows + [x], caseId) <==> latest.None? || !x.Before(latest.value)
  {
    var x := Chained(rows, createdAt, id, Some(caseId), body);
    var events := OfCase(rows, caseId);
    OfCaseIncreases(rows, caseId);
    AscendingIsSame(events);
    LatestIsLast(events);
    OfCaseAppend(rows, x, caseId);
    assert (events + [x])[..|events|] == events;
    assert Ascending(events + [x]) == Insert(events, x);
    if |events| == 0 || !x.Before(events[|events| - 1]) {
      ValidAppend(events, x, caseId, None);
    } else if ValidFrom(Insert(events, x), caseId, None) {
      InsertBeforeLast(events, x);
      var r := Insert(events, x);
      var i :| 0 <= i < |events| && r[i] == x;
      DepthIsPosition(r, caseId, i);
      DepthIsPosition(r, caseId, |events|);
      assert false;
    }
  }
}
