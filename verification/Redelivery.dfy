/** Delivering the same event id again (app/services/ingest.py:149-164): exactly when it changes nothing. The store is
    any store, whether or not a run of the engine reaches it. */
module Redelivery {
  import opened Enums
  import opened Fsm
  import opened Rows
  import opened Ingest
  import opened Clashes

  // ----- What a delivery can do -----

  /** Deliveries whose ingestion cannot raise. */
  predicate SureToCommit(d: Delivery) {
    !Genuine(d) || (Readable(d) && d.kind == PaymentFailed && ContactOf(d).None?)
  }

  /** The payment a readable capture is about. */
  function CaptureOf(d: Delivery): Option<string> {
    if Readable(d) && d.kind == PaymentCaptured then Some(d.entity.value.paymentId) else None
  }

  /** Once `d` was delivered, a delivery `e` under its id has nothing left to do: `d` surely committed, or `e` cannot be
      read, or `e` is refused wherever `d` is, a capture for its closed case and a customer for its contact. */
  predicate Settles(d: Delivery, e: Delivery) {
    || SureToCommit(d) || Unreadable(e)
    || (&& Readable(d) && Readable(e)
        && (CaptureOf(d).Some? ==> CaptureOf(e) == CaptureOf(d))
        && (ContactOf(d).Some? ==>
              ContactOf(e) == ContactOf(d) && (CustomerOf(e).None? || CustomerOf(e) == CustomerOf(d))))
  }

  lemma SeenIsSkipped(s: Store, d: Delivery)
    ensures d.eventId in s.seen ==> Ingested(s, d).Ok? && After(s, d) == s
    ensures Ingested(s, d).Raised? ==> After(s, d) == s
  {
  }

  predicate ClosedFor(s: Store, p: string) { p in s.cases && !CanTransition(s.cases[p].row.status, Recovered) }

  /** Is the contact stored and the customer not known? */
  predicate ContactTaken(s: Store, d: Delivery) {
    && ContactOf(d).Some? && ContactOf(d).value in s.contacts
    && (CustomerOf(d).Some? ==> CustomerOf(d).value !in s.customers)
  }

  /** The three ways to be refused. */
  lemma RefusedWhen(s: Store, d: Delivery)
    requires d.eventId !in s.seen
    ensures Ingested(s, d).Raised? <==>
      Unreadable(d) || ContactTaken(s, d) || (CaptureOf(d).Some? && ClosedFor(s, CaptureOf(d).value))
  {
  }

  lemma RefusedAlike(s: Store, d: Delivery, e: Delivery)
    requires d.eventId == e.eventId && Settles(d, e) && Ingested(s, d).Raised?
    ensures Ingested(s, e).Raised?
  {
    RefusedWhen(s, d);
    RefusedWhen(s, e);
    hide Ingested, ClosedFor;
  }

  // ----- Two deliveries -----

  /** A store on which `d` is refused and `e`, which it does not settle, is taken. */
  function Refusing(d: Delivery, e: Delivery, seen: set<string>): Store {
    if CaptureOf(d).Some? && CaptureOf(e) != CaptureOf(d) then
      var p := CaptureOf(d).value;
      EMPTY.(seen := seen, counter := 1,
             cases := map[p := OpenCase(1, NewCaseRow(p, false, None).(status := ClosedUnrecovered))])
    else if ContactOf(d).Some? then
      EMPTY.(seen := seen, contacts := {ContactOf(d).value},
             customers := if CustomerOf(e).Some? && CustomerOf(e) != CustomerOf(d)
                          then map[CustomerOf(e).value := false] else map[])
    else EMPTY.(seen := seen)
  }

  lemma RefusingRefuses(d: Delivery, e: Delivery, seen: set<string>)
    requires d.eventId == e.eventId && !Settles(d, e) && d.eventId !in seen
    ensures var s := Refusing(d, e, seen); s.seen == seen && Ingested(s, d).Raised? && Ingested(s, e).Ok?
  {
    RefusedWhen(Refusing(d, e, seen), d);
    RefusedWhen(Refusing(d, e, seen), e);
    hide Ingested;
  }

  /** The second of two deliveries under one id changes nothing on any store if and only if the first settles it. */
  lemma SecondIsIdleIff(d: Delivery, e: Delivery)
    requires d.eventId == e.eventId
    ensures (forall s :: After(After(s, d), e) == After(s, d)) <==> Settles(d, e)
  {
    hide Ingested, Settles, Refusing;
    if Settles(d, e) {
      forall s
        ensures After(After(s, d), e) == After(s, d)
      {
        SeenGrows(s, d);
        SeenIsSkipped(s, d);
        SeenIsSkipped(After(s, d), e);
        if Ingested(s, d).Raised? {
          RefusedAlike(s, d, e);
        }
      }
    } else {
      var s := Refusing(d, e, {});
      RefusingRefuses(d, e, {});
      SeenIsSkipped(s, d);
      SeenGrows(s, e);
      assert After(After(s, d), e) != After(s, d);
    }
  }

  // ----- Sequences -----

  function FirstOccurrences(ds: seq<Delivery>): seq<Delivery> {
    if |ds| == 0 then []
    else
      var before, d := ds[..|ds| - 1], ds[|ds| - 1];
      FirstOccurrences(before) + if d.eventId in Ids(before) then [] else [d]
  }

  predicate IsFirst(ds: seq<Delivery>, i: nat)
    requires i < |ds|
  {
    ds[i].eventId !in Ids(ds[..i])
  }

  /** The first delivery under each id settles all later ones under it. */
  predicate Settled(ds: seq<Delivery>) {
    forall i, j | 0 <= i < j < |ds| && ds[i].eventId == ds[j].eventId && IsFirst(ds, i) :: Settles(ds[i], ds[j])
  }

  /** `m` can be refused on a store on which `k`, and later `e`, are taken. */
  predicate GivesWay(m: Delivery, k: Delivery, e: Delivery) {
    || Unreadable(m)
    || (ContactOf(m).Some? && ContactOf(m) != ContactOf(k))
    || (CaptureOf(m).Some? && CaptureOf(k) != CaptureOf(m) && CaptureOf(e) != CaptureOf(m))
  }

  /** Between the first delivery `i` under an id and a later one `j`, delivery `k` can store their customer under
      another contact; then `j` is taken where `i` was refused. */
  predicate Reopens(ds: seq<Delivery>, i: nat, k: nat, j: nat) {
    && i < k < j < |ds| && IsFirst(ds, i) && ds[i].eventId == ds[j].eventId != ds[k].eventId
    && CustomerOf(ds[i]).Some? && CustomerOf(ds[j]) == CustomerOf(ds[i]) && CustomerOf(ds[k]) == CustomerOf(ds[i])
    && ContactOf(ds[k]) != ContactOf(ds[i])
    && forall m | 0 <= m < k && ds[m].eventId == ds[k].eventId :: GivesWay(ds[m], ds[k], ds[j])
  }

  ghost predicate NeverReopens(ds: seq<Delivery>) {
    forall i: nat, k: nat, j: nat :: !Reopens(ds, i, k, j)
  }

  lemma {:induction false} FirstOf(ds: seq<Delivery>, id: string) returns (i: nat)
    requires id in Ids(ds)
    ensures i < |ds| && ds[i].eventId == id && IsFirst(ds, i)
  {
    var n := |ds| - 1;
    if id in Ids(ds[..n]) {
      i := FirstOf(ds[..n], id);
      assert ds[..n][..i] == ds[..i];
    } else {
      i := n;
      assert forall d | d in ds :: d in ds[..n] || d == ds[n];
    }
  }

  /** The store when delivery `n` arrives. */
  function Turn(s: Store, ds: seq<Delivery>, n: nat): Store
    requires n <= |ds|
  {
    IngestAll(s, ds[..n])
  }

  lemma TurnMoves(s: Store, ds: seq<Delivery>, n: nat)
    requires n < |ds|
    ensures Turn(s, ds, n + 1) == After(Turn(s, ds, n), ds[n])
    ensures Turn(s, ds, 0) == s && Turn(s, ds, |ds|) == IngestAll(s, ds)
  {
    assert ds[..n + 1][..n] == ds[..n] && ds[..|ds|] == ds;
  }

  lemma OneStays(s: Store, d: Delivery, p: string)
    ensures s.seen <= After(s, d).seen && s.contacts <= After(s, d).contacts
    ensures ClosedFor(s, p) ==> ClosedFor(After(s, d), p)
  {
    hide TokenOf;
  }

  /** Spent ids, stored contacts and closed cases stay. */
  lemma {:induction false} AllStays(s: Store, ds: seq<Delivery>, a: nat, b: nat, p: string)
    requires a <= b <= |ds|
    ensures Turn(s, ds, a).seen <= Turn(s, ds, b).seen && Turn(s, ds, a).contacts <= Turn(s, ds, b).contacts
    ensures ClosedFor(Turn(s, ds, a), p) ==> ClosedFor(Turn(s, ds, b), p)
    decreases b - a
  {
    hide After, Turn, ClosedFor;
    if a < b {
      TurnMoves(s, ds, b - 1);
      AllStays(s, ds, a, b - 1, p);
      OneStays(Turn(s, ds, b - 1), ds[b - 1], p);
    }
  }

  // ----- Settled sequences are idle -----

  lemma CustomerComes(s: Store, d: Delivery, x: string)
    requires x !in s.customers && x in After(s, d).customers
    ensures ContactOf(d).Some? && CustomerOf(d) == Some(x) && ContactOf(d).value !in s.contacts
    ensures d.eventId !in s.seen && Ingested(s, d).Ok?
  {
  }

  /** A customer that became known was stored by some delivery. */
  lemma {:induction false} WhoStored(s: Store, ds: seq<Delivery>, a: nat, b: nat, x: string) returns (k: nat)
    requires a <= b <= |ds| && x !in Turn(s, ds, a).customers && x in Turn(s, ds, b).customers
    ensures a <= k < b && x !in Turn(s, ds, k).customers && x in Turn(s, ds, k + 1).customers
    decreases b - a
  {
    hide Turn;
    if x in Turn(s, ds, b - 1).customers {
      k := WhoStored(s, ds, a, b - 1, x);
    } else {
      k := b - 1;
    }
  }

  /** Whatever came before `k` under its id, and was refused, can give way to it and to `e`. */
  lemma GaveWay(s: Store, ds: seq<Delivery>, m: nat, k: nat, j: nat)
    requires m < k < j < |ds| && ds[m].eventId == ds[k].eventId && ds[k].eventId !in Turn(s, ds, k).seen
    requires Ingested(Turn(s, ds, k), ds[k]).Ok? && ContactOf(ds[k]).Some?
    requires ContactOf(ds[k]).value !in Turn(s, ds, k).contacts
    requires CaptureOf(ds[j]).Some? ==> !ClosedFor(Turn(s, ds, j), CaptureOf(ds[j]).value)
    ensures GivesWay(ds[m], ds[k], ds[j])
  {
    hide Ingested, Turn, ClosedFor, ContactOf, CaptureOf;
    TurnMoves(s, ds, m);
    AllStays(s, ds, m, k, "");
    AllStays(s, ds, m + 1, k, "");
    SeenGrows(Turn(s, ds, m), ds[m]);
    RefusedWhen(Turn(s, ds, m), ds[m]);
    RefusedWhen(Turn(s, ds, k), ds[k]);
    if CaptureOf(ds[m]).Some? {
      AllStays(s, ds, m, k, CaptureOf(ds[m]).value);
      AllStays(s, ds, m, j, CaptureOf(ds[m]).value);
    }
  }

  /** A later delivery is taken under a settled id only if the first was refused for its contact and their customer
      became known in between. */
  lemma TakenLater(s: Store, ds: seq<Delivery>, i: nat, j: nat)
    requires i < j < |ds| && ds[i].eventId == ds[j].eventId && Settles(ds[i], ds[j])
    requires ds[j].eventId !in Turn(s, ds, j).seen && Ingested(Turn(s, ds, j), ds[j]).Ok?
    ensures ContactTaken(Turn(s, ds, i), ds[i]) && Ingested(Turn(s, ds, i), ds[i]).Raised?
    ensures CustomerOf(ds[i]).Some? && CustomerOf(ds[j]) == CustomerOf(ds[i])
    ensures CustomerOf(ds[i]).value in Turn(s, ds, j).customers
    ensures CaptureOf(ds[j]).Some? ==> !ClosedFor(Turn(s, ds, j), CaptureOf(ds[j]).value)
  {
    var d, e := ds[i], ds[j];
    hide Ingested, Turn, ClosedFor, ContactOf, CustomerOf, CaptureOf, Unreadable;
    TurnMoves(s, ds, i);
    AllStays(s, ds, i, j, if CaptureOf(d).Some? then CaptureOf(d).value else "");
    AllStays(s, ds, i + 1, j, "");
    SeenGrows(Turn(s, ds, i), d);
    RefusedWhen(Turn(s, ds, i), d);
    RefusedWhen(Turn(s, ds, j), e);
    SureIsTaken(Turn(s, ds, i), d);
    ReadableParts(d);
    ReadableParts(e);
  }

  /** In a settled sequence that never reopens, a later delivery under an id is idle. */
  lemma LaterIsRefused(s: Store, ds: seq<Delivery>, i: nat, j: nat)
    requires i < j < |ds| && ds[i].eventId == ds[j].eventId && IsFirst(ds, i)
    requires Settles(ds[i], ds[j]) && NeverReopens(ds)
    ensures After(Turn(s, ds, j), ds[j]) == Turn(s, ds, j)
  {
    hide Ingested, Turn, ClosedFor, ContactOf, CustomerOf, CaptureOf, IsFirst, GivesWay, Settles;
    SeenIsSkipped(Turn(s, ds, j), ds[j]);
    if ds[j].eventId !in Turn(s, ds, j).seen && Ingested(Turn(s, ds, j), ds[j]).Ok? {
      TakenLater(s, ds, i, j);
      var x := CustomerOf(ds[i]).value;
      var k := WhoStored(s, ds, i, j, x);
      TurnMoves(s, ds, i);
      SeenIsSkipped(Turn(s, ds, i), ds[i]);
      TurnMoves(s, ds, k);
      CustomerComes(Turn(s, ds, k), ds[k], x);
      SeenGrows(Turn(s, ds, k), ds[k]);
      AllStays(s, ds, i, k, "");
      AllStays(s, ds, k + 1, j, "");
      forall m | 0 <= m < k && ds[m].eventId == ds[k].eventId
        ensures GivesWay(ds[m], ds[k], ds[j])
      {
        GaveWay(s, ds, m, k, j);
      }
      assert Reopens(ds, i, k, j);
    }
  }

  lemma SureIsTaken(s: Store, d: Delivery)
    ensures SureToCommit(d) ==> Ingested(s, d).Ok?
  {
  }

  lemma ReadableParts(d: Delivery)
    ensures Readable(d) ==> !Unreadable(d)
    ensures CustomerOf(d).Some? ==> ContactOf(d).Some?
  {
  }

  lemma PrefixSettled(ds: seq<Delivery>, before: seq<Delivery>)
    requires |ds| > 0 && before == ds[..|ds| - 1]
    ensures forall i | 0 <= i < |before| :: before[i] == ds[i] && (IsFirst(before, i) <==> IsFirst(ds, i))
    ensures Settled(ds) ==> Settled(before)
    ensures NeverReopens(ds) ==> NeverReopens(before)
  {
    hide Settles, Ids, GivesWay, ContactOf, CustomerOf;
    assert forall i | 0 <= i < |before| :: before[i] == ds[i] && before[..i] == ds[..i];
    hide IsFirst;
    forall i: nat, k: nat, j: nat
      ensures Reopens(before, i, k, j) ==> Reopens(ds, i, k, j)
    {
    }
    hide Reopens;
  }

  lemma {:induction false} SettledIsIdle(s: Store, ds: seq<Delivery>)
    requires Settled(ds) && NeverReopens(ds)
    ensures IngestAll(s, ds) == IngestAll(s, FirstOccurrences(ds))
  {
    hide After, Settles, NeverReopens, IsFirst;
    if |ds| > 0 {
      var before, d := ds[..|ds| - 1], ds[|ds| - 1];
      PrefixSettled(ds, before);
      SettledIsIdle(s, before);
      if d.eventId in Ids(before) {
        var i := FirstOf(before, d.eventId);
        LaterIsRefused(s, ds, i, |ds| - 1);
        assert FirstOccurrences(ds) == FirstOccurrences(before);
      } else {
        var firsts := FirstOccurrences(before);
        assert (firsts + [d])[..|firsts|] == firsts;
      }
    }
  }

  // ----- Where a sequence is not idle -----

  /** If nothing happens before the first delivery under an id, and that one is refused, the id is never spent by first
      occurrences. */
  lemma {:induction false} FirstsNeverSpend(s: Store, ds: seq<Delivery>, i: nat, n: nat)
    requires i < |ds| && n <= |ds| && IsFirst(ds, i) && ds[i].eventId !in s.seen && Ingested(s, ds[i]).Raised?
    requires forall k | 0 <= k < i :: After(s, ds[k]) == s
    ensures n <= i ==> IngestAll(s, FirstOccurrences(ds[..n])) == s
    ensures ds[i].eventId !in IngestAll(s, FirstOccurrences(ds[..n])).seen
  {
    hide Ingested, IngestAll, FirstOccurrences;
    if n == 0 {
      NoFirsts(s, ds[..0]);
    } else {
      FirstsNeverSpend(s, ds, i, n - 1);
      FirstsMove(s, ds, n - 1);
      var t := IngestAll(s, FirstOccurrences(ds[..n - 1]));
      SeenGrows(t, ds[n - 1]);
      SeenIsSkipped(t, ds[n - 1]);
      if n - 1 > i {
        assert ds[i] in ds[..n - 1];
      }
    }
    hide After;
  }

  lemma NoFirsts(s: Store, ds: seq<Delivery>)
    requires |ds| == 0
    ensures IngestAll(s, FirstOccurrences(ds)) == s
  {
  }

  lemma FirstsMove(s: Store, ds: seq<Delivery>, n: nat)
    requires n < |ds|
    ensures IngestAll(s, FirstOccurrences(ds[..n + 1])) ==
      var t := IngestAll(s, FirstOccurrences(ds[..n]));
      if ds[n].eventId in Ids(ds[..n]) then t else After(t, ds[n])
  {
    hide After;
    assert ds[..n + 1][..n] == ds[..n] && ds[..n + 1][n] == ds[n];
    assert FirstOccurrences(ds[..n]) + [] == FirstOccurrences(ds[..n]);
    var firsts := FirstOccurrences(ds[..n]);
    assert (firsts + [ds[n]])[..|firsts|] == firsts;
  }

  /** While nothing but deliveries under one id can act, the store stands or the id is spent. */
  lemma {:induction false} StandsOrSpends(s: Store, t: Store, ds: seq<Delivery>, a: nat, b: nat, id: string)
    requires a <= b <= |ds| && (Turn(s, ds, a) == t || id in Turn(s, ds, a).seen)
    requires forall k | a <= k < b :: After(t, ds[k]) == t || ds[k].eventId == id
    ensures Turn(s, ds, b) == t || id in Turn(s, ds, b).seen
    decreases b - a
  {
    hide Ingested, Turn, After;
    if a < b {
      StandsOrSpends(s, t, ds, a, b - 1, id);
      TurnMoves(s, ds, b - 1);
      SeenGrows(Turn(s, ds, b - 1), ds[b - 1]);
      SeenIsSkipped(Turn(s, ds, b - 1), ds[b - 1]);
    }
  }

  /** A store on which all the sequence's ids are spent but these two. */
  function Others(ds: seq<Delivery>, id: string, other: string): set<string> { Ids(ds) - {id, other} }

  lemma OthersAreSkipped(s: Store, ds: seq<Delivery>, id: string, other: string)
    requires s.seen == Others(ds, id, other)
    ensures forall k | 0 <= k < |ds| :: After(s, ds[k]) == s || ds[k].eventId == id || ds[k].eventId == other
  {
    forall k | 0 <= k < |ds|
      ensures After(s, ds[k]) == s || ds[k].eventId == id || ds[k].eventId == other
    {
      assert ds[k] in ds;
      SeenIsSkipped(s, ds[k]);
    }
  }

  lemma SpendsInTheEnd(s: Store, ds: seq<Delivery>, j: nat)
    requires j < |ds| && (ds[j].eventId in Turn(s, ds, j).seen || Ingested(Turn(s, ds, j), ds[j]).Ok?)
    ensures ds[j].eventId in IngestAll(s, ds).seen
  {
    hide Ingested, Turn;
    TurnMoves(s, ds, j);
    SeenGrows(Turn(s, ds, j), ds[j]);
    AllStays(s, ds, j + 1, |ds|, "");
  }

  lemma UnsettledShows(ds: seq<Delivery>, i: nat, j: nat)
    requires i < j < |ds| && ds[i].eventId == ds[j].eventId && IsFirst(ds, i) && !Settles(ds[i], ds[j])
    ensures exists s :: IngestAll(s, ds) != IngestAll(s, FirstOccurrences(ds))
  {
    hide Settles, Refusing, Ingested, IngestAll, Turn;
    var id := ds[i].eventId;
    var s := Refusing(ds[i], ds[j], Others(ds, id, id));
    RefusingRefuses(ds[i], ds[j], Others(ds, id, id));
    OthersAreSkipped(s, ds, id, id);
    BeforeFirst(ds, i);
    TurnMoves(s, ds, 0);
    StandsOrSpends(s, s, ds, 0, j, id);
    SpendsInTheEnd(s, ds, j);
    FirstsNeverSpend(s, ds, i, |ds|);
    assert ds[..|ds|] == ds;
  }

  lemma BeforeFirst(ds: seq<Delivery>, i: nat)
    requires i < |ds| && IsFirst(ds, i)
    ensures forall k | 0 <= k < i :: ds[k].eventId != ds[i].eventId
  {
    assert forall k | 0 <= k < i :: ds[k] in ds[..i];
  }

  // ----- Reopened deliveries -----

  /** The contacts of, and the payments captured by, what comes before `k` under its id and must give way. */
  function ContactsBefore(ds: seq<Delivery>, k: nat): set<string>
    requires k < |ds|
  {
    set m | 0 <= m < k && ds[m].eventId == ds[k].eventId
            && ContactOf(ds[m]).Some? && ContactOf(ds[m]) != ContactOf(ds[k])
      :: ContactOf(ds[m]).value
  }

  function CapturesBefore(ds: seq<Delivery>, k: nat, j: nat): set<string>
    requires k < |ds| && j < |ds|
  {
    set m | 0 <= m < k && ds[m].eventId == ds[k].eventId && CaptureOf(ds[m]).Some?
            && CaptureOf(ds[m]) != CaptureOf(ds[k]) && CaptureOf(ds[m]) != CaptureOf(ds[j])
      :: CaptureOf(ds[m]).value
  }

  /** A store on which delivery `i` is refused, `k` is taken, and then `j` is. */
  function Reopening(ds: seq<Delivery>, i: nat, k: nat, j: nat): Store
    requires Reopens(ds, i, k, j) && ContactOf(ds[i]).Some?
  {
    var cases := map p | p in CapturesBefore(ds, k, j) ::
      OpenCase(1, NewCaseRow(p, false, None).(status := ClosedUnrecovered));
    Store(Others(ds, ds[i].eventId, ds[k].eventId), 0, {ContactOf(ds[i]).value} + ContactsBefore(ds, k), map[], map[],
          cases, 1)
  }

  lemma ReopeningShape(ds: seq<Delivery>, i: nat, k: nat, j: nat)
    requires Reopens(ds, i, k, j) && ContactOf(ds[i]).Some?
    ensures i < k < j < |ds| && IsFirst(ds, i) && ds[j].eventId == ds[i].eventId
    ensures Reopening(ds, i, k, j).seen == Others(ds, ds[i].eventId, ds[k].eventId)
  {
  }

  lemma ReopeningParts(ds: seq<Delivery>, i: nat, k: nat, j: nat, p: string)
    requires Reopens(ds, i, k, j) && ContactOf(ds[i]).Some?
    ensures ClosedFor(Reopening(ds, i, k, j), p) <==> p in CapturesBefore(ds, k, j)
  {
  }

  lemma AllGiveWay(ds: seq<Delivery>, i: nat, k: nat, j: nat, m: nat)
    requires Reopens(ds, i, k, j) && ContactOf(ds[i]).Some? && m < k && ds[m].eventId == ds[k].eventId
    ensures Ingested(Reopening(ds, i, k, j), ds[m]).Raised?
  {
    var s := Reopening(ds, i, k, j);
    RefusedWhen(s, ds[m]);
    assert GivesWay(ds[m], ds[k], ds[j]);
    if CaptureOf(ds[m]).Some? {
      ReopeningParts(ds, i, k, j, CaptureOf(ds[m]).value);
    }
    hide Ingested, ClosedFor, ContactOf, CaptureOf, Reopens, IsFirst;
  }

  lemma TakesTurns(ds: seq<Delivery>, i: nat, k: nat, j: nat)
    requires Reopens(ds, i, k, j) && ContactOf(ds[i]).Some?
    ensures
      var s := Reopening(ds, i, k, j);
      && Ingested(s, ds[i]).Raised? && Ingested(s, ds[k]).Ok?
      && ContactOf(ds[k]).Some? && ContactOf(ds[k]).value !in s.contacts
  {
    var s := Reopening(ds, i, k, j);
    ReadableParts(ds[k]);
    RefusedWhen(s, ds[i]);
    RefusedWhen(s, ds[k]);
    if CaptureOf(ds[k]).Some? {
      ReopeningParts(ds, i, k, j, CaptureOf(ds[k]).value);
    }
    hide Ingested, ClosedFor, CaptureOf, IsFirst;
  }

  lemma CommitStores(s: Store, d: Delivery, p: string)
    requires Ingested(s, d).Ok? && d.eventId !in s.seen && CustomerOf(d).Some?
    ensures CustomerOf(d).value in After(s, d).customers
    ensures ClosedFor(After(s, d), p) ==> ClosedFor(s, p)
  {
    hide TokenOf;
  }

  /** Once `k` was taken, `j` is. */
  lemma TakenAfter(ds: seq<Delivery>, i: nat, k: nat, j: nat)
    requires Reopens(ds, i, k, j) && ContactOf(ds[i]).Some?
    ensures
      var t := After(Reopening(ds, i, k, j), ds[k]);
      Ingested(t, ds[j]).Ok? && t.seen == Ids(ds) - {ds[i].eventId}
  {
    var s := Reopening(ds, i, k, j);
    var t := After(s, ds[k]);
    TakesTurns(ds, i, k, j);
    SeenGrows(s, ds[k]);
    assert ds[k] in ds && ds[i] in ds;
    assert t.seen == Ids(ds) - {ds[i].eventId};
    RefusedWhen(t, ds[j]);
    ReadableParts(ds[j]);
    CommitStores(s, ds[k], "");
    if CaptureOf(ds[j]).Some? {
      ReopeningParts(ds, i, k, j, CaptureOf(ds[j]).value);
      CommitStores(s, ds[k], CaptureOf(ds[j]).value);
    }
    hide Ingested, After, ClosedFor, CaptureOf, ContactOf, CustomerOf, IsFirst, GivesWay;
  }

  lemma QuietUntil(ds: seq<Delivery>, i: nat, k: nat, j: nat, n: nat)
    requires Reopens(ds, i, k, j) && ContactOf(ds[i]).Some? && n < k
    ensures After(Reopening(ds, i, k, j), ds[n]) == Reopening(ds, i, k, j) || ds[n].eventId == ds[i].eventId
  {
    hide After, Ingested, Reopens, Reopening, IsFirst;
    ReopeningShape(ds, i, k, j);
    var s := Reopening(ds, i, k, j);
    OthersAreSkipped(s, ds, ds[i].eventId, ds[k].eventId);
    SeenIsSkipped(s, ds[n]);
    if ds[n].eventId == ds[k].eventId {
      AllGiveWay(ds, i, k, j, n);
    }
  }

  lemma NotOneOfOthers(ds: seq<Delivery>, id: string, other: string)
    ensures id !in Others(ds, id, other)
  {
  }

  lemma DeliveredIsIn(ds: seq<Delivery>, n: nat)
    requires n < |ds|
    ensures ds[n].eventId in Ids(ds)
  {
    assert ds[n] in ds;
  }

  lemma ReopenedShows(ds: seq<Delivery>, i: nat, k: nat, j: nat)
    requires Reopens(ds, i, k, j) && ContactOf(ds[i]).Some?
    ensures exists s :: IngestAll(s, ds) != IngestAll(s, FirstOccurrences(ds))
  {
    hide Reopens, Reopening, Ingested, After, IngestAll, Turn, FirstOccurrences, IsFirst, Others, Ids;
    ReopeningShape(ds, i, k, j);
    TakesTurns(ds, i, k, j);
    TakenAfter(ds, i, k, j);
    var id, s := ds[i].eventId, Reopening(ds, i, k, j);
    var t := After(s, ds[k]);
    forall n | 0 <= n < k
      ensures After(s, ds[n]) == s || ds[n].eventId == id
    {
      QuietUntil(ds, i, k, j, n);
    }
    NotOneOfOthers(ds, id, ds[k].eventId);
    BeforeFirst(ds, i);
    TurnMoves(s, ds, 0);
    StandsOrSpends(s, s, ds, 0, k, id);
    TurnMoves(s, ds, k);
    SeenGrows(Turn(s, ds, k), ds[k]);
    forall n | k < n < j
      ensures After(t, ds[n]) == t || ds[n].eventId == id
    {
      DeliveredIsIn(ds, n);
      SeenIsSkipped(t, ds[n]);
    }
    StandsOrSpends(s, t, ds, k + 1, j, id);
    SpendsInTheEnd(s, ds, j);
    FirstsNeverSpend(s, ds, i, |ds|);
    assert ds[..|ds|] == ds;
  }

  // ----- The theorem -----

  /** For any sequence of deliveries: ingesting it leaves, on every store, what ingesting the first of each id leaves,
      if and only if the first under each id settles the later ones and none of them is reopened. */
  lemma RedeliveriesChangeNothingIff(ds: seq<Delivery>)
    ensures (forall s :: IngestAll(s, ds) == IngestAll(s, FirstOccurrences(ds))) <==> Settled(ds) && NeverReopens(ds)
  {
    hide Settles, IngestAll, IsFirst, FirstOccurrences, Reopens;
    if !Settled(ds) {
      var i, j :| 0 <= i < j < |ds| && ds[i].eventId == ds[j].eventId && IsFirst(ds, i) && !Settles(ds[i], ds[j]);
      UnsettledShows(ds, i, j);
    } else if i: nat, k: nat, j: nat :| Reopens(ds, i, k, j) {
      ReopensHasContact(ds, i, k, j);
      ReopenedShows(ds, i, k, j);
    } else {
      forall s
        ensures IngestAll(s, ds) == IngestAll(s, FirstOccurrences(ds))
      {
        SettledIsIdle(s, ds);
      }
    }
  }

  lemma ReopensHasContact(ds: seq<Delivery>, i: nat, k: nat, j: nat)
    requires Reopens(ds, i, k, j)
    ensures i < |ds| && ContactOf(ds[i]).Some?
  {
    ReadableParts(ds[i]);
  }

  /** Equal ids mean equal deliveries. */
  predicate Consistent(ds: seq<Delivery>) {
    forall d, e | d in ds && e in ds && d.eventId == e.eventId :: d == e
  }

  /** Customer ids always come with one contact. */
  predicate OneContactEach(ds: seq<Delivery>) {
    forall d, e | d in ds && e in ds && CustomerOf(d).Some? && CustomerOf(d) == CustomerOf(e) ::
      ContactOf(d) == ContactOf(e)
  }

  /** In particular, replays change nothing when equal ids carry equal deliveries and customer ids keep their
      contact. */
  lemma ReplaysChangeNothing(s: Store, ds: seq<Delivery>)
    requires Consistent(ds) && OneContactEach(ds)
    ensures IngestAll(s, ds) == IngestAll(s, FirstOccurrences(ds))
  {
    forall i, j | 0 <= i < j < |ds| && ds[i].eventId == ds[j].eventId && IsFirst(ds, i)
      ensures Settles(ds[i], ds[j])
    {
      assert ds[i] in ds && ds[j] in ds;
    }
    hide ContactOf, CustomerOf, IsFirst, GivesWay, Settles;
    forall i: nat, k: nat, j: nat
      ensures !Reopens(ds, i, k, j)
    {
      if i < |ds| && k < |ds| {
        assert ds[i] in ds && ds[k] in ds;
      }
    }
    hide Reopens, Consistent, OneContactEach;
    SettledIsIdle(s, ds);
  }

  /** Equal content is not enough: a failure refused for its contact is taken when it is delivered again, once its
      customer has been stored under another contact. */
  lemma ReplayOpensACase(a: Delivery, d: Delivery, k: Delivery, p: string)
    requires ValidFailure(a, "a") && ValidFailure(d, p) && ValidFailure(k, "k") && p !in {"a", "k"}
    requires a.eventId != d.eventId && d.eventId != k.eventId && a.eventId != k.eventId
    requires ContactOf(a).Some? && ContactOf(d) == ContactOf(a) && CustomerOf(a).None?
    requires CustomerOf(d).Some? && CustomerOf(k) == CustomerOf(d) && ContactOf(k) != ContactOf(d)
    ensures p !in IngestAll(EMPTY, [a, d, k]).cases && p in IngestAll(EMPTY, [a, d, k, d]).cases
  {
    FirstFailure(a, "a");
    var s := After(EMPTY, a);
    RaisesWhen(s, d);
    ReadableParts(k);
    RefusedWhen(s, k);
    SeenGrows(s, k);
    var t := After(s, k);
    FailureOpens(s, k, "k", p);
    RefusedWhen(t, d);
    FailureOpens(t, d, p, p);
    assert [a, d, k, d][..3] == [a, d, k] && [a, d, k][..2] == [a, d] && [a, d][..1] == [a];
    hide Ingested, After;
  }

  lemma FailureOpens(s: Store, d: Delivery, q: string, p: string)
    requires ValidFailure(d, q) && d.eventId !in s.seen && Ingested(s, d).Ok?
    ensures p in After(s, d).cases <==> p in s.cases || p == q
    ensures CustomerOf(d).Some? ==> CustomerOf(d).value in After(s, d).customers
  {
    hide TokenOf;
  }

  /** And other content under an id is taken when what was delivered first could not be read. */
  lemma OtherContentUnderAnId(bad: Delivery, good: Delivery, p: string)
    requires bad.eventId == good.eventId && Unreadable(bad) && ValidFailure(good, p)
    ensures IngestAll(EMPTY, [bad, good]).cases.Keys == {p}
    ensures IngestAll(EMPTY, FirstOccurrences([bad, good])) == EMPTY
  {
    FirstFailure(good, p);
    assert [bad, good][..1] == [bad] && [bad][..0] == [];
    assert Ids([bad]) == {bad.eventId} by { assert bad in [bad]; }
    assert FirstOccurrences([bad]) == [bad];
    assert FirstOccurrences([bad, good]) == [bad];
    assert IngestAll(EMPTY, [bad]) == EMPTY;
  }
}
