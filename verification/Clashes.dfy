/** When customer rows clash (app/services/ingest.py:67-102). A customer is looked up by the provider's id alone, but
    contacts are unique (app/db/models.py:84-86): a later payment event of a stored contact, under no id or under one
    that is not stored, raises and is rolled back. */
module Clashes {
  import opened Enums
  import opened Fsm
  import opened Rows
  import opened CaseRuns
  import opened Ingest

  function Ids(ds: seq<Delivery>): set<string> { set d | d in ds :: d.eventId }

  /** A verified payment event that can be read. */
  predicate Readable(d: Delivery) { Genuine(d) && d.entity.Some? }

  predicate Unreadable(d: Delivery) { Genuine(d) && d.entity.None? }

  /** The contact the delivery's customer is stored under. */
  function ContactOf(d: Delivery): Option<string> { if Readable(d) then d.entity.value.contact else None }

  /** The provider's id its customer is looked up by. */
  function CustomerOf(d: Delivery): Option<string> {
    if ContactOf(d).Some? then d.entity.value.customerId else None
  }

  predicate ValidFailure(d: Delivery, p: string) {
    d.signatureValid && d.kind == PaymentFailed && d.entity.Some? && d.entity.value.paymentId == p
  }

  predicate ValidCapture(d: Delivery, p: string) {
    d.signatureValid && d.kind == PaymentCaptured && d.entity.Some? && d.entity.value.paymentId == p
  }

  // ----- One delivery -----

  lemma SeenGrows(s: Store, d: Delivery)
    ensures After(s, d).seen == s.seen + (if Ingested(s, d).Ok? then {d.eventId} else {})
  {
  }

  /** A readable payment event raises exactly when its contact is stored and its customer's id is missing or not
      stored, or when it is a capture of a case that can no longer be recovered. */
  lemma RaisesWhen(s: Store, d: Delivery)
    requires Readable(d) && d.eventId !in s.seen
    ensures var e := d.entity.value;
      Ingested(s, d).Raised? <==>
        || (e.contact.Some? && e.contact.value in s.contacts
            && (e.customerId.None? || e.customerId.value !in s.customers))
        || (d.kind == PaymentCaptured && e.paymentId in s.cases
            && !CanTransition(s.cases[e.paymentId].row.status, Recovered))
  {
  }

  // ----- Which deliveries take effect -----

  /** The delivery can be read, and all before it under its id could not. */
  predicate Taken(ds: seq<Delivery>, i: nat) {
    i < |ds| && Readable(ds[i]) && forall k | 0 <= k < i && ds[k].eventId == ds[i].eventId :: Unreadable(ds[k])
  }

  /** It brings a customer under no id, or under an id not taken before. */
  predicate NewCustomer(ds: seq<Delivery>, i: nat) {
    && Taken(ds, i) && ContactOf(ds[i]).Some?
    && (CustomerOf(ds[i]).Some? ==> forall k | 0 <= k < i && Taken(ds, k) :: CustomerOf(ds[k]) != CustomerOf(ds[i]))
  }

  /** No two new customers come with one contact. */
  predicate Smooth(ds: seq<Delivery>) {
    forall i, j | 0 <= i < j < |ds| && NewCustomer(ds, i) && NewCustomer(ds, j) ::
      ContactOf(ds[i]) != ContactOf(ds[j])
  }

  /** Contacts always come with one id of their own. */
  predicate OwnCustomers(ds: seq<Delivery>) {
    forall d, e | d in ds && e in ds && ContactOf(d).Some? && ContactOf(d) == ContactOf(e) && d.eventId != e.eventId ::
      CustomerOf(d).Some? && CustomerOf(d) == CustomerOf(e)
  }

  lemma OwnCustomersAreSmooth(ds: seq<Delivery>)
    requires OwnCustomers(ds)
    ensures Smooth(ds)
  {
    forall i, j | 0 <= i < j < |ds| && NewCustomer(ds, i) && NewCustomer(ds, j)
      ensures ContactOf(ds[i]) != ContactOf(ds[j])
    {
      assert ds[i] in ds && ds[j] in ds;
    }
  }

  // ----- Prefixes -----

  lemma PrefixTaken(ds: seq<Delivery>, n: nat)
    requires n <= |ds|
    ensures forall i: nat | i < n :: Taken(ds[..n], i) <==> Taken(ds, i)
    ensures forall i: nat | i < n :: NewCustomer(ds[..n], i) <==> NewCustomer(ds, i)
  {
    assert forall i | 0 <= i < n :: ds[..n][i] == ds[i];
    hide Readable, Unreadable, ContactOf, CustomerOf;
    assert forall i: nat | i < n :: Taken(ds[..n], i) <==> Taken(ds, i);
    hide Taken;
  }

  lemma PrefixSmooth(ds: seq<Delivery>, n: nat)
    requires n <= |ds| && Smooth(ds)
    ensures Smooth(ds[..n])
  {
    hide NewCustomer, ContactOf;
    PrefixTaken(ds, n);
    assert forall i | 0 <= i < n :: ds[..n][i] == ds[i];
  }

  // ----- What the store holds -----

  /** Ingestion alone leaves every case new or self-healed. */
  ghost predicate OnlyIngested(s: Store) {
    forall p | p in s.cases ::
      var c := s.cases[p].row;
      c.status == Detected || (c.status == Recovered && c.outcome == Some(OutSelfHealed))
  }

  lemma IngestedOnly(s: Store, d: Delivery)
    requires OnlyIngested(s)
    ensures OnlyIngested(After(s, d))
  {
    hide Clash, TokenOf, WithCustomer;
  }

  /** The ids spent, the contacts and the customers stored are those of the deliveries that take effect. */
  ghost predicate Holds(ds: seq<Delivery>, s: Store) {
    HoldsIds(ds, s.seen) && HoldsContacts(ds, s.contacts) && HoldsCustomers(ds, s.customers.Keys)
  }

  ghost predicate HoldsIds(ds: seq<Delivery>, seen: set<string>) {
    forall id :: id in seen <==> exists d :: d in ds && d.eventId == id && !Unreadable(d)
  }

  ghost predicate HoldsContacts(ds: seq<Delivery>, contacts: set<string>) {
    forall c :: c in contacts <==> exists i: nat :: NewCustomer(ds, i) && ContactOf(ds[i]) == Some(c)
  }

  ghost predicate HoldsCustomers(ds: seq<Delivery>, ids: set<string>) {
    forall x :: x in ids <==> exists i: nat :: Taken(ds, i) && CustomerOf(ds[i]) == Some(x)
  }

  /** At its turn the delivery is new and its customer clashes. */
  predicate ClashesAt(ds: seq<Delivery>, j: nat)
    requires j < |ds|
  {
    var s := IngestAll(EMPTY, ds[..j]);
    Readable(ds[j]) && ds[j].eventId !in s.seen && Clash(s, ds[j].entity.value)
  }

  lemma TurnOf(ds: seq<Delivery>, s: Store, n: nat)
    requires n < |ds| && Holds(ds[..n], s)
    ensures Readable(ds[n]) ==> (ds[n].eventId !in s.seen <==> Taken(ds, n))
    ensures Taken(ds, n) ==>
      (Clash(s, ds[n].entity.value) <==>
       NewCustomer(ds, n) && exists i: nat :: i < n && NewCustomer(ds, i) && ContactOf(ds[i]) == ContactOf(ds[n]))
  {
    var before, d := ds[..n], ds[n];
    PrefixTaken(ds, n);
    assert forall i | 0 <= i < n :: before[i] == ds[i];
    if Taken(ds, n) && ContactOf(d).Some? {
      hide NewCustomer;
      assert Known(s, d.entity.value) <==>
        CustomerOf(d).Some? && exists i: nat :: i < n && Taken(ds, i) && CustomerOf(ds[i]) == CustomerOf(d);
    }
  }

  /** A readable delivery that is new and does not clash commits. */
  lemma Commits(s: Store, d: Delivery)
    requires Readable(d) && d.eventId !in s.seen && !Clash(s, d.entity.value) && OnlyIngested(s)
    ensures
      var s' := After(s, d);
      var c := WithCustomer(s, d.entity.value, d.truth);
      s'.seen == s.seen + {d.eventId} && s'.contacts == c.contacts && s'.customers == c.customers
  {
    hide Clash, TokenOf, SelfHealed, NewCaseRow;
  }

  lemma OthersStoreNone(s: Store, d: Delivery)
    requires !Readable(d) || d.eventId in s.seen
    ensures
      var s' := After(s, d);
      && s'.contacts == s.contacts && s'.customers == s.customers
      && s'.seen == s.seen + if Unreadable(d) then {} else {d.eventId}
  {
  }

  lemma IdsHold(ds: seq<Delivery>, seen: set<string>, d: Delivery)
    requires HoldsIds(ds, seen)
    ensures HoldsIds(ds + [d], seen + if Unreadable(d) then {} else {d.eventId})
  {
    assert forall e :: e in ds + [d] <==> e in ds || e == d;
  }

  lemma ContactsHold(ds: seq<Delivery>, contacts: set<string>)
    requires |ds| > 0 && HoldsContacts(ds[..|ds| - 1], contacts)
    ensures HoldsContacts(ds, contacts + if NewCustomer(ds, |ds| - 1) then {ContactOf(ds[|ds| - 1]).value} else {})
  {
    var n := |ds| - 1;
    PrefixTaken(ds, n);
    assert forall i: nat :: NewCustomer(ds, i) ==> i <= n;
    assert forall i: nat | NewCustomer(ds[..n], i) :: ds[..n][i] == ds[i] && NewCustomer(ds, i);
    hide NewCustomer, Taken, ContactOf;
  }

  lemma CustomersHold(ds: seq<Delivery>, ids: set<string>)
    requires |ds| > 0 && HoldsCustomers(ds[..|ds| - 1], ids)
    ensures HoldsCustomers(ds, ids + if Taken(ds, |ds| - 1) && CustomerOf(ds[|ds| - 1]).Some?
                                     then {CustomerOf(ds[|ds| - 1]).value} else {})
  {
    var n := |ds| - 1;
    PrefixTaken(ds, n);
    assert forall i: nat :: Taken(ds, i) ==> i <= n;
    assert forall i: nat | Taken(ds[..n], i) :: ds[..n][i] == ds[i] && Taken(ds, i);
    hide NewCustomer, Taken, CustomerOf;
  }

  lemma StepHolds(ds: seq<Delivery>, s: Store)
    requires |ds| > 0 && Holds(ds[..|ds| - 1], s) && OnlyIngested(s)
    requires Taken(ds, |ds| - 1) ==> !Clash(s, ds[|ds| - 1].entity.value)
    ensures Holds(ds, After(s, ds[|ds| - 1]))
  {
    hide Ingested, After, OnlyIngested, HoldsIds, HoldsContacts;
    var n := |ds| - 1;
    var d := ds[n];
    IdsHold(ds[..n], s.seen, d);
    ContactsHold(ds, s.contacts);
    CustomersHold(ds, s.customers.Keys);
    assert ds[..n] + [d] == ds;
    TurnOf(ds, s, n);
    if Taken(ds, n) {
      Commits(s, d);
      KnownWhen(ds, s);
    } else {
      OthersStoreNone(s, d);
    }
    hide HoldsCustomers;
    var s' := After(s, d);
    assert s'.seen == s.seen + if Unreadable(d) then {} else {d.eventId};
    assert s'.contacts == s.contacts + if NewCustomer(ds, n) then {ContactOf(d).value} else {};
    assert s'.customers.Keys
           == s.customers.Keys + if Taken(ds, n) && CustomerOf(d).Some? then {CustomerOf(d).value} else {};
  }

  /** A new customer is one that is not known. */
  lemma KnownWhen(ds: seq<Delivery>, s: Store)
    requires |ds| > 0 && HoldsCustomers(ds[..|ds| - 1], s.customers.Keys) && Taken(ds, |ds| - 1)
    ensures ContactOf(ds[|ds| - 1]).Some? ==> (NewCustomer(ds, |ds| - 1) <==> !Known(s, ds[|ds| - 1].entity.value))
  {
    var n := |ds| - 1;
    PrefixTaken(ds, n);
    assert forall i | 0 <= i < n :: ds[..n][i] == ds[i];
  }

  // ----- When deliveries clash -----

  /** The last delivery joins an earlier new customer under its contact. */
  ghost predicate Pairs(ds: seq<Delivery>)
    requires |ds| > 0
  {
    var n := |ds| - 1;
    exists i: nat :: i < n && NewCustomer(ds, n) && NewCustomer(ds, i) && ContactOf(ds[i]) == ContactOf(ds[n])
  }

  lemma SmoothGrows(ds: seq<Delivery>)
    requires |ds| > 0 && Smooth(ds[..|ds| - 1])
    ensures Smooth(ds) <==> !Pairs(ds)
  {
    hide NewCustomer, ContactOf;
    var n := |ds| - 1;
    PrefixTaken(ds, n);
    assert forall i | 0 <= i < n :: ds[..n][i] == ds[i];
  }

  /** A sequence under which nothing clashes leaves a store that holds exactly what takes effect. */
  lemma {:induction false} SmoothHolds(ds: seq<Delivery>)
    requires Smooth(ds)
    ensures Holds(ds, IngestAll(EMPTY, ds)) && OnlyIngested(IngestAll(EMPTY, ds))
  {
    hide Holds, After, OnlyIngested, Smooth, Taken;
    if |ds| == 0 {
      NothingHolds(ds);
    } else {
      var n := |ds| - 1;
      var s := IngestAll(EMPTY, ds[..n]);
      PrefixSmooth(ds, n);
      SmoothHolds(ds[..n]);
      TurnOf(ds, s, n);
      SmoothGrows(ds);
      StepHolds(ds, s);
      IngestedOnly(s, ds[n]);
    }
  }

  lemma NothingHolds(ds: seq<Delivery>)
    requires |ds| == 0
    ensures Holds(ds, EMPTY) && OnlyIngested(EMPTY)
  {
  }

  /** No delivery of a sequence meets a clash if and only if no two new customers come with one contact. */
  lemma {:induction false} NoneClashesIff(ds: seq<Delivery>)
    ensures (forall j | 0 <= j < |ds| :: !ClashesAt(ds, j)) <==> Smooth(ds)
  {
    hide ClashesAt, Smooth;
    if |ds| == 0 {
      NothingIsSmooth(ds);
    } else {
      var n := |ds| - 1;
      NoneClashesIff(ds[..n]);
      forall j | 0 <= j < n
        ensures ClashesAt(ds[..n], j) <==> ClashesAt(ds, j)
      {
        assert ds[..n][..j] == ds[..j] && ds[..n][j] == ds[j];
        SameTurn(ds[..n], ds, j);
      }
      if Smooth(ds[..n]) {
        LastClash(ds);
        SmoothGrows(ds);
      } else if Smooth(ds) {
        PrefixSmooth(ds, n);
      }
    }
  }

  lemma SameTurn(ds: seq<Delivery>, es: seq<Delivery>, j: nat)
    requires j < |ds| && j < |es| && ds[..j] == es[..j] && ds[j] == es[j]
    ensures ClashesAt(ds, j) <==> ClashesAt(es, j)
  {
  }

  lemma NothingIsSmooth(ds: seq<Delivery>)
    requires |ds| == 0
    ensures Smooth(ds)
  {
  }

  lemma LastClash(ds: seq<Delivery>)
    requires |ds| > 0 && Smooth(ds[..|ds| - 1])
    ensures ClashesAt(ds, |ds| - 1) <==> Pairs(ds)
  {
    hide Smooth, IngestAll, NewCustomer, Clash;
    SmoothHolds(ds[..|ds| - 1]);
    TurnOf(ds, IngestAll(EMPTY, ds[..|ds| - 1]), |ds| - 1);
    NewIsTaken(ds, |ds| - 1);
    hide Holds, OnlyIngested, Taken;
  }

  lemma NewIsTaken(ds: seq<Delivery>, i: nat)
    ensures NewCustomer(ds, i) ==> Taken(ds, i)
    ensures Taken(ds, i) ==> i < |ds| && Readable(ds[i])
  {
  }

  // ----- What a clash costs -----

  lemma {:induction false} ContactsStay(s: Store, ds: seq<Delivery>)
    ensures s.contacts <= IngestAll(s, ds).contacts
  {
    hide Ingested;
    if |ds| > 0 {
      ContactsStay(s, ds[..|ds| - 1]);
      ContactStays(IngestAll(s, ds[..|ds| - 1]), ds[|ds| - 1]);
    }
  }

  lemma ContactStays(s: Store, d: Delivery)
    ensures s.contacts <= After(s, d).contacts
  {
  }

  /** A payment event without a customer id, of a contact once stored, raises for ever, whatever is delivered under
      other ids in between. */
  lemma {:induction false} AnonymousClashIsForGood(s: Store, ds: seq<Delivery>, d: Delivery)
    requires ContactOf(d).Some? && ContactOf(d).value in s.contacts && CustomerOf(d).None?
    requires d.eventId !in s.seen && forall e | e in ds && e.eventId == d.eventId :: e == d
    ensures d.eventId !in IngestAll(s, ds).seen && Ingested(IngestAll(s, ds), d).Raised?
  {
    ContactsStay(s, ds);
    if |ds| == 0 {
      RaisesWhen(s, d);
    } else {
      var t, e := IngestAll(s, ds[..|ds| - 1]), ds[|ds| - 1];
      AnonymousClashIsForGood(s, ds[..|ds| - 1], d);
      SeenGrows(t, e);
      assert e in ds;
      RaisesWhen(IngestAll(s, ds), d);
    }
    hide Ingested, IngestAll;
  }

  lemma {:induction false} RepeatsAreRefused(s: Store, es: seq<Delivery>, d: Delivery)
    requires Ingested(s, d).Raised? && forall e | e in es :: e == d
    ensures IngestAll(s, es) == s
  {
    hide Ingested;
    if |es| > 0 {
      var before := es[..|es| - 1];
      assert es[|es| - 1] in es && forall e | e in before :: e in es;
      RepeatsAreRefused(s, before, d);
    }
  }

  lemma {:induction false} IngestConcat(s: Store, ds: seq<Delivery>, es: seq<Delivery>)
    ensures IngestAll(s, ds + es) == IngestAll(IngestAll(s, ds), es)
  {
    hide After;
    if |es| == 0 {
      assert ds + es == ds;
    } else {
      assert (ds + es)[..|ds + es| - 1] == ds + es[..|es| - 1];
      IngestConcat(s, ds, es[..|es| - 1]);
    }
  }

  lemma FirstFailure(f: Delivery, p: string)
    requires ValidFailure(f, p)
    ensures IngestAll(EMPTY, [f]) == After(EMPTY, f)
    ensures var s := After(EMPTY, f);
      && s.cases.Keys == {p} && s.cases[p].row.status == Detected && s.seen == {f.eventId}
      && (ContactOf(f).Some? ==> s.contacts == {ContactOf(f).value})
      && s.customers.Keys == if CustomerOf(f).Some? then {CustomerOf(f).value} else {}
  {
    assert [f][..0] == [];
  }

  /** One payment is enough: after its failure came with a contact, its capture without a customer id is refused
      however often it is delivered, and the case is never healed. */
  lemma AnonymousCaptureNeverHeals(f: Delivery, g: Delivery, es: seq<Delivery>, p: string)
    requires ValidFailure(f, p) && ValidCapture(g, p) && f.eventId != g.eventId
    requires ContactOf(f).Some? && ContactOf(g) == ContactOf(f) && CustomerOf(g).None?
    requires forall e | e in es :: e == g
    ensures var s := IngestAll(EMPTY, [f] + es); s.cases.Keys == {p} && s.cases[p].row.status == Detected
  {
    FirstFailure(f, p);
    RaisesWhen(After(EMPTY, f), g);
    RepeatsAreRefused(After(EMPTY, f), es, g);
    IngestConcat(EMPTY, [f], es);
    hide Ingested, IngestAll;
  }

  /** A second payment of the same contact, under no id or another one, gets no case. */
  lemma SecondPaymentGetsNoCase(f: Delivery, g: Delivery, p: string, q: string)
    requires ValidFailure(f, p) && ValidFailure(g, q) && p != q && f.eventId != g.eventId
    requires ContactOf(f).Some? && ContactOf(g) == ContactOf(f)
    requires CustomerOf(g).None? || CustomerOf(g) != CustomerOf(f)
    ensures IngestAll(EMPTY, [f, g]).cases.Keys == {p}
  {
    FirstFailure(f, p);
    RaisesWhen(After(EMPTY, f), g);
    assert [f, g][..1] == [f];
    hide Ingested;
  }
}
