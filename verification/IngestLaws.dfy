/** What ingestion promises about whole sequences of deliveries. */
module IngestLaws {
  import opened Enums
  import opened Fsm
  import opened Rows
  import opened CaseRuns
  import opened Ingest
  import opened Clashes

  // ----- One case per failed payment -----

  lemma CaseOpens(s: Store, d: Delivery, p: string)
    ensures p in After(s, d).cases <==>
      p in s.cases || (d.eventId !in s.seen && ValidFailure(d, p) && !Clash(s, d.entity.value))
  {
    hide TokenOf, WithCustomer, Clash;
  }

  /** The payment's failure takes effect. */
  ghost predicate FailureTaken(ds: seq<Delivery>, i: nat, p: string) { Taken(ds, i) && ValidFailure(ds[i], p) }

  /** Where no customers clash, a payment has a case if and only if some verified, readable payment.failed for it
      came after nothing but unreadable ones under its event id. */
  lemma {:induction false} CasesAreFailedPayments(ds: seq<Delivery>, p: string)
    requires Smooth(ds)
    ensures p in IngestAll(EMPTY, ds).cases <==> exists i: nat :: FailureTaken(ds, i, p)
  {
    hide After, Smooth, Taken, ValidFailure, Holds, OnlyIngested;
    if |ds| == 0 {
      TakenIsDelivered(ds);
    } else {
      var n := |ds| - 1;
      var s := IngestAll(EMPTY, ds[..n]);
      PrefixSmooth(ds, n);
      CasesAreFailedPayments(ds[..n], p);
      TakesAtTurn(ds);
      CaseOpens(s, ds[n], p);
      FailureIsReadable(ds[n], p);
      FailedGrows(ds, ds[..n], p);
    }
  }

  lemma TakenIsDelivered(ds: seq<Delivery>)
    ensures forall i: nat | Taken(ds, i) :: i < |ds| && Readable(ds[i])
  {
  }

  lemma FailureIsReadable(d: Delivery, p: string)
    ensures ValidFailure(d, p) || ValidCapture(d, p) ==> Readable(d)
  {
  }

  /** Where nothing clashes, a readable delivery takes effect at its turn if and only if it is taken. */
  lemma TakesAtTurn(ds: seq<Delivery>)
    requires |ds| > 0 && Smooth(ds)
    ensures
      var n := |ds| - 1;
      var s := IngestAll(EMPTY, ds[..n]);
      && OnlyIngested(s)
      && (Readable(ds[n]) ==> (ds[n].eventId !in s.seen <==> Taken(ds, n)))
      && (Taken(ds, n) ==> Readable(ds[n]) && !Clash(s, ds[n].entity.value))
  {
    hide Smooth, Taken, IngestAll, Clash, NewCustomer, Holds, OnlyIngested;
    var n := |ds| - 1;
    PrefixSmooth(ds, n);
    SmoothHolds(ds[..n]);
    TurnOf(ds, IngestAll(EMPTY, ds[..n]), n);
    SmoothGrows(ds);
    NewIsTaken(ds, n);
  }

  lemma FailedGrows(ds: seq<Delivery>, before: seq<Delivery>, p: string)
    requires |ds| > 0 && before == ds[..|ds| - 1]
    ensures (exists i: nat :: FailureTaken(ds, i, p)) <==>
      (exists i: nat :: FailureTaken(before, i, p)) || FailureTaken(ds, |before|, p)
  {
    PrefixTaken(ds, |before|);
    hide ValidFailure;
    assert forall i: nat | Taken(ds, i) :: i <= |before|;
    assert forall i: nat | i < |before| :: before[i] == ds[i];
    assert forall i: nat | i < |before| :: FailureTaken(before, i, p) <==> FailureTaken(ds, i, p);
    assert forall i: nat | FailureTaken(before, i, p) :: i < |before| && FailureTaken(ds, i, p);
  }

  /** Whatever clashes, no payment has a case without a failure of its own. */
  lemma {:induction false} CasesComeFromFailures(ds: seq<Delivery>, p: string)
    ensures p in IngestAll(EMPTY, ds).cases ==> exists d :: d in ds && ValidFailure(d, p)
  {
    hide After, ValidFailure;
    if |ds| > 0 {
      CasesComeFromFailures(ds[..|ds| - 1], p);
      CaseOpens(IngestAll(EMPTY, ds[..|ds| - 1]), ds[|ds| - 1], p);
      assert ds[|ds| - 1] in ds && forall d | d in ds[..|ds| - 1] :: d in ds;
    }
  }

  /** Equal failures under one id are not enough: a forged delivery that uses the id first is committed, and the genuine
      one is then skipped. */
  lemma ForgeryTakesTheId(forged: Delivery, genuine: Delivery, p: string)
    requires !forged.signatureValid && ValidFailure(genuine, p) && forged.eventId == genuine.eventId
    ensures IngestAll(EMPTY, [forged, genuine]).cases == map[]
    ensures p in IngestAll(EMPTY, [genuine, forged]).cases
  {
    assert [forged, genuine][..1] == [forged] && [genuine, forged][..1] == [genuine];
    assert [forged][..0] == [] && IngestAll(EMPTY, [forged]) == After(EMPTY, forged);
    FirstFailure(genuine, p);
    CaseOpens(After(EMPTY, genuine), forged, p);
  }

  /** The delivery is refused for its signature: nothing before it has spent its id. */
  predicate Refused(ds: seq<Delivery>, i: nat) {
    i < |ds| && !ds[i].signatureValid && forall k | 0 <= k < i && ds[k].eventId == ds[i].eventId :: Unreadable(ds[k])
  }

  function Refusals(ds: seq<Delivery>): nat {
    if |ds| == 0 then 0 else Refusals(ds[..|ds| - 1]) + if Refused(ds, |ds| - 1) then 1 else 0
  }

  lemma RejectsWhen(s: Store, d: Delivery)
    ensures After(s, d).rejected == s.rejected + if d.eventId !in s.seen && !d.signatureValid then 1 else 0
  {
    hide WithCustomer, SelfHealed, Clash, TokenOf;
  }

  /** Where no customers clash: the rejections counted are exactly the unsigned deliveries that were the first to spend
      their id; their later copies, signed or not, are not counted again. */
  lemma {:induction false} RejectionsAreCounted(ds: seq<Delivery>)
    requires Smooth(ds)
    ensures IngestAll(EMPTY, ds).rejected == Refusals(ds)
  {
    hide After, Smooth, HoldsContacts, HoldsCustomers;
    if |ds| > 0 {
      var n := |ds| - 1;
      PrefixSmooth(ds, n);
      RejectionsAreCounted(ds[..n]);
      SmoothHolds(ds[..n]);
      RejectsWhen(IngestAll(EMPTY, ds[..n]), ds[n]);
      assert forall k | 0 <= k < n :: ds[k] in ds[..n];
    }
  }

  /** An id that carries a payment's failure carries nothing else that can be read or is committed unread. */
  predicate FailuresKeepTheirIds(ds: seq<Delivery>) {
    forall d, e | d in ds && e in ds && d.eventId == e.eventId && Readable(d) && d.kind == PaymentFailed ::
      Unreadable(e) || ValidFailure(e, d.entity.value.paymentId)
  }

  lemma {:induction false} FirstTaken(ds: seq<Delivery>, i: nat, p: string)
    requires FailuresKeepTheirIds(ds) && i < |ds| && ValidFailure(ds[i], p)
    ensures exists k: nat :: FailureTaken(ds, k, p)
    decreases i
  {
    if k: nat :| k < i && ds[k].eventId == ds[i].eventId && !Unreadable(ds[k]) {
      assert ds[k] in ds && ds[i] in ds;
      FirstTaken(ds, k, p);
    } else {
      assert FailureTaken(ds, i, p);
    }
  }

  /** So whatever the order of arrival, the same payments have cases, if contacts always come with one customer id of
      their own and failures with event ids of their own. */
  lemma EveryOrderOpensTheSameCases(ds: seq<Delivery>, es: seq<Delivery>)
    requires multiset(ds) == multiset(es) && OwnCustomers(ds) && FailuresKeepTheirIds(ds)
    ensures IngestAll(EMPTY, ds).cases.Keys == IngestAll(EMPTY, es).cases.Keys
  {
    hide Taken, ValidFailure, Ingested, ContactOf, CustomerOf;
    assert forall d :: d in ds <==> d in multiset(ds);
    assert forall d :: d in es <==> d in multiset(es);
    assert forall d :: d in ds <==> d in es;
    assert OwnCustomers(es) && FailuresKeepTheirIds(es);
    OwnCustomersAreSmooth(ds);
    OwnCustomersAreSmooth(es);
    forall p: string
      ensures p in IngestAll(EMPTY, ds).cases <==> p in IngestAll(EMPTY, es).cases
    {
      CasesAreFailedPayments(ds, p);
      CasesAreFailedPayments(es, p);
      SameFailures(ds, es, p);
      SameFailures(es, ds, p);
    }
  }

  lemma SameFailures(ds: seq<Delivery>, es: seq<Delivery>, p: string)
    requires FailuresKeepTheirIds(es) && forall d | d in ds :: d in es
    ensures (exists i: nat :: FailureTaken(ds, i, p)) ==> exists i: nat :: FailureTaken(es, i, p)
  {
    if exists i: nat :: FailureTaken(ds, i, p) {
      var i: nat :| FailureTaken(ds, i, p);
      assert ds[i] in ds;
      var k: nat :| k < |es| && es[k] == ds[i];
      FirstTaken(es, k, p);
    }
  }

  /** References number the cases 1..n, each once. */
  ghost predicate RefsFit(s: Store) {
    && s.counter == |s.cases|
    && (forall p | p in s.cases :: 1 <= s.cases[p].ref <= s.counter)
    && (forall p, q | p in s.cases && q in s.cases && s.cases[p].ref == s.cases[q].ref :: p == q)
  }

  lemma OneMore(cases: map<string, OpenCase>, p: string, c: OpenCase)
    requires p !in cases
    ensures |cases[p := c]| == |cases| + 1
  {
    assert cases[p := c].Keys == cases.Keys + {p};
  }

  lemma OpenedFits(s: Store, e: Entity, truth: GroundTruth)
    requires RefsFit(s) && e.paymentId !in s.cases
    ensures RefsFit(Opened(s, e, truth))
  {
    hide NewCaseRow, TokenOf;
    var s' := Opened(s, e, truth);
    OneMore(s.cases, e.paymentId, s'.cases[e.paymentId]);
  }

  lemma HealedFits(s: Store, e: Entity)
    requires RefsFit(s) && e.paymentId in s.cases
    ensures RefsFit(Healed(s, e))
  {
    assert Healed(s, e).cases.Keys == s.cases.Keys;
  }

  lemma IngestKeepsRefs(s: Store, d: Delivery)
    requires RefsFit(s)
    ensures RefsFit(After(s, d))
  {
    hide Opened, Healed, CanTransition, WithCustomer, Clash;
    if d.entity.Some? {
      var e := d.entity.value;
      var mirrored := WithCustomer(s.(seen := s.seen + {d.eventId}), e, d.truth)
                      .(payments := s.payments[e.paymentId := e.row]);
      if e.paymentId in s.cases {
        HealedFits(mirrored, e);
      } else {
        OpenedFits(mirrored, e, d.truth);
      }
    }
  }

  lemma {:induction false} CasesAreNumbered(ds: seq<Delivery>)
    ensures RefsFit(IngestAll(EMPTY, ds))
  {
    hide After;
    if |ds| > 0 {
      CasesAreNumbered(ds[..|ds| - 1]);
      IngestKeepsRefs(IngestAll(EMPTY, ds[..|ds| - 1]), ds[|ds| - 1]);
    }
  }

  // ----- Non-interference -----

  predicate About(d: Delivery, p: string) { d.entity.Some? && d.entity.value.paymentId == p }

  function Own(ds: seq<Delivery>, p: string): seq<Delivery> {
    if |ds| == 0 then []
    else
      var before, d := Own(ds[..|ds| - 1], p), ds[|ds| - 1];
      if About(d, p) then before + [d] else before
  }

  /** The payment and its case are the same in both stores, up to the case reference. */
  predicate AgreeOn(s: Store, t: Store, p: string) {
    && (p in s.payments <==> p in t.payments) && (p in s.payments ==> s.payments[p] == t.payments[p])
    && (p in s.cases <==> p in t.cases) && (p in s.cases ==> s.cases[p].row == t.cases[p].row)
  }

  /** Of the payment's readable deliveries `d`: their event ids carry nothing else but what cannot be read, their
      contacts always come with one customer id, and that id with one saved-token flag unless ground truth tells. */
  predicate Apart(d: Delivery, e: Delivery, p: string) {
    && (d.eventId == e.eventId ==> About(e, p) || Unreadable(e))
    && (ContactOf(d).Some? && ContactOf(e) == ContactOf(d) && e.eventId != d.eventId ==>
          CustomerOf(d).Some? && CustomerOf(e) == CustomerOf(d))
    && (CustomerOf(d).Some? && CustomerOf(e) == CustomerOf(d) ==>
          d.truth.hasToken.Some? || TokenFlag(e.truth) == TokenFlag(d.truth))
  }

  predicate KeptApart(ds: seq<Delivery>, p: string) {
    forall d, e | d in ds && e in ds && Readable(d) && About(d, p) :: Apart(d, e, p)
  }

  /** Every stored contact and customer was brought by some delivery under an id now spent. */
  ghost predicate Brought(ds: seq<Delivery>, s: Store) {
    && (forall c | c in s.contacts ::
          exists e :: e in ds && ContactOf(e) == Some(c) && e.eventId in s.seen
                      && (CustomerOf(e).Some? ==> CustomerOf(e).value in s.customers))
    && (forall x | x in s.customers ::
          exists e :: e in ds && CustomerOf(e) == Some(x) && TokenFlag(e.truth) == s.customers[x])
  }

  /** How the customer tables change. */
  lemma TablesAfter(s: Store, d: Delivery)
    ensures
      var s' := After(s, d);
      || (s'.contacts == s.contacts && s'.customers == s.customers)
      || (ContactOf(d).Some? && s'.contacts == s.contacts + {ContactOf(d).value} && d.eventId in s'.seen
          && s'.customers ==
             if CustomerOf(d).Some? then s.customers[CustomerOf(d).value := TokenFlag(d.truth)] else s.customers)
  {
  }

  lemma StaysBrought(ds: seq<Delivery>, s: Store, d: Delivery)
    requires Brought(ds, s) && d in ds
    ensures Brought(ds, After(s, d))
  {
    TablesAfter(s, d);
    SeenGrows(s, d);
    hide After, ContactOf, CustomerOf, TokenFlag;
    var s' := After(s, d);
    forall c | c in s'.contacts
      ensures exists e :: e in ds && ContactOf(e) == Some(c) && e.eventId in s'.seen
                          && (CustomerOf(e).Some? ==> CustomerOf(e).value in s'.customers)
    {
      if c in s.contacts {
        var e :| e in ds && ContactOf(e) == Some(c) && e.eventId in s.seen
                 && (CustomerOf(e).Some? ==> CustomerOf(e).value in s.customers);
      }
    }
  }

  /** The payment's readable delivery, when new, meets no clash, and its case would get its own flag. */
  lemma OwnCustomerIsFound(ds: seq<Delivery>, s: Store, d: Delivery, p: string)
    requires KeptApart(ds, p) && Brought(ds, s) && d in ds && Readable(d) && About(d, p) && d.eventId !in s.seen
    ensures
      var e := d.entity.value;
      !Clash(s, e) && TokenOf(WithCustomer(s, e, d.truth), e, d.truth) == TokenFlag(d.truth)
  {
    var e := d.entity.value;
    if e.contact.Some? {
      assert ContactOf(d) == e.contact && CustomerOf(d) == e.customerId;
      if e.contact.value in s.contacts {
        var f :| f in ds && ContactOf(f) == e.contact && f.eventId in s.seen
                 && (CustomerOf(f).Some? ==> CustomerOf(f).value in s.customers);
        assert Apart(d, f, p);
      }
      if Known(s, e) {
        var f :| f in ds && CustomerOf(f) == e.customerId && TokenFlag(f.truth) == s.customers[e.customerId.value];
        assert Apart(d, f, p);
      }
    }
  }

  lemma OthersLeaveAlone(s: Store, d: Delivery, p: string)
    requires !About(d, p)
    ensures AgreeOn(After(s, d), s, p)
  {
    hide Clash, WithCustomer, TokenOf;
  }

  lemma OwnStepsAgree(s: Store, t: Store, d: Delivery, p: string)
    requires AgreeOn(s, t, p) && About(d, p) && (Readable(d) ==> (d.eventId in s.seen <==> d.eventId in t.seen))
    requires Readable(d) && d.eventId !in s.seen ==>
      var e := d.entity.value;
      && !Clash(s, e) && !Clash(t, e)
      && TokenOf(WithCustomer(s, e, d.truth), e, d.truth) == TokenOf(WithCustomer(t, e, d.truth), e, d.truth)
    ensures AgreeOn(After(s, d), After(t, d), p)
    ensures Readable(d) ==> (d.eventId in After(s, d).seen <==> d.eventId in After(t, d).seen)
    ensures Genuine(d) || (d.eventId in After(s, d).seen && d.eventId in After(t, d).seen)
  {
    hide SelfHealed, NewCaseRow, Clash, WithCustomer, TokenOf;
    if Readable(d) {
      TokenMirrored(s, d);
      TokenMirrored(t, d);
    }
  }

  lemma TokenMirrored(s: Store, d: Delivery)
    requires Readable(d)
    ensures
      var e := d.entity.value;
      var mirrored :=
        WithCustomer(s.(seen := s.seen + {d.eventId}), e, d.truth).(payments := s.payments[e.paymentId := e.row]);
      TokenOf(mirrored, e, d.truth) == TokenOf(WithCustomer(s, e, d.truth), e, d.truth)
  {
  }

  /** The two stores have spent the same ids of the payment's readable deliveries. */
  predicate SeenAlike(ds: seq<Delivery>, s: Store, t: Store, p: string) {
    forall d | d in ds && Readable(d) && About(d, p) :: d.eventId in s.seen <==> d.eventId in t.seen
  }

  lemma StepsAgree(ds: seq<Delivery>, s: Store, t: Store, d: Delivery, p: string)
    requires KeptApart(ds, p) && d in ds && AgreeOn(s, t, p) && SeenAlike(ds, s, t, p)
    requires Brought(ds, s) && Brought(ds, t)
    ensures
      var t' := if About(d, p) then After(t, d) else t;
      AgreeOn(After(s, d), t', p) && SeenAlike(ds, After(s, d), t', p)
  {
    hide Ingested, After, Brought, AgreeOn, Clash, TokenOf;
    SeenGrows(s, d);
    SeenGrows(t, d);
    if About(d, p) {
      if Readable(d) && d.eventId !in s.seen {
        OwnCustomerIsFound(ds, s, d, p);
        OwnCustomerIsFound(ds, t, d, p);
      }
      OwnStepsAgree(s, t, d, p);
    } else {
      OthersLeaveAlone(s, d, p);
      AgreesThrough(After(s, d), s, t, p);
      if Unreadable(d) {
        UnreadableSpendsNothing(s, d);
      }
      assert forall e | e in ds && Readable(e) && About(e, p) && e.eventId == d.eventId :: Apart(e, d, p);
    }
  }

  lemma AgreesThrough(s': Store, s: Store, t: Store, p: string)
    requires AgreeOn(s', s, p) && AgreeOn(s, t, p)
    ensures AgreeOn(s', t, p)
  {
  }

  lemma UnreadableSpendsNothing(s: Store, d: Delivery)
    requires Unreadable(d)
    ensures After(s, d) == s
  {
  }

  lemma {:induction false} OwnIngestsAgree(ds: seq<Delivery>, n: nat, p: string)
    requires KeptApart(ds, p) && n <= |ds|
    ensures
      var s, t := IngestAll(EMPTY, ds[..n]), IngestAll(EMPTY, Own(ds[..n], p));
      AgreeOn(s, t, p) && SeenAlike(ds, s, t, p) && Brought(ds, s) && Brought(ds, t)
  {
    hide After, AgreeOn, SeenAlike, Brought, KeptApart;
    if n == 0 {
      AgreeOnNothing(ds, p);
    } else {
      var d, own := ds[n - 1], Own(ds[..n - 1], p);
      OwnIngestsAgree(ds, n - 1, p);
      assert ds[..n][..n - 1] == ds[..n - 1];
      assert (own + [d])[..|own|] == own;
      StepsAgree(ds, IngestAll(EMPTY, ds[..n - 1]), IngestAll(EMPTY, own), d, p);
      StaysBrought(ds, IngestAll(EMPTY, ds[..n - 1]), d);
      StaysBrought(ds, IngestAll(EMPTY, own), d);
    }
  }

  lemma AgreeOnNothing(ds: seq<Delivery>, p: string)
    ensures AgreeOn(EMPTY, EMPTY, p) && SeenAlike(ds, EMPTY, EMPTY, p) && Brought(ds, EMPTY)
  {
  }

  /** Whatever else is delivered, and in whatever interleaving, a payment and its case end up as if only the
      payment's own deliveries had been ingested, if nothing else uses their event ids, contacts or customer. */
  lemma PaymentsDoNotInterfere(ds: seq<Delivery>, p: string)
    requires KeptApart(ds, p)
    ensures AgreeOn(IngestAll(EMPTY, ds), IngestAll(EMPTY, Own(ds, p)), p)
  {
    hide AgreeOn, SeenAlike, Brought, KeptApart, IngestAll;
    OwnIngestsAgree(ds, |ds|, p);
    assert ds[..|ds|] == ds;
  }

  // ----- Self-healing -----

  /** Delivery `j` is a capture of the payment that takes effect after a failure of it did. */
  ghost predicate HealsAt(ds: seq<Delivery>, j: nat, p: string) {
    Taken(ds, j) && ValidCapture(ds[j], p) && exists i: nat :: i < j && FailureTaken(ds, i, p)
  }

  lemma HealsWhen(s: Store, d: Delivery, p: string)
    requires OnlyIngested(s) && p in After(s, d).cases
    requires d.eventId !in s.seen && Readable(d) ==> !Clash(s, d.entity.value)
    ensures
      var c' := After(s, d).cases[p].row;
      if p in s.cases && s.cases[p].row.status == Recovered then
        c'.status == Recovered && c'.recoveredMinor == s.cases[p].row.recoveredMinor
      else if p in s.cases && d.eventId !in s.seen && ValidCapture(d, p) then
        c'.status == Recovered && c'.recoveredMinor == d.entity.value.row.amountMinor
      else c'.status == Detected
  {
    if About(d, p) {
      OwnHealsWhen(s, d, p);
    } else {
      OthersLeaveAlone(s, d, p);
    }
    hide Ingested, After, Clash;
  }

  lemma OwnHealsWhen(s: Store, d: Delivery, p: string)
    requires OnlyIngested(s) && About(d, p) && p in After(s, d).cases
    requires d.eventId !in s.seen && Readable(d) ==> !Clash(s, d.entity.value)
    ensures
      var c' := After(s, d).cases[p].row;
      if p in s.cases then
        if s.cases[p].row.status == Detected && d.eventId !in s.seen && ValidCapture(d, p) then
          c'.status == Recovered && c'.recoveredMinor == d.entity.value.row.amountMinor
        else c'.status == s.cases[p].row.status && c'.recoveredMinor == s.cases[p].row.recoveredMinor
      else c'.status == Detected
  {
    hide Clash, WithCustomer, TokenOf;
  }

  lemma PrefixHeals(ds: seq<Delivery>, j: nat, p: string)
    requires j < |ds| - 1
    ensures HealsAt(ds[..|ds| - 1], j, p) <==> HealsAt(ds, j, p)
  {
    hide ValidFailure, ValidCapture, Taken;
    var before := ds[..|ds| - 1];
    PrefixTaken(ds, |ds| - 1);
    assert forall i: nat | i <= j :: before[i] == ds[i] && (FailureTaken(before, i, p) <==> FailureTaken(ds, i, p));
  }

  /** A capture takes effect at its turn exactly when it heals. */
  lemma LastHeals(ds: seq<Delivery>, p: string)
    requires Smooth(ds) && |ds| > 0
    ensures
      var n := |ds| - 1;
      var s := IngestAll(EMPTY, ds[..n]);
      HealsAt(ds, n, p) <==> p in s.cases && ds[n].eventId !in s.seen && ValidCapture(ds[n], p)
  {
    hide IngestAll, Smooth, Taken, ValidFailure, ValidCapture, OnlyIngested;
    var n := |ds| - 1;
    PrefixSmooth(ds, n);
    CasesAreFailedPayments(ds[..n], p);
    TakesAtTurn(ds);
    FailureIsReadable(ds[n], p);
    PrefixTaken(ds, n);
    TakenIsDelivered(ds[..n]);
    assert forall i: nat | i < n :: ds[..n][i] == ds[i] && (FailureTaken(ds[..n], i, p) <==> FailureTaken(ds, i, p));
  }

  /** Delivery `j` is the first that heals. */
  ghost predicate FirstHeals(ds: seq<Delivery>, j: nat, p: string) {
    HealsAt(ds, j, p) && forall m: nat | m < j :: !HealsAt(ds, m, p)
  }

  /** How a case of an ingested world came to be recovered. */
  ghost predicate Explained(ds: seq<Delivery>, c: CaseRow, p: string) {
    if c.status == Recovered then
      c.outcome == Some(OutSelfHealed) &&
      exists j: nat :: FirstHeals(ds, j, p) && c.recoveredMinor == ds[j].entity.value.row.amountMinor
    else forall j: nat :: !HealsAt(ds, j, p)
  }

  /** One more delivery keeps the first that healed, or is it. */
  lemma OneMoreHeals(ds: seq<Delivery>, c: CaseRow, c': CaseRow, p: string)
    requires |ds| > 0 && Explained(ds[..|ds| - 1], c, p)
    requires HealsAt(ds, |ds| - 1, p) ==> ds[|ds| - 1].entity.Some?
    requires c'.status == Recovered ==> c'.outcome == Some(OutSelfHealed)
    requires
      if c.status == Recovered then c'.status == Recovered && c'.recoveredMinor == c.recoveredMinor
      else if HealsAt(ds, |ds| - 1, p) then
        c'.status == Recovered && c'.recoveredMinor == ds[|ds| - 1].entity.value.row.amountMinor
      else c'.status == Detected
    ensures Explained(ds, c', p)
  {
    var n := |ds| - 1;
    forall j: nat | j < n
      ensures HealsAt(ds[..n], j, p) <==> HealsAt(ds, j, p)
    {
      PrefixHeals(ds, j, p);
    }
    HealsInRange(ds, p);
    HealsInRange(ds[..n], p);
    hide HealsAt;
    if c.status == Recovered {
      var j: nat :| FirstHeals(ds[..n], j, p) && c.recoveredMinor == ds[..n][j].entity.value.row.amountMinor;
      assert ds[..n][j] == ds[j] && FirstHeals(ds, j, p);
    } else if HealsAt(ds, n, p) {
      assert FirstHeals(ds, n, p);
    }
  }

  lemma HealsInRange(ds: seq<Delivery>, p: string)
    ensures forall j: nat | HealsAt(ds, j, p) :: j < |ds| && Readable(ds[j])
  {
  }

  /** Whatever arrives in between, where no customers clash a failed payment's case is self-healed if and only if one
      of its captures takes effect after one of its failures, and then it holds the amount of the first such
      capture. */
  lemma {:induction false} FailedThenCapturedHeals(ds: seq<Delivery>, p: string)
    requires Smooth(ds) && p in IngestAll(EMPTY, ds).cases
    ensures Explained(ds, IngestAll(EMPTY, ds).cases[p].row, p)
  {
    hide Ingested, After, Explained, Smooth, Taken, HealsAt, OnlyIngested, Clash;
    if |ds| > 0 {
      var n := |ds| - 1;
      var s, d := IngestAll(EMPTY, ds[..n]), ds[n];
      TakesAtTurn(ds);
      HealsWhen(s, d, p);
      LastHeals(ds, p);
      HealsInRange(ds, p);
      IngestedOnly(s, d);
      StatusesLeft(After(s, d), p);
      if p in s.cases {
        PrefixSmooth(ds, n);
        FailedThenCapturedHeals(ds[..n], p);
        OneMoreHeals(ds, s.cases[p].row, After(s, d).cases[p].row, p);
      } else {
        NoCaseNoHeal(ds, p);
        NeverHeals(ds, After(s, d).cases[p].row, p);
      }
    }
  }

  lemma StatusesLeft(s: Store, p: string)
    requires OnlyIngested(s) && p in s.cases
    ensures s.cases[p].row.status == Recovered ==> s.cases[p].row.outcome == Some(OutSelfHealed)
  {
  }

  lemma NeverHeals(ds: seq<Delivery>, c: CaseRow, p: string)
    requires c.status != Recovered && forall j: nat :: !HealsAt(ds, j, p)
    ensures Explained(ds, c, p)
  {
  }

  lemma NoCaseNoHeal(ds: seq<Delivery>, p: string)
    requires Smooth(ds) && |ds| > 0 && p !in IngestAll(EMPTY, ds[..|ds| - 1]).cases
    ensures forall j: nat :: !HealsAt(ds, j, p)
  {
    hide IngestAll, Smooth, Taken, ValidFailure;
    var n := |ds| - 1;
    PrefixSmooth(ds, n);
    CasesAreFailedPayments(ds[..n], p);
    PrefixTaken(ds, n);
    TakenIsDelivered(ds);
    assert forall i: nat | i < n :: ds[..n][i] == ds[i] && (FailureTaken(ds[..n], i, p) <==> FailureTaken(ds, i, p));
  }

  // ----- Late webhooks on a recovered case -----

  /** A later delivery under a new id that meets no clash: a payment.failed overwrites the payment's mirror but not the
      recovered case, so a RECOVERED case may stand beside a FAILED payment; a capture re-stamps the case's diagnosis
      and strategy and leaves its money. One that clashes changes nothing. */
  lemma LateWebhooks(s: Store, d: Delivery, p: string)
    requires p in s.cases && s.cases[p].row.status == Recovered && d.eventId !in s.seen
    requires ValidFailure(d, p) || ValidCapture(d, p)
    ensures var s' := After(s, d);
      if Clash(s, d.entity.value) then s' == s
      else
        && s'.payments == s.payments[p := d.entity.value.row]
        && s'.cases.Keys == s.cases.Keys
        && s'.cases[p].row ==
             if ValidFailure(d, p) then s.cases[p].row
             else s.cases[p].row.(diagnosis := Some(DuplicateSelfHealed), strategy := Some(S6))
  {
    hide Clash, WithCustomer;
    assert s.payments[p := d.entity.value.row][p := d.entity.value.row] == s.payments[p := d.entity.value.row];
  }
}
