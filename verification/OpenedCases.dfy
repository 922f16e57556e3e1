/** What ingestion leaves on a payment and its case, told from the deliveries alone (app/services/ingest.py:67-222):
    where no customers clash. */
module OpenedCases {
  import opened Enums
  import opened Trail
  import opened Rows
  import opened CaseRuns
  import opened Ingest
  import opened Clashes
  import opened IngestLaws

  // ----- Customers -----

  /** Delivery `k` is the first to bring this customer. */
  ghost predicate Brings(ds: seq<Delivery>, k: nat, x: string) {
    Taken(ds, k) && CustomerOf(ds[k]) == Some(x)
  }

  ghost predicate FirstBrings(ds: seq<Delivery>, k: nat, x: string) {
    Brings(ds, k, x) && forall m: nat | m < k :: !Brings(ds, m, x)
  }

  /** A stored customer has the flag it was first brought with. */
  ghost predicate FlagsAsBrought(ds: seq<Delivery>, s: Store) {
    forall x, k: nat | x in s.customers && FirstBrings(ds, k, x) ::
      s.customers[x] <==> ds[k].truth.hasToken == Some(true)
  }

  lemma PrefixBrings(ds: seq<Delivery>, n: nat)
    requires n <= |ds|
    ensures forall k: nat, x | k < n :: Brings(ds[..n], k, x) <==> Brings(ds, k, x)
    ensures forall k: nat, x | k < n :: FirstBrings(ds[..n], k, x) <==> FirstBrings(ds, k, x)
  {
    PrefixTaken(ds, n);
    hide Taken, CustomerOf;
    assert forall k: nat | k < n :: ds[..n][k] == ds[k];
    assert forall k: nat, x | k < n :: Brings(ds[..n], k, x) <==> Brings(ds, k, x);
    hide Brings;
  }

  /** How a delivery that takes effect changes the customers. */
  lemma CustomersAfter(s: Store, d: Delivery)
    requires OnlyIngested(s) && (Readable(d) && d.eventId !in s.seen ==> !Clash(s, d.entity.value))
    ensures
      var s' := After(s, d);
      if Readable(d) && d.eventId !in s.seen && CustomerOf(d).Some? && CustomerOf(d).value !in s.customers
      then s'.customers == s.customers[CustomerOf(d).value := d.truth.hasToken == Some(true)]
      else s'.customers == s.customers
  {
    hide TokenOf;
  }

  lemma {:induction false} FlagsHold(ds: seq<Delivery>)
    requires Smooth(ds)
    ensures FlagsAsBrought(ds, IngestAll(EMPTY, ds))
  {
    hide After, Smooth, OnlyIngested, Clash, Taken, Brings, Holds, CustomerOf;
    if |ds| > 0 {
      var n := |ds| - 1;
      var s := IngestAll(EMPTY, ds[..n]);
      PrefixSmooth(ds, n);
      FlagsHold(ds[..n]);
      TakesAtTurn(ds);
      CustomersAfter(s, ds[n]);
      SmoothHolds(ds[..n]);
      PrefixBrings(ds, n);
      KnownWereBrought(ds[..n], s);
      BringsWhen(ds);
      var s' := After(s, ds[n]);
      forall x, k: nat | x in s'.customers && FirstBrings(ds, k, x)
        ensures s'.customers[x] <==> ds[k].truth.hasToken == Some(true)
      {
        if x in s.customers {
          var m: nat :| Brings(ds[..n], m, x);
          BringsWhen(ds[..n]);
          assert k < n && ds[..n][k] == ds[k];
        } else {
          assert Brings(ds, n, x);
        }
      }
    }
  }

  lemma KnownWereBrought(ds: seq<Delivery>, s: Store)
    requires Holds(ds, s)
    ensures forall x :: x in s.customers <==> exists k: nat :: Brings(ds, k, x)
  {
    forall x
      ensures x in s.customers <==> exists k: nat :: Brings(ds, k, x)
    {
      assert x in s.customers <==> x in s.customers.Keys;
      if x in s.customers {
        var k: nat :| Taken(ds, k) && CustomerOf(ds[k]) == Some(x);
        assert Brings(ds, k, x);
      }
    }
  }

  lemma BringsWhen(ds: seq<Delivery>)
    ensures forall k: nat, x | Brings(ds, k, x) :: k < |ds| && CustomerOf(ds[k]) == Some(x) && Taken(ds, k)
    ensures forall k: nat | Taken(ds, k) :: Readable(ds[k])
    ensures forall k: nat, x | Taken(ds, k) && CustomerOf(ds[k]) == Some(x) :: Brings(ds, k, x)
  {
  }

  // ----- Cases -----

  /** The saved-token flag of a case opened by delivery `i`: the dataset's word about it, or else the flag its customer
      was first brought with; none without a customer id. */
  ghost predicate TokenAsTold(ds: seq<Delivery>, i: nat, token: bool)
    requires i < |ds|
  {
    if ds[i].truth.hasToken.Some? then token == ds[i].truth.hasToken.value
    else if CustomerOf(ds[i]).None? then !token
    else exists k: nat ::
      k <= i && FirstBrings(ds, k, CustomerOf(ds[i]).value) && (token <==> ds[k].truth.hasToken == Some(true))
  }

  /** A new case of a payment. */
  function NewRow(p: string, token: bool, chance: Option<real>, attempts: nat): CaseRow {
    CaseRow(p, token, chance, Detected, None, None, None, attempts, None, 0, None, false, [], [], [], [CaseCreated])
  }

  /** The same case, healed by a capture webhook. */
  function HealedRow(c: CaseRow, amount: int): CaseRow {
    c.(status := Recovered, diagnosis := Some(DuplicateSelfHealed), strategy := Some(S6), recoveredMinor := amount,
       outcome := Some(OutSelfHealed), closed := true,
       trail := [CaseCreated, StateTransition(Verifier, Detected, Recovered),
                 CaptureConfirmed(WebhookSelfHeal, amount)])
  }

  /** The case is what the first failure of its payment opened it as, or that healed. */
  ghost predicate OpenedBy(ds: seq<Delivery>, i: nat, c: CaseRow, p: string) {
    && FailureTaken(ds, i, p) && (forall m: nat | m < i :: !FailureTaken(ds, m, p))
    && TokenAsTold(ds, i, c.hasToken)
    && var row := NewRow(p, c.hasToken, ds[i].truth.captureProbability, ds[i].truth.priorAttempts);
    c == row || c == HealedRow(row, c.recoveredMinor)
  }

  lemma HealsOnce(c: CaseRow, amount: int, row: CaseRow)
    requires c == row || c == HealedRow(row, c.recoveredMinor)
    requires row == NewRow(row.paymentId, row.hasToken, row.captureProbability, row.retryCount)
    ensures
      var healed := SelfHealed(c, amount);
      if c == row then healed == HealedRow(row, amount) else healed == c
  {
  }

  /** What a delivery does to the payment's case. */
  lemma CaseAfter(s: Store, d: Delivery, p: string)
    requires OnlyIngested(s) && (Readable(d) && d.eventId !in s.seen ==> !Clash(s, d.entity.value))
    requires p in After(s, d).cases
    ensures
      var c' := After(s, d).cases[p].row;
      if p in s.cases then
        c' == if ValidCapture(d, p) && d.eventId !in s.seen
              then SelfHealed(s.cases[p].row, d.entity.value.row.amountMinor)
              else s.cases[p].row
      else
        && ValidFailure(d, p) && d.eventId !in s.seen
        && c' == NewRow(p, c'.hasToken, d.truth.captureProbability, d.truth.priorAttempts)
        && c'.hasToken == (if d.truth.hasToken.Some? then d.truth.hasToken.value
                           else CustomerOf(d).Some? && CustomerOf(d).value in After(s, d).customers
                                && After(s, d).customers[CustomerOf(d).value])
  {
    hide SelfHealed, Clash;
  }

  lemma OpenedByExtends(ds: seq<Delivery>, n: nat, i: nat, c: CaseRow, p: string)
    requires n <= |ds| && i < n && OpenedBy(ds[..n], i, c, p)
    ensures OpenedBy(ds, i, c, p)
  {
    hide Taken, ValidFailure, CustomerOf, FirstBrings;
    PrefixTaken(ds, n);
    PrefixBrings(ds, n);
    assert forall k: nat | k < n :: ds[..n][k] == ds[k];
    assert forall m: nat | m < n :: FailureTaken(ds[..n], m, p) <==> FailureTaken(ds, m, p);
    hide FailureTaken;
  }

  lemma {:induction false} FirstBringer(ds: seq<Delivery>, k: nat, x: string) returns (f: nat)
    requires Brings(ds, k, x)
    ensures f <= k && FirstBrings(ds, f, x)
  {
    hide Brings;
    f := k;
    if m: nat :| m < k && Brings(ds, m, x) {
      f := FirstBringer(ds, m, x);
    }
  }

  /** The token of the case that the last delivery opens. */
  lemma LastToken(ds: seq<Delivery>, token: bool)
    requires |ds| > 0 && Smooth(ds) && Taken(ds, |ds| - 1)
    requires
      var d, customers := ds[|ds| - 1], IngestAll(EMPTY, ds).customers;
      token == (if d.truth.hasToken.Some? then d.truth.hasToken.value
                else CustomerOf(d).Some? && CustomerOf(d).value in customers && customers[CustomerOf(d).value])
    ensures TokenAsTold(ds, |ds| - 1, token)
  {
    hide Smooth, Taken, IngestAll, CustomerOf, FirstBrings, Holds, OnlyIngested, Brings;
    var n := |ds| - 1;
    if ds[n].truth.hasToken.None? && CustomerOf(ds[n]).Some? {
      BringsWhen(ds);
      var x := CustomerOf(ds[n]).value;
      assert Brings(ds, n, x);
      var f := FirstBringer(ds, n, x);
      FlagsHold(ds);
      SmoothHolds(ds);
      KnownWereBrought(ds, IngestAll(EMPTY, ds));
    }
  }

  /** Where no customers clash: the case of a payment is a new row with the prior attempts and the capture probability
      of the payment's first failure that takes effect, and with its saved-token flag, or its customer's as first stored
      where the dataset is silent; or that row healed by a capture webhook. */
  lemma {:induction false} CasesAreAsOpened(ds: seq<Delivery>, p: string) returns (i: nat)
    requires Smooth(ds) && p in IngestAll(EMPTY, ds).cases
    ensures OpenedBy(ds, i, IngestAll(EMPTY, ds).cases[p].row, p)
  {
    hide After, Smooth, Taken, ValidFailure, ValidCapture, OnlyIngested, Clash, TokenAsTold, SelfHealed, Holds;
    i := 0;
    if |ds| == 0 {
      assert false;
    } else {
      var n := |ds| - 1;
      var s, d := IngestAll(EMPTY, ds[..n]), ds[n];
      PrefixSmooth(ds, n);
      TakesAtTurn(ds);
      FailureIsReadable(d, p);
      CaseAfter(s, d, p);
      if p in s.cases {
        i := CasesAreAsOpened(ds[..n], p);
        var c := s.cases[p].row;
        FailedInRange(ds[..n], i, p);
        HealsOnce(c, if ValidCapture(d, p) then AmountOf(d) else 0,
                  NewRow(p, c.hasToken, ds[i].truth.captureProbability, ds[i].truth.priorAttempts));
        assert OpenedBy(ds[..n], i, IngestAll(EMPTY, ds).cases[p].row, p);
        OpenedByExtends(ds, n, i, IngestAll(EMPTY, ds).cases[p].row, p);
      } else {
        i := n;
        CasesAreFailedPayments(ds[..n], p);
        NoneBefore(ds, ds[..n], p);
        LastToken(ds, IngestAll(EMPTY, ds).cases[p].row.hasToken);
      }
    }
  }

  function AmountOf(d: Delivery): int { if d.entity.Some? then d.entity.value.row.amountMinor else 0 }

  lemma FailedInRange(ds: seq<Delivery>, i: nat, p: string)
    requires FailureTaken(ds, i, p)
    ensures i < |ds|
  {
  }

  lemma NoneBefore(ds: seq<Delivery>, before: seq<Delivery>, p: string)
    requires |ds| > 0 && before == ds[..|ds| - 1] && !exists i: nat :: FailureTaken(before, i, p)
    ensures forall m: nat | m < |before| :: !FailureTaken(ds, m, p)
  {
    hide Taken, ValidFailure;
    PrefixTaken(ds, |before|);
    assert forall k: nat | k < |before| :: before[k] == ds[k] && !FailureTaken(before, k, p);
  }

  // ----- Mirrors -----

  /** Delivery `j` takes effect and is about the payment. */
  ghost predicate Mirrors(ds: seq<Delivery>, j: nat, p: string) { Taken(ds, j) && About(ds[j], p) }

  ghost predicate LastMirrors(ds: seq<Delivery>, j: nat, p: string) {
    Mirrors(ds, j, p) && forall m: nat | m > j :: !Mirrors(ds, m, p)
  }

  /** The mirror is the entity of the delivery, with the status CAPTURED where it healed the payment's case. */
  ghost predicate MirrorOf(ds: seq<Delivery>, j: nat, row: PaymentRow, p: string) {
    && LastMirrors(ds, j, p)
    && row == ds[j].entity.value.row.(status := if FirstHeals(ds, j, p) then PayCaptured
                                                else ds[j].entity.value.row.status)
  }

  /** What a delivery does to the payment's mirror. */
  lemma MirrorAfter(s: Store, d: Delivery, p: string)
    requires OnlyIngested(s) && (Readable(d) && d.eventId !in s.seen ==> !Clash(s, d.entity.value))
    ensures
      var s' := After(s, d);
      if Readable(d) && d.eventId !in s.seen && About(d, p) then
        && p in s'.payments
        && s'.payments[p] ==
             if ValidCapture(d, p) && p in s.cases && s.cases[p].row.status == Detected
             then d.entity.value.row.(status := PayCaptured) else d.entity.value.row
      else (p in s'.payments <==> p in s.payments) && (p in s.payments ==> s'.payments[p] == s.payments[p])
  {
    hide Clash, TokenOf, SelfHealed;
  }

  lemma PrefixMirrors(ds: seq<Delivery>, before: seq<Delivery>, p: string)
    requires |ds| > 0 && before == ds[..|ds| - 1]
    ensures forall j: nat | j < |before| :: Mirrors(before, j, p) <==> Mirrors(ds, j, p)
    ensures forall j: nat | Mirrors(ds, j, p) :: j < |ds|
    ensures forall j: nat | Mirrors(before, j, p) :: j < |before|
    ensures forall j: nat | j < |before| :: FirstHeals(before, j, p) <==> FirstHeals(ds, j, p)
  {
    var n := |before|;
    PrefixTaken(ds, n);
    TakenIsDelivered(ds);
    TakenIsDelivered(before);
    hide Taken, HealsAt;
    assert forall j: nat | j < n :: before[j] == ds[j];
    forall j: nat | j < n
      ensures HealsAt(before, j, p) <==> HealsAt(ds, j, p)
    {
      PrefixHeals(ds, j, p);
    }
  }

  /** Does the last delivery heal the payment's case? */
  lemma HealsNow(ds: seq<Delivery>, p: string)
    requires |ds| > 0 && Smooth(ds) && Taken(ds, |ds| - 1)
    ensures
      var n := |ds| - 1;
      var s := IngestAll(EMPTY, ds[..n]);
      FirstHeals(ds, n, p) <==> ValidCapture(ds[n], p) && p in s.cases && s.cases[p].row.status == Detected
  {
    hide Smooth, Taken, IngestAll, HealsAt, ValidCapture, Clash, Readable;
    var n := |ds| - 1;
    var s := IngestAll(EMPTY, ds[..n]);
    LastHeals(ds, p);
    TakesAtTurn(ds);
    PrefixSmooth(ds, n);
    PrefixMirrors(ds, ds[..n], p);
    if p in s.cases {
      FailedThenCapturedHeals(ds[..n], p);
      assert forall m: nat | m < n :: HealsAt(ds[..n], m, p) <==> HealsAt(ds, m, p) by { AllPrefixHeal(ds, p); }
      HealsInRange(ds[..n], p);
    }
  }

  lemma AllPrefixHeal(ds: seq<Delivery>, p: string)
    requires |ds| > 0
    ensures forall m: nat | m < |ds| - 1 :: HealsAt(ds[..|ds| - 1], m, p) <==> HealsAt(ds, m, p)
  {
    hide HealsAt;
    forall m: nat | m < |ds| - 1
      ensures HealsAt(ds[..|ds| - 1], m, p) <==> HealsAt(ds, m, p)
    {
      PrefixHeals(ds, m, p);
    }
  }

  /** Where no customers clash: a payment is mirrored exactly when some delivery about it takes effect, and its mirror
      is the entity of the last one, with the status CAPTURED where that one healed its case. */
  lemma {:induction false} PaymentsAreMirrored(ds: seq<Delivery>, p: string)
    requires Smooth(ds)
    ensures
      var payments := IngestAll(EMPTY, ds).payments;
      && (p in payments <==> exists j: nat :: Mirrors(ds, j, p))
      && (p in payments ==> exists j: nat :: MirrorOf(ds, j, payments[p], p))
  {
    hide After, Smooth, Taken, FirstHeals, OnlyIngested, Clash, ValidCapture, About;
    if |ds| == 0 {
      TakenIsDelivered(ds);
    } else {
      var n := |ds| - 1;
      var before, s, d := ds[..n], IngestAll(EMPTY, ds[..n]), ds[n];
      PrefixSmooth(ds, n);
      PaymentsAreMirrored(before, p);
      TakesAtTurn(ds);
      MirrorAfter(s, d, p);
      PrefixMirrors(ds, before, p);
      assert forall j: nat | j < n :: before[j] == ds[j];
      if Mirrors(ds, n, p) {
        HealsNow(ds, p);
        assert MirrorOf(ds, n, IngestAll(EMPTY, ds).payments[p], p);
      } else if p in s.payments {
        var j: nat :| MirrorOf(before, j, s.payments[p], p);
        assert LastMirrors(ds, j, p);
        assert MirrorOf(ds, j, s.payments[p], p);
      }
    }
  }
}
