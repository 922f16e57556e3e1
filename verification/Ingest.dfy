/** Webhook ingestion: deduplicate, find or insert the customer, mirror the payment, open at most one case per
    payment, self-heal (app/services/ingest.py:67-222). */
module Ingest {
  import opened Enums
  import opened Fsm
  import opened Rows
  import opened Verification
  import opened CaseRuns

  datatype EventKind = PaymentFailed | PaymentCaptured | OtherEvent

  /** The payment entity of a delivery, as it is read with the dataset's customer standing in for missing
      fields. `contact` is what a customer row is hashed under: the contact, else the email; `customerId` is the
      provider's id. */
  datatype Entity = Entity(paymentId: string, row: PaymentRow, contact: Option<string>, customerId: Option<string>)

  /** What the dataset says about the case; webhooks from outside come without it. */
  datatype GroundTruth = GroundTruth(hasToken: Option<bool>, captureProbability: Option<real>, priorAttempts: nat)

  /** `entity` is None when reading it raises: a key is missing, or a status, amount or time is invalid. */
  datatype Delivery = Delivery(
    eventId: string,
    kind: EventKind,
    signatureValid: bool,
    entity: Option<Entity>,
    truth: GroundTruth)

  /** A case and the number its reference was minted with. */
  datatype OpenCase = OpenCase(ref: nat, row: CaseRow)

  /** `contacts` holds the contact of every customer row, which is unique (app/db/models.py:84-86);
      `customers` holds the rows that have a provider's id, with their saved-token flag. */
  datatype Store = Store(
    seen: set<string>,
    rejected: nat,
    contacts: set<string>,
    customers: map<string, bool>,
    payments: map<string, PaymentRow>,
    cases: map<string, OpenCase>,
    counter: nat)

  const EMPTY := Store({}, 0, {}, map[], map[], map[], 0)

  // ----- Customers -----

  /** A customer is looked up by the provider's id only. */
  predicate Known(s: Store, e: Entity) { e.customerId.Some? && e.customerId.value in s.customers }

  /** Inserting a customer whose contact is stored violates the unique constraint. */
  predicate Clash(s: Store, e: Entity) {
    e.contact.Some? && e.contact.value in s.contacts && !Known(s, e)
  }

  function TokenFlag(truth: GroundTruth): bool { truth.hasToken == Some(true) }

  /** The store once the customer has been found or inserted; an entity without contact has none. */
  function WithCustomer(s: Store, e: Entity, truth: GroundTruth): (r: Store)
    ensures r == s.(contacts := r.contacts, customers := r.customers)
  {
    if e.contact.None? || Known(s, e) then s
    else
      s.(contacts := s.contacts + {e.contact.value},
         customers := if e.customerId.Some? then s.customers[e.customerId.value := TokenFlag(truth)] else s.customers)
  }

  /** Ground truth is authoritative about the saved token; otherwise the linked customer is
      (app/services/pipeline.py:77-86). */
  function TokenOf(s: Store, e: Entity, truth: GroundTruth): bool {
    if truth.hasToken.Some? then truth.hasToken.value
    else e.contact.Some? && Known(s, e) && s.customers[e.customerId.value]
  }

  // ----- One delivery -----

  function Opened(s: Store, e: Entity, truth: GroundTruth): Store {
    var row := NewCaseRow(e.paymentId, TokenOf(s, e, truth), truth.captureProbability);
    s.(counter := s.counter + 1,
       cases := s.cases[e.paymentId := OpenCase(s.counter + 1, row.(retryCount := truth.priorAttempts))])
  }

  /** The store after a capture of a payment that has a case which can still be recovered. */
  function Healed(s: Store, e: Entity): Store
    requires e.paymentId in s.cases
  {
    var known := s.cases[e.paymentId];
    s.(cases := s.cases[e.paymentId := known.(row := SelfHealed(known.row, e.row.amountMinor))],
       payments := s.payments[e.paymentId :=
         if known.row.status == Recovered then e.row else e.row.(status := PayCaptured)])
  }

  /** Does the delivery carry a verified payment event? */
  predicate Genuine(d: Delivery) { d.signatureValid && d.kind != OtherEvent }

  function Ingested(s: Store, d: Delivery): Attempt<Store> {
    if d.eventId in s.seen then Ok(s)
    else
      var noted := s.(seen := s.seen + {d.eventId});
      if !d.signatureValid then Ok(noted.(rejected := s.rejected + 1))
      else if d.kind == OtherEvent then Ok(noted)
      else if d.entity.None? then Raised
      else
        var e := d.entity.value;
        var mirrored := WithCustomer(noted, e, d.truth).(payments := s.payments[e.paymentId := e.row]);
        if Clash(s, e) then Raised
        else if d.kind == PaymentCaptured then
          if e.paymentId !in s.cases then Ok(mirrored)
          else if !CanTransition(s.cases[e.paymentId].row.status, Recovered) then Raised
          else Ok(Healed(mirrored, e))
        else
          if e.paymentId in s.cases then Ok(mirrored) else Ok(Opened(mirrored, e, d.truth))
  }

  /** An exception rolls the delivery back. */
  function After(s: Store, d: Delivery): Store {
    match Ingested(s, d)
    case Ok(s') => s'
    case Raised => s
  }

  function IngestAll(s: Store, ds: seq<Delivery>): Store {
    if |ds| == 0 then s else After(IngestAll(s, ds[..|ds| - 1]), ds[|ds| - 1])
  }

  datatype Result = Duplicate | Rejected | Recorded | HealedCase | UnknownCase | KnownCase | NewCase | Failure

  class Database {
    var seen: set<string>
    var rejected: nat
    var contacts: set<string>
    var customers: map<string, bool>
    var payments: map<string, PaymentRow>
    var cases: map<string, OpenCase>
    var counter: nat

    function Contents(): Store
      reads this
    {
      Store(seen, rejected, contacts, customers, payments, cases, counter)
    }

    constructor ()
      ensures Contents() == EMPTY
    {
      seen, rejected, contacts, customers, payments, cases, counter := {}, 0, {}, map[], map[], map[], 0;
    }

    method IngestEvent(d: Delivery) returns (result: Result)
      modifies this
      ensures Contents() == After(old(Contents()), d)
      ensures result == Failure <==> Ingested(old(Contents()), d).Raised?
      ensures result == Duplicate <==> d.eventId in old(seen)
      ensures result == NewCase <==> cases.Keys != old(cases.Keys)
      ensures result == Rejected <==> d.eventId !in old(seen) && !d.signatureValid
      ensures result == Recorded <==> d.eventId !in old(seen) && d.signatureValid && d.kind == OtherEvent
      ensures result in {HealedCase, UnknownCase} ==> d.kind == PaymentCaptured && d.entity.Some?
      ensures result == HealedCase ==>
        d.entity.value.paymentId in cases && cases[d.entity.value.paymentId].row.status == Recovered
      ensures result == UnknownCase ==> d.entity.value.paymentId !in cases
      ensures result in {KnownCase, NewCase} ==>
        d.kind == PaymentFailed && d.entity.Some? && d.entity.value.paymentId in cases
    {
      if d.eventId in seen {
        return Duplicate;
      }
      var before := Contents();
      seen := seen + {d.eventId};
      if !d.signatureValid {
        rejected := rejected + 1;
        return Rejected;
      }
      if d.kind == OtherEvent {
        return Recorded;
      }
      if d.entity.None? {
        Rollback(before);
        return Failure;
      }
      var e := d.entity.value;
      var raised := UpsertCustomer(e, d.truth);
      if raised {
        Rollback(before);
        return Failure;
      }
      if d.kind == PaymentCaptured {
        result := SelfHeal(e);
        if result == Failure {
          Rollback(before);
        }
      } else {
        result := OpenCaseFor(e, d.truth);
      }
    }

    method Rollback(before: Store)
      modifies this
      ensures Contents() == before
    {
      seen, rejected, contacts, customers := before.seen, before.rejected, before.contacts, before.customers;
      payments, cases, counter := before.payments, before.cases, before.counter;
    }

    method UpsertCustomer(e: Entity, truth: GroundTruth) returns (raised: bool)
      modifies this`contacts, this`customers
      ensures raised <==> Clash(old(Contents()), e)
      ensures Contents() == if raised then old(Contents()) else WithCustomer(old(Contents()), e, truth)
    {
      if e.contact.None? {
        return false;
      }
      if e.customerId.Some? && e.customerId.value in customers {
        return false;
      }
      if e.contact.value in contacts {
        return true;
      }
      contacts := contacts + {e.contact.value};
      if e.customerId.Some? {
        customers := customers[e.customerId.value := truth.hasToken == Some(true)];
      }
      raised := false;
    }

    method SelfHeal(e: Entity) returns (result: Result)
      modifies this
      ensures result in {UnknownCase, Failure, HealedCase}
      ensures result == UnknownCase <==> e.paymentId !in old(cases)
      ensures result == Failure <==>
        e.paymentId in old(cases) && !CanTransition(old(cases)[e.paymentId].row.status, Recovered)
      ensures
        var before := old(Contents());
        var mirrored := before.(payments := before.payments[e.paymentId := e.row]);
        result != Failure ==> Contents() == if result == UnknownCase then mirrored else Healed(mirrored, e)
      ensures cases.Keys == old(cases.Keys)
    {
      payments := payments[e.paymentId := e.row];
      if e.paymentId !in cases {
        return UnknownCase;
      }
      var known := cases[e.paymentId];
      var case_ := new RecoveryCase(known.row);
      var payment := new Payment(e.row);
      case_.row := case_.row.(diagnosis := Some(DuplicateSelfHealed), strategy := Some(S6));
      var raised := RecordCapture(case_, payment, WebhookSelfHeal);
      if raised {
        return Failure;
      }
      payments := payments[e.paymentId := payment.row];
      cases := cases[e.paymentId := known.(row := case_.row)];
      result := HealedCase;
    }

    method OpenCaseFor(e: Entity, truth: GroundTruth) returns (result: Result)
      modifies this
      ensures result in {KnownCase, NewCase}
      ensures result == NewCase <==> e.paymentId !in old(cases)
      ensures Contents() ==
        var before := old(Contents());
        var mirrored := before.(payments := before.payments[e.paymentId := e.row]);
        if result == NewCase then Opened(mirrored, e, truth) else mirrored
    {
      payments := payments[e.paymentId := e.row];
      if e.paymentId in cases {
        return KnownCase;
      }
      counter := counter + 1;
      var row := NewCaseRow(e.paymentId, TokenOf(Contents(), e, truth), truth.captureProbability);
      cases := cases[e.paymentId := OpenCase(counter, row.(retryCount := truth.priorAttempts))];
      result := NewCase;
    }
  }
}
