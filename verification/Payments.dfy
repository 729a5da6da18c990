/** The payments service on a shared database. A method runs one call without interruption, and
    ends where the phases of PaymentFlow end. */
module Payments {
  import opened Wrappers
  import opened PaymentFlow
  import L = Ledger
  import Bookings

  // ------------------------------------------------------------ the table of payment statuses

  /** A sequence of statuses in which every change is allowed. */
  ghost predicate Path(statuses: seq<Bookings.PaymentStatus>) {
    forall i :: 0 <= i < |statuses| - 1 ==> CanTransition(statuses[i], statuses[i + 1])
  }

  /** Along allowed changes a terminal status is final, except that CAPTURED may become REFUNDED. */
  lemma {:induction false} TerminalIsFinal(statuses: seq<Bookings.PaymentStatus>, i: nat, j: nat)
    requires Path(statuses) && i <= j < |statuses| && Terminal(statuses[i])
    ensures statuses[j] == statuses[i] || (statuses[i] == Bookings.Captured && statuses[j] == Bookings.Refunded)
    decreases j
  {
    if i < j {
      TerminalIsFinal(statuses, i, j - 1);
      assert CanTransition(statuses[j - 1], statuses[j - 1 + 1]);
    }
  }

  /** A capture moves the payment along the table if and only if the rule consults the table or the
      payment was not already failed, cancelled or refunded: the worker, the checkout and the provider's
      reconciliation look at the latest status for CAPTURED only. */
  lemma CaptureFollowsTableIff(s: Store, p: int, rule: Rule)
    requires Known(s, p)
    ensures CanTransition(s.books.payments[p].status, CaptureTx(s, p, rule).store.books.payments[p].status)
       <==> (rule == IfAllowed
             || s.books.payments[p].status !in {Bookings.Failed, Bookings.PaymentCancelled, Bookings.Refunded})
    ensures CanTransition(s.books.payments[p].status, Reconcile(s, p, true).value.books.payments[p].status)
       <==> s.books.payments[p].status !in {Bookings.Failed, Bookings.PaymentCancelled, Bookings.Refunded}
  {
  }

  // ------------------------------------------------------------ the bookings' view of a capture

  /** The tables of the booking service and the shared database tell the same of payments and bookings. */
  ghost predicate Agree(s: Store, t: Bookings.Tables) {
    && (forall p :: p in t.payments <==> Known(s, p))
    && (forall p :: p in t.payments ==> t.payments[p] == Bookings.Payment(s.bookingOf[p], s.books.payments[p].status))
    && (forall b :: b in t.rows <==> b in s.bookings)
    && (forall b :: b in t.rows ==> t.rows[b].status == s.bookings[b])
  }

  /** The capture that bookings see is the capture that the payment flows run. */
  lemma CapturesAgree(s: Store, t: Bookings.Tables, p: int)
    requires Agree(s, t) && Known(s, p)
    ensures Bookings.CaptureTx(false, t, p).Ok?
    ensures Agree(CaptureTx(s, p, UnlessCaptured).store, Bookings.CaptureTx(false, t, p).value)
  {
  }

  // ------------------------------------------------------------ the service

  /** Rows written by the payments, webhooks and finance services. */
  class Database {
    var books: L.Books
    var bookingOf: map<int, int>
    var bookings: map<int, Bookings.Status>
    var events: map<EventKey, EventRow>
    var notices: seq<Notice>

    function View(): Store
      reads this
    {
      Store(books, bookingOf, bookings, events, notices)
    }

    constructor ()
      ensures View() == Store(L.EMPTY_BOOKS, map[], map[], map[], [])
    {
      books, bookingOf, bookings, events, notices := L.EMPTY_BOOKS, map[], map[], map[], [];
    }

    /** The capture transaction of a payment. */
    method Capture(p: int, rule: Rule) returns (changed: bool, won: bool)
      requires Known(View(), p)
      modifies this
      ensures PaymentFlow.Capture(View(), changed, won) == CaptureTx(old(View()), p, rule)
    {
      changed, won := false, false;
      var latest := books.payments[p].status;
      if GoesAhead(rule, latest) {
        books := books.(payments := books.payments[p := books.payments[p].(status := Bookings.Captured)]);
        changed := true;
        var b := bookingOf[p];
        if b in bookings && bookings[b] == Bookings.Pending {
          bookings := bookings[b := Bookings.Confirmed];
          won := true;
        }
      }
    }

    /** Emits PAYMENT_CAPTURED, and BOOKING_CONFIRMED if this call confirmed the booking. */
    method AnnounceCapture(p: int, won: bool)
      requires Known(View(), p)
      modifies this`notices
      ensures notices == old(notices) + [CapturedNotice(View(), p)]
              + (if won then [BookingConfirmed(bookingOf[p])] else [])
    {
      notices := notices + [PaymentCaptured(p, books.payments[p].org, books.payments[p].amount)];
      if won {
        notices := notices + [BookingConfirmed(bookingOf[p])];
      }
    }
  }

  /** A payment of the booking that the customer can still complete with this provider. */
  predicate OpenFor(s: Store, p: int, b: int, provider: int) {
    Known(s, p) && s.bookingOf[p] == b && s.books.payments[p].provider == provider
    && s.books.payments[p].status in {Bookings.Initiated, Bookings.PaymentPending}
  }

  predicate PaidFor(s: Store, p: int, b: int) {
    Known(s, p) && s.bookingOf[p] == b && s.books.payments[p].status in {Bookings.Captured, Bookings.Authorized}
  }

  predicate OwnedBy(s: Store, p: int, b: int, org: int) {
    Known(s, p) && s.bookingOf[p] == b && s.books.payments[p].org == org
  }

  /** The payment under an idempotency key, if a key is given and known. */
  function Held(keys: map<int, int>, key: Option<int>): Option<int> {
    if key.Some? && key.value in keys then Some(keys[key.value]) else None
  }

  const ANY_TERMS := Terms(0, 0, 0)

  lemma CallbackCaptures(s: Store, key: EventKey, kind: EventKind, p: int)
    requires key !in s.events && Known(s, p)
    ensures var c := CaptureTx(s, p, IfAllowed);
            var t := c.store.(events := s.events[key := EventRow(kind, Logged(Success), Some(p))]);
            Finish(s, Agent(Callback(key, kind), Capturing(p)), Some(p), ANY_TERMS)
            == t.(notices := s.notices + [CapturedNotice(t, p)]
                  + (if c.won then [BookingConfirmed(s.bookingOf[p])] else []))
  {
    var flow, c := Callback(key, kind), CaptureTx(s, p, IfAllowed);
    var t := MarkEvent(c.store, flow, p);
    assert Finish(s, Agent(flow, Capturing(p)), Some(p), ANY_TERMS)
        == Finish(c.store, Agent(flow, Marking(p, c.won)), Some(p), ANY_TERMS);
    assert Finish(c.store, Agent(flow, Marking(p, c.won)), Some(p), ANY_TERMS)
        == Finish(t, Agent(flow, Announcing(p, c.won)), Some(p), ANY_TERMS);
    FinishAnnouncing(t, flow, p, c.won, Some(p), ANY_TERMS);
  }

  class PaymentsService {
    const db: Database
    /** The unique idempotency keys of payments. */
    var orderKeys: map<int, int>

    constructor (db: Database)
      ensures this.db == db && orderKeys == map[]
    {
      this.db, orderKeys := db, map[];
    }

    /** The payment of the booking that the customer can still complete with the provider, if there is one. */
    method FindOpen(b: int, provider: int) returns (r: Option<int>)
      ensures r.Some? ==> OpenFor(db.View(), r.value, b, provider)
      ensures r.None? ==> forall p :: !OpenFor(db.View(), p, b, provider)
    {
      for i := 0 to |db.books.payments|
        invariant forall p :: 0 <= p < i ==> !OpenFor(db.View(), p, b, provider)
      {
        if OpenFor(db.View(), i, b, provider) { return Some(i); }
      }
      return None;
    }

    method IsPaid(b: int) returns (paid: bool)
      ensures paid <==> exists p :: PaidFor(db.View(), p, b)
    {
      for i := 0 to |db.books.payments|
        invariant forall p :: 0 <= p < i ==> !PaidFor(db.View(), p, b)
      {
        if PaidFor(db.View(), i, b) { return true; }
      }
      return false;
    }

    /** An order for a booking. A known idempotency key gives back its payment, if that is of the same booking
        and organisation; else the open payment of the booking is reused, a paid booking refused, and only
        otherwise is a payment created. No price means none was set; DuplicateKey stands for the conflict. */
    method CreateOrder(b: int, mine: bool, org: int, price: Option<nat>, provider: int, key: Option<int>, now: int)
      returns (r: Result<int, L.Fault>)
      requires forall p :: p in db.bookingOf ==> 0 <= p < |db.books.payments|
      modifies this, db
      ensures var s, n := old(db.View()), |old(db.books.payments)|;
              if r == Ok(n)
              then price.Some?
                   && db.View() == s.(books := s.books.(payments := s.books.payments
                                                          + [L.PaymentRow(org, price.value, Bookings.Initiated,
                                                                          provider, now)]),
                                      bookingOf := s.bookingOf[n := b])
                   && orderKeys == (if key.Some? then old(orderKeys)[key.value := n] else old(orderKeys))
              else db.View() == s && orderKeys == old(orderKeys)
      ensures var s, n := old(db.View()), |old(db.books.payments)|;
              r == Ok(n) ==> forall p :: Known(s, p) && s.bookingOf[p] == b ==>
                var row := s.books.payments[p];
                row.status !in {Bookings.Captured, Bookings.Authorized}
                && (row.provider == provider ==> row.status !in {Bookings.Initiated, Bookings.PaymentPending})
      ensures var s, n := old(db.View()), |old(db.books.payments)|;
              var held := if key.Some? && key.value in old(orderKeys) then Some(old(orderKeys)[key.value]) else None;
              if b !in s.bookings then r == Err(L.NotFound)
              else if !mine then r == Err(L.Forbidden)
              else if s.bookings[b] in {Bookings.Cancelled, Bookings.Completed} then r == Err(L.BadRequest)
              else if held.Some? then
                r == if Known(s, held.value) && s.bookingOf[held.value] == b && s.books.payments[held.value].org == org
                     then Ok(held.value) else Err(L.DuplicateKey)
              else if exists p :: OpenFor(s, p, b, provider) then
                r.Ok? && Known(s, r.value) && s.bookingOf[r.value] == b
                && s.books.payments[r.value].provider == provider
                && s.books.payments[r.value].status in {Bookings.Initiated, Bookings.PaymentPending}
              else if exists p :: Known(s, p) && s.bookingOf[p] == b
                                  && s.books.payments[p].status in {Bookings.Captured, Bookings.Authorized}
                then r == Err(L.DuplicateKey)
              else r == if price.Some? then Ok(n) else Err(L.BadRequest)
    {
      if b !in db.bookings { return Err(L.NotFound); }
      if !mine { return Err(L.Forbidden); }
      if db.bookings[b] == Bookings.Cancelled || db.bookings[b] == Bookings.Completed { return Err(L.BadRequest); }
      var held := Held(orderKeys, key);
      if held.Some? {
        return if OwnedBy(db.View(), held.value, b, org) then Ok(held.value) else Err(L.DuplicateKey);
      }
      var open := FindOpen(b, provider);
      if open.Some? { return Ok(open.value); }
      var paid := IsPaid(b);
      if paid { return Err(L.DuplicateKey); }
      ghost var s := db.View();
      forall p | Known(s, p) && s.bookingOf[p] == b
        ensures var row := s.books.payments[p];
                row.status !in {Bookings.Captured, Bookings.Authorized}
                && (row.provider == provider ==> row.status !in {Bookings.Initiated, Bookings.PaymentPending})
      {
        assert !OpenFor(s, p, b, provider) && !PaidFor(s, p, b);
      }
      if price.None? { return Err(L.BadRequest); }
      var payments := db.books.payments;
      var id := |payments|;
      db.books := db.books.(payments := payments + [L.PaymentRow(org, price.value, Bookings.Initiated, provider, now)]);
      db.bookingOf := db.bookingOf[id := b];
      if key.Some? {
        orderKeys := orderKeys[key.value := id];
      }
      return Ok(id);
    }

    method VerifyPayment(p: int, mine: bool, valid: bool) returns (fault: Option<L.Fault>)
      modifies db
      ensures match StartCheckout(old(db.View()), p, mine, valid)
              case Err(f) => fault == Some(f) && db.View() == old(db.View())
              case Ok(phase) =>
                fault == None && db.View() == Finish(old(db.View()), Agent(Checkout, phase), None, ANY_TERMS)
    {
      ghost var s := db.View();
      if !Known(db.View(), p) { return Some(L.NotFound); }
      if !mine { return Some(L.Forbidden); }
      var seen := db.books.payments[p].status;
      if seen == Bookings.Captured { return None; }
      if !CanTransition(seen, Bookings.Captured) { return Some(L.BadRequest); }
      if !valid { return Some(L.BadRequest); }
      var changed, won := db.Capture(p, UnlessCaptured);
      assert Finish(s, Agent(Checkout, Capturing(p)), None, ANY_TERMS)
          == Finish(db.View(), Agent(Checkout, if changed then Announcing(p, won) else Done), None, ANY_TERMS);
      if changed {
        FinishAnnouncing(db.View(), Checkout, p, won, None, ANY_TERMS);
        db.AnnounceCapture(p, won);
      }
      return None;
    }

    /** The older webhook endpoint. named: the payload carries an order or payment id; found: the payment it names. */
    method HandleWebhook(key: EventKey, kind: EventKind, signed: bool, named: bool, found: Option<int>)
        returns (fault: Option<L.Fault>)
      modifies db
      ensures if !signed then fault == Some(L.BadRequest) && db.View() == old(db.View())
              else fault == None &&
                   var (s, phase) := StartCallback(old(db.View()), key, kind, named, found);
                   db.View() == Finish(s, Agent(Callback(key, kind), phase), found, ANY_TERMS)
    {
      if !signed { return Some(L.BadRequest); }
      ghost var flow := Callback(key, kind);
      if key in db.events { return None; }
      if !named {
        db.events := db.events[key := EventRow(kind, Logged(Skipped), None)];
      } else if kind == OtherEvent {
        db.events := db.events[key := EventRow(kind, Logged(Unhandled), None)];
      } else if found == None || !Known(db.View(), found.value) {
        db.events := db.events[key := EventRow(kind, Logged(NoPayment), None)];
      } else {
        CallbackOnPayment(key, kind, found.value);
      }
      return None;
    }

    method CallbackOnPayment(key: EventKey, kind: EventKind, p: int)
      requires key !in db.events && kind != OtherEvent && Known(db.View(), p)
      modifies db
      ensures var (s, phase) := StartCallback(old(db.View()), key, kind, true, Some(p));
              db.View() == Finish(s, Agent(Callback(key, kind), phase), Some(p), ANY_TERMS)
    {
      ghost var s, flow := db.View(), Callback(key, kind);
      var status := db.books.payments[p].status;
      if status == (if kind == CaptureEvent then Bookings.Captured else Bookings.Refunded) {
        db.events := db.events[key := EventRow(kind, Logged(AlreadyProcessed), Some(p))];
      } else if kind == CaptureEvent {
        var changed, won := db.Capture(p, IfAllowed);
        CallbackCaptures(s, key, kind, p);
        db.events := db.events[key := EventRow(kind, Logged(Success), Some(p))];
        db.AnnounceCapture(p, won);
      } else {
        FinishRefunding(s, flow, p, Some(p), ANY_TERMS);
        db.books := db.books.(payments := db.books.payments[p := db.books.payments[p].(status := Bookings.Refunded)]);
        db.events := db.events[key := EventRow(kind, Logged(Success), Some(p))];
        db.notices := db.notices + [PaymentRefunded(p, db.books.payments[p].org, db.books.payments[p].amount)];
      }
    }

    method ReconcilePayment(p: int, paid: bool) returns (fault: Option<L.Fault>)
      modifies db
      ensures Reflects(old(db.View()), Reconcile(old(db.View()), p, paid), fault, db.View())
    {
      if !Known(db.View(), p) { return Some(L.NotFound); }
      if db.books.payments[p].status == Bookings.Captured || !paid { return None; }
      db.books := db.books.(payments := db.books.payments[p := db.books.payments[p].(status := Bookings.Captured)]);
      var b := db.bookingOf[p];
      if b in db.bookings && db.bookings[b] == Bookings.Pending {
        db.bookings := db.bookings[b := Bookings.Confirmed];
      }
      return None;
    }

    method InitiateRefund(p: int, accepted: bool) returns (fault: Option<L.Fault>)
      modifies db
      ensures match StartRefund(old(db.View()), p, accepted)
              case Err(f) => fault == Some(f) && db.View() == old(db.View())
              case Ok(phase) =>
                fault == None && db.View() == Finish(old(db.View()), Agent(Desk, phase), None, ANY_TERMS)
    {
      if !Known(db.View(), p) { return Some(L.NotFound); }
      if db.books.payments[p].status != Bookings.Captured { return Some(L.BadRequest); }
      if !accepted { return Some(L.BadRequest); }
      FinishRefunding(db.View(), Desk, p, None, ANY_TERMS);
      db.books := db.books.(payments := db.books.payments[p := db.books.payments[p].(status := Bookings.Refunded)]);
      db.notices := db.notices + [PaymentRefunded(p, db.books.payments[p].org, db.books.payments[p].amount)];
      return None;
    }
  }

  lemma CheckoutCaptures(s: Store, p: int)
    requires Known(s, p) && s.books.payments[p].status != Bookings.Captured
    ensures var t := Finish(s, Agent(Checkout, Capturing(p)), None, ANY_TERMS);
            && t.books.payments == s.books.payments[p := s.books.payments[p].(status := Bookings.Captured)]
            && t.bookingOf == s.bookingOf
            && t.bookings == (if BookingPending(s, p) then s.bookings[s.bookingOf[p] := Bookings.Confirmed]
                              else s.bookings)
  {
    var c := CaptureTx(s, p, UnlessCaptured);
    assert Finish(s, Agent(Checkout, Capturing(p)), None, ANY_TERMS)
        == Finish(c.store, Agent(Checkout, Announcing(p, c.won)), None, ANY_TERMS);
    FinishAnnouncing(c.store, Checkout, p, c.won, None, ANY_TERMS);
  }

  /** Once a payment of a booking is captured, a further order for the booking under a fresh key is a conflict,
      unless another payment with that provider is still open. */
  method PayThenOrder(service: PaymentsService, p: int, org: int, price: Option<nat>, provider: int, now: int)
      returns (r: Result<int, L.Fault>)
    requires forall q :: q in service.db.bookingOf ==> 0 <= q < |service.db.books.payments|
    requires Known(service.db.View(), p)
    requires service.db.books.payments[p].status in {Bookings.Initiated, Bookings.PaymentPending, Bookings.Authorized}
    requires var s := service.db.View();
             s.bookingOf[p] in s.bookings && s.bookings[s.bookingOf[p]] in {Bookings.Pending, Bookings.Confirmed}
             && forall q :: q != p ==> !OpenFor(s, q, s.bookingOf[p], provider)
    modifies service, service.db
    ensures service.db.books.payments == old(service.db.books.payments)[
                                           p := old(service.db.books.payments)[p].(status := Bookings.Captured)]
    ensures r == Err(L.DuplicateKey)
  {
    var b := service.db.bookingOf[p];
    CheckoutCaptures(service.db.View(), p);
    ghost var s := service.db.View();
    var fault := service.VerifyPayment(p, true, true);
    ghost var t := service.db.View();
    assert Known(t, p) && t.bookingOf[p] == b && t.books.payments[p].status == Bookings.Captured;
    forall q
      ensures !OpenFor(t, q, b, provider)
    {
      assert q != p ==> !OpenFor(s, q, b, provider);
    }
    r := service.CreateOrder(b, true, org, price, provider, None, now);
  }

  /** A pending booking for which the customer opens an order with each of two providers. */
  method OrderFromBothProviders(b: int, org: int, price: nat) returns (service: PaymentsService)
    ensures fresh(service) && fresh(service.db)
    ensures var s := service.db.View();
            s.books.payments == [L.PaymentRow(org, price, Bookings.Initiated, 1, 0),
                                 L.PaymentRow(org, price, Bookings.Initiated, 2, 0)]
            && s.bookingOf == map[0 := b, 1 := b]
  {
    var db := new Database();
    db.bookings := map[b := Bookings.Pending];
    service := new PaymentsService(db);
    var first := service.CreateOrder(b, true, org, Some(price), 1, None, 0);
    assert first == Ok(0);
    var second := service.CreateOrder(b, true, org, Some(price), 2, None, 0);
    assert second == Ok(1);
  }

  /** Both can be paid: with one call after the other, the booking is charged twice. */
  method PayBothProviders(b: int, org: int, price: nat) returns (db: Database)
    ensures fresh(db)
    ensures db.books.payments == [L.PaymentRow(org, price, Bookings.Captured, 1, 0),
                                  L.PaymentRow(org, price, Bookings.Captured, 2, 0)]
            && db.bookingOf == map[0 := b, 1 := b]
  {
    var service := OrderFromBothProviders(b, org, price);
    db := service.db;
    CheckoutCaptures(db.View(), 0);
    var fault := service.VerifyPayment(0, true, true);
    CheckoutCaptures(db.View(), 1);
    fault := service.VerifyPayment(1, true, true);
  }
}
