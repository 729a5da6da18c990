/** What a call that runs without interruption leaves behind, field by field: checkouts, callbacks, refunds,
    the provider's reconciliation and the queue's worker. */
module Outcomes {
  import opened Wrappers
  import opened PaymentFlow
  import Bookings
  import L = Ledger
  import P = Payments
  import D = Delivery

  /** A payment whose money can still be taken. */
  predicate Payable(s: Store, p: int)
    requires Known(s, p)
  {
    s.books.payments[p].status in {Bookings.Initiated, Bookings.PaymentPending, Bookings.Authorized}
  }

  /** The statuses that the table allows one after the other, besides staying the same. */
  lemma CanTransitionIff(current: Bookings.PaymentStatus, next: Bookings.PaymentStatus)
    ensures CanTransition(current, next) <==>
            || current == next
            || (current in {Bookings.Initiated, Bookings.PaymentPending, Bookings.Authorized}
                && next in {Bookings.Captured, Bookings.Failed, Bookings.PaymentCancelled})
            || (current in {Bookings.Initiated, Bookings.PaymentPending} && next == Bookings.Authorized)
            || (current == Bookings.Initiated && next == Bookings.PaymentPending)
            || (current == Bookings.Captured && next == Bookings.Refunded)
  {
  }

  /** The payment marked, and nothing else. */
  function Marked(s: Store, p: int, status: Bookings.PaymentStatus): Store
    requires Known(s, p)
  {
    var row := s.books.payments[p];
    var marked := L.PaymentRow(row.org, row.amount, status, row.provider, row.at);
    Store(L.Books(s.books.payments[p := marked], s.books.txs, s.books.entries, s.books.payouts, s.books.settlements),
          s.bookingOf, s.bookings, s.events, s.notices)
  }

  /** The payment captured and, if its booking was pending, that confirmed. */
  function Taken(s: Store, p: int): Store
    requires Known(s, p)
  {
    var b, t := s.bookingOf[p], Marked(s, p, Bookings.Captured);
    if b in s.bookings && s.bookings[b] == Bookings.Pending then t.(bookings := s.bookings[b := Bookings.Confirmed])
    else t
  }

  /** What is announced of a capture: the payment, and its booking if the capture confirmed it. */
  function CaptureNews(s: Store, p: int): seq<Notice>
    requires Known(s, p)
  {
    var b, row := s.bookingOf[p], s.books.payments[p];
    [PaymentCaptured(p, row.org, row.amount)]
    + if b in s.bookings && s.bookings[b] == Bookings.Pending then [BookingConfirmed(b)] else []
  }

  function RefundNews(s: Store, p: int): seq<Notice>
    requires Known(s, p)
  {
    [PaymentRefunded(p, s.books.payments[p].org, s.books.payments[p].amount)]
  }

  lemma CaptureTakes(s: Store, p: int, rule: Rule)
    requires Known(s, p)
    ensures CaptureTx(s, p, rule) ==
            if (rule == UnlessCaptured && s.books.payments[p].status != Bookings.Captured)
               || (rule == IfAllowed && (Payable(s, p) || s.books.payments[p].status == Bookings.Captured))
            then Capture(Taken(s, p), true, BookingPending(s, p)) else Capture(s, false, false)
  {
    CanTransitionIff(s.books.payments[p].status, Bookings.Captured);
  }

  // ------------------------------------------------------------ calls of the payments service

  /** A checkout takes the money of the customer's own payable payment and announces it; for one that is captured
      already it does nothing, and otherwise it says why not. */
  lemma CheckoutOutcome(s: Store, p: int, mine: bool, valid: bool)
    ensures StartCheckout(s, p, mine, valid) ==
            if !Known(s, p) then Err(L.NotFound)
            else if !mine then Err(L.Forbidden)
            else if s.books.payments[p].status == Bookings.Captured then Ok(Done)
            else if Payable(s, p) && valid then Ok(Capturing(p))
            else Err(L.BadRequest)
    ensures Finish(s, Agent(Checkout, Done), None, P.ANY_TERMS) == s
    ensures Known(s, p) && Payable(s, p) ==>
              Finish(s, Agent(Checkout, Capturing(p)), None, P.ANY_TERMS)
              == Taken(s, p).(notices := s.notices + CaptureNews(s, p))
  {
    if Known(s, p) {
      CanTransitionIff(s.books.payments[p].status, Bookings.Captured);
      CaptureTakes(s, p, UnlessCaptured);
      if Payable(s, p) {
        FinishTaken(s, p);
      }
    }
    FinishDone(s, Checkout, None, P.ANY_TERMS);
  }

  lemma FinishCapturing(s: Store, p: int)
    requires Known(s, p) && Payable(s, p)
    ensures Finish(s, Agent(Checkout, Capturing(p)), None, P.ANY_TERMS)
         == Finish(Taken(s, p), Agent(Checkout, Announcing(p, BookingPending(s, p))), None, P.ANY_TERMS)
  {
    CaptureTakes(s, p, UnlessCaptured);
  }

  lemma FinishTaken(s: Store, p: int)
    requires Known(s, p) && Payable(s, p)
    ensures Finish(s, Agent(Checkout, Capturing(p)), None, P.ANY_TERMS)
         == Taken(s, p).(notices := s.notices + CaptureNews(s, p))
  {
    var t, won := Taken(s, p), BookingPending(s, p);
    FinishCapturing(s, p);
    FinishAnnouncing(t, Checkout, p, won, None, P.ANY_TERMS);
    assert CaptureNews(s, p) == [CapturedNotice(t, p)] + (if won then [BookingConfirmed(s.bookingOf[p])] else []);
  }

  /** The older callback logs every event it had not seen: unusable ones as what they are, captures and refunds of
      payments that are not there yet as done, announced whatever the payment's status allowed. */
  lemma CallbackOutcome(s: Store, key: EventKey, kind: EventKind, named: bool, found: Option<int>)
    ensures var (t, phase) := StartCallback(s, key, kind, named, found);
            var end := Finish(t, Agent(Callback(key, kind), phase), found, P.ANY_TERMS);
            end ==
            if key in s.events then s
            else if !named then Logs(s, key, kind, Skipped, None)
            else if kind == OtherEvent then Logs(s, key, kind, Unhandled, None)
            else if found.None? || !Known(s, found.value) then Logs(s, key, kind, NoPayment, None)
            else if s.books.payments[found.value].status
                    == (if kind == CaptureEvent then Bookings.Captured else Bookings.Refunded)
              then Logs(s, key, kind, AlreadyProcessed, found)
            else if kind == RefundEvent then
              var refunded := Logs(Marked(s, found.value, Bookings.Refunded), key, kind, Success, found);
              refunded.(notices := s.notices + RefundNews(s, found.value))
            else if Payable(s, found.value) then
              var taken := Logs(Taken(s, found.value), key, kind, Success, found);
              taken.(notices := s.notices + CaptureNews(s, found.value))
            else Logs(s, key, kind, Success, found).(
                  notices := s.notices + [CaptureNews(s, found.value)[0]])
  {
    var (t, phase) := StartCallback(s, key, kind, named, found);
    if phase == Done {
      FinishDone(t, Callback(key, kind), found, P.ANY_TERMS);
    } else if kind == CaptureEvent {
      CallbackCaptureOutcome(s, key, found.value);
    } else {
      FinishRefunding(s, Callback(key, kind), found.value, found, P.ANY_TERMS);
    }
  }

  /** One more row in the event log. */
  function Logs(s: Store, key: EventKey, kind: EventKind, outcome: LogOutcome, p: Option<int>): Store {
    Store(s.books, s.bookingOf, s.bookings, s.events[key := EventRow(kind, Logged(outcome), p)], s.notices)
  }

  lemma CallbackCaptureOutcome(s: Store, key: EventKey, p: int)
    requires key !in s.events && Known(s, p) && s.books.payments[p].status != Bookings.Captured
    ensures Finish(s, Agent(Callback(key, CaptureEvent), Capturing(p)), Some(p), P.ANY_TERMS)
            == if Payable(s, p)
               then Logs(Taken(s, p), key, CaptureEvent, Success, Some(p)).(notices := s.notices + CaptureNews(s, p))
               else Logs(s, key, CaptureEvent, Success, Some(p)).(notices := s.notices + [CaptureNews(s, p)[0]])
  {
    P.CallbackCaptures(s, key, CaptureEvent, p);
    CaptureTakes(s, p, IfAllowed);
    assert forall a: seq<Notice>, n: Notice, m: Notice :: a + [n, m] == a + [n] + [m];
    assert s.notices + [CaptureNews(s, p)[0]] + [] == s.notices + [CaptureNews(s, p)[0]];
  }

  /** The refund desk refunds a captured payment that the provider refunds, and announces it. */
  lemma RefundOutcome(s: Store, p: int, accepted: bool)
    ensures StartRefund(s, p, accepted) ==
            if !Known(s, p) then Err(L.NotFound)
            else if s.books.payments[p].status == Bookings.Captured && accepted then Ok(Refunding(p))
            else Err(L.BadRequest)
    ensures Known(s, p) && s.books.payments[p].status == Bookings.Captured ==>
              Finish(s, Agent(Desk, Refunding(p)), None, P.ANY_TERMS)
              == Marked(s, p, Bookings.Refunded).(notices := s.notices + RefundNews(s, p))
  {
    if Known(s, p) && s.books.payments[p].status == Bookings.Captured {
      FinishRefunding(s, Desk, p, None, P.ANY_TERMS);
    }
  }

  /** The provider's reconciliation captures whatever is paid, in silence. */
  lemma ReconcileOutcome(s: Store, p: int, paid: bool)
    ensures Reconcile(s, p, paid) ==
            if !Known(s, p) then Err(L.NotFound)
            else if paid && s.books.payments[p].status != Bookings.Captured then Ok(Taken(s, p))
            else Ok(s)
  {
  }

  // ------------------------------------------------------------ the queue

  /** The event row moved to a status, and nothing else. */
  function Sets(s: Store, key: EventKey, status: EventStatus, payment: Option<int>): Store
    requires key in s.events
  {
    Store(s.books, s.bookingOf, s.bookings, s.events[key := EventRow(s.events[key].kind, status, payment)], s.notices)
  }

  lemma ReceiveOutcome(s: Store, key: EventKey, kind: EventKind, signed: bool)
    ensures Receive(s, key, kind, signed) ==
            if !signed then Err(L.BadRequest)
            else if key in s.events then Ok(s)
            else Ok(Store(s.books, s.bookingOf, s.bookings, s.events[key := EventRow(kind, Queued, None)], s.notices))
  {
  }

  lemma RetryOutcome(s: Store, key: EventKey)
    ensures Retry(s, key) ==
            if key in s.events then Ok(Sets(s, key, Queued, s.events[key].payment)) else Err(L.NotFound)
  {
  }

  /** The worker on one event, from beginning to end. */
  function Worked(s: Store, key: EventKey, found: Option<int>, terms: Terms): Store {
    Finish(s, Agent(Job(key), StartJob(s, key)), found, terms)
  }

  /** An event that is unknown or processed is left alone; one of another kind is ignored; one that names no known
      payment fails; one whose payment is where it should be is done at once. */
  lemma JobShortOutcome(s: Store, key: EventKey, found: Option<int>, terms: Terms)
    ensures key !in s.events || s.events[key].status == Processed ==> Worked(s, key, found, terms) == s
    ensures key in s.events && s.events[key].status != Processed ==>
              var row, t := s.events[key], Worked(s, key, found, terms);
              && (row.kind == OtherEvent ==> t == Sets(s, key, Ignored, row.payment))
              && (row.kind != OtherEvent && (found.None? || !Known(s, found.value)) ==>
                    t == Sets(s, key, Errored, row.payment))
              && (row.kind != OtherEvent && found.Some? && Known(s, found.value) ==>
                    var done := if row.kind == CaptureEvent then Bookings.Captured else Bookings.Refunded;
                    s.books.payments[found.value].status == done ==> t == Sets(s, key, Processed, found))
  {
    FinishDone(s, Job(key), found, terms);
    if key in s.events && s.events[key].status != Processed {
      var t := SetEvent(s, key, InProgress);
      JobFetches(s, key, found, terms);
      if Fetch(t, key, found).1 == Done {
        FetchShort(t, key, found, terms);
      }
    }
  }

  lemma JobFetches(s: Store, key: EventKey, found: Option<int>, terms: Terms)
    requires key in s.events && s.events[key].status != Processed
    ensures Worked(s, key, found, terms)
         == Finish(SetEvent(s, key, InProgress), Agent(Job(key), Fetching), found, terms)
  {
  }

  lemma FetchShort(s: Store, key: EventKey, found: Option<int>, terms: Terms)
    requires key in s.events && Fetch(s, key, found).1 == Done
    ensures Finish(s, Agent(Job(key), Fetching), found, terms) == Fetch(s, key, found).0
  {
    FinishDone(Fetch(s, key, found).0, Job(key), found, terms);
  }

  /** A capture event takes the money of its payment, records it, is marked as done and announced. */
  lemma JobCaptureOutcome(s: Store, key: EventKey, p: int, terms: Terms)
    requires key in s.events && s.events[key].status != Processed && s.events[key].kind == CaptureEvent
    requires Known(s, p) && s.books.payments[p].status != Bookings.Captured
    ensures var t, row := Taken(s, p), s.books.payments[p];
            var booked := L.RecordPayment(t.books, p, row.org, row.amount, terms.bp, terms.fee, terms.at);
            booked.Ok?
            && Worked(s, key, Some(p), terms)
               == Store(booked.value, s.bookingOf, t.bookings,
                        s.events[key := EventRow(CaptureEvent, Processed, Some(p))], s.notices + CaptureNews(s, p))
  {
    var claimed := SetEvent(s, key, InProgress);
    var won := BookingPending(s, p);
    CaptureTakes(claimed, p, UnlessCaptured);
    JobFetches(s, key, Some(p), terms);
    assert Finish(claimed, Agent(Job(key), Fetching), Some(p), terms)
        == Finish(claimed, Agent(Job(key), Capturing(p)), Some(p), terms);
    var t := Taken(claimed, p);
    assert Finish(claimed, Agent(Job(key), Capturing(p)), Some(p), terms)
        == Finish(t, Agent(Job(key), Recording(p, won)), Some(p), terms);
    JobRecords(t, key, p, won, terms);
    CapturedNews(s, t, p);
    assert t.events[key := EventRow(CaptureEvent, Processed, Some(p))]
        == s.events[key := EventRow(CaptureEvent, Processed, Some(p))];
  }

  lemma CapturedNews(s: Store, t: Store, p: int)
    requires Known(s, p) && Known(t, p) && t.bookingOf == s.bookingOf && t.notices == s.notices
    requires t.books.payments[p].org == s.books.payments[p].org
    requires t.books.payments[p].amount == s.books.payments[p].amount
    ensures t.notices + [CapturedNotice(t, p)]
            + (if BookingPending(s, p) then [BookingConfirmed(t.bookingOf[p])] else [])
            == s.notices + CaptureNews(s, p)
  {
  }

  lemma JobRecords(s: Store, key: EventKey, p: int, won: bool, terms: Terms)
    requires key in s.events && s.events[key].kind == CaptureEvent && Known(s, p)
    ensures var row := s.books.payments[p];
            var booked := L.RecordPayment(s.books, p, row.org, row.amount, terms.bp, terms.fee, terms.at);
            booked.Ok?
            && Finish(s, Agent(Job(key), Recording(p, won)), Some(p), terms)
               == Store(booked.value, s.bookingOf, s.bookings,
                        s.events[key := EventRow(CaptureEvent, Processed, Some(p))],
                        s.notices + [CapturedNotice(s, p)]
                        + (if won then [BookingConfirmed(s.bookingOf[p])] else []))
  {
    var row := s.books.payments[p];
    var booked := L.RecordPayment(s.books, p, row.org, row.amount, terms.bp, terms.fee, terms.at);
    var t := s.(books := booked.value);
    var u := FinishEvent(t, key, p);
    assert Finish(s, Agent(Job(key), Recording(p, won)), Some(p), terms)
        == Finish(t, Agent(Job(key), Marking(p, won)), Some(p), terms);
    assert Finish(t, Agent(Job(key), Marking(p, won)), Some(p), terms)
        == Finish(u, Agent(Job(key), Announcing(p, won)), Some(p), terms);
    FinishAnnouncing(u, Job(key), p, won, Some(p), terms);
  }

  /** A refund event marks its payment as refunded and reverses it in the ledger; when the ledger refuses, the event
      fails, and otherwise it is done and announced. */
  lemma JobRefundOutcome(s: Store, key: EventKey, p: int, terms: Terms)
    requires key in s.events && s.events[key].status != Processed && s.events[key].kind == RefundEvent
    requires Known(s, p) && s.books.payments[p].status != Bookings.Refunded
    ensures var t, row := Marked(s, p, Bookings.Refunded), s.books.payments[p];
            Worked(s, key, Some(p), terms) ==
            match L.RecordRefund(t.books, p, row.org, row.amount, terms.at)
            case Err(_) => Sets(t, key, Errored, s.events[key].payment)
            case Ok(b) => Store(b, s.bookingOf, s.bookings, s.events[key := EventRow(RefundEvent, Processed, Some(p))],
                                s.notices + RefundNews(s, p))
  {
    var t := Marked(SetEvent(s, key, InProgress), p, Bookings.Refunded);
    JobMarksRefund(s, key, p, terms);
    JobReverses(t, key, p, terms);
    assert Sets(t, key, Errored, s.events[key].payment)
        == Sets(Marked(s, p, Bookings.Refunded), key, Errored, s.events[key].payment);
    assert t.events[key := EventRow(RefundEvent, Processed, Some(p))]
        == s.events[key := EventRow(RefundEvent, Processed, Some(p))];
  }

  lemma JobMarksRefund(s: Store, key: EventKey, p: int, terms: Terms)
    requires key in s.events && s.events[key].status != Processed && s.events[key].kind == RefundEvent
    requires Known(s, p) && s.books.payments[p].status != Bookings.Refunded
    ensures Worked(s, key, Some(p), terms)
         == Finish(Marked(SetEvent(s, key, InProgress), p, Bookings.Refunded), Agent(Job(key), RecordingRefund(p)),
                   Some(p), terms)
  {
    var claimed := SetEvent(s, key, InProgress);
    JobFetches(s, key, Some(p), terms);
    assert Finish(claimed, Agent(Job(key), Fetching), Some(p), terms)
        == Finish(claimed, Agent(Job(key), Refunding(p)), Some(p), terms);
  }

  lemma JobReverses(s: Store, key: EventKey, p: int, terms: Terms)
    requires key in s.events && s.events[key].kind == RefundEvent && Known(s, p)
    ensures var row := s.books.payments[p];
            Finish(s, Agent(Job(key), RecordingRefund(p)), Some(p), terms) ==
            match L.RecordRefund(s.books, p, row.org, row.amount, terms.at)
            case Err(_) => Sets(s, key, Errored, s.events[key].payment)
            case Ok(b) => Store(b, s.bookingOf, s.bookings, s.events[key := EventRow(RefundEvent, Processed, Some(p))],
                                s.notices + RefundNews(s, p))
  {
    var row := s.books.payments[p];
    match L.RecordRefund(s.books, p, row.org, row.amount, terms.at)
    case Err(_) => FinishDone(SetEvent(s, key, Errored), Job(key), Some(p), terms);
    case Ok(b) =>
      assert Finish(s, Agent(Job(key), RecordingRefund(p)), Some(p), terms)
          == Finish(s.(books := b), Agent(Job(key), MarkingRefund(p)), Some(p), terms);
      FinishMarkingRefund(s.(books := b), Job(key), p, Some(p), terms);
      PaymentsKept(s, p, terms);
  }

  lemma PaymentsKept(s: Store, p: int, terms: Terms)
    requires Known(s, p)
    ensures var row := s.books.payments[p];
            var r := L.RecordRefund(s.books, p, row.org, row.amount, terms.at);
            r.Ok? ==> r.value.payments == s.books.payments
  {
  }

  // ------------------------------------------------------------ calls that come too late

  /** A checkout that finds its payment captured meanwhile, and a desk or callback that finds it refunded, do nothing
      more and announce nothing. */
  lemma LateCalls(s: Store, p: int, key: EventKey, kind: EventKind)
    requires Known(s, p)
    ensures s.books.payments[p].status == Bookings.Captured ==>
              Finish(s, Agent(Checkout, Capturing(p)), None, P.ANY_TERMS) == s
    ensures s.books.payments[p].status == Bookings.Refunded ==>
              Finish(s, Agent(Desk, Refunding(p)), None, P.ANY_TERMS) == s
              && Finish(s, Agent(Callback(key, kind), Refunding(p)), Some(p), P.ANY_TERMS) == s
  {
    FinishDone(s, Checkout, None, P.ANY_TERMS);
    FinishDone(s, Desk, None, P.ANY_TERMS);
    FinishDone(s, Callback(key, kind), Some(p), P.ANY_TERMS);
  }

  /** A worker that finds its payment captured meanwhile still records and announces it. */
  lemma LateJob(s: Store, key: EventKey, p: int, terms: Terms)
    requires key in s.events && s.events[key].kind == CaptureEvent
    requires Known(s, p) && s.books.payments[p].status == Bookings.Captured
    ensures var row := s.books.payments[p];
            var booked := L.RecordPayment(s.books, p, row.org, row.amount, terms.bp, terms.fee, terms.at);
            booked.Ok?
            && Finish(s, Agent(Job(key), Capturing(p)), Some(p), terms)
               == Store(booked.value, s.bookingOf, s.bookings,
                        s.events[key := EventRow(CaptureEvent, Processed, Some(p))],
                        s.notices + [PaymentCaptured(p, row.org, row.amount)])
  {
    assert Finish(s, Agent(Job(key), Capturing(p)), Some(p), terms)
        == Finish(s, Agent(Job(key), Recording(p, false)), Some(p), terms);
    JobRecords(s, key, p, false, terms);
    assert s.notices + [CapturedNotice(s, p)] + [] == s.notices + [CapturedNotice(s, p)];
  }

  /** A callback never overwrites the log of an event that another has logged meanwhile. */
  lemma LateLog(s: Store, key: EventKey, kind: EventKind, p: int, won: bool, found: Option<int>, terms: Terms)
    requires Known(s, p) && key in s.events
    ensures Perform(s, Agent(Callback(key, kind), Marking(p, won)), found, terms) == (s, Announcing(p, won))
    ensures Perform(s, Agent(Callback(key, kind), MarkingRefund(p)), found, terms) == (s, AnnouncingRefund(p))
  {
  }

  // ------------------------------------------------------------ calls in a run

  /** A worker that throws once it has claimed its event leaves that failed, so that the next attempt can claim it
      again; any other call that throws leaves nothing behind. */
  lemma ThrownOutcome(w: D.World, a: int)
    requires a in w.agents
    ensures var g, v := w.agents[a], D.Next(w, D.Throw(a));
            && v.agents == w.agents[a := Agent(g.flow, Done)]
            && v.store == if g.flow.Job? && g.phase !in {Claimed, Done} && g.flow.event in w.store.events
                          then Sets(w.store, g.flow.event, Errored, w.store.events[g.flow.event].payment) else w.store
  {
  }

  /** A call in progress moves by its own steps only. */
  lemma OthersLeaveAgents(w: D.World, step: D.Step, a: int)
    requires a in w.agents && !((step.Advance? || step.Crash? || step.Throw?) && step.agent == a)
    ensures a in D.Next(w, step).agents && D.Next(w, step).agents[a] == w.agents[a]
  {
  }

  /** The booking service may move a booking to any status but PENDING at any time. */
  lemma BookingsMoveFreely(w: D.World, b: int, status: Bookings.Status)
    requires b in w.store.bookings && status != Bookings.Pending
    ensures D.Next(w, D.MoveBooking(b, status)).store.bookings == w.store.bookings[b := status]
  {
  }

  /** Adjustments, payouts and settlements may come at any time, and touch the books only. */
  lemma FinanceRunsFreely(w: D.World, l: L.Step)
    requires l.Adjust? || l.Payout? || l.Complete? || l.Fail? || l.Settle?
    ensures var s := w.store;
            D.Next(w, D.Finance(l))
            == D.World(Store(L.Next(s.books, l), s.bookingOf, s.bookings, s.events, s.notices), w.agents)
  {
  }
}
