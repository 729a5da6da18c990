/** Runs in which webhooks go wrong: a capture and a refund whose events end PROCESSED with nothing in the
    ledger, payments recorded that were never captured, and a single paisa refunded twice. */
module LostEvents {
  import opened Wrappers
  import opened PaymentFlow
  import opened Delivery
  import opened Processing
  import N = CaptureNotices
  import L = Ledger
  import R = Refunds

  // ------------------------------------------------------------ a capture lost in a crash

  const LOST_KEY := EventKey(1, 100)
  const NO_TERMS := Terms(0, 0, 0)

  /** A worker is lost right after its capture transaction; the next attempt finds the payment captured. */
  const LOST_ATTEMPT: seq<Step> := [
    NewBooking(5), OpenPayment(5, 7, 1000, 1, 0), ReceiveEvent(LOST_KEY, CaptureEvent, true),
    BeginJob(1, LOST_KEY), Advance(1, None, NO_TERMS), Advance(1, Some(0), NO_TERMS), Advance(1, None, NO_TERMS),
    Crash(1),
    BeginJob(2, LOST_KEY), Advance(2, None, NO_TERMS), Advance(2, Some(0), NO_TERMS)]

  /** The one payment, booking and event of that run. */
  function LostStore(payment: Bookings.PaymentStatus, booking: Bookings.Status, event: EventRow): Store {
    Store(L.EMPTY_BOOKS.(payments := [L.PaymentRow(7, 1000, payment, 1, 0)]), map[0 := 5], map[5 := booking],
          map[LOST_KEY := event], [])
  }

  function Worker(phase: Phase): Agent {
    Agent(Job(LOST_KEY), phase)
  }

  /** The event ends PROCESSED and the booking confirmed, yet nothing is recorded and nothing was announced. */
  lemma CrashLosesTheRecord()
    ensures Run(LOST_ATTEMPT).store
            == LostStore(Bookings.Captured, Bookings.Confirmed, EventRow(CaptureEvent, Processed, Some(0)))
    ensures Run(LOST_ATTEMPT).store.books.txs == [] && Run(LOST_ATTEMPT).store.notices == []
  {
    LostCaptured();
    TwoStepsOfRun(LOST_ATTEMPT, 7);
    TwoStepsOfRun(LOST_ATTEMPT, 9);
    assert LOST_ATTEMPT[..11] == LOST_ATTEMPT;
    var s := LostStore(Bookings.Captured, Bookings.Confirmed, EventRow(CaptureEvent, InProgress, None));
    LostShortcut(s);
  }

  lemma LostShortcut(s: Store)
    requires s == LostStore(Bookings.Captured, Bookings.Confirmed, EventRow(CaptureEvent, InProgress, None))
    ensures var w := Next(World(s, map[1 := Worker(Recording(0, true))]), LOST_ATTEMPT[7]);
            var v := Next(Next(Next(w, LOST_ATTEMPT[8]), LOST_ATTEMPT[9]), LOST_ATTEMPT[10]);
            v.store == LostStore(Bookings.Captured, Bookings.Confirmed, EventRow(CaptureEvent, Processed, Some(0)))
  {
    var w := World(s, map[1 := Worker(Done)]);
    var w1 := World(s, map[1 := Worker(Done), 2 := Worker(Claimed)]);
    var w2 := World(s, map[1 := Worker(Done), 2 := Worker(Fetching)]);
    assert Next(World(s, map[1 := Worker(Recording(0, true))]), LOST_ATTEMPT[7]) == w;
    assert Next(w, LOST_ATTEMPT[8]) == w1;
    LostClaims(s, w1, w2);
  }

  lemma LostClaims(s: Store, w1: World, w2: World)
    requires s == LostStore(Bookings.Captured, Bookings.Confirmed, EventRow(CaptureEvent, InProgress, None))
    requires w1 == World(s, map[1 := Worker(Done), 2 := Worker(Claimed)])
             && w2 == World(s, map[1 := Worker(Done), 2 := Worker(Fetching)])
    ensures Next(w1, LOST_ATTEMPT[9]) == w2
    ensures Next(w2, LOST_ATTEMPT[10]).store
            == LostStore(Bookings.Captured, Bookings.Confirmed, EventRow(CaptureEvent, Processed, Some(0)))
  {
  }

  lemma LostReceived()
    ensures Run(LOST_ATTEMPT[..3])
            == World(LostStore(Bookings.Initiated, Bookings.Pending, EventRow(CaptureEvent, Queued, None)), map[])
  {
    TwoStepsOfRun(LOST_ATTEMPT, 0);
    StepOfRun(LOST_ATTEMPT, 2);
    assert LOST_ATTEMPT[..0] == [];
    PaymentOpened();
  }

  lemma LostCaptured()
    ensures Run(LOST_ATTEMPT[..7]) ==
            World(LostStore(Bookings.Captured, Bookings.Confirmed, EventRow(CaptureEvent, InProgress, None)),
                  map[1 := Worker(Recording(0, true))])
  {
    LostReceived();
    TwoStepsOfRun(LOST_ATTEMPT, 3);
    LostClaimed();
    TwoStepsOfRun(LOST_ATTEMPT, 5);
    LostCapture();
  }

  lemma LostClaimed()
    ensures var w := World(LostStore(Bookings.Initiated, Bookings.Pending, EventRow(CaptureEvent, Queued, None)),
                           map[]);
            Next(Next(w, LOST_ATTEMPT[3]), LOST_ATTEMPT[4]) ==
            World(LostStore(Bookings.Initiated, Bookings.Pending, EventRow(CaptureEvent, InProgress, None)),
                  map[1 := Worker(Fetching)])
  {
  }

  lemma LostCapture()
    ensures var w := World(LostStore(Bookings.Initiated, Bookings.Pending, EventRow(CaptureEvent, InProgress, None)),
                           map[1 := Worker(Fetching)]);
            Next(Next(w, LOST_ATTEMPT[5]), LOST_ATTEMPT[6]) ==
            World(LostStore(Bookings.Captured, Bookings.Confirmed, EventRow(CaptureEvent, InProgress, None)),
                  map[1 := Worker(Recording(0, true))])
  {
    var s := LostStore(Bookings.Initiated, Bookings.Pending, EventRow(CaptureEvent, InProgress, None));
    var w := World(s, map[1 := Worker(Fetching)]);
    assert Next(w, LOST_ATTEMPT[5]) == World(s, map[1 := Worker(Capturing(0))]);
    assert CaptureTx(s, 0, UnlessCaptured).store
        == LostStore(Bookings.Captured, Bookings.Confirmed, EventRow(CaptureEvent, InProgress, None));
  }

  // ------------------------------------------------------------ a refund lost without any crash

  /** The provider's reconciliation captures a payment without recording it. The ledger then refuses to reverse
      it, the refund event fails, and its retry finds the payment refunded. */
  const LOST_REFUND: seq<Step> := [
    NewBooking(5), OpenPayment(5, 7, 1000, 1, 0), ReconcilePayment(0, true), ReceiveEvent(LOST_KEY, RefundEvent, true),
    BeginJob(1, LOST_KEY), Advance(1, None, NO_TERMS), Advance(1, Some(0), NO_TERMS), Advance(1, None, NO_TERMS),
    Advance(1, None, NO_TERMS), RetryEvent(LOST_KEY),
    BeginJob(2, LOST_KEY), Advance(2, None, NO_TERMS), Advance(2, Some(0), NO_TERMS)]

  function RefundStore(payment: Bookings.PaymentStatus, status: EventStatus): Store {
    LostStore(payment, Bookings.Confirmed, EventRow(RefundEvent, status, None))
  }

  /** The event ends PROCESSED and the payment REFUNDED, yet nothing is recorded and nothing was announced. */
  lemma RetryLosesTheRefund()
    ensures Run(LOST_REFUND).store
            == LostStore(Bookings.Refunded, Bookings.Confirmed, EventRow(RefundEvent, Processed, Some(0)))
    ensures Run(LOST_REFUND).store.books.txs == [] && Run(LOST_REFUND).store.notices == []
  {
    RefundRequeued();
    TwoStepsOfRun(LOST_REFUND, 11);
    assert LOST_REFUND[..13] == LOST_REFUND;
    RefundShortcut();
  }

  lemma RefundRequeued()
    ensures Run(LOST_REFUND[..11])
            == World(RefundStore(Bookings.Refunded, Queued), map[1 := Worker(Done), 2 := Worker(Claimed)])
  {
    RefundFailed();
    TwoStepsOfRun(LOST_REFUND, 9);
    RefundRetried();
  }

  lemma RefundRetried()
    ensures var w := World(RefundStore(Bookings.Refunded, Errored), map[1 := Worker(Done)]);
            Next(Next(w, LOST_REFUND[9]), LOST_REFUND[10]) ==
            World(RefundStore(Bookings.Refunded, Queued), map[1 := Worker(Done), 2 := Worker(Claimed)])
  {
  }

  lemma RefundShortcut()
    ensures var w := World(RefundStore(Bookings.Refunded, Queued), map[1 := Worker(Done), 2 := Worker(Claimed)]);
            Next(Next(w, LOST_REFUND[11]), LOST_REFUND[12]).store ==
            LostStore(Bookings.Refunded, Bookings.Confirmed, EventRow(RefundEvent, Processed, Some(0)))
  {
    var w := World(RefundStore(Bookings.Refunded, Queued), map[1 := Worker(Done), 2 := Worker(Claimed)]);
    assert Next(w, LOST_REFUND[11]) ==
           World(RefundStore(Bookings.Refunded, InProgress), map[1 := Worker(Done), 2 := Worker(Fetching)]);
  }

  lemma RefundFailed()
    ensures Run(LOST_REFUND[..9]) == World(RefundStore(Bookings.Refunded, Errored), map[1 := Worker(Done)])
  {
    RefundReceived();
    TwoStepsOfRun(LOST_REFUND, 4);
    RefundClaimed();
    TwoStepsOfRun(LOST_REFUND, 6);
    RefundWritten();
    StepOfRun(LOST_REFUND, 8);
    RefundRefused();
  }

  lemma RefundReceived()
    ensures Run(LOST_REFUND[..4]) == World(RefundStore(Bookings.Captured, Queued), map[])
  {
    RefundOpened();
    TwoStepsOfRun(LOST_REFUND, 2);
    RefundAnnounced();
  }

  lemma RefundOpened()
    ensures Run(LOST_REFUND[..2]) == World(OpenedStore(Bookings.Initiated, Bookings.Pending), map[])
  {
    TwoStepsOfRun(LOST_REFUND, 0);
    assert LOST_REFUND[..0] == [];
    PaymentOpened();
  }

  /** The one payment of these runs, for the one booking. */
  function OpenedStore(payment: Bookings.PaymentStatus, booking: Bookings.Status): Store {
    LostStore(payment, booking, EventRow(CaptureEvent, Queued, None)).(events := map[])
  }

  lemma PaymentOpened()
    ensures Next(Next(EMPTY_WORLD, NewBooking(5)), OpenPayment(5, 7, 1000, 1, 0)) ==
            World(OpenedStore(Bookings.Initiated, Bookings.Pending), map[])
  {
    var w := Next(EMPTY_WORLD, NewBooking(5));
    assert w.store.bookings == map[5 := Bookings.Pending];
    assert Next(w, OpenPayment(5, 7, 1000, 1, 0)).store.bookingOf == map[0 := 5];
  }

  lemma RefundAnnounced()
    ensures var w := World(OpenedStore(Bookings.Initiated, Bookings.Pending), map[]);
            Next(Next(w, ReconcilePayment(0, true)), ReceiveEvent(LOST_KEY, RefundEvent, true)) ==
            World(RefundStore(Bookings.Captured, Queued), map[])
  {
    var w := World(OpenedStore(Bookings.Initiated, Bookings.Pending), map[]);
    assert Next(w, ReconcilePayment(0, true)) == World(OpenedStore(Bookings.Captured, Bookings.Confirmed), map[]);
  }

  lemma RefundClaimed()
    ensures var w := World(RefundStore(Bookings.Captured, Queued), map[]);
            Next(Next(w, LOST_REFUND[4]), LOST_REFUND[5]) ==
            World(RefundStore(Bookings.Captured, InProgress), map[1 := Worker(Fetching)])
  {
  }

  lemma RefundWritten()
    ensures var w := World(RefundStore(Bookings.Captured, InProgress), map[1 := Worker(Fetching)]);
            Next(Next(w, LOST_REFUND[6]), LOST_REFUND[7]) ==
            World(RefundStore(Bookings.Refunded, InProgress), map[1 := Worker(RecordingRefund(0))])
  {
    var s := RefundStore(Bookings.Captured, InProgress);
    assert Next(World(s, map[1 := Worker(Fetching)]), LOST_REFUND[6]) == World(s, map[1 := Worker(Refunding(0))]);
  }

  lemma RefundRefused()
    ensures var w := World(RefundStore(Bookings.Refunded, InProgress), map[1 := Worker(RecordingRefund(0))]);
            Next(w, LOST_REFUND[8]) == World(RefundStore(Bookings.Refunded, Errored), map[1 := Worker(Done)])
  {
  }

  // ------------------------------------------------------------ payments recorded that were never captured

  /** A capture event reaches the older callback, whose transaction refuses, and which announces the capture
      all the same; the finance listener hears of it. */
  function RefusedCapture(agent: int, key: EventKey, p: int, notice: nat): seq<Step> {
    [BeginCallback(agent, key, CaptureEvent, true, Some(p)),
     Advance(agent, None, NO_TERMS), Advance(agent, None, NO_TERMS), Advance(agent, None, NO_TERMS),
     Deliver(notice, NO_TERMS)]
  }

  function Caller(key: EventKey, phase: Phase): Agent {
    Agent(Callback(key, CaptureEvent), phase)
  }

  /** Every run that leaves a payment uncaptured so far, in a status that may not become CAPTURED, is continued
      by five steps to one that records the payment, still never captured. */
  lemma RefusedIsRecorded(steps: seq<Step>, agent: int, key: EventKey, p: int)
    requires var w := Run(steps); agent !in w.agents && key !in w.store.events && Known(w.store, p)
                                  && !CanTransition(w.store.books.payments[p].status, Bookings.Captured)
    requires p !in N.Taken(steps)
    ensures var longer := steps + RefusedCapture(agent, key, p, |Run(steps).store.notices|);
            L.HasKey(Run(longer).store.books.txs, L.PayKey(p)) && p !in N.Taken(longer)
  {
    var w, k := Run(steps), |steps|;
    var longer := steps + RefusedCapture(agent, key, p, |w.store.notices|);
    assert longer[..k] == steps && longer[..k + 5] == longer;
    RefusedCalled(w, agent, key, p);
    StepsOfRun(longer, k, w.(agents := w.agents[agent := Caller(key, Capturing(p))]),
               w.(agents := w.agents[agent := Caller(key, Marking(p, false))]));
    var logged := LogEvent(w.store, key, CaptureEvent, Success, Some(p));
    var told := Emit(logged, CapturedNotice(w.store, p));
    RefusedAnnounced(w, agent, key, p);
    StepsOfRun(longer, k + 2, World(logged, w.agents[agent := Caller(key, Announcing(p, false))]),
               World(told, w.agents[agent := Caller(key, Done)]));
    DeliveredIsRecorded(World(told, w.agents[agent := Caller(key, Done)]), p, |w.store.notices|);
    StepOfRun(longer, k + 4);
    NothingTaken(longer, k + 4);
  }

  /** Two steps whose worlds are known, neither of which takes any money. */
  lemma StepsOfRun(steps: seq<Step>, n: nat, v: World, x: World)
    requires n + 1 < |steps| && Next(Run(steps[..n]), steps[n]) == v && Next(v, steps[n + 1]) == x
    requires x.store.books.payments == v.store.books.payments == Run(steps[..n]).store.books.payments
    ensures Run(steps[..n + 2]) == x && N.Taken(steps[..n + 2]) == N.Taken(steps[..n])
  {
    StepOfRun(steps, n);
    NothingTaken(steps, n);
    StepOfRun(steps, n + 1);
    NothingTaken(steps, n + 1);
  }

  lemma NothingTaken(steps: seq<Step>, n: nat)
    requires n < |steps| && Next(Run(steps[..n]), steps[n]).store.books.payments == Run(steps[..n]).store.books.payments
    ensures N.Taken(steps[..n + 1]) == N.Taken(steps[..n])
  {
    N.RunAgentsTook(steps[..n]);
    assert steps[..n + 1][..n] == steps[..n];
  }

  lemma RefusedCalled(w: World, agent: int, key: EventKey, p: int)
    requires agent !in w.agents && key !in w.store.events && Known(w.store, p)
    requires !CanTransition(w.store.books.payments[p].status, Bookings.Captured)
    ensures var v := w.(agents := w.agents[agent := Caller(key, Capturing(p))]);
            Next(w, BeginCallback(agent, key, CaptureEvent, true, Some(p))) == v
            && Next(v, Advance(agent, None, NO_TERMS))
               == w.(agents := w.agents[agent := Caller(key, Marking(p, false))])
  {
  }

  lemma RefusedAnnounced(w: World, agent: int, key: EventKey, p: int)
    requires key !in w.store.events && Known(w.store, p)
    ensures var logged := LogEvent(w.store, key, CaptureEvent, Success, Some(p));
            var v := w.(agents := w.agents[agent := Caller(key, Marking(p, false))]);
            var x := World(logged, w.agents[agent := Caller(key, Announcing(p, false))]);
            Next(v, Advance(agent, None, NO_TERMS)) == x
            && Next(x, Advance(agent, None, NO_TERMS))
               == World(Emit(logged, CapturedNotice(w.store, p)), w.agents[agent := Caller(key, Done)])
  {
  }

  lemma DeliveredIsRecorded(w: World, p: int, notice: nat)
    requires notice < |w.store.notices| && Known(w.store, p) && w.store.notices[notice] == CapturedNotice(w.store, p)
    ensures var v := Next(w, Deliver(notice, NO_TERMS));
            L.HasKey(v.store.books.txs, L.PayKey(p)) && v.store.books.payments == w.store.books.payments
  {
    N.PaidHasKey(w.store.books, Heard(w.store.notices[notice], NO_TERMS).value);
  }

  /** A payment cancelled with its booking. */
  const CANCELLED: seq<Step> := [NewBooking(5), OpenPayment(5, 7, 1000, 1, 0), VoidPayment(0)]

  /** A payment that a refund event turns REFUNDED before anything was paid. */
  const REFUNDED: seq<Step> := [
    NewBooking(5), OpenPayment(5, 7, 1000, 1, 0), BeginCallback(1, LOST_KEY, RefundEvent, true, Some(0)),
    Advance(1, None, NO_TERMS)]

  const LATE_KEY := EventKey(1, 101)

  /** The ledger ends with the PAYMENT row of a payment that was cancelled and never captured. */
  lemma CancelledIsRecorded()
    ensures var steps := CANCELLED + RefusedCapture(2, LATE_KEY, 0, 0);
            L.HasKey(Run(steps).store.books.txs, L.PayKey(0)) && 0 !in N.Taken(steps)
  {
    PaymentCancelled();
    RefusedIsRecorded(CANCELLED, 2, LATE_KEY, 0);
  }

  /** Likewise of a payment that was refunded and never captured. */
  lemma RefundedIsRecorded()
    ensures var steps := REFUNDED + RefusedCapture(2, LATE_KEY, 0, 0);
            L.HasKey(Run(steps).store.books.txs, L.PayKey(0)) && 0 !in N.Taken(steps)
  {
    PaymentRefundedUnpaid();
    RefusedIsRecorded(REFUNDED, 2, LATE_KEY, 0);
  }

  lemma PaymentCancelled()
    ensures Run(CANCELLED) == World(OpenedStore(Bookings.PaymentCancelled, Bookings.Pending), map[])
    ensures N.Taken(CANCELLED) == {}
  {
    NothingTakenYet(CANCELLED);
    StepOfRun(CANCELLED, 2);
    Voided();
    assert CANCELLED[..3] == CANCELLED && CANCELLED[..3][..2] == CANCELLED[..2];
  }

  lemma Voided()
    ensures Next(World(OpenedStore(Bookings.Initiated, Bookings.Pending), map[]), VoidPayment(0)) ==
            World(OpenedStore(Bookings.PaymentCancelled, Bookings.Pending), map[])
  {
  }

  lemma NothingTakenYet(steps: seq<Step>)
    requires |steps| >= 2 && steps[0] == NewBooking(5) && steps[1] == OpenPayment(5, 7, 1000, 1, 0)
    ensures Run(steps[..2]) == World(OpenedStore(Bookings.Initiated, Bookings.Pending), map[])
    ensures N.Taken(steps[..2]) == {}
  {
    TwoStepsOfRun(steps, 0);
    assert steps[..0] == [];
    PaymentOpened();
    InitiatedOnly(steps);
  }

  lemma InitiatedOnly(steps: seq<Step>)
    requires |steps| >= 2 && steps[0] == NewBooking(5) && steps[1] == OpenPayment(5, 7, 1000, 1, 0)
    requires N.CapturedIn(Run(steps[..2]).store) == {}
    ensures N.Taken(steps[..2]) == {}
  {
    StepOfRun(steps, 0);
    assert steps[..0] == [] && steps[..2][..1] == steps[..1] && steps[..1][..0] == [];
    assert Run(steps[..1]) == Next(EMPTY_WORLD, NewBooking(5));
    assert N.CapturedIn(Run(steps[..1]).store) == {};
    assert N.Taken(steps[..1]) == {} + N.CapturedIn(Run(steps[..1]).store);
    assert N.Taken(steps[..2]) == N.Taken(steps[..1]) + N.CapturedIn(Run(steps[..2]).store);
  }

  lemma PaymentRefundedUnpaid()
    ensures Run(REFUNDED) == World(OpenedStore(Bookings.Refunded, Bookings.Pending),
                                   map[1 := Agent(Callback(LOST_KEY, RefundEvent), MarkingRefund(0))])
    ensures N.Taken(REFUNDED) == {}
  {
    NothingTakenYet(REFUNDED);
    StepOfRun(REFUNDED, 2);
    StepOfRun(REFUNDED, 3);
    assert REFUNDED[..4] == REFUNDED && REFUNDED[..4][..3] == REFUNDED[..3] && REFUNDED[..3][..2] == REFUNDED[..2];
    RefundCalled();
  }

  lemma RefundCalled()
    ensures var w := World(OpenedStore(Bookings.Initiated, Bookings.Pending), map[]);
            var v := w.(agents := map[1 := Agent(Callback(LOST_KEY, RefundEvent), Refunding(0))]);
            Next(w, REFUNDED[2]) == v
            && Next(v, REFUNDED[3]) == World(OpenedStore(Bookings.Refunded, Bookings.Pending),
                                             map[1 := Agent(Callback(LOST_KEY, RefundEvent), MarkingRefund(0))])
  {
  }

  /** Moreover the provider's reconciliation captures the cancelled payment, which the table of statuses forbids. */
  lemma CancelledIsCaptured()
    ensures var w := Run(CANCELLED);
            && w == World(OpenedStore(Bookings.PaymentCancelled, Bookings.Pending), map[])
            && Next(w, ReconcilePayment(0, true)) == World(OpenedStore(Bookings.Captured, Bookings.Confirmed), map[])
            && !CanTransition(Bookings.PaymentCancelled, Bookings.Captured)
  {
    PaymentCancelled();
    CapturedAnyway();
  }

  lemma CapturedAnyway()
    ensures Next(World(OpenedStore(Bookings.PaymentCancelled, Bookings.Pending), map[]), ReconcilePayment(0, true)) ==
            World(OpenedStore(Bookings.Captured, Bookings.Confirmed), map[])
  {
    var s := OpenedStore(Bookings.PaymentCancelled, Bookings.Pending);
    var t := SetPayment(s, 0, Bookings.Captured);
    assert t == OpenedStore(Bookings.Captured, Bookings.Pending);
    assert ConfirmBooking(t, 0).bookings == map[5 := Bookings.Confirmed];
    assert ConfirmBooking(t, 0) == OpenedStore(Bookings.Captured, Bookings.Confirmed);
    assert s.books.payments[0].status != Bookings.Captured;
    assert Reconcile(s, 0, true) == Ok(ConfirmBooking(t, 0));
  }

  // ------------------------------------------------------------ a single paisa refunded twice

  /** A payment of one paisa is paid, recorded and refunded, and the finance listener hears of its refund twice. */
  const PAISA: seq<Step> := [
    NewBooking(5), OpenPayment(5, 7, 1, 1, 0),
    BeginCheckout(1, 0, true, true), Advance(1, None, NO_TERMS), Advance(1, None, NO_TERMS), Deliver(0, NO_TERMS),
    BeginRefund(2, 0, true), Advance(2, None, NO_TERMS), Advance(2, None, NO_TERMS), Deliver(1, NO_TERMS),
    Deliver(1, NO_TERMS)]

  function PaisaBooks(status: Bookings.PaymentStatus): L.Books {
    L.EMPTY_BOOKS.(payments := [L.PaymentRow(7, 1, status, 1, 0)])
  }

  /** What the ledger knows of the paisa, and what the listeners were told. */
  ghost predicate Paisa(w: World, status: Bookings.PaymentStatus, refunded: int, notices: seq<Notice>) {
    && w.store.books.payments == PaisaBooks(status).payments && 0 in w.store.bookingOf
    && L.FindPaymentTx(w.store.books.txs, 0).Some? && L.Refunded(w.store.books.txs, 0) == refunded
    && w.store.notices == notices
  }

  const PAID_NOTICE := PaymentCaptured(0, 7, 1)
  const REFUND_NOTICE := PaymentRefunded(0, 7, 1)

  lemma PaisaRefundedTwice()
    ensures Paisa(Run(PAISA), Bookings.Refunded, 2, [PAID_NOTICE, REFUND_NOTICE])
  {
    PaisaRefunded();
    PaisaRefundHeard(9, 0);
    PaisaRefundHeard(10, 1);
    assert PAISA[..11] == PAISA;
  }

  lemma PaisaRefundHeard(n: nat, refunded: int)
    requires 9 <= n < 11 && refunded <= 1
    requires Paisa(Run(PAISA[..n]), Bookings.Refunded, refunded, [PAID_NOTICE, REFUND_NOTICE])
    ensures Paisa(Run(PAISA[..n + 1]), Bookings.Refunded, refunded + 1, [PAID_NOTICE, REFUND_NOTICE])
  {
    StepOfRun(PAISA, n);
    RefundNeverDuplicate(PAISA[..n], 0, 7, 1, 0);
    RefundNoticeHeard(Run(PAISA[..n]), refunded);
  }

  lemma RefundNoticeHeard(w: World, refunded: int)
    requires Paisa(w, Bookings.Refunded, refunded, [PAID_NOTICE, REFUND_NOTICE]) && refunded <= 1
    requires L.RecordRefund(w.store.books, 0, 7, 1, 0) != Err(L.DuplicateKey)
    ensures Paisa(Next(w, Deliver(1, NO_TERMS)), Bookings.Refunded, refunded + 1, [PAID_NOTICE, REFUND_NOTICE])
  {
    DeliverHears(w, 1);
    R.RefundRecorded(w.store.books, 0, 7, 1, 0);
  }

  lemma DeliverHears(w: World, i: nat)
    requires i < |w.store.notices| && Heard(w.store.notices[i], NO_TERMS).Some?
    ensures Next(w, Deliver(i, NO_TERMS)) ==
            w.(store := w.store.(books := L.Next(w.store.books, Heard(w.store.notices[i], NO_TERMS).value)))
  {
  }

  lemma PaisaRefunded()
    ensures Paisa(Run(PAISA[..9]), Bookings.Refunded, 0, [PAID_NOTICE, REFUND_NOTICE])
  {
    PaisaRecorded();
    ThreeStepsOfRun(PAISA, 6);
    PaisaReturned(Run(PAISA[..6]));
  }

  lemma PaisaReturned(w: World)
    requires Paisa(w, Bookings.Captured, 0, [PAID_NOTICE]) && 2 !in w.agents
    ensures var v := Next(Next(Next(w, PAISA[6]), PAISA[7]), PAISA[8]);
            Paisa(v, Bookings.Refunded, 0, [PAID_NOTICE, REFUND_NOTICE])
  {
    var x := w.(agents := w.agents[2 := Agent(Desk, Refunding(0))]);
    var y := World(SetPayment(w.store, 0, Bookings.Refunded), w.agents[2 := Agent(Desk, AnnouncingRefund(0))]);
    assert Next(w, PAISA[6]) == x;
    assert Next(x, PAISA[7]) == y;
    assert Next(y, PAISA[8]).store == Emit(y.store, REFUND_NOTICE);
  }

  lemma PaisaRecorded()
    ensures Paisa(Run(PAISA[..6]), Bookings.Captured, 0, [PAID_NOTICE]) && 2 !in Run(PAISA[..6]).agents
  {
    PaisaPaid();
    StepOfRun(PAISA, 5);
    CaptureNoticeHeard(Run(PAISA[..5]), Run(PAISA[..6]));
  }

  lemma CaptureNoticeHeard(w: World, v: World)
    requires w.store.books == PaisaBooks(Bookings.Captured) && 0 in w.store.bookingOf
    requires w.store.notices == [PAID_NOTICE] && v == Next(w, PAISA[5])
    ensures Paisa(v, Bookings.Captured, 0, [PAID_NOTICE]) && v.agents == w.agents
  {
    DeliverHears(w, 0);
    R.PaidNotRefunded(w.store.books, 0, 7, 1, 0, 0, 0);
  }

  lemma PaisaPaid()
    ensures var w := Run(PAISA[..5]);
            w.store.books == PaisaBooks(Bookings.Captured) && 0 in w.store.bookingOf
            && w.store.notices == [PAID_NOTICE] && 2 !in w.agents
  {
    PaisaOpened();
    ThreeStepsOfRun(PAISA, 2);
    PaisaTaken(Run(PAISA[..2]));
  }

  lemma PaisaOpened()
    ensures var w := Run(PAISA[..2]);
            w.store.books == PaisaBooks(Bookings.Initiated) && 0 in w.store.bookingOf && w.store.notices == []
            && w.agents == map[]
  {
    TwoStepsOfRun(PAISA, 0);
    assert PAISA[..0] == [];
    PaisaOrdered();
  }

  lemma PaisaOrdered()
    ensures var w := Next(Next(EMPTY_WORLD, PAISA[0]), PAISA[1]);
            w.store.books == PaisaBooks(Bookings.Initiated) && 0 in w.store.bookingOf && w.store.notices == []
            && w.agents == map[]
  {
  }

  lemma PaisaTaken(w: World)
    requires w.store.books == PaisaBooks(Bookings.Initiated) && 0 in w.store.bookingOf && w.store.notices == []
    requires w.agents == map[]
    ensures var v := Next(Next(Next(w, PAISA[2]), PAISA[3]), PAISA[4]);
            v.store.books == PaisaBooks(Bookings.Captured) && 0 in v.store.bookingOf
            && v.store.notices == [PAID_NOTICE] && 2 !in v.agents
  {
    var x := w.(agents := map[1 := Agent(Checkout, Capturing(0))]);
    var c := CaptureTx(w.store, 0, UnlessCaptured);
    var y := World(c.store, map[1 := Agent(Checkout, Announcing(0, c.won))]);
    assert Next(w, PAISA[2]) == x;
    assert Next(x, PAISA[3]) == y;
    assert Next(y, PAISA[4]).store == Emit(y.store, PAID_NOTICE);
  }
}
