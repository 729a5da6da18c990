/** The database behind payments and webhooks, and the calls that write it, cut at every
    separate write. A call is an agent in some phase; what it read earlier is in its phase
    and may be stale when it goes on. */
module PaymentFlow {
  import opened Wrappers
  import opened Ledger
  import Bookings

  datatype EventKey = EventKey(provider: int, id: int)

  datatype EventKind = CaptureEvent | RefundEvent | OtherEvent

  datatype LogOutcome = Success | AlreadyProcessed | NoPayment | Skipped | Unhandled

  /** Statuses of the queue's worker, and what the older callback logs for its own events. */
  datatype EventStatus = Queued | InProgress | Processed | Ignored | Errored | Logged(outcome: LogOutcome)

  datatype EventRow = EventRow(kind: EventKind, status: EventStatus, payment: Option<int>)

  /** Domain events emitted to the listeners. */
  datatype Notice =
    | PaymentCaptured(payment: int, org: int, amount: int)
    | BookingConfirmed(booking: int)
    | PaymentRefunded(payment: int, org: int, amount: int)

  datatype Store = Store(
    books: Books, bookingOf: map<int, int>, bookings: map<int, Bookings.Status>,
    events: map<EventKey, EventRow>, notices: seq<Notice>)

  /** Commission terms in force and the time, when a payment or refund is recorded. */
  datatype Terms = Terms(bp: int, fee: int, at: int)

  predicate Terminal(status: Bookings.PaymentStatus) {
    status in {Bookings.Captured, Bookings.Failed, Bookings.PaymentCancelled, Bookings.Refunded}
  }

  /** The table of payment statuses. */
  predicate CanTransition(current: Bookings.PaymentStatus, next: Bookings.PaymentStatus) {
    if current == next then true
    else if Terminal(current) && next != Bookings.Refunded then false
    else match current
      case Initiated =>
        next in {Bookings.PaymentPending, Bookings.Authorized, Bookings.Captured, Bookings.Failed,
                 Bookings.PaymentCancelled}
      case PaymentPending =>
        next in {Bookings.Authorized, Bookings.Captured, Bookings.Failed, Bookings.PaymentCancelled}
      case Authorized => next in {Bookings.Captured, Bookings.Failed, Bookings.PaymentCancelled}
      case Captured => next == Bookings.Refunded
      case Failed | PaymentCancelled | Refunded => false
  }

  predicate Known(s: Store, p: int) {
    0 <= p < |s.books.payments| && p in s.bookingOf
  }

  // ------------------------------------------------------------ single writes

  function SetPayment(s: Store, p: int, status: Bookings.PaymentStatus): Store
    requires Known(s, p)
  {
    s.(books := s.books.(payments := s.books.payments[p := s.books.payments[p].(status := status)]))
  }

  predicate BookingPending(s: Store, p: int)
    requires Known(s, p)
  {
    s.bookingOf[p] in s.bookings && s.bookings[s.bookingOf[p]] == Bookings.Pending
  }

  function ConfirmBooking(s: Store, p: int): Store
    requires Known(s, p)
  {
    if BookingPending(s, p) then s.(bookings := s.bookings[s.bookingOf[p] := Bookings.Confirmed]) else s
  }

  /** When a capture transaction goes ahead, judged by the status it reads itself. */
  datatype Rule = UnlessCaptured | IfAllowed

  predicate GoesAhead(rule: Rule, latest: Bookings.PaymentStatus) {
    match rule
    case UnlessCaptured => latest != Bookings.Captured
    case IfAllowed => CanTransition(latest, Bookings.Captured)
  }

  /** The capture transaction; won says that this very transaction confirmed the booking. */
  datatype Capture = Capture(store: Store, changed: bool, won: bool)

  function CaptureTx(s: Store, p: int, rule: Rule): Capture
    requires Known(s, p)
  {
    if GoesAhead(rule, s.books.payments[p].status)
    then Capture(ConfirmBooking(SetPayment(s, p, Bookings.Captured), p), true, BookingPending(s, p))
    else Capture(s, false, false)
  }

  function SetEvent(s: Store, key: EventKey, status: EventStatus): Store {
    if key in s.events then s.(events := s.events[key := s.events[key].(status := status)]) else s
  }

  function FinishEvent(s: Store, key: EventKey, p: int): Store {
    if key in s.events then s.(events := s.events[key := s.events[key].(status := Processed, payment := Some(p))])
        else s
  }

  /** The callback's own log of an event; a second row for the same key is refused and the failure swallowed. */
  function LogEvent(s: Store, key: EventKey, kind: EventKind, outcome: LogOutcome, p: Option<int>): Store {
    if key in s.events then s else s.(events := s.events[key := EventRow(kind, Logged(outcome), p)])
  }

  function Emit(s: Store, n: Notice): Store {
    s.(notices := s.notices + [n])
  }

  function CapturedNotice(s: Store, p: int): Notice
    requires Known(s, p)
  {
    PaymentCaptured(p, s.books.payments[p].org, s.books.payments[p].amount)
  }

  function RefundedNotice(s: Store, p: int): Notice
    requires Known(s, p)
  {
    PaymentRefunded(p, s.books.payments[p].org, s.books.payments[p].amount)
  }

  /** Recording a payment in the ledger. */
  function PayStep(p: int, org: int, amount: int, terms: Terms): Ledger.Step {
    Pay(p, org, amount, terms.bp, terms.fee, terms.at)
  }

  function RefundStep(p: int, org: int, amount: int, terms: Terms): Ledger.Step {
    Refund(p, org, amount, terms.at)
  }

  function PayFor(s: Store, p: int, terms: Terms): Ledger.Step
    requires Known(s, p)
  {
    PayStep(p, s.books.payments[p].org, s.books.payments[p].amount, terms)
  }

  function RefundFor(s: Store, p: int, terms: Terms): Ledger.Step
    requires Known(s, p)
  {
    RefundStep(p, s.books.payments[p].org, s.books.payments[p].amount, terms)
  }

  // ------------------------------------------------------------ calls in progress

  /** Who runs: a queue worker on an event, a customer's checkout, the older webhook callback, or the refund desk. */
  datatype Flow = Job(event: EventKey) | Checkout | Callback(event: EventKey, kind: EventKind) | Desk

  /** What an agent does next. won: its transaction confirmed the booking, and it has not announced that yet. */
  datatype Phase =
    | Claimed | Fetching
    | Capturing(payment: int)
    | Recording(payment: int, won: bool)
    | Marking(payment: int, won: bool)
    | Announcing(payment: int, won: bool)
    | Confirming(payment: int)
    | Refunding(payment: int)
    | RecordingRefund(payment: int)
    | MarkingRefund(payment: int)
    | AnnouncingRefund(payment: int)
    | Done

  datatype Agent = Agent(flow: Flow, phase: Phase)

  function RuleOf(flow: Flow): Rule {
    if flow.Callback? then IfAllowed else UnlessCaptured
  }

  /** Where an agent goes after its capture transaction. */
  function AfterCapture(flow: Flow, c: Capture, p: int): Phase {
    match flow
    case Job(_) => Recording(p, c.won)
    case Callback(_, _) => Marking(p, c.won)
    case _ => if c.changed then Announcing(p, c.won) else Done
  }

  /** A worker that has read the payment of its event. */
  function Fetch(s: Store, key: EventKey, found: Option<int>): (Store, Phase) {
    if key !in s.events then (s, Done)
    else if s.events[key].kind == OtherEvent then (SetEvent(s, key, Ignored), Done)
    else match found
      case None => (SetEvent(s, key, Errored), Done)
      case Some(p) =>
        if !Known(s, p) then (SetEvent(s, key, Errored), Done)
        else if s.events[key].kind == CaptureEvent then
          if s.books.payments[p].status == Bookings.Captured then (FinishEvent(s, key, p), Done) else (s, Capturing(p))
        else
          if s.books.payments[p].status == Bookings.Refunded then (FinishEvent(s, key, p), Done) else (s, Refunding(p))
  }

  /** A worker's ledger call; when it throws, the event is marked as failed. */
  function Book(s: Store, key: EventKey, step: Ledger.Step, then_: Phase): (Store, Phase) {
    match Commit(s.books, step)
    case Ok(b) => (s.(books := b), then_)
    case Err(_) => (SetEvent(s, key, Errored), Done)
  }

  function MarkEvent(s: Store, flow: Flow, p: int): Store {
    match flow
    case Job(key) => FinishEvent(s, key, p)
    case Callback(key, kind) => LogEvent(s, key, kind, Success, Some(p))
    case _ => s
  }

  /** The write of an agent that has a payment in hand. */
  function PerformOn(s: Store, flow: Flow, phase: Phase, p: int, terms: Terms): (Store, Phase)
    requires Known(s, p)
  {
    match phase
    case Capturing(_) => var c := CaptureTx(s, p, RuleOf(flow)); (c.store, AfterCapture(flow, c, p))
    case Recording(_, won) => if flow.Job? then Book(s, flow.event, PayFor(s, p, terms), Marking(p, won)) else (s, Done)
    case Marking(_, won) => (MarkEvent(s, flow, p), Announcing(p, won))
    case Announcing(_, won) => (Emit(s, CapturedNotice(s, p)), if won then Confirming(p) else Done)
    case Confirming(_) => (Emit(s, BookingConfirmed(s.bookingOf[p])), Done)
    case Refunding(_) =>
      if flow.Job? then (SetPayment(s, p, Bookings.Refunded), RecordingRefund(p))
      else if s.books.payments[p].status == Bookings.Refunded then (s, Done)
      else (SetPayment(s, p, Bookings.Refunded), if flow.Callback? then MarkingRefund(p) else AnnouncingRefund(p))
    case RecordingRefund(_) => if flow.Job? then Book(s, flow.event, RefundFor(s, p, terms), MarkingRefund(p))
      else (s, Done)
    case MarkingRefund(_) => (MarkEvent(s, flow, p), AnnouncingRefund(p))
    case AnnouncingRefund(_) => (Emit(s, RefundedNotice(s, p)), Done)
    case Claimed | Fetching | Done => (s, Done)
  }

  /** The next write of an agent: the new store and the phase it goes on in. */
  function Perform(s: Store, g: Agent, found: Option<int>, terms: Terms): (Store, Phase) {
    match g.phase
    case Claimed => if g.flow.Job? then (SetEvent(s, g.flow.event, InProgress), Fetching) else (s, Done)
    case Fetching => if g.flow.Job? then Fetch(s, g.flow.event, found) else (s, Done)
    case Done => (s, Done)
    case _ => if Known(s, g.phase.payment) then PerformOn(s, g.flow, g.phase, g.phase.payment, terms) else (s, Done)
  }

  function Rank(phase: Phase): nat {
    match phase
    case Claimed => 7
    case Fetching => 6
    case Capturing(_) | Refunding(_) => 5
    case Recording(_, _) | RecordingRefund(_) => 4
    case Marking(_, _) | MarkingRefund(_) => 3
    case Announcing(_, _) | AnnouncingRefund(_) => 2
    case Confirming(_) => 1
    case Done => 0
  }

  /** The store once an agent has run to its end with nothing in between. */
  function Finish(s: Store, g: Agent, found: Option<int>, terms: Terms): Store
    decreases Rank(g.phase)
  {
    var (next, phase) := Perform(s, g, found, terms);
    if Rank(phase) < Rank(g.phase) then Finish(next, Agent(g.flow, phase), found, terms) else next
  }

  lemma FinishDone(s: Store, flow: Flow, found: Option<int>, terms: Terms)
    ensures Finish(s, Agent(flow, Done), found, terms) == s
  {
  }

  lemma FinishAnnouncing(s: Store, flow: Flow, p: int, won: bool, found: Option<int>, terms: Terms)
    requires Known(s, p)
    ensures Finish(s, Agent(flow, Announcing(p, won)), found, terms)
         == s.(notices := s.notices + [CapturedNotice(s, p)] + (if won then [BookingConfirmed(s.bookingOf[p])] else []))
  {
    var t := Emit(s, CapturedNotice(s, p));
    if won {
      var u := Emit(t, BookingConfirmed(s.bookingOf[p]));
      assert Finish(t, Agent(flow, Confirming(p)), found, terms) == Finish(u, Agent(flow, Done), found, terms);
      FinishDone(u, flow, found, terms);
    } else {
      assert t.notices + [] == t.notices;
      FinishDone(t, flow, found, terms);
    }
  }

  lemma FinishAnnouncingRefund(s: Store, flow: Flow, p: int, found: Option<int>, terms: Terms)
    requires Known(s, p)
    ensures Finish(s, Agent(flow, AnnouncingRefund(p)), found, terms) == Emit(s, RefundedNotice(s, p))
  {
  }

  lemma FinishMarkingRefund(s: Store, flow: Flow, p: int, found: Option<int>, terms: Terms)
    requires Known(s, p)
    ensures Finish(s, Agent(flow, MarkingRefund(p)), found, terms) == Emit(MarkEvent(s, flow, p), RefundedNotice(s, p))
  {
    FinishAnnouncingRefund(MarkEvent(s, flow, p), flow, p, found, terms);
  }

  lemma FinishRefunding(s: Store, flow: Flow, p: int, found: Option<int>, terms: Terms)
    requires Known(s, p) && !flow.Job? && s.books.payments[p].status != Bookings.Refunded
    ensures var t := SetPayment(s, p, Bookings.Refunded);
            Finish(s, Agent(flow, Refunding(p)), found, terms)
                == Emit(if flow.Callback? then MarkEvent(t, flow, p) else t, RefundedNotice(s, p))
  {
    var t := SetPayment(s, p, Bookings.Refunded);
    if flow.Callback? {
      FinishMarkingRefund(t, flow, p, found, terms);
    } else {
      FinishAnnouncingRefund(t, flow, p, found, terms);
    }
  }

  // ------------------------------------------------------------ how calls begin

  /** Worker: an event already processed is skipped. */
  function StartJob(s: Store, key: EventKey): Phase {
    if key in s.events && s.events[key].status != Processed then Claimed else Done
  }

  /** Checkout: mine and valid are the ownership check and the provider's answer. */
  function StartCheckout(s: Store, p: int, mine: bool, valid: bool): Result<Phase, Fault> {
    if !Known(s, p) then Err(NotFound)
    else if !mine then Err(Forbidden)
    else if s.books.payments[p].status == Bookings.Captured then Ok(Done)
    else if !CanTransition(s.books.payments[p].status, Bookings.Captured) then Err(BadRequest)
    else if !valid then Err(BadRequest)
    else Ok(Capturing(p))
  }

  /** Callback: named says that the payload carries an order or payment id. */
  function StartCallback(s: Store, key: EventKey, kind: EventKind, named: bool, found: Option<int>): (Store, Phase) {
    if key in s.events then (s, Done)
    else if !named then (LogEvent(s, key, kind, Skipped, None), Done)
    else if kind == OtherEvent then (LogEvent(s, key, kind, Unhandled, None), Done)
    else match found
      case None => (LogEvent(s, key, kind, NoPayment, None), Done)
      case Some(p) =>
        if !Known(s, p) then (LogEvent(s, key, kind, NoPayment, None), Done)
        else if s.books.payments[p].status == (if kind == CaptureEvent then Bookings.Captured else Bookings.Refunded)
        then (LogEvent(s, key, kind, AlreadyProcessed, Some(p)), Done)
        else (s, if kind == CaptureEvent then Capturing(p) else Refunding(p))
  }

  /** Refund desk: only a captured payment can be refunded, and the provider must agree. */
  function StartRefund(s: Store, p: int, accepted: bool): Result<Phase, Fault> {
    if !Known(s, p) then Err(NotFound)
    else if s.books.payments[p].status != Bookings.Captured then Err(BadRequest)
    else if !accepted then Err(BadRequest)
    else Ok(Refunding(p))
  }

  /** Reconciliation with the provider: no status table, no notices. */
  function Reconcile(s: Store, p: int, paid: bool): Result<Store, Fault> {
    if !Known(s, p) then Err(NotFound)
    else if s.books.payments[p].status == Bookings.Captured || !paid then Ok(s)
    else Ok(ConfirmBooking(SetPayment(s, p, Bookings.Captured), p))
  }

  /** Receipt of a signed event: stored once, a duplicate acknowledged and ignored. */
  function Receive(s: Store, key: EventKey, kind: EventKind, signed: bool): Result<Store, Fault> {
    if !signed then Err(BadRequest)
    else if key in s.events then Ok(s)
    else Ok(s.(events := s.events[key := EventRow(kind, Queued, None)]))
  }

  function Retry(s: Store, key: EventKey): Result<Store, Fault> {
    if key in s.events then Ok(SetEvent(s, key, Queued)) else Err(NotFound)
  }
}
