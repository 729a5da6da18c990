/** Bookings of facilities, moved through their statuses by service calls that first read a
    row outside any transaction and write later. Each transaction body is one atomic step;
    the row a call read beforehand is kept in a session and may be stale when it commits. */
module Bookings {
  import opened Wrappers

  datatype Status = Pending | Confirmed | Cancelled | Rejected | CheckedIn | NoShow | Completed

  datatype Booking = Booking(
    org: int, user: int, facility: int, start: int, end: int, status: Status, price: int, key: Option<int>)

  datatype PaymentStatus = Initiated | PaymentPending | Authorized | Captured | Failed | PaymentCancelled | Refunded

  datatype Payment = Payment(booking: int, status: PaymentStatus)

  datatype Fault = BadRequest | NotFound | Conflict | ExclusionViolation

  datatype Tables = Tables(rows: map<int, Booking>, payments: map<int, Payment>, checkIns: set<int>)

  type Outcome = Result<Tables, Fault>

  predicate Active(b: Booking) {
    b.status == Pending || b.status == Confirmed
  }

  /** The table of allowed status changes. */
  predicate MayMove(current: Status, next: Status) {
    current == next || match current
      case Pending => next in {Confirmed, Cancelled, Rejected}
      case Confirmed => next in {CheckedIn, Cancelled, NoShow}
      case CheckedIn => next == Completed
      case Rejected | Cancelled | NoShow | Completed => false
  }

  predicate Overlapping(b: Booking, start: int, end: int) {
    b.start < end && start < b.end
  }

  /** Some active booking of the facility, other than the excepted one, overlaps the span. */
  predicate SlotTaken(rows: map<int, Booking>, facility: int, start: int, end: int, except: Option<int>) {
    exists j :: j in rows && except != Some(j) && Active(rows[j]) && rows[j].facility == facility
             && Overlapping(rows[j], start, end)
  }

  /** The exclusion constraint of the bookings table: no two rows of a facility that are not
      cancelled may overlap. It is wider than the service's own check, which looks at active rows only. */
  predicate Excluded(rows: map<int, Booking>, id: int, row: Booking) {
    row.status != Cancelled &&
    exists j :: j in rows && j != id && rows[j].status != Cancelled && rows[j].facility == row.facility
             && Overlapping(rows[j], row.start, row.end)
  }

  /** A write of one row. With guarded set, the exclusion constraint is in force. */
  function Put(guarded: bool, t: Tables, id: int, row: Booking): Outcome {
    if guarded && Excluded(t.rows, id, row) then Err(ExclusionViolation)
    else Ok(t.(rows := t.rows[id := row]))
  }

  // ------------------------------------------------------------ transactions

  /** The request of a booking: the row to insert apart from its status; no price means pricing failed. */
  function CreateTx(guarded: bool, t: Tables, id: int, want: Booking, price: Option<int>, now: int,
                    availabilityOk: bool): Outcome {
    if want.start >= want.end || want.start < now || price.None? then Err(BadRequest)
    else if want.key.Some? && exists k :: k in t.rows && t.rows[k].key == want.key then
      if exists k :: k in t.rows && t.rows[k].key == want.key && t.rows[k].user == want.user
          && t.rows[k].org == want.org
      then Ok(t) else Err(Conflict)
    else if SlotTaken(t.rows, want.facility, want.start, want.end, None) then Err(Conflict)
    else if !availabilityOk then Err(BadRequest)
    else if id in t.rows then Err(Conflict)
    else Put(guarded, t, id, want.(status := Pending, price := price.value))
  }

  function VoidPayments(payments: map<int, Payment>, id: int): map<int, Payment> {
    map p | p in payments :: if payments[p].booking == id && payments[p].status !in {Captured, Refunded}
                             then payments[p].(status := PaymentCancelled) else payments[p]
  }

  function CancelTx(guarded: bool, t: Tables, id: int, seen: Booking): Outcome {
    if seen.status == Cancelled then Ok(t)
    else if !MayMove(seen.status, Cancelled) then Err(BadRequest)
    else if id !in t.rows || !Active(t.rows[id]) then Err(NotFound)
    else match Put(guarded, t, id, t.rows[id].(status := Cancelled))
      case Err(f) => Err(f)
      case Ok(u) => Ok(u.(payments := VoidPayments(t.payments, id)))
  }

  function RescheduleTx(guarded: bool, t: Tables, id: int, seen: Booking, paid: bool,
                        start: int, end: int, price: Option<int>, now: int, available: bool): Outcome {
    if start >= end || start < now || !Active(seen) || price.None? then Err(BadRequest)
    else if paid && price.value > seen.price then Err(BadRequest)
    else if seen.start == start && seen.end == end then Ok(t)
    else if SlotTaken(t.rows, seen.facility, start, end, Some(id)) then Err(Conflict)
    else if !available then Err(Conflict)
    else if id !in t.rows || !Active(t.rows[id]) then Err(NotFound)
    else Put(guarded, t, id, t.rows[id].(start := start, end := end, price := price.value))
  }

  datatype Verb = Accept | Reject | MarkNoShow | Complete

  function Target(verb: Verb): Status {
    match verb
    case Accept => Confirmed
    case Reject => Rejected
    case MarkNoShow => NoShow
    case Complete => Completed
  }

  /** A status change whose check is on the row read earlier and whose write is blind. */
  function WriteStatusTx(guarded: bool, t: Tables, id: int, seen: Booking, next: Status): Outcome {
    if !MayMove(seen.status, next) then Err(BadRequest)
    else if id !in t.rows then Err(NotFound)
    else Put(guarded, t, id, t.rows[id].(status := next))
  }

  function CheckInTx(guarded: bool, t: Tables, id: int, seen: Booking): Outcome {
    if seen.status == CheckedIn then Ok(t)
    else match WriteStatusTx(guarded, t, id, seen, CheckedIn)
      case Err(f) => Err(f)
      case Ok(u) => if id in t.checkIns then Err(Conflict) else Ok(u.(checkIns := u.checkIns + {id}))
  }

  /** A captured payment confirms its booking if, and only if, that is still pending. */
  function CaptureTx(guarded: bool, t: Tables, p: int): Outcome {
    if p !in t.payments then Err(NotFound)
    else if t.payments[p].status == Captured then Ok(t)
    else
      var b := t.payments[p].booking;
      var paid := t.(payments := t.payments[p := t.payments[p].(status := Captured)]);
      if b in t.rows && t.rows[b].status == Pending
      then Put(guarded, paid, b, t.rows[b].(status := Confirmed))
      else Ok(paid)
  }

  function OpenPaymentTx(t: Tables, p: int, b: int): Outcome {
    if b !in t.rows then Err(NotFound)
    else if p in t.payments then Err(Conflict)
    else Ok(t.(payments := t.payments[p := Payment(b, Initiated)]))
  }

  // ------------------------------------------------------------ interleaved runs

  datatype Session = Session(id: int, seen: Booking, paid: bool)

  datatype World = World(tables: Tables, sessions: map<int, Session>)

  datatype Step =
    | Create(id: int, want: Booking, quote: Option<int>, now: int, availabilityOk: bool)
    | Read(session: int, id: int)
    | Cancel(session: int)
    | Reschedule(session: int, start: int, end: int, quote: Option<int>, now: int, available: bool)
    | SetStatus(session: int, verb: Verb)
    | CheckIn(session: int)
    | OpenPayment(payment: int, booking: int)
    | Capture(payment: int)

  predicate HasCaptured(t: Tables, id: int) {
    exists p :: p in t.payments && t.payments[p].booking == id && t.payments[p].status == Captured
  }

  /** The transaction a step runs against the tables; an Err leaves them as they were. */
  function Commit(guarded: bool, w: World, step: Step): Outcome {
    match step
    case Create(id, want, quote, now, ok) => CreateTx(guarded, w.tables, id, want, quote, now, ok)
    case OpenPayment(p, b) => OpenPaymentTx(w.tables, p, b)
    case Capture(p) => CaptureTx(guarded, w.tables, p)
    case Read(_, _) => Ok(w.tables)
    case _ =>
      if step.session !in w.sessions then Err(NotFound)
      else
        var s := w.sessions[step.session];
        match step
        case Cancel(_) => CancelTx(guarded, w.tables, s.id, s.seen)
        case Reschedule(_, start, end, quote, now, ok) =>
          RescheduleTx(guarded, w.tables, s.id, s.seen, s.paid, start, end, quote, now, ok)
        case SetStatus(_, verb) => WriteStatusTx(guarded, w.tables, s.id, s.seen, Target(verb))
        case _ => CheckInTx(guarded, w.tables, s.id, s.seen)
  }

  function Next(guarded: bool, w: World, step: Step): World {
    if step.Read? then
      if step.id in w.tables.rows
      then
        var session := Session(step.id, w.tables.rows[step.id], HasCaptured(w.tables, step.id));
        w.(sessions := w.sessions[step.session := session])
      else w
    else match Commit(guarded, w, step)
      case Err(_) => w
      case Ok(t) => w.(tables := t)
  }

  const EMPTY_WORLD := World(Tables(map[], map[], {}), map[])

  function Run(guarded: bool, steps: seq<Step>): World {
    if steps == [] then EMPTY_WORLD else Next(guarded, Run(guarded, steps[..|steps| - 1]), steps[|steps| - 1])
  }

  // ------------------------------------------------------------ what each transaction does

  /** At the instant x the row holds its facility. */
  predicate HeldAt(b: Booking, facility: int, x: int) {
    b.facility == facility && b.status in {Pending, Confirmed} && b.start <= x < b.end
  }

  /** Another row holds the facility at some instant of the span. */
  ghost predicate SomeInstantHeld(rows: map<int, Booking>, facility: int, start: int, end: int, except: Option<int>) {
    exists j, x :: j in rows && except != Some(j) && start <= x < end && HeldAt(rows[j], facility, x)
  }

  lemma TakenIffHeld(rows: map<int, Booking>, facility: int, start: int, end: int, except: Option<int>)
    requires start < end && forall j :: j in rows ==> rows[j].start < rows[j].end
    ensures SlotTaken(rows, facility, start, end, except) <==> SomeInstantHeld(rows, facility, start, end, except)
  {
    forall j | j in rows && Active(rows[j]) && rows[j].facility == facility && Overlapping(rows[j], start, end)
      ensures var x := if start < rows[j].start then rows[j].start else start;
              start <= x < end && HeldAt(rows[j], facility, x)
    {
    }
    forall j, x | j in rows && start <= x < end && HeldAt(rows[j], facility, x)
      ensures Active(rows[j]) && Overlapping(rows[j], start, end)
    {
    }
  }

  /** The row under the request's idempotency key is the requester's own. */
  predicate Replayed(rows: map<int, Booking>, want: Booking) {
    exists j :: j in rows && rows[j].key == want.key && rows[j].user == want.user && rows[j].org == want.org
  }

  predicate KeyKnown(rows: map<int, Booking>, key: Option<int>) {
    key.Some? && exists j :: j in rows && rows[j].key == key
  }

  /** A booking is made exactly for a priced span that is not in the past, and then either the key is known and
      nothing changes, for its own holder only, or nobody holds the facility at any instant of the span. */
  lemma CreatedIff(t: Tables, id: int, want: Booking, price: Option<int>, now: int, ok: bool)
    requires forall j :: j in t.rows ==> t.rows[j].start < t.rows[j].end
    ensures var r := CreateTx(false, t, id, want, price, now, ok);
            var known := KeyKnown(t.rows, want.key);
            && (r.Ok? <==>
                && now <= want.start < want.end && price.Some?
                && (if known then Replayed(t.rows, want)
                    else !SomeInstantHeld(t.rows, want.facility, want.start, want.end, None) && ok && id !in t.rows))
            && (r.Ok? ==> r.value == if known then t
                 else t.(rows := t.rows[id := want.(status := Pending, price := price.value)]))
  {
    if now <= want.start < want.end && price.Some? {
      TakenIffHeld(t.rows, want.facility, want.start, want.end, None);
      CreatedOnceValid(t, id, want, price, now, ok);
    } else {
      InvalidIsRefused(t, id, want, price, now, ok);
    }
  }

  lemma InvalidIsRefused(t: Tables, id: int, want: Booking, price: Option<int>, now: int, ok: bool)
    requires !(now <= want.start < want.end && price.Some?)
    ensures CreateTx(false, t, id, want, price, now, ok) == Err(BadRequest)
  {
  }

  lemma CreatedOnceValid(t: Tables, id: int, want: Booking, price: Option<int>, now: int, ok: bool)
    requires now <= want.start < want.end && price.Some?
    ensures CreateTx(false, t, id, want, price, now, ok) ==
            if KeyKnown(t.rows, want.key) then
              if Replayed(t.rows, want) then Ok(t) else Err(Conflict)
            else if SlotTaken(t.rows, want.facility, want.start, want.end, None) then Err(Conflict)
            else if !ok then Err(BadRequest)
            else if id in t.rows then Err(Conflict)
            else Ok(t.(rows := t.rows[id := want.(status := Pending, price := price.value)]))
  {
  }

  /** A cancel of a booking seen cancelled changes nothing; of one seen pending or confirmed that still is so, it
      cancels the booking and exactly its payments that were neither captured nor refunded; else it is refused. */
  lemma CancelledIff(guarded: bool, t: Tables, id: int, seen: Booking)
    ensures var r := CancelTx(guarded, t, id, seen);
            && (r.Ok? <==> seen.status == Cancelled
                           || (seen.status in {Pending, Confirmed}
                               && id in t.rows && t.rows[id].status in {Pending, Confirmed}))
            && (r.Ok? && seen.status == Cancelled ==> r.value == t)
            && (r.Ok? && seen.status != Cancelled ==>
                  && r.value.rows == t.rows[id := t.rows[id].(status := Cancelled)]
                  && r.value.checkIns == t.checkIns && r.value.payments.Keys == t.payments.Keys
                  && forall p :: p in t.payments ==>
                       r.value.payments[p]
                       == if t.payments[p].booking == id && t.payments[p].status !in {Captured, Refunded}
                          then Payment(id, PaymentCancelled) else t.payments[p])
  {
  }

  /** A booking is moved exactly if it is seen pending or confirmed and the span is priced, not in the past, no
      dearer for a paid booking, and, unless it is the span it has, offered and held by no other booking. */
  lemma MovedIff(t: Tables, id: int, seen: Booking, paid: bool, start: int, end: int, price: Option<int>, now: int,
                 available: bool)
    requires forall j :: j in t.rows ==> t.rows[j].start < t.rows[j].end
    ensures var r := RescheduleTx(false, t, id, seen, paid, start, end, price, now, available);
            var same := seen.start == start && seen.end == end;
            && (r.Ok? <==>
                && now <= start < end && seen.status in {Pending, Confirmed} && price.Some?
                && (paid ==> price.value <= seen.price)
                && (same || (available && !SomeInstantHeld(t.rows, seen.facility, start, end, Some(id))
                             && id in t.rows && t.rows[id].status in {Pending, Confirmed})))
            && (r.Ok? ==> r.value == if same then t
                 else t.(rows := t.rows[id := t.rows[id].(start := start, end := end, price := price.value)]))
  {
    if start < end {
      TakenIffHeld(t.rows, seen.facility, start, end, Some(id));
    }
  }

  /** The statuses in which a verb finds its booking, and the one in which it leaves it; doing it again is
      allowed. */
  lemma StatusSetIff(t: Tables, id: int, seen: Booking, verb: Verb)
    ensures var r := WriteStatusTx(false, t, id, seen, Target(verb));
            var (from, to) := match verb
              case Accept => (Pending, Confirmed)
              case Reject => (Pending, Rejected)
              case MarkNoShow => (Confirmed, NoShow)
              case Complete => (CheckedIn, Completed);
            && (r.Ok? <==> id in t.rows && seen.status in {from, to})
            && (r.Ok? ==> r.value == t.(rows := t.rows[id := t.rows[id].(status := to)]))
  {
  }

  /** A check-in of a booking seen checked in changes nothing; else it needs one seen confirmed and never
      checked in, and writes status and check-in together. */
  lemma CheckedInIff(t: Tables, id: int, seen: Booking)
    ensures var r := CheckInTx(false, t, id, seen);
            && (r.Ok? <==> seen.status == CheckedIn || (seen.status == Confirmed && id in t.rows && id !in t.checkIns))
            && (r.Ok? ==> r.value == if seen.status == CheckedIn then t
                 else t.(rows := t.rows[id := t.rows[id].(status := CheckedIn)], checkIns := t.checkIns + {id}))
  {
  }

  /** A capture marks the payment and confirms its booking if that is pending; no other row changes. */
  lemma CapturedIff(t: Tables, p: int)
    ensures var r := CaptureTx(false, t, p);
            && (r.Ok? <==> p in t.payments)
            && (r.Ok? ==>
                  var b := t.payments[p].booking;
                  && r.value.payments == t.payments[p := Payment(b, Captured)] && r.value.checkIns == t.checkIns
                  && r.value.rows
                     == if t.payments[p].status != Captured && b in t.rows && t.rows[b].status == Pending
                        then t.rows[b := t.rows[b].(status := Confirmed)] else t.rows)
  {
    if p in t.payments && t.payments[p].status == Captured {
      assert t.payments[p := Payment(t.payments[p].booking, Captured)] == t.payments;
    }
  }

  /** A payment is opened for a booking that exists, under a new id, and is initiated. */
  lemma PaymentOpenedIff(t: Tables, p: int, b: int)
    ensures OpenPaymentTx(t, p, b) ==
            if b !in t.rows then Err(NotFound)
            else if p in t.payments then Err(Conflict)
            else Ok(Tables(t.rows, t.payments[p := Payment(b, Initiated)], t.checkIns))
  {
  }

  /** A call reads the row, and whether any payment has paid it. */
  lemma ReadSees(guarded: bool, w: World, session: int, id: int)
    requires id in w.tables.rows
    ensures Next(guarded, w, Read(session, id)).tables == w.tables
    ensures var paid := exists p :: p in w.tables.payments && w.tables.payments[p] == Payment(id, Captured);
            Next(guarded, w, Read(session, id)).sessions
                == w.sessions[session := Session(id, w.tables.rows[id], paid)]
  {
    forall p | p in w.tables.payments && w.tables.payments[p] == Payment(id, Captured)
      ensures HasCaptured(w.tables, id)
    {
    }
  }

  /** Reading and then rescheduling a booking that a captured payment has paid never raises its price. */
  lemma PaidPriceNeverRises(guarded: bool, w: World, id: int, p: int, session: int, move: Step)
    requires id in w.tables.rows && p in w.tables.payments && w.tables.payments[p] == Payment(id, Captured)
    requires move.Reschedule? && move.session == session
    ensures var v := Next(guarded, Next(guarded, w, Read(session, id)), move);
            id in v.tables.rows && v.tables.rows[id].price <= w.tables.rows[id].price
  {
    var s := Next(guarded, w, Read(session, id)).sessions[session];
    assert s.seen == w.tables.rows[id] && s.paid;
  }

  // ------------------------------------------------------------ safety

  ghost predicate WellFormed(w: World) {
    && (forall i :: i in w.tables.rows ==> w.tables.rows[i].start < w.tables.rows[i].end)
    && (forall s :: s in w.sessions ==>
          w.sessions[s].id in w.tables.rows && w.sessions[s].seen.facility == w.tables.rows[w.sessions[s].id].facility)
  }

  /** No double booking: two active bookings of one facility never overlap. */
  ghost predicate Disjoint(rows: map<int, Booking>) {
    forall i, j | i in rows && j in rows && i != j && rows[i].facility == rows[j].facility ::
      Active(rows[i]) && Active(rows[j]) ==> !Overlapping(rows[i], rows[j].start, rows[j].end)
  }

  /** The same for every row that is not cancelled. */
  ghost predicate DisjointUnlessCancelled(rows: map<int, Booking>) {
    forall i, j | i in rows && j in rows && i != j && rows[i].facility == rows[j].facility ::
      rows[i].status != Cancelled && rows[j].status != Cancelled ==> !Overlapping(rows[i], rows[j].start, rows[j].end)
  }

  /** That is: at no instant do two pending or confirmed bookings hold a facility. */
  lemma DisjointIffHeldOnce(rows: map<int, Booking>)
    requires forall j :: j in rows ==> rows[j].start < rows[j].end
    ensures Disjoint(rows) <==>
            forall i, j, facility, x ::
              i in rows && j in rows && HeldAt(rows[i], facility, x) && HeldAt(rows[j], facility, x) ==> i == j
  {
    forall i, j | i in rows && j in rows && rows[i].facility == rows[j].facility && Active(rows[i]) && Active(rows[j])
                  && Overlapping(rows[i], rows[j].start, rows[j].end)
      ensures var x := if rows[i].start < rows[j].start then rows[j].start else rows[i].start;
              HeldAt(rows[i], rows[i].facility, x) && HeldAt(rows[j], rows[i].facility, x)
    {
    }
    forall i, j, facility, x | i in rows && j in rows && HeldAt(rows[i], facility, x) && HeldAt(rows[j], facility, x)
      ensures rows[i].facility == rows[j].facility && Active(rows[i]) && Active(rows[j])
              && Overlapping(rows[i], rows[j].start, rows[j].end)
    {
    }
  }

  /** A row of b is active although it was inactive in a. */
  ghost predicate Reactivates(a: Tables, b: Tables) {
    exists i :: i in a.rows && i in b.rows && !Active(a.rows[i]) && Active(b.rows[i])
  }

  /** The one write that could revive a booking: an accept that takes effect. It is fresh when the row is
      still active at that moment. */
  predicate FreshAccept(guarded: bool, w: World, step: Step) {
    step.SetStatus? && step.verb == Accept && Commit(guarded, w, step).Ok? ==>
      var s := w.sessions[step.session]; Active(w.tables.rows[s.id])
  }

  /** How one step may change the table of bookings. */
  ghost predicate SafeEdit(a: map<int, Booking>, b: map<int, Booking>) {
    a == b || exists id, row :: b == a[id := row] && row.start < row.end && SafeRow(a, id, row)
  }

  ghost predicate SafeRow(a: map<int, Booking>, id: int, row: Booking) {
    && (id in a ==> row.facility == a[id].facility && (Active(row) ==> Active(a[id])))
    && (Active(row) ==>
          || !SlotTaken(a, row.facility, row.start, row.end, Some(id))
          || (id in a && row.start == a[id].start && row.end == a[id].end))
  }

  lemma PutIsSafe(guarded: bool, t: Tables, id: int, row: Booking)
    requires row.start < row.end && SafeRow(t.rows, id, row)
    ensures var r := Put(guarded, t, id, row); r.Ok? ==> SafeEdit(t.rows, r.value.rows)
  {
  }

  lemma CreateIsSafe(guarded: bool, w: World, id: int, want: Booking, quote: Option<int>, now: int, ok: bool)
    requires WellFormed(w)
    ensures SafeEdit(w.tables.rows, Next(guarded, w, Create(id, want, quote, now, ok)).tables.rows)
  {
    var t := w.tables;
    if quote.Some? && want.start < want.end && id !in t.rows
       && !SlotTaken(t.rows, want.facility, want.start, want.end, None) {
      PutIsSafe(guarded, t, id, want.(status := Pending, price := quote.value));
    }
  }

  lemma RescheduleIsSafe(guarded: bool, w: World, k: int, start: int, end: int, quote: Option<int>, now: int, ok: bool)
    requires WellFormed(w)
    ensures SafeEdit(w.tables.rows, Next(guarded, w, Reschedule(k, start, end, quote, now, ok)).tables.rows)
  {
    if k in w.sessions && quote.Some? && start < end {
      var t, s := w.tables, w.sessions[k];
      if Active(t.rows[s.id]) && !SlotTaken(t.rows, s.seen.facility, start, end, Some(s.id)) {
        PutIsSafe(guarded, t, s.id, t.rows[s.id].(start := start, end := end, price := quote.value));
      }
    }
  }

  lemma StepIsSafeEdit(guarded: bool, w: World, step: Step)
    requires WellFormed(w) && FreshAccept(guarded, w, step)
    ensures SafeEdit(w.tables.rows, Next(guarded, w, step).tables.rows)
  {
    var t := w.tables;
    match step
    case Create(id, want, quote, now, ok) => CreateIsSafe(guarded, w, id, want, quote, now, ok);
    case Read(_, _) =>
    case OpenPayment(_, _) =>
    case Capture(p) =>
      if p in t.payments && t.payments[p].booking in t.rows {
        var b := t.payments[p].booking;
        var paid := t.(payments := t.payments[p := t.payments[p].(status := Captured)]);
        if t.rows[b].status == Pending {
          PutIsSafe(guarded, paid, b, t.rows[b].(status := Confirmed));
        }
      }
    case Cancel(k) =>
      if k in w.sessions {
        var id := w.sessions[k].id;
        PutIsSafe(guarded, t, id, t.rows[id].(status := Cancelled));
      }
    case Reschedule(k, start, end, quote, now, ok) => RescheduleIsSafe(guarded, w, k, start, end, quote, now, ok);
    case SetStatus(k, verb) =>
      if k in w.sessions && Commit(guarded, w, step).Ok? {
        var id := w.sessions[k].id;
        PutIsSafe(guarded, t, id, t.rows[id].(status := Target(verb)));
      }
    case CheckIn(k) =>
      if k in w.sessions {
        var id := w.sessions[k].id;
        PutIsSafe(guarded, t, id, t.rows[id].(status := CheckedIn));
      }
  }

  lemma SafeEditKeeps(a: map<int, Booking>, b: map<int, Booking>)
    requires SafeEdit(a, b)
    ensures Disjoint(a) ==> Disjoint(b)
    ensures a.Keys <= b.Keys
    ensures forall i :: i in a ==> b[i].facility == a[i].facility && (Active(b[i]) ==> Active(a[i]))
    ensures (forall i :: i in a ==> a[i].start < a[i].end) ==> forall i :: i in b ==> b[i].start < b[i].end
  {
  }

  /** Every write of a row, fresh or stale, keeps its facility and its order of times. */
  lemma StepKeepsWellFormed(guarded: bool, w: World, step: Step)
    requires WellFormed(w)
    ensures WellFormed(Next(guarded, w, step))
  {
    if FreshAccept(guarded, w, step) {
      StepIsSafeEdit(guarded, w, step);
      SafeEditKeeps(w.tables.rows, Next(guarded, w, step).tables.rows);
    }
  }

  lemma {:induction false} RunWellFormed(guarded: bool, steps: seq<Step>)
    ensures WellFormed(Run(guarded, steps))
  {
    if steps != [] {
      RunWellFormed(guarded, steps[..|steps| - 1]);
      StepKeepsWellFormed(guarded, Run(guarded, steps[..|steps| - 1]), steps[|steps| - 1]);
    }
  }

  /** Every accept of the run reached a row that was still active. */
  ghost predicate AcceptsFresh(guarded: bool, steps: seq<Step>) {
    forall i :: 0 <= i < |steps| ==> FreshAccept(guarded, Run(guarded, steps[..i]), steps[i])
  }

  lemma StepsPrefix(guarded: bool, steps: seq<Step>, n: nat)
    requires n < |steps|
    ensures Run(guarded, steps[..n + 1]) == Next(guarded, Run(guarded, steps[..n]), steps[n])
  {
    assert steps[..n + 1][..n] == steps[..n];
  }

  /** An accept that takes effect lands on an active row, or revives one whose span nobody else holds. */
  predicate HarmlessAccept(guarded: bool, w: World, step: Step) {
    step.SetStatus? && step.verb == Accept && Commit(guarded, w, step).Ok? ==>
      var id := w.sessions[step.session].id;
      var row := w.tables.rows[id];
      Active(row) || !SlotTaken(w.tables.rows, row.facility, row.start, row.end, Some(id))
  }

  lemma HarmlessRevival(guarded: bool, w: World, step: Step)
    requires WellFormed(w) && Disjoint(w.tables.rows)
    requires HarmlessAccept(guarded, w, step) && !FreshAccept(guarded, w, step)
    ensures Disjoint(Next(guarded, w, step).tables.rows)
  {
    var a, b := w.tables.rows, Next(guarded, w, step).tables.rows;
    var id := w.sessions[step.session].id;
    assert b == a[id := a[id].(status := Confirmed)];
    forall j | j in a && j != id && Active(a[j]) && a[j].facility == a[id].facility
      ensures !Overlapping(a[j], a[id].start, a[id].end) && !Overlapping(a[id], a[j].start, a[j].end)
    {
    }
  }

  lemma HarmfulRevival(guarded: bool, w: World, step: Step)
    requires WellFormed(w) && !HarmlessAccept(guarded, w, step)
    ensures !Disjoint(Next(guarded, w, step).tables.rows)
  {
    var a, b := w.tables.rows, Next(guarded, w, step).tables.rows;
    var id := w.sessions[step.session].id;
    var j :| j in a && j != id && Active(a[j]) && a[j].facility == a[id].facility
             && Overlapping(a[j], a[id].start, a[id].end);
    assert b == a[id := a[id].(status := Confirmed)];
    assert b[j] == a[j] && Active(b[id]);
  }

  /** A step keeps bookings disjoint if and only if it is not a harmful accept. */
  lemma StepKeepsDisjointIff(guarded: bool, w: World, step: Step)
    requires WellFormed(w) && Disjoint(w.tables.rows)
    ensures Disjoint(Next(guarded, w, step).tables.rows) <==> HarmlessAccept(guarded, w, step)
  {
    if FreshAccept(guarded, w, step) {
      StepIsSafeEdit(guarded, w, step);
      SafeEditKeeps(w.tables.rows, Next(guarded, w, step).tables.rows);
    } else if HarmlessAccept(guarded, w, step) {
      HarmlessRevival(guarded, w, step);
    } else {
      HarmfulRevival(guarded, w, step);
    }
  }

  lemma PrefixKeepsDisjointIff(guarded: bool, steps: seq<Step>, n: nat)
    requires n < |steps| && Disjoint(Run(guarded, steps[..n]).tables.rows)
    ensures Disjoint(Run(guarded, steps[..n + 1]).tables.rows) <==>
            HarmlessAccept(guarded, Run(guarded, steps[..n]), steps[n])
  {
    StepsPrefix(guarded, steps, n);
    RunWellFormed(guarded, steps[..n]);
    StepKeepsDisjointIff(guarded, Run(guarded, steps[..n]), steps[n]);
  }

  lemma {:induction false} HarmlessKeepsDisjoint(guarded: bool, steps: seq<Step>, n: nat)
    requires n <= |steps|
    requires forall i :: 0 <= i < n ==> HarmlessAccept(guarded, Run(guarded, steps[..i]), steps[i])
    ensures Disjoint(Run(guarded, steps[..n]).tables.rows)
  {
    if n == 0 {
      assert steps[..0] == [];
    } else {
      HarmlessKeepsDisjoint(guarded, steps, n - 1);
      PrefixKeepsDisjointIff(guarded, steps, n - 1);
    }
  }

  /** No double booking: in any interleaving of stale reads and commits, active bookings of a facility stay
      pairwise disjoint throughout if and only if every accept that takes effect lands on an active row or
      on one whose span no other active booking holds. */
  lemma NoDoubleBookingIff(guarded: bool, steps: seq<Step>)
    ensures (forall i :: 0 <= i <= |steps| ==> Disjoint(Run(guarded, steps[..i]).tables.rows)) <==>
            (forall i :: 0 <= i < |steps| ==> HarmlessAccept(guarded, Run(guarded, steps[..i]), steps[i]))
  {
    if forall i :: 0 <= i < |steps| ==> HarmlessAccept(guarded, Run(guarded, steps[..i]), steps[i]) {
      forall i | 0 <= i <= |steps|
        ensures Disjoint(Run(guarded, steps[..i]).tables.rows)
      {
        HarmlessKeepsDisjoint(guarded, steps, i);
      }
    } else {
      var i :| 0 <= i < |steps| && !HarmlessAccept(guarded, Run(guarded, steps[..i]), steps[i]);
      if Disjoint(Run(guarded, steps[..i]).tables.rows) {
        PrefixKeepsDisjointIff(guarded, steps, i);
      }
    }
  }

  /** In particular there is none when every accept lands on a row that is still active. */
  lemma NoDoubleBooking(guarded: bool, steps: seq<Step>)
    requires AcceptsFresh(guarded, steps)
    ensures Disjoint(Run(guarded, steps).tables.rows)
  {
    HarmlessKeepsDisjoint(guarded, steps, |steps|);
    assert steps[..|steps|] == steps;
  }

  lemma {:induction false} FreshRunsDoNotReactivate(guarded: bool, steps: seq<Step>, i: nat, j: nat)
    requires i <= j <= |steps|
    requires forall k :: i <= k < j ==> FreshAccept(guarded, Run(guarded, steps[..k]), steps[k])
    ensures var a, b := Run(guarded, steps[..i]).tables, Run(guarded, steps[..j]).tables;
            a.rows.Keys <= b.rows.Keys && !Reactivates(a, b)
    decreases j - i
  {
    if i < j {
      FreshRunsDoNotReactivate(guarded, steps, i, j - 1);
      var w := Run(guarded, steps[..j - 1]);
      RunWellFormed(guarded, steps[..j - 1]);
      StepsPrefix(guarded, steps, j - 1);
      StepIsSafeEdit(guarded, w, steps[j - 1]);
      SafeEditKeeps(w.tables.rows, Next(guarded, w, steps[j - 1]).tables.rows);
    }
  }

  /** A booking that has left the active statuses never becomes active again in a run
      if and only if every accept of the run landed on a row that was still active. */
  lemma NeverReactivatedIff(guarded: bool, steps: seq<Step>)
    ensures (forall i, j :: 0 <= i <= j <= |steps| ==>
               !Reactivates(Run(guarded, steps[..i]).tables, Run(guarded, steps[..j]).tables))
            <==> AcceptsFresh(guarded, steps)
  {
    if AcceptsFresh(guarded, steps) {
      forall i, j | 0 <= i <= j <= |steps|
        ensures !Reactivates(Run(guarded, steps[..i]).tables, Run(guarded, steps[..j]).tables)
      {
        FreshRunsDoNotReactivate(guarded, steps, i, j);
      }
    } else {
      var i :| 0 <= i < |steps| && !FreshAccept(guarded, Run(guarded, steps[..i]), steps[i]);
      StepsPrefix(guarded, steps, i);
      var w := Run(guarded, steps[..i]);
      var id := w.sessions[steps[i].session].id;
      RunWellFormed(guarded, steps[..i]);
      assert id in w.tables.rows && !Active(w.tables.rows[id]) && Active(Next(guarded, w, steps[i]).tables.rows[id]);
      assert Reactivates(Run(guarded, steps[..i]).tables, Run(guarded, steps[..i + 1]).tables);
    }
  }

  /** Every accept directly follows the read of its booking, as when the call is one atomic step. */
  predicate AcceptsAtomic(guarded: bool, steps: seq<Step>) {
    forall i :: 0 <= i < |steps| && steps[i].SetStatus? && steps[i].verb == Accept ==>
      i > 0 && steps[i - 1].Read? && steps[i - 1].session == steps[i].session
      && steps[i - 1].id in Run(guarded, steps[..i - 1]).tables.rows
  }

  lemma AcceptAfterRead(guarded: bool, w: World, session: int, id: int)
    requires id in w.tables.rows
    ensures FreshAccept(guarded, Next(guarded, w, Read(session, id)), SetStatus(session, Accept))
  {
  }

  /** Accepts that are atomic calls are fresh, so then no booking is ever revived or double-booked. */
  lemma AtomicAcceptsAreFresh(guarded: bool, steps: seq<Step>)
    requires AcceptsAtomic(guarded, steps)
    ensures AcceptsFresh(guarded, steps)
    ensures Disjoint(Run(guarded, steps).tables.rows)
  {
    forall i | 0 <= i < |steps|
      ensures FreshAccept(guarded, Run(guarded, steps[..i]), steps[i])
    {
      if steps[i].SetStatus? && steps[i].verb == Accept {
        StepsPrefix(guarded, steps, i - 1);
        AcceptAfterRead(guarded, Run(guarded, steps[..i - 1]), steps[i].session, steps[i - 1].id);
      }
    }
    NoDoubleBooking(guarded, steps);
  }

  /** A cancel and a capture of one of the booking's payments end in the same tables in either order: the
      booking cancelled, that payment captured, the booking's other open payments cancelled. */
  lemma CancelCaptureCommute(guarded: bool, t: Tables, id: int, seen: Booking, p: int)
    requires id in t.rows && Active(t.rows[id]) && Active(seen)
    requires p in t.payments && t.payments[p].booking == id
    requires guarded ==> DisjointUnlessCancelled(t.rows)
    ensures CancelTx(guarded, t, id, seen).Ok? && CaptureTx(guarded, t, p).Ok?
    ensures var end := CaptureTx(guarded, CancelTx(guarded, t, id, seen).value, p);
            && end == CancelTx(guarded, CaptureTx(guarded, t, p).value, id, seen)
            && end.Ok? && end.value.rows == t.rows[id := t.rows[id].(status := Cancelled)]
            && end.value.payments.Keys == t.payments.Keys
            && forall q :: q in t.payments ==>
                 end.value.payments[q]
                 == if q == p then Payment(id, Captured)
                    else if t.payments[q].booking == id && t.payments[q].status !in {Captured, Refunded}
                      then Payment(id, PaymentCancelled)
                    else t.payments[q]
  {
    var cancelled := CancelTx(guarded, t, id, seen).value;
    assert guarded ==> !Excluded(t.rows, id, t.rows[id].(status := Confirmed));
    var captured := CaptureTx(guarded, t, p).value;
    assert captured.payments == t.payments[p := Payment(id, Captured)];
    assert captured.rows[id := captured.rows[id].(status := Cancelled)] == cancelled.rows;
    assert VoidPayments(captured.payments, id) == VoidPayments(t.payments, id)[p := Payment(id, Captured)];
    if t.payments[p].status == Captured {
      assert VoidPayments(t.payments, id)[p := Payment(id, Captured)] == VoidPayments(t.payments, id);
    }
  }

  /** With the exclusion constraint in force every run is safe, stale accepts included. */
  lemma {:induction false} ConstraintForbidsOverlap(steps: seq<Step>)
    ensures DisjointUnlessCancelled(Run(true, steps).tables.rows) && Disjoint(Run(true, steps).tables.rows)
  {
    if steps != [] {
      ConstraintForbidsOverlap(steps[..|steps| - 1]);
      ConstraintHolds(Run(true, steps[..|steps| - 1]), steps[|steps| - 1]);
    }
  }

  /** How one step may change the table of bookings under the constraint. */
  ghost predicate GuardedEdit(a: map<int, Booking>, b: map<int, Booking>) {
    a == b || exists id, row :: b == a[id := row] && !Excluded(a, id, row)
  }

  lemma PutIsGuarded(t: Tables, id: int, row: Booking)
    ensures var r := Put(true, t, id, row); r.Ok? ==> GuardedEdit(t.rows, r.value.rows)
  {
  }

  lemma GuardedEditHolds(a: map<int, Booking>, b: map<int, Booking>)
    requires GuardedEdit(a, b) && DisjointUnlessCancelled(a)
    ensures DisjointUnlessCancelled(b)
  {
  }

  lemma ConstraintHolds(w: World, step: Step)
    requires DisjointUnlessCancelled(w.tables.rows)
    ensures DisjointUnlessCancelled(Next(true, w, step).tables.rows)
  {
    StepIsGuarded(w, step);
    GuardedEditHolds(w.tables.rows, Next(true, w, step).tables.rows);
  }

  lemma StepIsGuarded(w: World, step: Step)
    ensures GuardedEdit(w.tables.rows, Next(true, w, step).tables.rows)
  {
    var t := w.tables;
    match step
    case Create(id, want, quote, _, _) =>
      if quote.Some? {
        PutIsGuarded(t, id, want.(status := Pending, price := quote.value));
      }
    case Capture(p) =>
      if p in t.payments && t.payments[p].booking in t.rows {
        var b := t.payments[p].booking;
        PutIsGuarded(t.(payments := t.payments[p := t.payments[p].(status := Captured)]), b,
                     t.rows[b].(status := Confirmed));
      }
    case Read(_, _) =>
    case OpenPayment(_, _) =>
    case _ =>
      if step.session in w.sessions && w.sessions[step.session].id in t.rows {
        SessionIsGuarded(w, step);
      }
  }

  lemma SessionIsGuarded(w: World, step: Step)
    requires step.Cancel? || step.Reschedule? || step.SetStatus? || step.CheckIn?
    requires step.session in w.sessions && w.sessions[step.session].id in w.tables.rows
    ensures GuardedEdit(w.tables.rows, Next(true, w, step).tables.rows)
  {
    var t, id := w.tables, w.sessions[step.session].id;
    var row := t.rows[id];
    match step
    case Cancel(_) => PutIsGuarded(t, id, row.(status := Cancelled));
    case Reschedule(_, start, end, quote, _, _) =>
      if quote.Some? {
        PutIsGuarded(t, id, row.(start := start, end := end, price := quote.value));
      }
    case SetStatus(_, verb) => PutIsGuarded(t, id, row.(status := Target(verb)));
    case CheckIn(_) => PutIsGuarded(t, id, row.(status := CheckedIn));
  }

  const SLOT := Booking(1, 1, 1, 10, 20, Pending, 5, None)
  const STALE := map[1 := Session(1, SLOT, false)]
  const SOLD := World(Tables(map[1 := SLOT], map[], {}), STALE)
  const FREED := World(Tables(map[1 := SLOT.(status := Cancelled)], map[], {}), STALE)
  const RESOLD := World(Tables(map[1 := SLOT.(status := Cancelled), 2 := SLOT], map[], {}), STALE)

  lemma SellAndRead()
    ensures Next(false, Next(false, EMPTY_WORLD, Create(1, SLOT, Some(5), 0, true)), Read(1, 1)) == SOLD
  {
  }

  lemma CancelAndResell()
    ensures Next(false, SOLD, Cancel(1)) == FREED
    ensures Next(false, FREED, Create(2, SLOT, Some(5), 0, true)) == RESOLD
  {
  }

  /** Without the constraint a stale accept does double-book: a booking is read as pending,
      cancelled, its slot is sold again, and then the accept of the stale row goes through. */
  lemma StaleAcceptDoubleBooks()
    ensures exists steps :: !Disjoint(Run(false, steps).tables.rows)
  {
    var steps := [Create(1, SLOT, Some(5), 0, true), Read(1, 1), Cancel(1), Create(2, SLOT, Some(5), 0, true),
                  SetStatus(1, Accept)];
    var end := Next(false, RESOLD, SetStatus(1, Accept));
    SellAndRead();
    CancelAndResell();
    RunOfFive(steps, Next(false, EMPTY_WORLD, steps[0]), SOLD, FREED, RESOLD, end);
    var rows := end.tables.rows;
    assert rows[1] == SLOT.(status := Confirmed) && rows[2] == SLOT;
    assert Overlapping(rows[1], rows[2].start, rows[2].end);
  }

  lemma RunOfFive(steps: seq<Step>, w1: World, w2: World, w3: World, w4: World, w5: World)
    requires |steps| == 5
    requires Next(false, EMPTY_WORLD, steps[0]) == w1 && Next(false, w1, steps[1]) == w2
             && Next(false, w2, steps[2]) == w3
    requires Next(false, w3, steps[3]) == w4 && Next(false, w4, steps[4]) == w5
    ensures Run(false, steps) == w5
  {
    assert steps[..0] == [];
    StepsPrefix(false, steps, 0);
    StepsPrefix(false, steps, 1);
    StepsPrefix(false, steps, 2);
    StepsPrefix(false, steps, 3);
    StepsPrefix(false, steps, 4);
    assert steps[..5] == steps;
  }

  /** A call judges by the row it saw, whatever has become of it: a cancel that saw it cancelled does nothing, and a
      check-in that saw it confirmed checks in even a booking that was cancelled meanwhile. */
  lemma StaleCalls(w: World, session: int)
    requires session in w.sessions
    ensures var s := w.sessions[session];
            && (s.seen.status == Cancelled ==> Next(false, w, Cancel(session)) == w)
            && (s.seen.status == Confirmed && s.id in w.tables.rows && s.id !in w.tables.checkIns ==>
                  Next(false, w, CheckIn(session)).tables.rows
                  == w.tables.rows[s.id := w.tables.rows[s.id].(status := CheckedIn)])
  {
  }

  // ------------------------------------------------------------ the life of a booking

  /** The call acts on the row as it is. */
  predicate SeesRow(w: World, step: Step) {
    step.Cancel? || step.Reschedule? || step.SetStatus? || step.CheckIn? ==>
      step.session in w.sessions ==>
        var s := w.sessions[step.session]; s.id in w.tables.rows && s.seen == w.tables.rows[s.id]
  }

  /** Calls that see the row as it is move it along these changes only. */
  lemma LifeStep(guarded: bool, w: World, step: Step, id: int)
    requires id in w.tables.rows && SeesRow(w, step)
    ensures var v := Next(guarded, w, step);
            id in v.tables.rows &&
            var before, after := w.tables.rows[id].status, v.tables.rows[id].status;
            before == after
            || (before, after) in {(Pending, Confirmed), (Pending, Rejected), (Pending, Cancelled),
                                   (Confirmed, CheckedIn), (Confirmed, NoShow), (Confirmed, Cancelled),
                                   (CheckedIn, Completed)}
  {
  }

  /** So a booking that is cancelled, rejected, completed or a no-show stays so. */
  lemma {:induction false} EndedStays(guarded: bool, steps: seq<Step>, n: nat, id: int)
    requires n <= |steps| && forall i :: n <= i < |steps| ==> SeesRow(Run(guarded, steps[..i]), steps[i])
    requires id in Run(guarded, steps[..n]).tables.rows
    requires Run(guarded, steps[..n]).tables.rows[id].status in {Cancelled, Rejected, Completed, NoShow}
    ensures id in Run(guarded, steps).tables.rows
    ensures Run(guarded, steps).tables.rows[id].status == Run(guarded, steps[..n]).tables.rows[id].status
  {
    if n == |steps| {
      assert steps[..n] == steps;
    } else {
      var last := |steps| - 1;
      var before := steps[..last];
      assert before[..n] == steps[..n];
      forall i | n <= i < last
        ensures SeesRow(Run(guarded, before[..i]), before[i])
      {
        assert before[..i] == steps[..i];
      }
      EndedStays(guarded, before, n, id);
      assert SeesRow(Run(guarded, steps[..last]), steps[last]);
      LifeStep(guarded, Run(guarded, before), steps[last], id);
    }
  }

  ghost predicate KeysOnce(rows: map<int, Booking>) {
    forall i, j :: i in rows && j in rows && rows[i].key.Some? && rows[i].key == rows[j].key ==> i == j
  }

  lemma StepKeepsKeysOnce(guarded: bool, w: World, step: Step)
    requires KeysOnce(w.tables.rows)
    ensures KeysOnce(Next(guarded, w, step).tables.rows)
  {
  }

  /** However often a request is repeated, its idempotency key makes one booking. */
  lemma {:induction false} KeyBooksOnce(guarded: bool, steps: seq<Step>)
    ensures KeysOnce(Run(guarded, steps).tables.rows)
  {
    if steps != [] {
      KeyBooksOnce(guarded, steps[..|steps| - 1]);
      StepKeepsKeysOnce(guarded, Run(guarded, steps[..|steps| - 1]), steps[|steps| - 1]);
    }
  }

  // ------------------------------------------------------------ the service on its tables

  class BookingsService {
    const guarded: bool
    var rows: map<int, Booking>
    var payments: map<int, Payment>
    var checkIns: set<int>

    function Snapshot(): Tables
      reads this
    {
      Tables(rows, payments, checkIns)
    }

    constructor (guarded: bool)
      ensures this.guarded == guarded && Snapshot() == EMPTY_WORLD.tables
    {
      this.guarded := guarded;
      rows, payments, checkIns := map[], map[], {};
    }

    method Create(id: int, want: Booking, price: Option<int>, now: int, availabilityOk: bool)
        returns (fault: Option<Fault>)
      modifies this
      ensures Reflects(old(Snapshot()), CreateTx(guarded, old(Snapshot()), id, want, price, now, availabilityOk),
                       fault, Snapshot())
    {
      if want.start >= want.end { return Some(BadRequest); }
      if want.start < now { return Some(BadRequest); }
      if price.None? { return Some(BadRequest); }
      if want.key.Some? && exists k :: k in rows && rows[k].key == want.key {
        if exists k :: k in rows && rows[k].key == want.key && rows[k].user == want.user && rows[k].org == want.org {
          return None;
        }
        return Some(Conflict);
      }
      if SlotTaken(rows, want.facility, want.start, want.end, None) { return Some(Conflict); }
      if !availabilityOk { return Some(BadRequest); }
      if id in rows { return Some(Conflict); }
      var row := want.(status := Pending, price := price.value);
      if guarded && Excluded(rows, id, row) { return Some(ExclusionViolation); }
      rows := rows[id := row];
      return None;
    }

    method Cancel(id: int, seen: Booking) returns (fault: Option<Fault>)
      modifies this
      ensures Reflects(old(Snapshot()), CancelTx(guarded, old(Snapshot()), id, seen), fault, Snapshot())
    {
      if seen.status == Cancelled { return None; }
      if !MayMove(seen.status, Cancelled) { return Some(BadRequest); }
      if id !in rows || !Active(rows[id]) { return Some(NotFound); }
      rows := rows[id := rows[id].(status := Cancelled)];
      payments := VoidPayments(payments, id);
      return None;
    }

    method Reschedule(id: int, seen: Booking, paid: bool, start: int, end: int, price: Option<int>, now: int,
                      available: bool)
      returns (fault: Option<Fault>)
      modifies this
      ensures Reflects(old(Snapshot()),
                       RescheduleTx(guarded, old(Snapshot()), id, seen, paid, start, end, price, now, available),
                       fault, Snapshot())
    {
      if start >= end { return Some(BadRequest); }
      if start < now { return Some(BadRequest); }
      if seen.status != Confirmed && seen.status != Pending { return Some(BadRequest); }
      if price.None? { return Some(BadRequest); }
      if paid && price.value > seen.price { return Some(BadRequest); }
      if seen.start == start && seen.end == end { return None; }
      if SlotTaken(rows, seen.facility, start, end, Some(id)) { return Some(Conflict); }
      if !available { return Some(Conflict); }
      if id !in rows || !Active(rows[id]) { return Some(NotFound); }
      var row := rows[id].(start := start, end := end, price := price.value);
      if guarded && Excluded(rows, id, row) { return Some(ExclusionViolation); }
      rows := rows[id := row];
      return None;
    }

    method SetStatus(id: int, seen: Booking, verb: Verb) returns (fault: Option<Fault>)
      modifies this
      ensures Reflects(old(Snapshot()), WriteStatusTx(guarded, old(Snapshot()), id, seen, Target(verb)), fault,
                       Snapshot())
    {
      if !MayMove(seen.status, Target(verb)) { return Some(BadRequest); }
      if id !in rows { return Some(NotFound); }
      var row := rows[id].(status := Target(verb));
      if guarded && Excluded(rows, id, row) { return Some(ExclusionViolation); }
      rows := rows[id := row];
      return None;
    }

    method CheckIn(id: int, seen: Booking) returns (fault: Option<Fault>)
      modifies this
      ensures Reflects(old(Snapshot()), CheckInTx(guarded, old(Snapshot()), id, seen), fault, Snapshot())
    {
      if seen.status == CheckedIn { return None; }
      if !MayMove(seen.status, CheckedIn) { return Some(BadRequest); }
      if id !in rows { return Some(NotFound); }
      var row := rows[id].(status := CheckedIn);
      if guarded && Excluded(rows, id, row) { return Some(ExclusionViolation); }
      if id in checkIns { return Some(Conflict); }
      rows := rows[id := row];
      checkIns := checkIns + {id};
      return None;
    }

    method Capture(p: int) returns (fault: Option<Fault>)
      modifies this
      ensures Reflects(old(Snapshot()), CaptureTx(guarded, old(Snapshot()), p), fault, Snapshot())
    {
      if p !in payments { return Some(NotFound); }
      if payments[p].status == Captured { return None; }
      var b := payments[p].booking;
      if b in rows && rows[b].status == Pending {
        var row := rows[b].(status := Confirmed);
        if guarded && Excluded(rows, b, row) { return Some(ExclusionViolation); }
        rows := rows[b := row];
      }
      payments := payments[p := payments[p].(status := Captured)];
      return None;
    }
  }
}
