/** Runs of payments and webhooks: deliveries repeated and reordered, workers retried from any
    point or lost between any two writes, checkouts, callbacks, refunds and listeners in any
    order. At-least-once deliveries have at-most-once effects. */
module Delivery {
  import opened Wrappers
  import opened PaymentFlow
  import L = Ledger
  import R = Refunds
  import C = Reconciliation
  import Bookings

  datatype World = World(store: Store, agents: map<int, Agent>)

  datatype Step =
    | NewBooking(booking: int)
    | MoveBooking(booking: int, status: Bookings.Status)
    | OpenPayment(booking: int, org: int, amount: int, provider: int, at: int)
    | VoidPayment(payment: int)
    | ReceiveEvent(key: EventKey, kind: EventKind, signed: bool)
    | RetryEvent(key: EventKey)
    | BeginJob(agent: int, key: EventKey)
    | BeginCheckout(agent: int, payment: int, mine: bool, valid: bool)
    | BeginCallback(agent: int, key: EventKey, kind: EventKind, named: bool, found: Option<int>)
    | BeginRefund(agent: int, payment: int, accepted: bool)
    | Advance(agent: int, found: Option<int>, terms: Terms)
    | Crash(agent: int)
    | Throw(agent: int)
    | Deliver(notice: int, terms: Terms)
    | ReconcilePayment(payment: int, paid: bool)
    | Finance(step: L.Step)

  const EMPTY_WORLD := World(Store(L.EMPTY_BOOKS, map[], map[], map[], []), map[])

  function Begin(w: World, agent: int, g: Agent): World {
    if agent in w.agents then w else w.(agents := w.agents[agent := g])
  }

  function BeginWith(w: World, agent: int, flow: Flow, phase: Result<Phase, L.Fault>): World {
    if phase.Ok? then Begin(w, agent, Agent(flow, phase.value)) else w
  }

  function Stored(w: World, r: Result<Store, L.Fault>): World {
    if r.Ok? then w.(store := r.value) else w
  }

  /** An exception inside the worker marks its event as failed. */
  function Thrown(s: Store, g: Agent): Store {
    if g.flow.Job? && g.phase != Claimed && g.phase != Done then SetEvent(s, g.flow.event, Errored) else s
  }

  /** A listener of the finance service handles one emitted notice. */
  function Heard(n: Notice, terms: Terms): Option<L.Step> {
    match n
    case PaymentCaptured(p, org, amount) => Some(PayStep(p, org, amount, terms))
    case PaymentRefunded(p, org, amount) => Some(RefundStep(p, org, amount, terms))
    case BookingConfirmed(_) => None
  }

  predicate FinanceOnly(step: L.Step) {
    step.Adjust? || step.Payout? || step.Complete? || step.Fail? || step.Settle?
  }

  function NewPayment(s: Store, step: Step): Store
    requires step.OpenPayment?
  {
    var l := L.OpenPayment(step.org, step.amount, step.provider, step.at);
    if step.booking in s.bookings && step.amount >= 0
    then s.(books := L.Next(s.books, l), bookingOf := s.bookingOf[|s.books.payments| := step.booking])
    else s
  }

  function Next(w: World, step: Step): World {
    var s := w.store;
    match step
    case NewBooking(b) => if b in s.bookings then w else w.(store := s.(bookings := s.bookings[b := Bookings.Pending]))
    case MoveBooking(b, status) =>
      if b in s.bookings && status != Bookings.Pending then w.(store := s.(bookings := s.bookings[b := status])) else w
    case OpenPayment(_, _, _, _, _) => w.(store := NewPayment(s, step))
    case VoidPayment(p) =>
      if Known(s, p) && s.books.payments[p].status !in {Bookings.Captured, Bookings.Refunded}
      then w.(store := SetPayment(s, p, Bookings.PaymentCancelled)) else w
    case ReceiveEvent(key, kind, signed) => Stored(w, Receive(s, key, kind, signed))
    case RetryEvent(key) => Stored(w, Retry(s, key))
    case BeginJob(a, key) => Begin(w, a, Agent(Job(key), StartJob(s, key)))
    case BeginCheckout(a, p, mine, valid) => BeginWith(w, a, Checkout, StartCheckout(s, p, mine, valid))
    case BeginCallback(a, key, kind, named, found) =>
      var (next, phase) := StartCallback(s, key, kind, named, found);
      Begin(w.(store := next), a, Agent(Callback(key, kind), phase))
    case BeginRefund(a, p, accepted) => BeginWith(w, a, Desk, StartRefund(s, p, accepted))
    case Advance(a, found, terms) =>
      if a !in w.agents then w
      else
        var (next, phase) := Perform(s, w.agents[a], found, terms);
        World(next, w.agents[a := Agent(w.agents[a].flow, phase)])
    case Crash(a) => if a in w.agents then w.(agents := w.agents[a := Agent(w.agents[a].flow, Done)]) else w
    case Throw(a) =>
      if a in w.agents then World(Thrown(s, w.agents[a]), w.agents[a := Agent(w.agents[a].flow, Done)]) else w
    case Deliver(i, terms) =>
      if 0 <= i < |s.notices| && Heard(s.notices[i], terms).Some?
      then w.(store := s.(books := L.Next(s.books, Heard(s.notices[i], terms).value))) else w
    case ReconcilePayment(p, paid) => Stored(w, Reconcile(s, p, paid))
    case Finance(l) => if FinanceOnly(l) then w.(store := s.(books := L.Next(s.books, l))) else w
  }

  function Run(steps: seq<Step>): World {
    if steps == [] then EMPTY_WORLD else Next(Run(steps[..|steps| - 1]), steps[|steps| - 1])
  }

  // ------------------------------------------------------------ every run is a run of the ledger

  /** The ledger's view of an agent's write. */
  function LedgerWrite(s: Store, g: Agent, terms: Terms): Option<L.Step> {
    match g.phase
    case Capturing(p) =>
      if Known(s, p) && GoesAhead(RuleOf(g.flow), s.books.payments[p].status)
      then Some(L.MarkPayment(p, Bookings.Captured)) else None
    case Recording(p, _) => if Known(s, p) && g.flow.Job? then Some(PayFor(s, p, terms)) else None
    case Refunding(p) => if Known(s, p) then Some(L.MarkPayment(p, Bookings.Refunded)) else None
    case RecordingRefund(p) => if Known(s, p) && g.flow.Job? then Some(RefundFor(s, p, terms)) else None
    case _ => None
  }

  /** The ledger's view of a step. */
  function LedgerView(w: World, step: Step): Option<L.Step> {
    var s := w.store;
    match step
    case OpenPayment(b, org, amount, provider, at) =>
      if b in s.bookings then Some(L.OpenPayment(org, amount, provider, at)) else None
    case VoidPayment(p) =>
      if Known(s, p) && s.books.payments[p].status !in {Bookings.Captured, Bookings.Refunded}
      then Some(L.MarkPayment(p, Bookings.PaymentCancelled)) else None
    case Advance(a, _, terms) => if a in w.agents then LedgerWrite(s, w.agents[a], terms) else None
    case Deliver(i, terms) => if 0 <= i < |s.notices| then Heard(s.notices[i], terms) else None
    case ReconcilePayment(p, paid) =>
      if Known(s, p) && paid && s.books.payments[p].status != Bookings.Captured
      then Some(L.MarkPayment(p, Bookings.Captured)) else None
    case Finance(l) => if FinanceOnly(l) then Some(l) else None
    case _ => None
  }

  function After(b: L.Books, l: Option<L.Step>): L.Books {
    if l.Some? then L.Next(b, l.value) else b
  }

  lemma PerformRefines(s: Store, g: Agent, found: Option<int>, terms: Terms)
    ensures Perform(s, g, found, terms).0.books == After(s.books, LedgerWrite(s, g, terms))
  {
  }

  lemma StepRefines(w: World, step: Step)
    ensures Next(w, step).store.books == After(w.store.books, LedgerView(w, step))
  {
    if step.Advance? && step.agent in w.agents {
      PerformRefines(w.store, w.agents[step.agent], step.found, step.terms);
    }
  }

  function LedgerRun(steps: seq<Step>): seq<L.Step> {
    if steps == [] then []
    else
      var before := steps[..|steps| - 1];
      match LedgerView(Run(before), steps[|steps| - 1])
      case None => LedgerRun(before)
      case Some(l) => LedgerRun(before) + [l]
  }

  lemma LedgerRunStep(steps: seq<L.Step>, l: Option<L.Step>)
    ensures L.Run(if l.Some? then steps + [l.value] else steps) == After(L.Run(steps), l)
  {
    if l.Some? {
      assert (steps + [l.value])[..|steps|] == steps;
    }
  }

  /** The books of every run are the books of a ledger run, so every law of the ledger holds here. */
  lemma {:induction false} RunRefinesLedger(steps: seq<Step>)
    ensures Run(steps).store.books == L.Run(LedgerRun(steps))
  {
    if steps != [] {
      var before, step := steps[..|steps| - 1], steps[|steps| - 1];
      RunRefinesLedger(before);
      StepRefines(Run(before), step);
      LedgerRunStep(LedgerRun(before), LedgerView(Run(before), step));
    }
  }

  // ------------------------------------------------------------ what is recorded is what was charged

  /** A ledger step that speaks of an existing payment by its own organisation and amount. */
  predicate Faithful(b: L.Books, l: L.Step) {
    match l
    case Pay(p, org, amount, _, _, _) =>
      0 <= p < |b.payments| && org == b.payments[p].org && amount == b.payments[p].amount
    case Refund(p, org, amount, _) =>
      0 <= p < |b.payments| && org == b.payments[p].org && amount == b.payments[p].amount
    case _ => true
  }

  predicate NoticeAgrees(b: L.Books, n: Notice) {
    match n
    case PaymentCaptured(p, org, amount) =>
      0 <= p < |b.payments| && org == b.payments[p].org && amount == b.payments[p].amount
    case PaymentRefunded(p, org, amount) =>
      0 <= p < |b.payments| && org == b.payments[p].org && amount == b.payments[p].amount
    case BookingConfirmed(_) => true
  }

  predicate RowAgrees(b: L.Books, t: L.Tx) {
    t.payment.Some? ==>
      var p := t.payment.value; 0 <= p < |b.payments| && t.org == b.payments[p].org && t.amount == b.payments[p].amount
  }

  ghost predicate RowsAgree(b: L.Books) {
    forall i :: 0 <= i < |b.txs| ==> RowAgrees(b, b.txs[i])
  }

  ghost predicate NoticesAgree(b: L.Books, notices: seq<Notice>) {
    forall i :: 0 <= i < |notices| ==> NoticeAgrees(b, notices[i])
  }

  ghost predicate TermsKept(b: L.Books, c: L.Books) {
    |b.payments| <= |c.payments|
    && forall p :: 0 <= p < |b.payments| ==>
       c.payments[p].org == b.payments[p].org && c.payments[p].amount == b.payments[p].amount
  }

  lemma FaithfulKeepsRows(b: L.Books, l: L.Step)
    requires Faithful(b, l) && RowsAgree(b)
    ensures TermsKept(b, L.Next(b, l)) && RowsAgree(L.Next(b, l))
  {
  }

  lemma StepIsFaithful(w: World, step: Step)
    requires NoticesAgree(w.store.books, w.store.notices)
    ensures LedgerView(w, step).Some? ==> Faithful(w.store.books, LedgerView(w, step).value)
  {
  }

  /** What an agent emits in its next write. */
  function Said(s: Store, g: Agent): seq<Notice> {
    match g.phase
    case Announcing(p, _) => if Known(s, p) then [CapturedNotice(s, p)] else []
    case Confirming(p) => if Known(s, p) then [BookingConfirmed(s.bookingOf[p])] else []
    case AnnouncingRefund(p) => if Known(s, p) then [RefundedNotice(s, p)] else []
    case _ => []
  }

  lemma PerformEmits(s: Store, g: Agent, found: Option<int>, terms: Terms)
    ensures Perform(s, g, found, terms).0.notices == s.notices + Said(s, g)
    ensures NoticesAgree(s.books, Said(s, g))
  {
  }

  lemma NoticesKept(w: World, step: Step)
    requires NoticesAgree(w.store.books, w.store.notices) && TermsKept(w.store.books, Next(w, step).store.books)
    ensures NoticesAgree(Next(w, step).store.books, Next(w, step).store.notices)
  {
    if step.Advance? && step.agent in w.agents {
      var said := Said(w.store, w.agents[step.agent]);
      PerformEmits(w.store, w.agents[step.agent], step.found, step.terms);
      assert forall i :: 0 <= i < |said| ==> NoticeAgrees(w.store.books, said[i]);
    } else {
      assert Next(w, step).store.notices == w.store.notices;
    }
  }

  ghost predicate Honest(w: World) {
    RowsAgree(w.store.books) && NoticesAgree(w.store.books, w.store.notices)
  }

  lemma {:induction false} RunHonest(steps: seq<Step>)
    ensures Honest(Run(steps))
  {
    if steps != [] {
      var w, step := Run(steps[..|steps| - 1]), steps[|steps| - 1];
      RunHonest(steps[..|steps| - 1]);
      StepIsFaithful(w, step);
      StepRefines(w, step);
      if LedgerView(w, step).Some? {
        FaithfulKeepsRows(w.store.books, LedgerView(w, step).value);
      }
      NoticesKept(w, step);
    }
  }

  /** Each payment gets at most one PAYMENT transaction over any run, and its entries are exactly
      the three of that payment, for its own organisation and amount. */
  lemma RecordedOnce(steps: seq<Step>, p: int)
    ensures var b := Run(steps).store.books;
            && (forall i, j ::
                  0 <= i < |b.txs| && 0 <= j < |b.txs| && L.IsPaymentOf(b.txs[i], p) && L.IsPaymentOf(b.txs[j], p) ==>
                    i == j)
            && (forall i :: 0 <= i < |b.txs| && L.IsPaymentOf(b.txs[i], p) ==>
                  && 0 <= p < |b.payments|
                  && L.EntriesOf(b.entries, i)
                     == L.PaymentEntries(i, b.payments[p].org, b.payments[p].amount, b.txs[i].commission))
  {
    RunRefinesLedger(steps);
    L.RunSound(LedgerRun(steps));
    RunHonest(steps);
    var b := Run(steps).store.books;
    forall i, j | 0 <= i < |b.txs| && 0 <= j < |b.txs| && L.IsPaymentOf(b.txs[i], p) && L.IsPaymentOf(b.txs[j], p)
      ensures i == j
    {
      L.PaymentTxUnique(b.txs, i, j, p);
    }
    forall i | 0 <= i < |b.txs| && L.IsPaymentOf(b.txs[i], p)
      ensures L.EntriesOf(b.entries, i) == L.Posting(i, b.txs[i]) && RowAgrees(b, b.txs[i])
    {
    }
  }

  ghost predicate AmountsNotNegative(b: L.Books) {
    forall p :: 0 <= p < |b.payments| ==> b.payments[p].amount >= 0
  }

  lemma RunAmounts(steps: seq<Step>)
    ensures AmountsNotNegative(Run(steps).store.books)
  {
    RunRefinesLedger(steps);
    L.RunSound(LedgerRun(steps));
  }

  lemma RefundNotNegative(b: L.Books, l: L.Step)
    requires AmountsNotNegative(b) && Faithful(b, l) && l.Refund?
    ensures l.amount >= 0
  {
    assert b.payments[l.payment].amount >= 0;
  }

  /** All refunds of a run are of payments, whose amounts are not negative. */
  lemma {:induction false} RefundsNeverNegative(steps: seq<Step>)
    ensures R.RefundsNotNegative(LedgerRun(steps))
  {
    if steps != [] {
      var before, step := steps[..|steps| - 1], steps[|steps| - 1];
      RefundsNeverNegative(before);
      var l := LedgerView(Run(before), step);
      if l.Some? && l.value.Refund? {
        RunHonest(before);
        StepIsFaithful(Run(before), step);
        RunAmounts(before);
        RefundNotNegative(Run(before).store.books, l.value);
      }
    }
  }

  lemma NothingRefundedOnce(b: L.Books, p: int, i: nat, j: nat)
    requires 0 <= p < |b.payments| && b.payments[p].amount == 0 && RowsAgree(b)
    requires L.RowsSound(b.txs) && R.KeysReached(b.txs)
    requires i < |b.txs| && j < |b.txs| && L.IsRefundOf(b.txs[i], p) && L.IsRefundOf(b.txs[j], p)
    ensures i == j
  {
    NothingRefunded(b, p, b.txs);
    assert R.KeysReachedFor(b.txs, p);
    assert L.RowShape(b.txs[i]) && L.RowShape(b.txs[j]);
    assert b.txs[i].key == L.RefundKey(p, 0) == b.txs[j].key;
  }

  /** Refunds of nothing add up to nothing, so that they all ask for the same key. */
  lemma {:induction false} NothingRefunded(b: L.Books, p: int, txs: seq<L.Tx>)
    requires 0 <= p < |b.payments| && b.payments[p].amount == 0 && (forall k :: 0 <= k < |txs| ==> RowAgrees(b, txs[k]))
    ensures L.Refunded(txs, p) == 0
  {
    if txs != [] {
      NothingRefunded(b, p, txs[..|txs| - 1]);
      assert RowAgrees(b, txs[|txs| - 1]);
    }
  }

  lemma {:induction false} RefundsAdd(b: L.Books, p: int, txs: seq<L.Tx>, i: nat, j: nat)
    requires 0 <= p < |b.payments| && b.payments[p].amount >= 0 && (forall k :: 0 <= k < |txs| ==> RowAgrees(b, txs[k]))
    requires i < j < |txs| && L.IsRefundOf(txs[i], p) && L.IsRefundOf(txs[j], p)
    ensures L.Refunded(txs, p) >= 2 * b.payments[p].amount
  {
    var n := |txs| - 1;
    if j == n {
      RefundCounted(b, p, txs[..n], i);
    } else {
      RefundsAdd(b, p, txs[..n], i, j);
    }
    assert RowAgrees(b, txs[n]);
  }

  lemma {:induction false} RefundCounted(b: L.Books, p: int, txs: seq<L.Tx>, i: nat)
    requires 0 <= p < |b.payments| && b.payments[p].amount >= 0 && (forall k :: 0 <= k < |txs| ==> RowAgrees(b, txs[k]))
    requires i <= |txs| && (i < |txs| ==> L.IsRefundOf(txs[i], p))
    ensures L.Refunded(txs, p) >= if i < |txs| then b.payments[p].amount else 0
  {
    if txs != [] {
      var n := |txs| - 1;
      RefundCounted(b, p, txs[..n], if i < n then i else n);
      assert RowAgrees(b, txs[n]);
    }
  }

  /** What the refunds of a run rest on. */
  ghost predicate RefundsSound(b: L.Books) {
    L.RowsSound(b.txs) && R.KeysReached(b.txs) && R.WithinCap(b) && RowsAgree(b) && AmountsNotNegative(b)
  }

  lemma RunRefundsSound(steps: seq<Step>)
    ensures RefundsSound(Run(steps).store.books)
  {
    RunRefinesLedger(steps);
    RunHonest(steps);
    RefundsNeverNegative(steps);
    R.RunKeysReached(LedgerRun(steps));
    R.RefundsCapped(LedgerRun(steps));
    L.RunSound(LedgerRun(steps));
    RunAmounts(steps);
  }

  /** Each payment, unless it is of a single paisa, gets at most one REFUND transaction over any run, and it is of
      the full amount. */
  lemma RefundedOnce(steps: seq<Step>, p: int, i: nat, j: nat)
    requires var b := Run(steps).store.books;
             i < |b.txs| && j < |b.txs| && L.IsRefundOf(b.txs[i], p) && L.IsRefundOf(b.txs[j], p)
    ensures var b := Run(steps).store.books;
            0 <= p < |b.payments| && b.txs[i].amount == b.payments[p].amount && (b.payments[p].amount != 1 ==> i == j)
  {
    RunRefundsSound(steps);
    RefundRowsOnce(Run(steps).store.books, p, i, j);
  }

  lemma RefundRowsOnce(b: L.Books, p: int, i: nat, j: nat)
    requires RefundsSound(b)
    requires i < |b.txs| && j < |b.txs| && L.IsRefundOf(b.txs[i], p) && L.IsRefundOf(b.txs[j], p)
    ensures 0 <= p < |b.payments| && b.txs[i].amount == b.payments[p].amount
    ensures b.payments[p].amount != 1 ==> i == j
  {
    assert RowAgrees(b, b.txs[i]);
    if b.payments[p].amount == 0 {
      NothingRefundedOnce(b, p, i, j);
    } else if i != j && b.payments[p].amount >= 2 {
      RefundsAdd(b, p, b.txs, if i < j then i else j, if i < j then j else i);
    }
  }

  /** Since all callers record whole amounts, an unfiltered reconciliation after any run is healthy if and only
      if every captured payment has its PAYMENT transaction and every refunded one its REFUND. */
  lemma HealthyAfterRunIff(steps: seq<Step>)
    ensures var b := Run(steps).store.books;
            C.Healthy(b, C.EVERYTHING) <==>
            && (forall p :: 0 <= p < |b.payments| && b.payments[p].status == Bookings.Captured ==>
                C.HasPaymentTx(b.txs, p))
            && (forall p :: 0 <= p < |b.payments| && b.payments[p].status == Bookings.Refunded ==>
                C.HasRefundTx(b.txs, p))
  {
    RunRefinesLedger(steps);
    C.HealthyReachableIff(LedgerRun(steps));
    RunHonest(steps);
    var b := Run(steps).store.books;
    assert forall i :: 0 <= i < |b.txs| ==> RowAgrees(b, b.txs[i]);
  }

  /** So after any run a refund of a positive amount is never turned away as a duplicate. */
  lemma RefundNeverDuplicate(steps: seq<Step>, p: int, org: int, amount: int, now: int)
    requires amount > 0
    ensures L.RecordRefund(Run(steps).store.books, p, org, amount, now) != Err(L.DuplicateKey)
  {
    RunRefinesLedger(steps);
    RefundsNeverNegative(steps);
    R.RefundKeysDistinct(LedgerRun(steps), p, org, amount, now);
  }
}
