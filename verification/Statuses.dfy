/** What the status of a payment does over a whole run: exactly when it moves along the table of statuses, and
    exactly when a booking is never charged by two payments at once. */
module Statuses {
  import opened Wrappers
  import opened PaymentFlow
  import opened Delivery
  import opened Payments
  import Bookings
  import L = Ledger

  // ------------------------------------------------------------ the table over runs

  predicate Exists(w: World, p: int) {
    0 <= p < |w.store.books.payments|
  }

  function StatusOf(w: World, p: int): Bookings.PaymentStatus
    requires Exists(w, p)
  {
    w.store.books.payments[p].status
  }

  /** The statuses of a payment in the order of the run, from its creation on. */
  function StatusesOf(steps: seq<Step>, p: int): seq<Bookings.PaymentStatus> {
    if steps == [] || !Exists(Run(steps), p) then []
    else StatusesOf(steps[..|steps| - 1], p) + [StatusOf(Run(steps), p)]
  }

  /** A worker, a checkout or the provider's reconciliation is about to capture p: none asks the table. */
  predicate CapturesUnasked(w: World, step: Step, p: int) {
    || step == ReconcilePayment(p, true)
    || (step.Advance? && step.agent in w.agents
        && w.agents[step.agent].phase == Capturing(p) && !w.agents[step.agent].flow.Callback?)
  }

  /** A refund of p is about to be written. */
  predicate Refunds(w: World, step: Step, p: int) {
    step.Advance? && step.agent in w.agents && w.agents[step.agent].phase == Refunding(p)
  }

  /** The step captures a payment that failed, was cancelled or was refunded, refunds one that was never
      captured, or cancels one that failed. */
  predicate LeavesTable(w: World, step: Step, p: int)
    requires Exists(w, p)
  {
    Known(w.store, p) &&
    match StatusOf(w, p)
    case Failed => CapturesUnasked(w, step, p) || Refunds(w, step, p) || step == VoidPayment(p)
    case PaymentCancelled => CapturesUnasked(w, step, p) || Refunds(w, step, p)
    case Refunded => CapturesUnasked(w, step, p)
    case Captured => false
    case _ => Refunds(w, step, p)
  }

  /** The status a step writes to p, if it writes one. */
  function Written(w: World, step: Step, p: int): Option<Bookings.PaymentStatus> {
    match LedgerView(w, step)
    case Some(MarkPayment(q, status)) => if p == q then Some(status) else None
    case _ => None
  }

  lemma BooksWritten(b: L.Books, l: L.Step, p: int)
    requires 0 <= p < |b.payments|
    ensures var c := L.Next(b, l);
            p < |c.payments|
            && c.payments[p].status == if l.MarkPayment? && l.payment == p then l.status else b.payments[p].status
  {
  }

  lemma StepWrites(w: World, step: Step, p: int)
    requires Exists(w, p)
    ensures Exists(Next(w, step), p)
    ensures StatusOf(Next(w, step), p) == match Written(w, step, p)
                                          case Some(status) => status
                                          case None => StatusOf(w, p)
  {
    StepRefines(w, step);
    if LedgerView(w, step).Some? {
      BooksWritten(w.store.books, LedgerView(w, step).value, p);
    }
  }

  lemma WrittenLeavesTableIff(w: World, step: Step, p: int)
    requires Exists(w, p)
    ensures Written(w, step, p).Some? && !CanTransition(StatusOf(w, p), Written(w, step, p).value)
       <==> LeavesTable(w, step, p)
  {
  }

  /** A step moves the status of p along the table if and only if it is not one of those. */
  lemma StepFollowsTableIff(w: World, step: Step, p: int)
    requires Exists(w, p)
    ensures Exists(Next(w, step), p)
    ensures CanTransition(StatusOf(w, p), StatusOf(Next(w, step), p)) <==> !LeavesTable(w, step, p)
  {
    StepWrites(w, step, p);
    WrittenLeavesTableIff(w, step, p);
  }

  lemma PathGrows(statuses: seq<Bookings.PaymentStatus>, next: Bookings.PaymentStatus)
    ensures Path(statuses + [next]) <==>
            Path(statuses) && (statuses != [] ==> CanTransition(statuses[|statuses| - 1], next))
  {
    var longer, last := statuses + [next], |statuses| - 1;
    if Path(longer) {
      forall i | 0 <= i < last
        ensures CanTransition(statuses[i], statuses[i + 1])
      {
        assert CanTransition(longer[i], longer[i + 1]);
      }
      assert last >= 0 ==> CanTransition(longer[last], longer[last + 1]);
    }
  }

  lemma LastStatus(steps: seq<Step>, p: int)
    ensures (StatusesOf(steps, p) != []) <==> Exists(Run(steps), p)
    ensures Exists(Run(steps), p) ==> StatusesOf(steps, p)[|StatusesOf(steps, p)| - 1] == StatusOf(Run(steps), p)
  {
  }

  ghost predicate KeepsToTable(steps: seq<Step>, n: nat, p: int)
    requires n < |steps|
  {
    Exists(Run(steps[..n]), p) ==> !LeavesTable(Run(steps[..n]), steps[n], p)
  }

  /** Up to step n the statuses of p form a path. */
  ghost predicate FollowsTable(steps: seq<Step>, n: nat, p: int)
    requires n <= |steps|
  {
    Path(StatusesOf(steps[..n], p))
  }

  lemma {:induction false} PrefixFollowsTableIff(steps: seq<Step>, n: nat, p: int)
    requires n <= |steps| && FollowsTable(steps, 0, p)
    requires forall i: nat :: i < |steps| ==>
               (FollowsTable(steps, i + 1, p) <==> FollowsTable(steps, i, p) && KeepsToTable(steps, i, p))
    ensures FollowsTable(steps, n, p) <==> forall i :: 0 <= i < n ==> KeepsToTable(steps, i, p)
  {
    if n > 0 {
      PrefixFollowsTableIff(steps, n - 1, p);
    }
  }

  lemma OneMoreFollowsTableIff(steps: seq<Step>, n: nat, p: int)
    requires n < |steps|
    ensures FollowsTable(steps, n + 1, p) <==> FollowsTable(steps, n, p) && KeepsToTable(steps, n, p)
  {
    var before, longer := steps[..n], steps[..n + 1];
    assert longer[..n] == before;
    LastStatus(before, p);
    if Exists(Run(before), p) {
      StepFollowsTableIff(Run(before), steps[n], p);
      PathGrows(StatusesOf(before, p), StatusOf(Run(longer), p));
    }
  }

  /** Over a whole run the statuses of a payment move along the table if and only if no step captures it after
      it failed, was cancelled or was refunded, refunds it before it was captured, or cancels it after it failed. */
  lemma StatusesFollowTableIff(steps: seq<Step>, p: int)
    ensures Path(StatusesOf(steps, p)) <==> forall n :: 0 <= n < |steps| ==> KeepsToTable(steps, n, p)
  {
    assert steps[..0] == [] && steps[..|steps|] == steps;
    forall i: nat | i < |steps|
      ensures FollowsTable(steps, i + 1, p) <==> FollowsTable(steps, i, p) && KeepsToTable(steps, i, p)
    {
      OneMoreFollowsTableIff(steps, i, p);
    }
    PrefixFollowsTableIff(steps, |steps|, p);
  }

  // ------------------------------------------------------------ one charge for a booking

  predicate Paid(s: Store, p: int) {
    Known(s, p) && s.books.payments[p].status == Bookings.Captured
  }

  predicate SameBooking(s: Store, p: int, q: int) {
    Known(s, p) && Known(s, q) && s.bookingOf[p] == s.bookingOf[q]
  }

  /** No booking has two captured payments. */
  ghost predicate ChargedOnce(s: Store) {
    forall p, q :: Paid(s, p) && Paid(s, q) && SameBooking(s, p, q) ==> p == q
  }

  /** The step captures p, which is not captured yet. */
  predicate Charges(w: World, step: Step, p: int) {
    Known(w.store, p) && !Paid(w.store, p)
    && (|| step == ReconcilePayment(p, true)
        || (step.Advance? && step.agent in w.agents && w.agents[step.agent].phase == Capturing(p)
            && GoesAhead(RuleOf(w.agents[step.agent].flow), w.store.books.payments[p].status)))
  }

  /** The step captures a payment whose booking has another captured payment. */
  ghost predicate ChargesAgain(w: World, step: Step) {
    exists p, q :: Charges(w, step, p) && Paid(w.store, q) && SameBooking(w.store, p, q)
  }

  lemma PerformKeepsBookings(s: Store, g: Agent, found: Option<int>, terms: Terms)
    ensures Perform(s, g, found, terms).0.bookingOf == s.bookingOf
  {
  }

  lemma BookingsOfPayments(w: World, step: Step, p: int)
    requires Known(w.store, p)
    ensures Known(Next(w, step).store, p) && Next(w, step).store.bookingOf[p] == w.store.bookingOf[p]
  {
    StepWrites(w, step, p);
    if step.Advance? && step.agent in w.agents {
      PerformKeepsBookings(w.store, w.agents[step.agent], step.found, step.terms);
    }
  }

  lemma ChargesCapture(w: World, step: Step, p: int)
    requires Charges(w, step, p)
    ensures Paid(Next(w, step).store, p)
  {
    BookingsOfPayments(w, step, p);
    StepWrites(w, step, p);
  }

  lemma OthersStayPaid(w: World, step: Step, p: int, q: int)
    requires Charges(w, step, p) && Paid(w.store, q)
    ensures Paid(Next(w, step).store, q)
  {
    BookingsOfPayments(w, step, q);
    StepWrites(w, step, q);
  }

  /** A payment is captured after a step only if it was before, or the step captures it. */
  lemma PaidBefore(w: World, step: Step, p: int)
    requires Paid(Next(w, step).store, p)
    ensures Known(w.store, p) && (Paid(w.store, p) || Charges(w, step, p))
  {
    if Exists(w, p) {
      StepWrites(w, step, p);
      KnownBefore(w, step, p);
    } else {
      NewPaymentsUnpaid(w, step, p);
    }
  }

  lemma KnownBefore(w: World, step: Step, p: int)
    requires Exists(w, p) && Known(Next(w, step).store, p)
    ensures Known(w.store, p)
  {
  }

  lemma NewPaymentsUnpaid(w: World, step: Step, p: int)
    requires !Exists(w, p)
    ensures !Paid(Next(w, step).store, p)
  {
    StepRefines(w, step);
  }

  /** A step keeps every booking charged at most once if and only if it does not charge one again. */
  lemma StepChargesOnceIff(w: World, step: Step)
    requires ChargedOnce(w.store)
    ensures ChargedOnce(Next(w, step).store) <==> !ChargesAgain(w, step)
  {
    var t := Next(w, step).store;
    if ChargesAgain(w, step) {
      var p, q :| Charges(w, step, p) && Paid(w.store, q) && SameBooking(w.store, p, q);
      ChargesCapture(w, step, p);
      OthersStayPaid(w, step, p, q);
      BookingsOfPayments(w, step, p);
      BookingsOfPayments(w, step, q);
      assert SameBooking(t, p, q);
    } else {
      forall p, q | Paid(t, p) && Paid(t, q) && SameBooking(t, p, q)
        ensures p == q
      {
        PaidBefore(w, step, p);
        PaidBefore(w, step, q);
        BookingsOfPayments(w, step, p);
        BookingsOfPayments(w, step, q);
        assert SameBooking(w.store, p, q) && SameBooking(w.store, q, p);
      }
    }
  }

  lemma PrefixChargesOnceIff(steps: seq<Step>, n: nat)
    requires n < |steps| && ChargedOnce(Run(steps[..n]).store)
    ensures ChargedOnce(Run(steps[..n + 1]).store) <==> !ChargesAgain(Run(steps[..n]), steps[n])
  {
    assert steps[..n + 1][..n] == steps[..n];
    StepChargesOnceIff(Run(steps[..n]), steps[n]);
  }

  lemma {:induction false} NothingChargedAgain(steps: seq<Step>, n: nat)
    requires n <= |steps| && forall i :: 0 <= i < n ==> !ChargesAgain(Run(steps[..i]), steps[i])
    ensures ChargedOnce(Run(steps[..n]).store)
  {
    if n == 0 {
      assert steps[..0] == [];
    } else {
      NothingChargedAgain(steps, n - 1);
      PrefixChargesOnceIff(steps, n - 1);
    }
  }

  /** At every moment of a run each booking has at most one captured payment if and only if no step captures a
      payment whose booking has another captured one. */
  lemma ChargedOnceIff(steps: seq<Step>)
    ensures (forall n :: 0 <= n <= |steps| ==> ChargedOnce(Run(steps[..n]).store)) <==>
            (forall n :: 0 <= n < |steps| ==> !ChargesAgain(Run(steps[..n]), steps[n]))
  {
    if forall n :: 0 <= n < |steps| ==> !ChargesAgain(Run(steps[..n]), steps[n]) {
      forall n | 0 <= n <= |steps|
        ensures ChargedOnce(Run(steps[..n]).store)
      {
        NothingChargedAgain(steps, n);
      }
    } else {
      var n :| 0 <= n < |steps| && ChargesAgain(Run(steps[..n]), steps[n]);
      if ChargedOnce(Run(steps[..n]).store) {
        PrefixChargesOnceIff(steps, n);
      }
    }
  }
}
