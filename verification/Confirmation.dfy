/** BOOKING_CONFIRMED is announced at most once per booking over a whole run: only the
    transaction that moved the booking out of PENDING earns the right to announce it, and no
    booking ever goes back to PENDING. */
module Confirmation {
  import opened Wrappers
  import opened Sums
  import opened PaymentFlow
  import opened Delivery
  import R = Refunds

  function ConfirmationOf(b: int): Notice -> int {
    (n: Notice) => if n == BookingConfirmed(b) then 1 else 0
  }

  function Announced(s: Store, b: int): int {
    Sum(s.notices, ConfirmationOf(b))
  }

  /** The payment whose confirmed booking is still to be announced in this phase. */
  function Owed(phase: Phase): Option<int> {
    match phase
    case Recording(p, won) => if won then Some(p) else None
    case Marking(p, won) => if won then Some(p) else None
    case Announcing(p, won) => if won then Some(p) else None
    case Confirming(p) => Some(p)
    case _ => None
  }

  predicate Owes(s: Store, g: Agent, b: int) {
    Owed(g.phase).Some? && Known(s, Owed(g.phase).value) && s.bookingOf[Owed(g.phase).value] == b
  }

  predicate Holds(w: World, a: int, b: int) {
    a in w.agents && Owes(w.store, w.agents[a], b)
  }

  /** Not booked yet, or booked and still pending. */
  predicate Unconfirmed(s: Store, b: int) {
    b in s.bookings ==> s.bookings[b] == Bookings.Pending
  }

  /** Every agent works on a payment that exists. */
  ghost predicate AgentsKnown(w: World) {
    forall a :: a in w.agents ==> PhaseKnown(w.store, w.agents[a].phase)
  }

  predicate PhaseKnown(s: Store, phase: Phase) {
    match phase
    case Claimed | Fetching | Done => true
    case _ => Known(s, phase.payment)
  }

  /** Either nobody has announced b and at most one agent is about to, or it was announced once. */
  ghost predicate Once(w: World, b: int) {
    && 0 <= Announced(w.store, b) <= 1
    && (forall a :: Holds(w, a, b) ==> Announced(w.store, b) == 0 && !Unconfirmed(w.store, b))
    && (forall a, c :: Holds(w, a, b) && Holds(w, c, b) ==> a == c)
    && (Unconfirmed(w.store, b) ==> Announced(w.store, b) == 0)
  }

  // ------------------------------------------------------------ the three kinds of step

  ghost predicate Unmoved(w: World, v: World, b: int) {
    && Announced(v.store, b) == Announced(w.store, b)
    && (Unconfirmed(v.store, b) ==> Unconfirmed(w.store, b))
    && (forall c :: Holds(v, c, b) ==> Holds(w, c, b))
  }

  ghost predicate Wins(w: World, v: World, a: int, b: int) {
    && Announced(v.store, b) == Announced(w.store, b)
    && Unconfirmed(w.store, b) && !Unconfirmed(v.store, b)
    && (forall c :: Holds(v, c, b) ==> c == a || Holds(w, c, b))
  }

  ghost predicate Says(w: World, v: World, a: int, b: int) {
    && Announced(v.store, b) == Announced(w.store, b) + 1
    && Holds(w, a, b) && !Unconfirmed(v.store, b)
    && (forall c :: Holds(v, c, b) ==> c != a && Holds(w, c, b))
  }

  ghost predicate Progress(w: World, v: World, b: int) {
    Unmoved(w, v, b) || (exists a :: Wins(w, v, a, b)) || (exists a :: Says(w, v, a, b))
  }

  lemma ProgressKeepsOnce(w: World, v: World, b: int)
    requires Once(w, b) && Progress(w, v, b)
    ensures Once(v, b)
  {
  }

  /** Payments are never removed or moved to another booking. */
  ghost predicate KeysKept(s: Store, t: Store) {
    forall p :: Known(s, p) ==> Known(t, p) && t.bookingOf[p] == s.bookingOf[p]
  }

  lemma PerformKeepsKeys(s: Store, g: Agent, found: Option<int>, terms: Terms)
    requires PhaseKnown(s, g.phase)
    ensures var (t, phase) := Perform(s, g, found, terms); KeysKept(s, t) && PhaseKnown(t, phase)
  {
    PerformRefines(s, g, found, terms);
    assert Perform(s, g, found, terms).0.bookingOf == s.bookingOf;
    if LedgerWrite(s, g, terms).Some? {
      R.StepKeepsPaymentRows(s.books, LedgerWrite(s, g, terms).value);
    }
  }

  predicate WinsBooking(s: Store, g: Agent, p: int) {
    g.phase == Capturing(p) && Known(s, p) && BookingPending(s, p)
  }

  /** An agent goes on owing what it owed, or starts to owe the booking it has just confirmed. */
  lemma PerformOwes(s: Store, g: Agent, found: Option<int>, terms: Terms)
    ensures var phase := Perform(s, g, found, terms).1;
            Owed(phase).Some? ==>
                !g.phase.Confirming? && (Owed(phase) == Owed(g.phase) || WinsBooking(s, g, Owed(phase).value))
  {
  }

  lemma PerformConfirms(s: Store, g: Agent, found: Option<int>, terms: Terms)
    ensures var (t, phase) := Perform(s, g, found, terms);
            && (t.bookings == s.bookings
                || (g.phase.Capturing? && WinsBooking(s, g, g.phase.payment)
                    && t.bookings == s.bookings[s.bookingOf[g.phase.payment] := Bookings.Confirmed]))
            && (Owed(phase).Some? && Owed(g.phase).None? ==> t.bookings != s.bookings)
  {
  }

  lemma SaidProgress(s: Store, t: Store, g: Agent, b: int)
    requires t.notices == s.notices + Said(s, g)
    ensures Announced(t, b) == Announced(s, b) + (if g.phase.Confirming? && Owes(s, g, b) then 1 else 0)
  {
    if Said(s, g) == [] {
      assert s.notices + [] == s.notices;
    } else {
      SumSnoc(s.notices, Said(s, g)[0], ConfirmationOf(b));
    }
  }

  lemma AdvanceProgress(w: World, step: Step, b: int)
    requires AgentsKnown(w) && step.Advance? && step.agent in w.agents && Once(w, b)
    ensures AgentsKnown(Next(w, step)) && Progress(w, Next(w, step), b)
  {
    var a, g, v := step.agent, w.agents[step.agent], Next(w, step);
    PerformKeepsKeys(w.store, g, step.found, step.terms);
    PerformEmits(w.store, g, step.found, step.terms);
    PerformOwes(w.store, g, step.found, step.terms);
    PerformConfirms(w.store, g, step.found, step.terms);
    SaidProgress(w.store, v.store, g, b);
    OthersKept(w, v, a, b);
    if Owes(w.store, g, b) && g.phase.Confirming? {
      assert Holds(w, a, b);
      assert Says(w, v, a, b);
    } else if Holds(v, a, b) && !Holds(w, a, b) {
      assert Wins(w, v, a, b);
    } else {
      assert Unmoved(w, v, b);
    }
  }

  lemma OthersKept(w: World, v: World, a: int, b: int)
    requires AgentsKnown(w) && KeysKept(w.store, v.store)
    requires forall c :: c in v.agents && c != a ==> c in w.agents && v.agents[c] == w.agents[c]
    ensures forall c :: c != a && Holds(v, c, b) ==> Holds(w, c, b)
    ensures forall c :: c in v.agents && c != a ==> PhaseKnown(v.store, v.agents[c].phase)
  {
  }

  lemma OtherStore(w: World, step: Step, b: int)
    requires !(step.Advance? && step.agent in w.agents)
    ensures var t := Next(w, step).store;
            t.notices == w.store.notices && (Unconfirmed(t, b) ==> Unconfirmed(w.store, b))
  {
  }

  lemma OtherKeys(w: World, step: Step)
    requires !(step.Advance? && step.agent in w.agents)
    ensures KeysKept(w.store, Next(w, step).store)
  {
    var t := Next(w, step).store;
    if !step.OpenPayment? {
      StepRefines(w, step);
      if LedgerView(w, step).Some? {
        R.StepKeepsPaymentRows(w.store.books, LedgerView(w, step).value);
      }
      assert t.bookingOf == w.store.bookingOf;
    }
  }

  /** The one agent that a step other than a write may start or stop; it owes nothing afterwards. */
  predicate Idle(w: World, v: World, a: int) {
    a in v.agents ==>
      || (a in w.agents && v.agents[a] == w.agents[a])
      || (Owed(v.agents[a].phase).None? && PhaseKnown(v.store, v.agents[a].phase))
  }

  lemma OtherAgents(w: World, step: Step, a: int)
    requires !(step.Advance? && step.agent in w.agents)
    ensures Idle(w, Next(w, step), a)
  {
  }

  /** Calls begin owing nothing, and all other steps leave the announcement alone. */
  lemma OtherProgress(w: World, step: Step, b: int)
    requires AgentsKnown(w) && !(step.Advance? && step.agent in w.agents)
    ensures AgentsKnown(Next(w, step)) && Progress(w, Next(w, step), b)
  {
    var v := Next(w, step);
    OtherStore(w, step, b);
    OtherKeys(w, step);
    forall c | c in v.agents
      ensures PhaseKnown(v.store, v.agents[c].phase) && (Holds(v, c, b) ==> Holds(w, c, b))
    {
      OtherAgents(w, step, c);
      IdleKeeps(w, v, c, b);
    }
  }

  lemma IdleKeeps(w: World, v: World, a: int, b: int)
    requires AgentsKnown(w) && KeysKept(w.store, v.store) && Idle(w, v, a) && a in v.agents
    ensures PhaseKnown(v.store, v.agents[a].phase) && (Holds(v, a, b) ==> Holds(w, a, b))
  {
  }

  lemma {:induction false} RunOnce(steps: seq<Step>, b: int)
    ensures AgentsKnown(Run(steps)) && Once(Run(steps), b)
  {
    if steps != [] {
      var w, step := Run(steps[..|steps| - 1]), steps[|steps| - 1];
      RunOnce(steps[..|steps| - 1], b);
      if step.Advance? && step.agent in w.agents {
        AdvanceProgress(w, step, b);
      } else {
        OtherProgress(w, step, b);
      }
      ProgressKeepsOnce(w, Next(w, step), b);
    }
  }

  /** BOOKING_CONFIRMED is emitted at most once per booking over every run, and never for a booking that is still
      pending. */
  lemma ConfirmedOnce(steps: seq<Step>, b: int)
    ensures Announced(Run(steps).store, b) <= 1
    ensures BookingConfirmed(b) in Run(steps).store.notices ==>
              b in Run(steps).store.bookings && Run(steps).store.bookings[b] != Bookings.Pending
  {
    RunOnce(steps, b);
    SaidCounts(Run(steps).store.notices, b);
  }

  lemma {:induction false} SaidCounts(notices: seq<Notice>, b: int)
    ensures Sum(notices, ConfirmationOf(b)) >= if BookingConfirmed(b) in notices then 1 else 0
  {
    if notices != [] {
      SaidCounts(notices[..|notices| - 1], b);
      assert notices == notices[..|notices| - 1] + [notices[|notices| - 1]];
    }
  }

  lemma StepNeverPending(guarded: bool, w: Bookings.World, step: Bookings.Step, id: int)
    requires id in w.tables.rows && w.tables.rows[id].status != Bookings.Pending
    ensures var v := Bookings.Next(guarded, w, step);
            id in v.tables.rows && v.tables.rows[id].status != Bookings.Pending
  {
  }

  /** What the proof asks of the booking service: over its own runs a booking that left PENDING never returns to it. */
  lemma {:induction false} NeverPendingAgain(guarded: bool, steps: seq<Bookings.Step>, n: nat, id: int)
    requires n <= |steps| && id in Bookings.Run(guarded, steps[..n]).tables.rows
    requires Bookings.Run(guarded, steps[..n]).tables.rows[id].status != Bookings.Pending
    ensures id in Bookings.Run(guarded, steps).tables.rows
            && Bookings.Run(guarded, steps).tables.rows[id].status != Bookings.Pending
  {
    if n == |steps| {
      assert steps[..n] == steps;
    } else {
      var before := steps[..|steps| - 1];
      assert before[..n] == steps[..n];
      NeverPendingAgain(guarded, before, n, id);
      StepNeverPending(guarded, Bookings.Run(guarded, before), steps[|steps| - 1], id);
    }
  }
}
