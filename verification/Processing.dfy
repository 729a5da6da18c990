/** What the processing of a webhook event guarantees: redeliveries are ignored, an admin retry of
    a finished event changes nothing, and exactly when PROCESSED means recorded in the ledger, for
    captures and for refunds. */
module Processing {
  import opened Wrappers
  import opened PaymentFlow
  import opened Delivery
  import L = Ledger
  import C = Reconciliation
  import Bookings

  // ------------------------------------------------------------ redeliveries

  ghost predicate EventsKept(s: Store, t: Store) {
    forall key :: key in s.events ==> key in t.events && t.events[key].kind == s.events[key].kind
  }

  lemma PerformKeepsEvent(s: Store, g: Agent, found: Option<int>, terms: Terms, key: EventKey)
    requires key in s.events
    ensures var t := Perform(s, g, found, terms).0; key in t.events && t.events[key].kind == s.events[key].kind
  {
  }

  lemma OtherKeepsEvent(w: World, step: Step, key: EventKey)
    requires !(step.Advance? && step.agent in w.agents) && key in w.store.events
    ensures var t := Next(w, step).store; key in t.events && t.events[key].kind == w.store.events[key].kind
  {
  }

  lemma StepKeepsEvents(w: World, step: Step)
    ensures EventsKept(w.store, Next(w, step).store)
  {
    forall key | key in w.store.events
      ensures key in Next(w, step).store.events && Next(w, step).store.events[key].kind == w.store.events[key].kind
    {
      if step.Advance? && step.agent in w.agents {
        PerformKeepsEvent(w.store, w.agents[step.agent], step.found, step.terms, key);
      } else {
        OtherKeepsEvent(w, step, key);
      }
    }
  }

  lemma {:induction false} EventStays(steps: seq<Step>, n: nat, key: EventKey)
    requires n <= |steps| && key in Run(steps[..n]).store.events
    ensures key in Run(steps).store.events
  {
    if n == |steps| {
      assert steps[..n] == steps;
    } else {
      var before := steps[..|steps| - 1];
      assert before[..n] == steps[..n];
      EventStays(before, n, key);
      StepKeepsEvents(Run(before), steps[|steps| - 1]);
    }
  }

  lemma ReceiptIgnored(w: World, key: EventKey, kind: EventKind, signed: bool)
    requires key in w.store.events
    ensures Next(w, ReceiveEvent(key, kind, signed)) == w
  {
  }

  lemma CallbackIgnored(w: World, agent: int, key: EventKey, kind: EventKind, named: bool, found: Option<int>)
    requires key in w.store.events
    ensures Next(w, BeginCallback(agent, key, kind, named, found)).store == w.store
  {
  }

  /** An event once stored is stored for good, and its redelivery to the queue or to the older callback,
      at any later point of any run, leaves the store as it is. */
  lemma RedeliveryIgnored(steps: seq<Step>, n: nat, key: EventKey, redelivery: Step)
    requires n <= |steps| && key in Run(steps[..n]).store.events
    requires (redelivery.ReceiveEvent? || redelivery.BeginCallback?) && redelivery.key == key
    ensures Next(Run(steps), redelivery).store == Run(steps).store
  {
    EventStays(steps, n, key);
    match redelivery
    case ReceiveEvent(_, kind, signed) => ReceiptIgnored(Run(steps), key, kind, signed);
    case BeginCallback(agent, _, kind, named, found) => CallbackIgnored(Run(steps), agent, key, kind, named, found);
  }

  // ------------------------------------------------------------ uninterrupted calls

  lemma PerformDescends(s: Store, g: Agent, found: Option<int>, terms: Terms)
    requires g.phase != Done
    ensures Rank(Perform(s, g, found, terms).1) < Rank(g.phase)
  {
  }

  function Advances(w: World, a: int, found: Option<int>, terms: Terms, n: nat): World
    decreases n
  {
    if n == 0 then w else Advances(Next(w, Advance(a, found, terms)), a, found, terms, n - 1)
  }

  /** After n advances the agent is done and has left what its call leaves when nothing interrupts it. */
  predicate RunsToEnd(w: World, a: int, found: Option<int>, terms: Terms, n: nat)
    requires a in w.agents
  {
    var v := Advances(w, a, found, terms, n);
    v.store == Finish(w.store, w.agents[a], found, terms) && a in v.agents && v.agents[a].phase == Done
  }

  lemma DoneRunsToEnd(w: World, a: int, found: Option<int>, terms: Terms)
    requires a in w.agents && w.agents[a].phase == Done
    ensures RunsToEnd(w, a, found, terms, 0)
  {
    FinishDone(w.store, w.agents[a].flow, found, terms);
  }

  lemma FinishGoesOn(w: World, v: World, a: int, found: Option<int>, terms: Terms)
    requires a in w.agents && w.agents[a].phase != Done && v == Next(w, Advance(a, found, terms))
    ensures a in v.agents && Rank(v.agents[a].phase) < Rank(w.agents[a].phase)
    ensures Finish(w.store, w.agents[a], found, terms) == Finish(v.store, v.agents[a], found, terms)
  {
    PerformDescends(w.store, w.agents[a], found, terms);
  }

  lemma OneMoreRunsToEnd(w: World, v: World, a: int, found: Option<int>, terms: Terms, n: nat)
    requires a in w.agents && w.agents[a].phase != Done && v == Next(w, Advance(a, found, terms))
    requires a in v.agents && RunsToEnd(v, a, found, terms, n)
    ensures RunsToEnd(w, a, found, terms, n + 1)
  {
    FinishGoesOn(w, v, a, found, terms);
  }

  lemma AdvanceDescends(w: World, a: int, found: Option<int>, terms: Terms) returns (v: World)
    requires a in w.agents && w.agents[a].phase != Done
    ensures v == Next(w, Advance(a, found, terms))
    ensures a in v.agents && Rank(v.agents[a].phase) < Rank(w.agents[a].phase)
  {
    v := Next(w, Advance(a, found, terms));
    FinishGoesOn(w, v, a, found, terms);
  }

  /** A call that runs without interruption is one of the runs: its agent is advanced to its end. */
  lemma {:induction false} FinishIsRun(w: World, a: int, found: Option<int>, terms: Terms) returns (n: nat)
    requires a in w.agents
    ensures RunsToEnd(w, a, found, terms, n)
    decreases Rank(w.agents[a].phase)
  {
    if w.agents[a].phase == Done {
      DoneRunsToEnd(w, a, found, terms);
      n := 0;
    } else {
      var v := AdvanceDescends(w, a, found, terms);
      var m := FinishIsRun(v, a, found, terms);
      OneMoreRunsToEnd(w, v, a, found, terms, m);
      n := m + 1;
    }
  }

  /** A worker on a capture event whose payment is not captured yet, run to its end. */
  lemma CaptureJobFinishes(s: Store, key: EventKey, p: int, terms: Terms)
    requires key in s.events && s.events[key].kind == CaptureEvent && Known(s, p)
    requires s.books.payments[p].status != Bookings.Captured
    ensures var t := Finish(s, Agent(Job(key), Claimed), Some(p), terms);
            && key in t.events && t.events[key] == EventRow(CaptureEvent, Processed, Some(p))
            && Known(t, p) && t.books.payments[p].status == Bookings.Captured
            && L.HasKey(t.books.txs, L.PayKey(p))
            && t.notices == s.notices + [CapturedNotice(s, p)]
               + (if BookingPending(s, p) then [BookingConfirmed(s.bookingOf[p])] else [])
  {
    var found := Some(p);
    var s1 := SetEvent(s, key, InProgress);
    assert Finish(s, Agent(Job(key), Claimed), found, terms) == Finish(s1, Agent(Job(key), Fetching), found, terms);
    assert Finish(s1, Agent(Job(key), Fetching), found, terms)
        == Finish(s1, Agent(Job(key), Capturing(p)), found, terms);
    var c := CaptureTx(s1, p, UnlessCaptured);
    assert Finish(s1, Agent(Job(key), Capturing(p)), found, terms)
        == Finish(c.store, Agent(Job(key), Recording(p, c.won)), found, terms);
    RecordedJobFinishes(c.store, key, p, c.won, terms);
  }

  lemma RecordedJobFinishes(s: Store, key: EventKey, p: int, won: bool, terms: Terms)
    requires key in s.events && s.events[key].kind == CaptureEvent && Known(s, p)
    ensures var t := Finish(s, Agent(Job(key), Recording(p, won)), Some(p), terms);
            && key in t.events && t.events[key] == EventRow(CaptureEvent, Processed, Some(p))
            && Known(t, p) && t.books.payments == s.books.payments
            && L.HasKey(t.books.txs, L.PayKey(p))
            && t.notices == s.notices + [CapturedNotice(s, p)]
               + (if won then [BookingConfirmed(s.bookingOf[p])] else [])
  {
    var found := Some(p);
    var b := L.Commit(s.books, PayFor(s, p, terms)).value;
    assert L.HasKey(s.books.txs, L.PayKey(p)) || b.txs[|s.books.txs|].key == L.PayKey(p);
    var s1 := s.(books := b);
    var s2 := FinishEvent(s1, key, p);
    assert Finish(s, Agent(Job(key), Recording(p, won)), found, terms)
        == Finish(s1, Agent(Job(key), Marking(p, won)), found, terms);
    assert Finish(s1, Agent(Job(key), Marking(p, won)), found, terms)
        == Finish(s2, Agent(Job(key), Announcing(p, won)), found, terms);
    FinishAnnouncing(s2, Job(key), p, won, found, terms);
  }

  /** An admin retry of a finished capture event, processed again, ends in the very same store. */
  lemma RetryIsIdempotent(s: Store, key: EventKey, p: int, terms: Terms)
    requires key in s.events && s.events[key] == EventRow(CaptureEvent, Processed, Some(p))
    requires Known(s, p) && s.books.payments[p].status == Bookings.Captured
    ensures Retry(s, key).Ok? && StartJob(Retry(s, key).value, key) == Claimed
    ensures Finish(Retry(s, key).value, Agent(Job(key), Claimed), Some(p), terms) == s
  {
    var r := Retry(s, key).value;
    var s1 := SetEvent(r, key, InProgress);
    assert Finish(r, Agent(Job(key), Claimed), Some(p), terms) == Finish(s1, Agent(Job(key), Fetching), Some(p), terms);
    var t := FinishEvent(s1, key, p);
    assert Finish(s1, Agent(Job(key), Fetching), Some(p), terms) == Finish(t, Agent(Job(key), Done), Some(p), terms);
    FinishDone(t, Job(key), Some(p), terms);
    assert t.events == s.events;
  }

  // ------------------------------------------------------------ when PROCESSED means recorded

  /** What the ledger must hold for a processed event: the payment's row, or the row of its refund. */
  predicate InLedger(b: L.Books, kind: EventKind, p: int) {
    match kind
    case CaptureEvent => L.HasKey(b.txs, L.PayKey(p))
    case RefundEvent => C.HasRefundTx(b.txs, p)
    case OtherEvent => true
  }

  predicate EventRecorded(b: L.Books, row: EventRow) {
    row.status == Processed ==> row.payment.Some? && InLedger(b, row.kind, row.payment.value)
  }

  /** Every event marked PROCESSED has its payment, or its refund, in the ledger. */
  ghost predicate ProcessedRecorded(s: Store) {
    forall key :: key in s.events ==> EventRecorded(s.books, s.events[key])
  }

  /** A worker finds its payment captured or refunded already, takes the short way out, and the ledger has
      no row for it. */
  predicate Shortcut(w: World, step: Step) {
    step.Advance? && step.agent in w.agents && ShortcutBy(w.store, w.agents[step.agent], step.found)
  }

  /** The status at which a worker considers its event done. */
  function DoneStatus(kind: EventKind): Bookings.PaymentStatus {
    if kind == RefundEvent then Bookings.Refunded else Bookings.Captured
  }

  predicate ShortcutBy(s: Store, g: Agent, found: Option<int>) {
    && g.phase == Fetching && g.flow.Job? && g.flow.event in s.events && found.Some? && Known(s, found.value)
    && var kind := s.events[g.flow.event].kind;
       kind != OtherEvent && s.books.payments[found.value].status == DoneStatus(kind)
           && !InLedger(s.books, kind, found.value)
  }

  predicate WorksOn(s: Store, g: Agent, kind: EventKind)
    requires g.flow.Job?
  {
    g.flow.event in s.events && s.events[g.flow.event].kind == kind
  }

  /** A worker captures for capture events and refunds for refund events, and about to mark its event it has
      recorded what it did. */
  predicate AgentSound(s: Store, g: Agent) {
    g.flow.Job? ==>
      match g.phase
      case Capturing(_) | Recording(_, _) => WorksOn(s, g, CaptureEvent)
      case Marking(p, _) => WorksOn(s, g, CaptureEvent) && InLedger(s.books, CaptureEvent, p)
      case Refunding(_) | RecordingRefund(_) => WorksOn(s, g, RefundEvent)
      case MarkingRefund(p) => WorksOn(s, g, RefundEvent) && InLedger(s.books, RefundEvent, p)
      case _ => true
  }

  ghost predicate AgentsSound(w: World) {
    forall a :: a in w.agents ==> AgentSound(w.store, w.agents[a])
  }

  /** What is in the ledger stays in it. */
  ghost predicate LedgerStays(b: L.Books, c: L.Books) {
    forall kind, p :: InLedger(b, kind, p) ==> InLedger(c, kind, p)
  }

  lemma LedgerKeepsRows(b: L.Books, l: L.Step)
    ensures LedgerStays(b, L.Next(b, l))
  {
    var c := L.Next(b, l);
    assert forall i :: 0 <= i < |b.txs| ==> c.txs[i] == b.txs[i].(settlement := c.txs[i].settlement);
    forall kind, p | InLedger(b, kind, p)
      ensures InLedger(c, kind, p)
    {
      RowStays(b, c, kind, p);
    }
  }

  lemma RowStays(b: L.Books, c: L.Books, kind: EventKind, p: int)
    requires |b.txs| <= |c.txs| && forall i :: 0 <= i < |b.txs| ==>
             c.txs[i] == b.txs[i].(settlement := c.txs[i].settlement)
    requires InLedger(b, kind, p)
    ensures InLedger(c, kind, p)
  {
    if kind == CaptureEvent {
      var i :| 0 <= i < |b.txs| && b.txs[i].key == L.PayKey(p);
      assert c.txs[i].key == L.PayKey(p);
    } else if kind == RefundEvent {
      var i :| 0 <= i < |b.txs| && L.IsRefundOf(b.txs[i], p);
      assert L.IsRefundOf(c.txs[i], p);
    }
  }

  lemma AgentKept(s: Store, t: Store, g: Agent)
    requires AgentSound(s, g) && LedgerStays(s.books, t.books) && EventsKept(s, t)
    ensures AgentSound(t, g)
  {
  }

  lemma RecordedIsInLedger(s: Store, p: int, terms: Terms)
    requires Known(s, p)
    ensures var pay := L.Commit(s.books, PayFor(s, p, terms)); pay.Ok? && InLedger(pay.value, CaptureEvent, p)
    ensures var refund := L.Commit(s.books, RefundFor(s, p, terms)); refund.Ok? ==>
            InLedger(refund.value, RefundEvent, p)
  {
    var pay, refund := L.Commit(s.books, PayFor(s, p, terms)), L.Commit(s.books, RefundFor(s, p, terms));
    if !L.HasKey(s.books.txs, L.PayKey(p)) {
      assert pay.value.txs[|s.books.txs|].key == L.PayKey(p);
    }
    if refund.Ok? {
      assert L.IsRefundOf(refund.value.txs[|s.books.txs|], p);
    }
  }

  lemma PerformKeepsAgent(s: Store, g: Agent, found: Option<int>, terms: Terms)
    requires AgentSound(s, g)
    ensures AgentSound(Perform(s, g, found, terms).0, Agent(g.flow, Perform(s, g, found, terms).1))
  {
    if (g.phase.Recording? || g.phase.RecordingRefund?) && Known(s, g.phase.payment) {
      RecordedIsInLedger(s, g.phase.payment, terms);
    }
  }

  /** The write that marks an event as processed, if the agent's next write is one, and for which payment. */
  function Marks(s: Store, g: Agent, found: Option<int>): Option<int> {
    match g.phase
    case Fetching => found
    case Marking(p, _) => Some(p)
    case MarkingRefund(p) => Some(p)
    case _ => None
  }

  lemma PerformTouches(s: Store, g: Agent, found: Option<int>, terms: Terms, key: EventKey)
    requires key in s.events
    ensures var t := Perform(s, g, found, terms).0;
            key in t.events &&
            (t.events[key] == s.events[key]
             || t.events[key].status in {InProgress, Ignored, Errored}
             || (g.flow == Job(key) && Marks(s, g, found).Some? && t.events[key].kind == s.events[key].kind
                 && t.events[key].payment == Marks(s, g, found)
                 && (g.phase == Fetching ==>
                       Known(s, found.value) && s.events[key].kind != OtherEvent
                       && s.books.payments[found.value].status == DoneStatus(s.events[key].kind))))
  {
  }

  /** What one write of an agent does to the events: only a shortcut marks one whose payment is not recorded. */
  lemma PerformMarks(s: Store, g: Agent, found: Option<int>, terms: Terms, key: EventKey)
    requires AgentSound(s, g) && key in s.events && EventRecorded(s.books, s.events[key])
    requires LedgerStays(s.books, Perform(s, g, found, terms).0.books)
    ensures var t := Perform(s, g, found, terms).0;
            key in t.events && (EventRecorded(t.books, t.events[key])
                                || (ShortcutBy(s, g, found) && g.flow.event == key))
  {
    PerformTouches(s, g, found, terms, key);
  }

  /** No agent's write adds an event that was processed without being recorded. */
  lemma PerformAddsUnprocessed(s: Store, g: Agent, found: Option<int>, terms: Terms, key: EventKey)
    requires key !in s.events && key in Perform(s, g, found, terms).0.events
    ensures Perform(s, g, found, terms).0.events[key].status != Processed
  {
  }

  lemma ShortcutBreaks(s: Store, g: Agent, found: Option<int>, terms: Terms)
    requires ShortcutBy(s, g, found)
    ensures !ProcessedRecorded(Perform(s, g, found, terms).0)
  {
    var t := Perform(s, g, found, terms).0;
    assert !EventRecorded(t.books, t.events[g.flow.event]);
  }

  lemma StepKeepsLedger(w: World, step: Step)
    ensures LedgerStays(w.store.books, Next(w, step).store.books)
  {
    StepRefines(w, step);
    if LedgerView(w, step).Some? {
      LedgerKeepsRows(w.store.books, LedgerView(w, step).value);
    }
  }

  lemma OtherAgentsStart(w: World, step: Step, a: int)
    requires !(step.Advance? && step.agent in w.agents) && a in Next(w, step).agents
    ensures var g := Next(w, step).agents[a];
            (a in w.agents && g == w.agents[a]) || !g.flow.Job? || g.phase == Done || g.phase == Claimed
  {
  }

  lemma StepKeepsAgents(w: World, step: Step)
    requires AgentsSound(w)
    ensures AgentsSound(Next(w, step))
  {
    var v := Next(w, step);
    StepKeepsLedger(w, step);
    StepKeepsEvents(w, step);
    forall a | a in v.agents
      ensures AgentSound(v.store, v.agents[a])
    {
      if a in w.agents && v.agents[a] == w.agents[a] {
        AgentKept(w.store, v.store, w.agents[a]);
      } else if step.Advance? && step.agent in w.agents {
        PerformKeepsAgent(w.store, w.agents[a], step.found, step.terms);
      } else {
        OtherAgentsStart(w, step, a);
      }
    }
  }

  lemma OtherMarks(w: World, step: Step, key: EventKey)
    requires !(step.Advance? && step.agent in w.agents) && key in Next(w, step).store.events
    ensures var row := Next(w, step).store.events[key];
            row.status != Processed || (key in w.store.events && row == w.store.events[key])
  {
  }

  /** A step keeps the promise if and only if it is not a shortcut. */
  lemma StepKeepsPromiseIff(w: World, step: Step)
    requires AgentsSound(w) && ProcessedRecorded(w.store)
    ensures ProcessedRecorded(Next(w, step).store) <==> !Shortcut(w, step)
  {
    var v := Next(w, step);
    StepKeepsLedger(w, step);
    if Shortcut(w, step) {
      ShortcutBreaks(w.store, w.agents[step.agent], step.found, step.terms);
    } else {
      forall key | key in v.store.events
        ensures EventRecorded(v.store.books, v.store.events[key])
      {
        if !(step.Advance? && step.agent in w.agents) {
          OtherMarks(w, step, key);
        } else if key in w.store.events {
          PerformMarks(w.store, w.agents[step.agent], step.found, step.terms, key);
        } else {
          PerformAddsUnprocessed(w.store, w.agents[step.agent], step.found, step.terms, key);
        }
      }
    }
  }

  lemma {:induction false} RunAgentsSound(steps: seq<Step>)
    ensures AgentsSound(Run(steps))
  {
    if steps != [] {
      RunAgentsSound(steps[..|steps| - 1]);
      StepKeepsAgents(Run(steps[..|steps| - 1]), steps[|steps| - 1]);
    }
  }

  ghost predicate AlwaysRecorded(steps: seq<Step>) {
    forall n :: 0 <= n <= |steps| ==> ProcessedRecorded(Run(steps[..n]).store)
  }

  ghost predicate NoShortcut(steps: seq<Step>) {
    forall n :: 0 <= n < |steps| ==> !Shortcut(Run(steps[..n]), steps[n])
  }

  lemma StepOfRun(steps: seq<Step>, n: nat)
    requires n < |steps|
    ensures Run(steps[..n + 1]) == Next(Run(steps[..n]), steps[n])
  {
    assert steps[..n + 1][..n] == steps[..n];
  }

  lemma TwoStepsOfRun(steps: seq<Step>, n: nat)
    requires n + 1 < |steps|
    ensures Run(steps[..n + 2]) == Next(Next(Run(steps[..n]), steps[n]), steps[n + 1])
  {
    StepOfRun(steps, n);
    StepOfRun(steps, n + 1);
  }

  lemma ThreeStepsOfRun(steps: seq<Step>, n: nat)
    requires n + 2 < |steps|
    ensures Run(steps[..n + 3]) == Next(Next(Next(Run(steps[..n]), steps[n]), steps[n + 1]), steps[n + 2])
  {
    TwoStepsOfRun(steps, n);
    StepOfRun(steps, n + 2);
  }

  /** Throughout a run, PROCESSED means recorded if and only if no worker takes the short way out of
      an event whose captured or refunded payment the ledger has no row for yet. */
  lemma ProcessedMeansRecordedIff(steps: seq<Step>)
    ensures AlwaysRecorded(steps) <==> NoShortcut(steps)
  {
    forall n | 0 <= n < |steps| && ProcessedRecorded(Run(steps[..n]).store)
      ensures ProcessedRecorded(Run(steps[..n + 1]).store) <==> !Shortcut(Run(steps[..n]), steps[n])
    {
      RunAgentsSound(steps[..n]);
      StepOfRun(steps, n);
      StepKeepsPromiseIff(Run(steps[..n]), steps[n]);
    }
    if NoShortcut(steps) {
      NoShortcutKeeps(steps, |steps|);
    } else {
      var n :| 0 <= n < |steps| && Shortcut(Run(steps[..n]), steps[n]);
      assert !(ProcessedRecorded(Run(steps[..n]).store) && ProcessedRecorded(Run(steps[..n + 1]).store));
    }
  }

  lemma {:induction false} NoShortcutKeeps(steps: seq<Step>, n: nat)
    requires n <= |steps| && NoShortcut(steps)
    requires forall k :: 0 <= k < |steps| && ProcessedRecorded(Run(steps[..k]).store) ==>
               (ProcessedRecorded(Run(steps[..k + 1]).store) <==> !Shortcut(Run(steps[..k]), steps[k]))
    ensures forall k :: 0 <= k <= n ==> ProcessedRecorded(Run(steps[..k]).store)
  {
    if n == 0 {
      assert steps[..0] == [];
    } else {
      NoShortcutKeeps(steps, n - 1);
    }
  }
}
