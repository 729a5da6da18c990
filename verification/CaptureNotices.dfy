/** A callback announces a capture even when its transaction was refused, and the finance listener records
    whatever is announced. Here is exactly when a payment is recorded that no step of the run ever captured. */
module CaptureNotices {
  import opened Wrappers
  import opened PaymentFlow
  import opened Delivery
  import Bookings
  import L = Ledger

  predicate IsCaptured(s: Store, p: int) {
    0 <= p < |s.books.payments| && s.books.payments[p].status == Bookings.Captured
  }

  function CapturedIn(s: Store): set<int> {
    set p | 0 <= p < |s.books.payments| && s.books.payments[p].status == Bookings.Captured
  }

  /** The payments whose money was taken at some moment of the run, whether or not it was given back. */
  function Taken(steps: seq<Step>): set<int> {
    if steps == [] then {} else Taken(steps[..|steps| - 1]) + CapturedIn(Run(steps).store)
  }

  lemma TakenIff(steps: seq<Step>, p: int)
    ensures p in Taken(steps) <==> exists n :: 0 <= n <= |steps| && IsCaptured(Run(steps[..n]).store, p)
  {
    forall n | 0 <= n <= |steps| && IsCaptured(Run(steps[..n]).store, p)
      ensures p in Taken(steps)
    {
      TakenOnce(steps, p, n);
    }
    if p in Taken(steps) {
      var n := TakenAt(steps, p);
      assert IsCaptured(Run(steps[..n]).store, p);
    }
  }

  lemma {:induction false} TakenOnce(steps: seq<Step>, p: int, n: nat)
    requires n <= |steps| && IsCaptured(Run(steps[..n]).store, p)
    ensures p in Taken(steps)
  {
    if n == |steps| {
      assert steps[..n] == steps;
    } else {
      assert steps[..|steps| - 1][..n] == steps[..n];
      TakenOnce(steps[..|steps| - 1], p, n);
    }
  }

  lemma {:induction false} TakenAt(steps: seq<Step>, p: int) returns (n: nat)
    requires p in Taken(steps)
    ensures n <= |steps| && IsCaptured(Run(steps[..n]).store, p)
  {
    if p in CapturedIn(Run(steps).store) {
      n := |steps|;
      assert steps[..n] == steps;
    } else {
      n := TakenAt(steps[..|steps| - 1], p);
      assert steps[..|steps| - 1][..n] == steps[..n];
    }
  }

  /** Every payment in the ledger is one of those whose money was taken. */
  ghost predicate RecordedTaken(s: Store, taken: set<int>) {
    forall p :: L.HasKey(s.books.txs, L.PayKey(p)) ==> p in taken
  }

  /** A listener is given a PAYMENT_CAPTURED notice of a payment whose money was never taken. */
  predicate HearsUntaken(w: World, step: Step, taken: set<int>) {
    step.Deliver? && 0 <= step.notice < |w.store.notices|
    && var n := w.store.notices[step.notice];
       n.PaymentCaptured? && 0 <= n.payment < |w.store.books.payments| && n.payment !in taken
  }

  // ------------------------------------------------------------ who announces what

  /** A phase that is still going to record or announce a capture. */
  predicate Reports(phase: Phase) {
    phase.Recording? || phase.Marking? || phase.Announcing?
  }

  /** An agent on its way to announce a capture has taken the money, unless it is a callback whose transaction
      was refused. */
  predicate AgentTook(g: Agent, taken: set<int>) {
    Reports(g.phase) ==> g.phase.payment in taken || (g.flow.Callback? && !g.phase.won)
  }

  ghost predicate AgentsTook(w: World, taken: set<int>) {
    CapturedIn(w.store) <= taken && forall a :: a in w.agents ==> AgentTook(w.agents[a], taken)
  }

  lemma CaptureTakes(s: Store, p: int, flow: Flow)
    requires Known(s, p)
    ensures var c := CaptureTx(s, p, RuleOf(flow));
            p in CapturedIn(c.store) || (flow.Callback? && !c.won)
  {
    if GoesAhead(RuleOf(flow), s.books.payments[p].status) {
      assert SetPayment(s, p, Bookings.Captured).books.payments[p].status == Bookings.Captured;
    }
  }

  lemma PerformReports(s: Store, g: Agent, found: Option<int>, terms: Terms, taken: set<int>)
    requires AgentTook(g, taken)
    ensures var (t, phase) := Perform(s, g, found, terms); AgentTook(Agent(g.flow, phase), taken + CapturedIn(t))
  {
    if g.phase.Capturing? && Known(s, g.phase.payment) {
      CaptureTakes(s, g.phase.payment, g.flow);
    }
  }

  lemma OthersReport(w: World, step: Step, a: int)
    requires !(step.Advance? && step.agent in w.agents) && a in Next(w, step).agents
    ensures var g := Next(w, step).agents[a]; (a in w.agents && g == w.agents[a]) || !Reports(g.phase)
  {
  }

  lemma StepKeepsAgentsTook(w: World, step: Step, taken: set<int>)
    requires AgentsTook(w, taken)
    ensures AgentsTook(Next(w, step), taken + CapturedIn(Next(w, step).store))
  {
    var v := Next(w, step);
    forall a | a in v.agents
      ensures AgentTook(v.agents[a], taken + CapturedIn(v.store))
    {
      if step.Advance? && step.agent == a && a in w.agents {
        PerformReports(w.store, w.agents[a], step.found, step.terms, taken);
      } else if !(step.Advance? && step.agent in w.agents) {
        OthersReport(w, step, a);
      }
    }
  }

  lemma {:induction false} RunAgentsTook(steps: seq<Step>)
    ensures AgentsTook(Run(steps), Taken(steps))
  {
    if steps != [] {
      RunAgentsTook(steps[..|steps| - 1]);
      StepKeepsAgentsTook(Run(steps[..|steps| - 1]), steps[|steps| - 1], Taken(steps[..|steps| - 1]));
    }
  }

  // ------------------------------------------------------------ when only captured payments are recorded

  lemma NewKeyIsPaid(b: L.Books, l: L.Step, p: int)
    requires L.HasKey(L.Next(b, l).txs, L.PayKey(p)) && !L.HasKey(b.txs, L.PayKey(p))
    ensures l.Pay? && l.payment == p && 0 <= p < |b.payments|
  {
    var c := L.Next(b, l);
    var i :| 0 <= i < |c.txs| && c.txs[i].key == L.PayKey(p);
  }

  lemma PaidHasKey(b: L.Books, l: L.Step)
    requires l.Pay? && 0 <= l.payment < |b.payments|
    ensures L.HasKey(L.Next(b, l).txs, L.PayKey(l.payment)) && L.Next(b, l).payments == b.payments
  {
    if !L.HasKey(b.txs, L.PayKey(l.payment)) {
      assert L.Next(b, l).txs[|b.txs|].key == L.PayKey(l.payment);
    }
  }

  /** The money of a payment that a step records was taken, unless a listener hears of one where it was not. */
  lemma RecordedIsTaken(w: World, step: Step, taken: set<int>, p: int)
    requires AgentsTook(w, taken) && LedgerView(w, step).Some?
    requires var l := LedgerView(w, step).value; l.Pay? && l.payment == p && 0 <= p < |w.store.books.payments|
    ensures p in taken || HearsUntaken(w, step, taken)
  {
    if step.Advance? {
      assert AgentTook(w.agents[step.agent], taken);
    }
  }

  lemma HeardIsRecorded(w: World, step: Step, taken: set<int>)
    requires HearsUntaken(w, step, taken) && CapturedIn(w.store) <= taken
    ensures !RecordedTaken(Next(w, step).store, taken + CapturedIn(Next(w, step).store))
  {
    StepRefines(w, step);
    var l := LedgerView(w, step).value;
    PaidHasKey(w.store.books, l);
    assert l.payment !in CapturedIn(w.store);
  }

  /** A step records no payment whose money was never taken if and only if no listener hears of one. */
  lemma StepKeepsRecordedTakenIff(w: World, step: Step, taken: set<int>)
    requires AgentsTook(w, taken) && RecordedTaken(w.store, taken)
    ensures RecordedTaken(Next(w, step).store, taken + CapturedIn(Next(w, step).store))
       <==> !HearsUntaken(w, step, taken)
  {
    var s, t := w.store, Next(w, step).store;
    if HearsUntaken(w, step, taken) {
      HeardIsRecorded(w, step, taken);
    } else {
      StepRefines(w, step);
      forall p | L.HasKey(t.books.txs, L.PayKey(p))
        ensures p in taken
      {
        if !L.HasKey(s.books.txs, L.PayKey(p)) {
          NewKeyIsPaid(s.books, LedgerView(w, step).value, p);
          RecordedIsTaken(w, step, taken, p);
        }
      }
    }
  }

  lemma PrefixKeepsRecordedTakenIff(steps: seq<Step>, n: nat)
    requires n < |steps| && RecordedTaken(Run(steps[..n]).store, Taken(steps[..n]))
    ensures RecordedTaken(Run(steps[..n + 1]).store, Taken(steps[..n + 1]))
       <==> !HearsUntaken(Run(steps[..n]), steps[n], Taken(steps[..n]))
  {
    RunAgentsTook(steps[..n]);
    assert steps[..n + 1][..n] == steps[..n];
    StepKeepsRecordedTakenIff(Run(steps[..n]), steps[n], Taken(steps[..n]));
  }

  lemma {:induction false} NothingHeardKeeps(steps: seq<Step>, n: nat)
    requires n <= |steps|
    requires forall i :: 0 <= i < n ==> !HearsUntaken(Run(steps[..i]), steps[i], Taken(steps[..i]))
    ensures RecordedTaken(Run(steps[..n]).store, Taken(steps[..n]))
  {
    if n == 0 {
      assert steps[..0] == [];
    } else {
      NothingHeardKeeps(steps, n - 1);
      PrefixKeepsRecordedTakenIff(steps, n - 1);
    }
  }

  /** At every moment of a run all recorded payments were captured at some moment up to then if and only if no
      listener is ever given a PAYMENT_CAPTURED notice of a payment that was never captured before. */
  lemma RecordedMeansChargedIff(steps: seq<Step>)
    ensures (forall n :: 0 <= n <= |steps| ==> RecordedTaken(Run(steps[..n]).store, Taken(steps[..n]))) <==>
            (forall n :: 0 <= n < |steps| ==> !HearsUntaken(Run(steps[..n]), steps[n], Taken(steps[..n])))
  {
    if forall n :: 0 <= n < |steps| ==> !HearsUntaken(Run(steps[..n]), steps[n], Taken(steps[..n])) {
      forall n | 0 <= n <= |steps|
        ensures RecordedTaken(Run(steps[..n]).store, Taken(steps[..n]))
      {
        NothingHeardKeeps(steps, n);
      }
    } else {
      var n :| 0 <= n < |steps| && HearsUntaken(Run(steps[..n]), steps[n], Taken(steps[..n]));
      if RecordedTaken(Run(steps[..n]).store, Taken(steps[..n])) {
        PrefixKeepsRecordedTakenIff(steps, n);
      }
    }
  }

  // ------------------------------------------------------------ where such notices come from

  /** This step is a callback announcing a capture that its transaction refused. */
  predicate AnnouncesRefused(w: World, step: Step, p: int) {
    step.Advance? && step.agent in w.agents && w.agents[step.agent].flow.Callback?
    && w.agents[step.agent].phase == Announcing(p, false)
  }

  lemma StepAnnounces(w: World, step: Step, taken: set<int>, p: int)
    requires AgentsTook(w, taken) && p !in taken
    ensures forall i :: |w.store.notices| <= i < |Next(w, step).store.notices|
                        && Next(w, step).store.notices[i].PaymentCaptured?
                           && Next(w, step).store.notices[i].payment == p
                        ==> AnnouncesRefused(w, step, p)
  {
    if step.Advance? && step.agent in w.agents {
      PerformEmits(w.store, w.agents[step.agent], step.found, step.terms);
      assert AgentTook(w.agents[step.agent], taken);
    } else {
      assert Next(w, step).store.notices == w.store.notices;
    }
  }

  lemma StepKeepsNotices(w: World, step: Step)
    ensures w.store.notices <= Next(w, step).store.notices
  {
    if step.Advance? && step.agent in w.agents {
      PerformEmits(w.store, w.agents[step.agent], step.found, step.terms);
    }
  }

  /** Every PAYMENT_CAPTURED notice of a payment that was never captured was emitted by a callback whose capture
      was refused. */
  lemma {:induction false} UnchargedNoticeOrigin(steps: seq<Step>, i: nat) returns (n: nat)
    requires i < |Run(steps).store.notices| && Run(steps).store.notices[i].PaymentCaptured?
    requires Run(steps).store.notices[i].payment !in Taken(steps)
    ensures n < |steps| && AnnouncesRefused(Run(steps[..n]), steps[n], Run(steps).store.notices[i].payment)
  {
    var before, last := steps[..|steps| - 1], |steps| - 1;
    var w, p := Run(before), Run(steps).store.notices[i].payment;
    StepKeepsNotices(w, steps[last]);
    if i < |w.store.notices| {
      n := UnchargedNoticeOrigin(before, i);
      assert before[..n] == steps[..n];
    } else {
      RunAgentsTook(before);
      StepAnnounces(w, steps[last], Taken(before), p);
      n := last;
    }
  }
}
