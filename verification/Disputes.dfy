/** Dispute resolution: a case reads its dispute, refunds or credits goodwill, and only then writes the
    decision. A partner's response may reopen the dispute in between, and a case may be lost between
    any two writes, so a dispute can be resolved many times over. */
module Disputes {
  import opened Wrappers
  import Outcomes
  import PaymentFlow
  import Payments
  import Ledger
  import Loyalty
  import Bookings

  datatype Status = Open | UnderReview | Decided | Resolved | Closed | Rejected

  datatype TicketStatus = TicketOpen | InProgress | TicketResolved

  datatype Decision = FullRefund | PartialRefund | NoRefund | GoodwillCredit

  datatype Dispute = Dispute(
    org: int, customer: int, status: Status, ticket: TicketStatus,
    decision: Option<Decision>, refund: Option<nat>, goodwill: Option<nat>)

  /** The order of an administrator; payment is the one found on the dispute or its booking. */
  datatype Order = Order(decision: Decision, refund: Option<nat>, goodwill: Option<nat>, payment: Option<int>)

  datatype Desk = Desk(disputes: map<int, Dispute>, points: Loyalty.Points, store: PaymentFlow.Store)

  datatype Phase = Refunding | Crediting | Deciding | ClosingTicket | Done

  /** A resolution in progress; the customer was read at its start. */
  datatype Case = Case(dispute: int, customer: int, order: Order, phase: Phase)

  datatype Fault = NotFound | Forbidden | Conflict | BadRequest

  function Positive(n: Option<nat>): Option<nat> {
    if n == Some(0) then None else n
  }

  predicate Terminal(status: Status) {
    status in {Decided, Resolved, Closed}
  }

  // ------------------------------------------------------------ writes

  /** A response is accepted in any status and puts the dispute under review again. */
  function Respond(d: Desk, id: int, org: int): Result<Desk, Fault> {
    if id !in d.disputes then Err(NotFound)
    else if d.disputes[id].org != org then Err(Forbidden)
    else Ok(d.(disputes := d.disputes[id := d.disputes[id].(status := UnderReview, ticket := InProgress)]))
  }

  function FirstPhase(order: Order): Phase {
    match order.decision
    case FullRefund | PartialRefund => Refunding
    case GoodwillCredit => if Positive(order.goodwill).Some? then Crediting else Deciding
    case NoRefund => Deciding
  }

  function StartCase(d: Desk, id: int, order: Order): Result<Case, Fault> {
    if id !in d.disputes then Err(NotFound)
    else if Terminal(d.disputes[id].status) then Err(Conflict)
    else Ok(Case(id, d.disputes[id].customer, order, FirstPhase(order)))
  }

  /** What the order asks to refund of a payment: a missing or zero amount means all of it. */
  function Requested(order: Order, amount: int): int {
    if order.decision == FullRefund || Positive(order.refund).None? then amount else order.refund.value
  }

  /** The refund goes through the payments service, which refunds whole payments. */
  function RefundOrdered(s: PaymentFlow.Store, order: Order, accepted: bool): Result<PaymentFlow.Store, Fault> {
    if order.payment.None? || !PaymentFlow.Known(s, order.payment.value) then Err(BadRequest)
    else
      var p := order.payment.value;
      if Requested(order, s.books.payments[p].amount) > s.books.payments[p].amount then Err(BadRequest)
      else match PaymentFlow.StartRefund(s, p, accepted)
        case Err(_) => Err(BadRequest)
        case Ok(phase) => Ok(PaymentFlow.Finish(s, PaymentFlow.Agent(PaymentFlow.Desk, phase), None,
                                                Payments.ANY_TERMS))
  }

  function CreditStep(c: Case): Loyalty.Step {
    Loyalty.Earn(c.customer, if c.order.goodwill.Some? then c.order.goodwill.value else 0, Loyalty.Goodwill(c.dispute))
  }

  function Decide(d: Desk, id: int, order: Order): Desk {
    if id !in d.disputes then d
    else d.(disputes := d.disputes[id := d.disputes[id].(
              status := Decided, decision := Some(order.decision), refund := Positive(order.refund),
              goodwill := Positive(order.goodwill))])
  }

  function CloseTicket(d: Desk, id: int): Desk {
    if id in d.disputes then d.(disputes := d.disputes[id := d.disputes[id].(ticket := TicketResolved)]) else d
  }

  /** The next write of a case; a refund that throws ends it. */
  function Perform(d: Desk, c: Case, accepted: bool): (Desk, Phase) {
    match c.phase
    case Refunding => (match RefundOrdered(d.store, c.order, accepted)
                       case Ok(s) => (d.(store := s), Deciding)
                       case Err(_) => (d, Done))
    case Crediting => (d.(points := Loyalty.Next(d.points, CreditStep(c))), Deciding)
    case Deciding => (Decide(d, c.dispute, c.order), ClosingTicket)
    case ClosingTicket => (CloseTicket(d, c.dispute), Done)
    case Done => (d, Done)
  }

  // ------------------------------------------------------------ runs

  datatype World = World(desk: Desk, cases: map<int, Case>)

  datatype Step =
    | OpenDispute(id: int, org: int, customer: int)
    | Response(id: int, org: int)
    | Begin(agent: int, id: int, order: Order)
    | Advance(agent: int, accepted: bool)
    | Crash(agent: int)
    | OtherPoints(step: Loyalty.Step)
    | OtherPayments(store: PaymentFlow.Store)

  const EMPTY_WORLD :=
      World(Desk(map[], Loyalty.NO_POINTS, PaymentFlow.Store(Ledger.EMPTY_BOOKS, map[], map[], map[], [])), map[])

  /** Nobody but a dispute case uses the goodwill keys. */
  predicate Ordinary(step: Loyalty.Step) {
    match step
    case Earn(_, _, key) => !key.Goodwill?
    case Spend(_, _, key) => !key.Goodwill?
    case _ => true
  }

  function Next(w: World, step: Step): World {
    var d := w.desk;
    match step
    case OpenDispute(id, org, customer) =>
      if id in d.disputes then w
      else w.(desk := d.(disputes := d.disputes[id := Dispute(org, customer, Open, TicketOpen, None, None, None)]))
    case Response(id, org) => (match Respond(d, id, org) case Ok(e) => w.(desk := e) case Err(_) => w)
    case Begin(a, id, order) =>
      (match StartCase(d, id, order)
       case Ok(c) => if a in w.cases then w else w.(cases := w.cases[a := c])
       case Err(_) => w)
    case Advance(a, accepted) =>
      if a !in w.cases then w
      else var (e, phase) := Perform(d, w.cases[a], accepted); World(e, w.cases[a := w.cases[a].(phase := phase)])
    case Crash(a) => if a in w.cases then w.(cases := w.cases[a := w.cases[a].(phase := Done)]) else w
    case OtherPoints(l) => if Ordinary(l) then w.(desk := d.(points := Loyalty.Next(d.points, l))) else w
    case OtherPayments(s) => w.(desk := d.(store := s))
  }

  function Run(steps: seq<Step>): World {
    if steps == [] then EMPTY_WORLD else Next(Run(steps[..|steps| - 1]), steps[|steps| - 1])
  }

  // ------------------------------------------------------------ every run is a run of the point ledger

  /** A step that credits the goodwill of its dispute. */
  predicate Credits(w: World, step: Step) {
    step.Advance? && step.agent in w.cases && w.cases[step.agent].phase == Crediting
  }

  function PointsView(w: World, step: Step): Option<Loyalty.Step> {
    if Credits(w, step) then Some(CreditStep(w.cases[step.agent]))
    else if step.OtherPoints? && Ordinary(step.step) then Some(step.step)
    else None
  }

  function PointsRun(steps: seq<Step>): seq<Loyalty.Step> {
    if steps == [] then []
    else
      var before := steps[..|steps| - 1];
      match PointsView(Run(before), steps[|steps| - 1])
      case None => PointsRun(before)
      case Some(l) => PointsRun(before) + [l]
  }

  function After(p: Loyalty.Points, l: Option<Loyalty.Step>): Loyalty.Points {
    if l.Some? then Loyalty.Next(p, l.value) else p
  }

  lemma StepRefines(w: World, step: Step)
    ensures Next(w, step).desk.points == After(w.desk.points, PointsView(w, step))
  {
  }

  lemma PointsRunStep(steps: seq<Loyalty.Step>, l: Option<Loyalty.Step>)
    ensures Loyalty.Run(if l.Some? then steps + [l.value] else steps) == After(Loyalty.Run(steps), l)
  {
    if l.Some? {
      assert (steps + [l.value])[..|steps|] == steps;
    }
  }

  /** The points of every run are those of a loyalty run, so its accounts stay explained by their rows. */
  lemma {:induction false} RunRefinesLoyalty(steps: seq<Step>)
    ensures Run(steps).desk.points == Loyalty.Run(PointsRun(steps))
  {
    if steps != [] {
      var before, step := steps[..|steps| - 1], steps[|steps| - 1];
      RunRefinesLoyalty(before);
      StepRefines(Run(before), step);
      PointsRunStep(PointsRun(before), PointsView(Run(before), step));
    }
  }

  // ------------------------------------------------------------ goodwill at most once

  predicate CaseSound(d: Desk, c: Case) {
    c.dispute in d.disputes && c.customer == d.disputes[c.dispute].customer
    && (c.phase == Crediting ==> c.order.goodwill.Some? && c.order.goodwill.value > 0)
    && (c.phase == Refunding ==> c.order.decision != GoodwillCredit)
  }

  /** A goodwill row belongs to a dispute, and to its customer. */
  predicate RowSound(d: Desk, r: Loyalty.Row) {
    r.key.Goodwill? ==>
      r.key.dispute in d.disputes && r.user == d.disputes[r.key.dispute].customer && r.points > 0
          && r.kind == Loyalty.Earned
  }

  ghost predicate Sound(w: World) {
    && (forall a :: a in w.cases ==> CaseSound(w.desk, w.cases[a]))
    && (forall i :: 0 <= i < |w.desk.points.rows| ==> RowSound(w.desk, w.desk.points.rows[i]))
  }

  ghost predicate DisputesKept(d: Desk, e: Desk) {
    forall id :: id in d.disputes ==> id in e.disputes && e.disputes[id].customer == d.disputes[id].customer
  }

  lemma StepKeepsDisputes(w: World, step: Step)
    ensures DisputesKept(w.desk, Next(w, step).desk)
  {
  }

  /** The rows that one step appends, if any, are no goodwill rows unless it credits. */
  lemma PointsStepRows(p: Loyalty.Points, l: Loyalty.Step)
    ensures var q := Loyalty.Next(p, l);
            && |p.rows| <= |q.rows|
            && (forall i :: 0 <= i < |p.rows| ==> q.rows[i] == p.rows[i])
            && (forall i :: |p.rows| <= i < |q.rows| && q.rows[i].key.Goodwill? ==>
                  (l.Earn? && q.rows[i].user == l.user && q.rows[i].points == l.points && q.rows[i].key == l.key
                   && q.rows[i].kind == Loyalty.Earned)
                  || (l.Spend? && q.rows[i].key == l.key))
            && (l.Earn? ==> Loyalty.HasKey(q.rows, l.key))
  {
    var q := Loyalty.Next(p, l);
    if l.Earn? && !Loyalty.HasKey(p.rows, l.key) {
      assert q.rows[|p.rows|].key == l.key;
    }
  }

  lemma StepKeepsCases(w: World, step: Step, a: int)
    requires Sound(w) && a in Next(w, step).cases
    ensures CaseSound(Next(w, step).desk, Next(w, step).cases[a])
  {
  }

  lemma StepKeepsRows(w: World, step: Step, i: nat)
    requires Sound(w) && i < |Next(w, step).desk.points.rows|
    ensures RowSound(Next(w, step).desk, Next(w, step).desk.points.rows[i])
  {
    var d, e := w.desk, Next(w, step).desk;
    StepKeepsDisputes(w, step);
    if PointsView(w, step).Some? {
      PointsStepRows(d.points, PointsView(w, step).value);
    }
    if i < |d.points.rows| {
      assert RowSound(d, d.points.rows[i]);
    } else if Credits(w, step) {
      assert CaseSound(d, w.cases[step.agent]);
    }
  }

  lemma {:induction false} RunSound(steps: seq<Step>)
    ensures Sound(Run(steps))
  {
    if steps != [] {
      var w, step := Run(steps[..|steps| - 1]), steps[|steps| - 1];
      RunSound(steps[..|steps| - 1]);
      forall a | a in Next(w, step).cases
        ensures CaseSound(Next(w, step).desk, Next(w, step).cases[a])
      {
        StepKeepsCases(w, step, a);
      }
      forall i | 0 <= i < |Next(w, step).desk.points.rows|
        ensures RowSound(Next(w, step).desk, Next(w, step).desk.points.rows[i])
      {
        StepKeepsRows(w, step, i);
      }
    }
  }

  /** The step credits the goodwill of this dispute. */
  predicate CreditsOf(w: World, step: Step, id: int) {
    Credits(w, step) && w.cases[step.agent].dispute == id
  }

  /** Some step of the run did. */
  predicate EverCredited(steps: seq<Step>, id: int) {
    steps != [] &&
    var before := steps[..|steps| - 1];
    EverCredited(before, id) || CreditsOf(Run(before), steps[|steps| - 1], id)
  }

  /** Any sequence of responses and resolutions, interleaved or cut short, credits the goodwill of a
      dispute at most once, to its own customer, and does credit it if any resolution got that far. */
  lemma GoodwillOnce(steps: seq<Step>, id: int)
    ensures var rows := Run(steps).desk.points.rows;
            && (forall i, j ::
                  0 <= i < |rows| && 0 <= j < |rows| && rows[i].key == rows[j].key == Loyalty.Goodwill(id) ==> i == j)
            && (forall i :: 0 <= i < |rows| && rows[i].key == Loyalty.Goodwill(id) ==>
                RowSound(Run(steps).desk, rows[i]))
            && (Loyalty.HasKey(rows, Loyalty.Goodwill(id)) <==> EverCredited(steps, id))
  {
    RunRefinesLoyalty(steps);
    Loyalty.RunExplained(PointsRun(steps));
    RunSound(steps);
    KeyIffCredited(steps, id);
  }

  lemma {:induction false} KeyIffCredited(steps: seq<Step>, id: int)
    ensures Loyalty.HasKey(Run(steps).desk.points.rows, Loyalty.Goodwill(id)) <==> EverCredited(steps, id)
  {
    if steps != [] {
      var before, last := steps[..|steps| - 1], |steps| - 1;
      KeyIffCredited(before, id);
      KeyAfterStep(Run(before), steps[last], id);
    }
  }

  lemma KeyAfterStep(w: World, step: Step, id: int)
    ensures Loyalty.HasKey(Next(w, step).desk.points.rows, Loyalty.Goodwill(id)) <==>
            Loyalty.HasKey(w.desk.points.rows, Loyalty.Goodwill(id)) || CreditsOf(w, step, id)
  {
    var p, q, key := w.desk.points, Next(w, step).desk.points, Loyalty.Goodwill(id);
    if PointsView(w, step).Some? {
      PointsStepRows(p, PointsView(w, step).value);
      if Loyalty.HasKey(p.rows, key) {
        var i :| 0 <= i < |p.rows| && p.rows[i].key == key;
        assert q.rows[i].key == key;
      }
    }
  }

  // ------------------------------------------------------------ what is not kept

  /** A decided dispute is not final: a step takes it out of DECIDED if and only if it is a response
      by its own partner. */
  lemma DecidedIsLeftIff(w: World, step: Step, id: int)
    requires id in w.desk.disputes && w.desk.disputes[id].status == Decided
    ensures var e := Next(w, step).desk;
            id in e.disputes && (e.disputes[id].status != Decided <==> step == Response(id, w.desk.disputes[id].org))
  {
  }

  /** The ledger of points has a goodwill row of the dispute for this many points. */
  predicate Gave(p: Loyalty.Points, id: int, points: int) {
    exists i :: 0 <= i < |p.rows| && p.rows[i].key == Loyalty.Goodwill(id) && p.rows[i].points == points
  }

  /** The goodwill written on a decided dispute is the goodwill that was credited. */
  predicate Truthful(d: Desk, id: int) {
    id in d.disputes && d.disputes[id].decision == Some(GoodwillCredit) && d.disputes[id].goodwill.Some? ==>
      Gave(d.points, id, d.disputes[id].goodwill.value)
  }

  ghost predicate AllTruthful(d: Desk) {
    forall id :: Truthful(d, id)
  }

  /** A case about to write the decision on goodwill that it has credited, or found credited. */
  predicate DecidesGoodwill(c: Case) {
    c.phase == Deciding && c.order.decision == GoodwillCredit && Positive(c.order.goodwill).Some?
  }

  /** A case writes such a decision while the goodwill row of its dispute carries other points than its order. */
  predicate Misstates(w: World, step: Step) {
    step.Advance? && step.agent in w.cases && DecidesGoodwill(w.cases[step.agent])
    && var c, rows := w.cases[step.agent], w.desk.points.rows;
       exists i :: 0 <= i < |rows| && rows[i].key == Loyalty.Goodwill(c.dispute)
                   && rows[i].points != c.order.goodwill.value
  }

  ghost predicate CasesCredited(w: World) {
    forall a :: a in w.cases && DecidesGoodwill(w.cases[a]) ==>
                  Loyalty.HasKey(w.desk.points.rows, Loyalty.Goodwill(w.cases[a].dispute))
  }

  lemma StepKeepsCredited(w: World, step: Step, a: int)
    requires Sound(w) && CasesCredited(w) && a in Next(w, step).cases && DecidesGoodwill(Next(w, step).cases[a])
    ensures Loyalty.HasKey(Next(w, step).desk.points.rows, Loyalty.Goodwill(Next(w, step).cases[a].dispute))
  {
    KeyAfterStep(w, step, Next(w, step).cases[a].dispute);
    assert a in w.cases ==> CaseSound(w.desk, w.cases[a]);
  }

  lemma {:induction false} RunCredited(steps: seq<Step>)
    ensures CasesCredited(Run(steps))
  {
    if steps != [] {
      var w, step := Run(steps[..|steps| - 1]), steps[|steps| - 1];
      RunCredited(steps[..|steps| - 1]);
      RunSound(steps[..|steps| - 1]);
      forall a | a in Next(w, step).cases && DecidesGoodwill(Next(w, step).cases[a])
        ensures Loyalty.HasKey(Next(w, step).desk.points.rows, Loyalty.Goodwill(Next(w, step).cases[a].dispute))
      {
        StepKeepsCredited(w, step, a);
      }
    }
  }

  /** The step writes the decision of this dispute. */
  predicate Decides(w: World, step: Step, id: int) {
    step.Advance? && step.agent in w.cases && w.cases[step.agent].phase == Deciding
    && w.cases[step.agent].dispute == id
  }

  lemma StepDecides(w: World, step: Step, id: int)
    requires Sound(w) && id in Next(w, step).desk.disputes
    ensures var e := Next(w, step).desk.disputes[id];
            if Decides(w, step, id) then
              e.decision == Some(w.cases[step.agent].order.decision)
              && e.goodwill == Positive(w.cases[step.agent].order.goodwill)
            else if id in w.desk.disputes then
              e.decision == w.desk.disputes[id].decision && e.goodwill == w.desk.disputes[id].goodwill
            else e.decision == None
  {
    assert Decides(w, step, id) ==> CaseSound(w.desk, w.cases[step.agent]);
  }

  lemma GaveStays(w: World, step: Step, id: int, points: int)
    requires Gave(w.desk.points, id, points)
    ensures Gave(Next(w, step).desk.points, id, points)
  {
    var p, q := w.desk.points, Next(w, step).desk.points;
    if PointsView(w, step).Some? {
      PointsStepRows(p, PointsView(w, step).value);
      var i :| 0 <= i < |p.rows| && p.rows[i].key == Loyalty.Goodwill(id) && p.rows[i].points == points;
      assert q.rows[i] == p.rows[i];
    }
  }

  /** A dispute has one goodwill row: it carries other points, or these. */
  lemma GaveIff(steps: seq<Step>, id: int, points: int)
    requires Loyalty.HasKey(Run(steps).desk.points.rows, Loyalty.Goodwill(id))
    ensures var rows := Run(steps).desk.points.rows;
            Gave(Run(steps).desk.points, id, points) <==>
            !exists i :: 0 <= i < |rows| && rows[i].key == Loyalty.Goodwill(id) && rows[i].points != points
  {
    var rows := Run(steps).desk.points.rows;
    GoodwillOnce(steps, id);
    var i :| 0 <= i < |rows| && rows[i].key == Loyalty.Goodwill(id);
    assert forall j :: 0 <= j < |rows| && rows[j].key == Loyalty.Goodwill(id) ==> j == i;
  }

  /** A case that has credited goodwill writes a truthful decision if and only if the one row of the
      dispute carries the points it was ordered to give: after a reopening it may not. */
  lemma DecisionTruthfulIff(steps: seq<Step>, step: Step, id: int)
    requires Decides(Run(steps), step, id) && DecidesGoodwill(Run(steps).cases[step.agent])
    ensures Truthful(Next(Run(steps), step).desk, id) <==> !Misstates(Run(steps), step)
  {
    var w := Run(steps);
    var c := w.cases[step.agent];
    RunSound(steps);
    RunCredited(steps);
    assert CaseSound(w.desk, c);
    StepDecides(w, step, id);
    GaveIff(steps, id, c.order.goodwill.value);
    assert Next(w, step).desk.points == w.desk.points;
  }

  lemma OthersStayTruthful(w: World, step: Step, id: int)
    requires Sound(w) && Truthful(w.desk, id) && !(Decides(w, step, id) && DecidesGoodwill(w.cases[step.agent]))
    ensures Truthful(Next(w, step).desk, id)
  {
    if id in Next(w, step).desk.disputes {
      StepDecides(w, step, id);
      if !Decides(w, step, id) && id in w.desk.disputes && w.desk.disputes[id].goodwill.Some?
         && w.desk.disputes[id].decision == Some(GoodwillCredit)
      {
        GaveStays(w, step, id, w.desk.disputes[id].goodwill.value);
      }
    }
  }

  /** A step keeps all written goodwill truthful if and only if it does not misstate it. */
  lemma StepTruthfulIff(steps: seq<Step>, step: Step)
    requires AllTruthful(Run(steps).desk)
    ensures AllTruthful(Next(Run(steps), step).desk) <==> !Misstates(Run(steps), step)
  {
    var w := Run(steps);
    RunSound(steps);
    if Misstates(w, step) {
      DecisionTruthfulIff(steps, step, w.cases[step.agent].dispute);
    } else {
      forall id
        ensures Truthful(Next(w, step).desk, id)
      {
        if Decides(w, step, id) && DecidesGoodwill(w.cases[step.agent]) {
          DecisionTruthfulIff(steps, step, id);
        } else {
          OthersStayTruthful(w, step, id);
        }
      }
    }
  }

  lemma PrefixTruthfulIff(steps: seq<Step>, n: nat)
    requires n < |steps| && AllTruthful(Run(steps[..n]).desk)
    ensures AllTruthful(Run(steps[..n + 1]).desk) <==> !Misstates(Run(steps[..n]), steps[n])
  {
    assert steps[..n + 1][..n] == steps[..n];
    StepTruthfulIff(steps[..n], steps[n]);
  }

  lemma {:induction false} NothingMisstated(steps: seq<Step>, n: nat)
    requires n <= |steps| && forall i :: 0 <= i < n ==> !Misstates(Run(steps[..i]), steps[i])
    ensures AllTruthful(Run(steps[..n]).desk)
  {
    if n == 0 {
      assert steps[..0] == [];
    } else {
      NothingMisstated(steps, n - 1);
      PrefixTruthfulIff(steps, n - 1);
    }
  }

  /** Throughout a run all goodwill written on decisions is the goodwill credited if and only if no case writes a
      decision whose points the goodwill row of its dispute does not carry. */
  lemma WrittenGoodwillTruthfulIff(steps: seq<Step>)
    ensures (forall n :: 0 <= n <= |steps| ==> AllTruthful(Run(steps[..n]).desk)) <==>
            (forall n :: 0 <= n < |steps| ==> !Misstates(Run(steps[..n]), steps[n]))
  {
    if forall n :: 0 <= n < |steps| ==> !Misstates(Run(steps[..n]), steps[n]) {
      forall n | 0 <= n <= |steps|
        ensures AllTruthful(Run(steps[..n]).desk)
      {
        NothingMisstated(steps, n);
      }
    } else {
      var n :| 0 <= n < |steps| && Misstates(Run(steps[..n]), steps[n]);
      if AllTruthful(Run(steps[..n]).desk) {
        PrefixTruthfulIff(steps, n);
      }
    }
  }

  // A dispute is credited 100 points, reopened by its partner, and decided again with 200.

  function Give(points: nat): Order {
    Order(GoodwillCredit, None, Some(points), None)
  }

  const DECIDED_TWICE: seq<Step> := [
    OpenDispute(1, 7, 3), Begin(1, 1, Give(100)), Advance(1, true), Advance(1, true),
    Response(1, 7), Begin(2, 1, Give(200)), Advance(2, true), Advance(2, true)]

  const CREDITED := Loyalty.Points(
    map[3 := Loyalty.Account(100, 100)], [Loyalty.Row(3, Loyalty.Earned, 100, 100, Loyalty.Goodwill(1))], map[])

  function DeskOf(status: Status, ticket: TicketStatus, goodwill: Option<nat>, points: Loyalty.Points): Desk {
    var decision := if goodwill.Some? then Some(GoodwillCredit) else None;
    EMPTY_WORLD.desk.(disputes := map[1 := Dispute(7, 3, status, ticket, decision, None, goodwill)], points := points)
  }

  lemma TwoStepsOfRun(steps: seq<Step>, n: nat)
    requires n + 1 < |steps|
    ensures Run(steps[..n + 2]) == Next(Next(Run(steps[..n]), steps[n]), steps[n + 1])
  {
    assert steps[..n + 1][..n] == steps[..n] && steps[..n + 2][..n + 1] == steps[..n + 1];
  }

  lemma FirstOrder()
    ensures Next(Next(EMPTY_WORLD, OpenDispute(1, 7, 3)), Begin(1, 1, Give(100))) ==
            World(DeskOf(Open, TicketOpen, None, Loyalty.NO_POINTS), map[1 := Case(1, 3, Give(100), Crediting)])
  {
    assert Next(EMPTY_WORLD, OpenDispute(1, 7, 3)).desk.disputes
        == map[1 := Dispute(7, 3, Open, TicketOpen, None, None, None)];
  }

  lemma FirstCredit()
    ensures Loyalty.Next(Loyalty.NO_POINTS, Loyalty.Earn(3, 100, Loyalty.Goodwill(1))) == CREDITED
  {
  }

  lemma FirstDecision()
    ensures var w := World(DeskOf(Open, TicketOpen, None, Loyalty.NO_POINTS),
                           map[1 := Case(1, 3, Give(100), Crediting)]);
            Next(Next(w, Advance(1, true)), Advance(1, true)) ==
            World(DeskOf(Decided, TicketOpen, Some(100), CREDITED), map[1 := Case(1, 3, Give(100), ClosingTicket)])
  {
    FirstCredit();
    var w := World(DeskOf(Open, TicketOpen, None, Loyalty.NO_POINTS), map[1 := Case(1, 3, Give(100), Crediting)]);
    assert Next(w, Advance(1, true)) ==
           World(DeskOf(Open, TicketOpen, None, CREDITED), map[1 := Case(1, 3, Give(100), Deciding)]);
  }

  lemma SecondOrder()
    ensures var c := Case(1, 3, Give(100), ClosingTicket);
            Next(Next(World(DeskOf(Decided, TicketOpen, Some(100), CREDITED), map[1 := c]), Response(1, 7)),
                 Begin(2, 1, Give(200)))
            == World(DeskOf(UnderReview, InProgress, Some(100), CREDITED),
                     map[1 := c, 2 := Case(1, 3, Give(200), Crediting)])
  {
    var c := Case(1, 3, Give(100), ClosingTicket);
    assert Next(World(DeskOf(Decided, TicketOpen, Some(100), CREDITED), map[1 := c]), Response(1, 7)).desk ==
           DeskOf(UnderReview, InProgress, Some(100), CREDITED);
  }

  lemma SecondDecision()
    ensures var c := Case(1, 3, Give(100), ClosingTicket);
            var w := World(DeskOf(UnderReview, InProgress, Some(100), CREDITED),
                           map[1 := c, 2 := Case(1, 3, Give(200), Crediting)]);
            Next(Next(w, Advance(2, true)), Advance(2, true)).desk == DeskOf(Decided, InProgress, Some(200), CREDITED)
  {
    var c := Case(1, 3, Give(100), ClosingTicket);
    var w := World(DeskOf(UnderReview, InProgress, Some(100), CREDITED),
                   map[1 := c, 2 := Case(1, 3, Give(200), Crediting)]);
    assert Loyalty.Next(CREDITED, Loyalty.Earn(3, 200, Loyalty.Goodwill(1))) == CREDITED by {
      assert CREDITED.rows[0].key == Loyalty.Goodwill(1);
    }
    assert Next(w, Advance(2, true)) == World(w.desk, map[1 := c, 2 := Case(1, 3, Give(200), Deciding)]);
  }

  /** The dispute says 200 points were given; its customer got 100. */
  lemma DecidedTwice()
    ensures Run(DECIDED_TWICE).desk == DeskOf(Decided, InProgress, Some(200), CREDITED)
    ensures !Truthful(Run(DECIDED_TWICE).desk, 1)
  {
    ReopenedAndOrdered();
    TwoStepsOfRun(DECIDED_TWICE, 6);
    assert DECIDED_TWICE[..8] == DECIDED_TWICE;
    SecondDecision();
  }

  lemma ReopenedAndOrdered()
    ensures Run(DECIDED_TWICE[..6]) ==
            World(DeskOf(UnderReview, InProgress, Some(100), CREDITED),
                  map[1 := Case(1, 3, Give(100), ClosingTicket), 2 := Case(1, 3, Give(200), Crediting)])
  {
    TwoStepsOfRun(DECIDED_TWICE, 0);
    TwoStepsOfRun(DECIDED_TWICE, 2);
    TwoStepsOfRun(DECIDED_TWICE, 4);
    assert DECIDED_TWICE[..0] == [];
    FirstOrder();
    FirstDecision();
    SecondOrder();
  }

  /** The refund of a resolution is always of the whole payment, so it is what was requested if and
      only if all of it was requested. */
  lemma RefundIsRequestedIff(s: PaymentFlow.Store, order: Order)
    requires RefundOrdered(s, order, true).Ok?
    ensures var p, t := order.payment.value, RefundOrdered(s, order, true).value;
            var paid := s.books.payments[p].amount;
            && PaymentFlow.Known(t, p) && t.books.payments[p].status == Bookings.Refunded
            && t.notices == s.notices + [PaymentFlow.RefundedNotice(s, p)]
            && (PaymentFlow.RefundedNotice(s, p).amount == Requested(order, paid)
                <==> order.decision == FullRefund || Positive(order.refund).None? || order.refund.value == paid)
  {
    var p := order.payment.value;
    PaymentFlow.FinishRefunding(s, PaymentFlow.Desk, p, None, Payments.ANY_TERMS);
  }

  /** A captured payment of ten rupees, and a resolution that orders four of them back. */
  const PAID := EMPTY_WORLD.desk.store.(
    books := Ledger.EMPTY_BOOKS.(payments := [Ledger.PaymentRow(7, 1000, Bookings.Captured, 1, 0)]),
    bookingOf := map[0 := 5])

  const PART := Order(PartialRefund, Some(400), None, Some(0))

  /** All ten are refunded, whatever the order says. */
  lemma PartRefundsAll()
    ensures var r := RefundOrdered(PAID, PART, true);
            && Requested(PART, 1000) == 400
            && r.Ok? && r.value.notices == [PaymentFlow.PaymentRefunded(0, 7, 1000)]
  {
    PaymentFlow.FinishRefunding(PAID, PaymentFlow.Desk, 0, None, Payments.ANY_TERMS);
  }

  // ------------------------------------------------------------ the service

  function Rank(phase: Phase): nat {
    match phase
    case Refunding | Crediting => 3
    case Deciding => 2
    case ClosingTicket => 1
    case Done => 0
  }

  /** A case run to its end with nothing in between, and whether it got there. */
  function Finish(d: Desk, c: Case, accepted: bool): (Desk, bool)
    decreases Rank(c.phase)
  {
    var (e, phase) := Perform(d, c, accepted);
    if Rank(phase) >= Rank(c.phase) then (e, true)
    else if phase == Done then (e, c.phase != Refunding)
    else Finish(e, c.(phase := phase), accepted)
  }

  // ------------------------------------------------------------ what a resolution does

  /** A resolution begins on a dispute that is neither decided, resolved nor closed; refunds go to the payments
      service first, goodwill of one point or more to the loyalty service, and the rest is decided at once. */
  lemma StartedIff(d: Desk, id: int, order: Order)
    ensures StartCase(d, id, order) ==
            if id !in d.disputes then Err(NotFound)
            else if d.disputes[id].status in {Decided, Resolved, Closed} then Err(Conflict)
            else Ok(Case(id, d.disputes[id].customer, order,
                         if order.decision in {FullRefund, PartialRefund} then Refunding
                         else if order.decision == GoodwillCredit && order.goodwill !in {None, Some(0)} then Crediting
                         else Deciding))
  {
  }

  /** The refund a resolution orders is refused unless it names a captured payment, asks for no more than its
      amount and the provider agrees; it refunds the payment. */
  lemma RefundOrderedIff(s: PaymentFlow.Store, order: Order, accepted: bool)
    ensures var r := RefundOrdered(s, order, accepted);
            && (r.Ok? <==>
                && order.payment.Some? && PaymentFlow.Known(s, order.payment.value) && accepted
                && s.books.payments[order.payment.value].status == Bookings.Captured
                && (order.decision == FullRefund || order.refund in {None, Some(0)}
                    || order.refund.value <= s.books.payments[order.payment.value].amount))
            && (r.Err? ==> r == Err(BadRequest))
            && (r.Ok? ==>
                  var p := order.payment.value;
                  r.value == Outcomes.Marked(s, p, Bookings.Refunded).(
                      notices := s.notices + Outcomes.RefundNews(s, p)))
  {
    if order.payment.Some? {
      Outcomes.RefundOutcome(s, order.payment.value, accepted);
    }
  }

  /** A resolution without interruption refunds, or gives goodwill, or neither, as decided; then it writes the
      decision and closes the ticket. A refused refund ends it with nothing done. */
  lemma ResolvedIs(d: Desk, id: int, order: Order, accepted: bool)
    requires StartCase(d, id, order).Ok?
    ensures var (e, finished) := Finish(d, StartCase(d, id, order).value, accepted);
            var dispute := d.disputes[id];
            && (finished <==> order.decision in {FullRefund, PartialRefund} ==>
                  RefundOrdered(d.store, order, accepted).Ok?)
            && (!finished ==> e == d)
            && (finished ==>
                  && e.disputes == d.disputes[id := Dispute(dispute.org, dispute.customer, Decided, TicketResolved,
                                                           Some(order.decision),
                                                           if order.refund == Some(0) then None else order.refund,
                                                           if order.goodwill == Some(0) then None else order.goodwill)]
                  && e.store == (if order.decision in {FullRefund, PartialRefund}
                                 then RefundOrdered(d.store, order, accepted).value else d.store)
                  && e.points == (if order.decision == GoodwillCredit && order.goodwill !in {None, Some(0)}
                                  then Loyalty.AddPoints(d.points, dispute.customer, order.goodwill.value,
                                                         Loyalty.Earned, Loyalty.Goodwill(id))
                                  else d.points))
  {
    var c := StartCase(d, id, order).value;
    var (e, phase) := Perform(d, c, accepted);
    if c.phase == Deciding {
      DecisionWritten(d, c, accepted);
    } else if phase == Deciding {
      assert Finish(d, c, accepted) == Finish(e, c.(phase := Deciding), accepted);
      DecisionWritten(e, c.(phase := Deciding), accepted);
    }
  }

  lemma DecisionWritten(d: Desk, c: Case, accepted: bool)
    requires c.phase == Deciding && c.dispute in d.disputes
    ensures var dispute := d.disputes[c.dispute];
            Finish(d, c, accepted) ==
            (d.(disputes := d.disputes[c.dispute :=
                              Dispute(dispute.org, dispute.customer, Decided, TicketResolved, Some(c.order.decision),
                                      Positive(c.order.refund), Positive(c.order.goodwill))]), true)
  {
    var e, r := Decide(d, c.dispute, c.order), d.disputes[c.dispute];
    var written := Dispute(r.org, r.customer, Decided, TicketResolved, Some(c.order.decision),
                           Positive(c.order.refund), Positive(c.order.goodwill));
    assert CloseTicket(e, c.dispute).disputes == d.disputes[c.dispute := written];
    assert Finish(d, c, accepted) == Finish(e, c.(phase := ClosingTicket), accepted);
    assert Finish(e, c.(phase := ClosingTicket), accepted) == (CloseTicket(e, c.dispute), true);
  }

  /** A partner's response to its own dispute puts it under review and its ticket in progress, whatever both were. */
  lemma RespondedIff(d: Desk, id: int, org: int)
    ensures Respond(d, id, org) ==
            if id !in d.disputes then Err(NotFound)
            else if d.disputes[id].org != org then Err(Forbidden)
            else
              var r := d.disputes[id];
              Ok(Desk(d.disputes[id := Dispute(r.org, r.customer, UnderReview, InProgress, r.decision, r.refund,
                                               r.goodwill)], d.points, d.store))
  {
  }

  /** A case in progress moves by its own steps only; one that is lost writes nothing more. */
  lemma CasesMoveAlone(w: World, step: Step, a: int)
    requires a in w.cases
    ensures var v := Next(w, step);
            && a in v.cases
            && (step == Crash(a) ==> v == World(w.desk, w.cases[a := w.cases[a].(phase := Done)]))
            && (!((step.Advance? || step.Crash?) && step.agent == a) ==> v.cases[a] == w.cases[a])
  {
  }

  class DisputesService {
    const payments: Payments.PaymentsService
    const loyalty: Loyalty.LoyaltyService
    var disputes: map<int, Dispute>

    function View(): Desk
      reads this, loyalty, payments.db
    {
      Desk(disputes, loyalty.View(), payments.db.View())
    }

    constructor (payments: Payments.PaymentsService, loyalty: Loyalty.LoyaltyService)
      ensures this.payments == payments && this.loyalty == loyalty && disputes == map[]
    {
      this.payments, this.loyalty, disputes := payments, loyalty, map[];
    }

    method PartnerResponse(id: int, org: int) returns (fault: Option<Fault>)
      modifies this
      ensures Reflects(old(View()), Respond(old(View()), id, org), fault, View())
    {
      if id !in disputes { return Some(NotFound); }
      if disputes[id].org != org { return Some(Forbidden); }
      disputes := disputes[id := disputes[id].(status := UnderReview)];
      disputes := disputes[id := disputes[id].(ticket := InProgress)];
      return None;
    }

    /** The refund of a resolution, through the payments service. */
    method ExecuteRefund(order: Order, accepted: bool) returns (fault: Option<Fault>)
      modifies payments.db
      ensures Reflects(old(payments.db.View()), RefundOrdered(old(payments.db.View()), order, accepted), fault,
                       payments.db.View())
    {
      if order.payment.None? || !PaymentFlow.Known(payments.db.View(), order.payment.value) { return Some(BadRequest); }
      var p := order.payment.value;
      var amount := payments.db.books.payments[p].amount;
      if Requested(order, amount) > amount { return Some(BadRequest); }
      var refused := payments.InitiateRefund(p, accepted);
      return if refused.Some? then Some(BadRequest) else None;
    }

    method ResolveDispute(id: int, order: Order, accepted: bool) returns (fault: Option<Fault>)
      modifies this, loyalty, payments.db
      ensures match StartCase(old(View()), id, order)
              case Err(f) => fault == Some(f) && View() == old(View())
              case Ok(c) =>
                var (d, finished) := Finish(old(View()), c, accepted);
                View() == d && fault == if finished then None else Some(BadRequest)
    {
      if id !in disputes { return Some(NotFound); }
      if Terminal(disputes[id].status) { return Some(Conflict); }
      ghost var d := View();
      ghost var c := Case(id, disputes[id].customer, order, FirstPhase(order));
      if order.decision == FullRefund || order.decision == PartialRefund {
        var fault := ExecuteRefund(order, accepted);
        if fault.Some? { return fault; }
      }
      if order.decision == GoodwillCredit && Positive(order.goodwill).Some? {
        loyalty.EarnPoints(disputes[id].customer, order.goodwill.value, Some(id), 0, Some(Loyalty.Goodwill(id)));
      }
      ghost var e := View();
      assert Finish(d, c, accepted) == Finish(e, c.(phase := Deciding), accepted);
      disputes := disputes[id := disputes[id].(
                    status := Decided, decision := Some(order.decision), refund := Positive(order.refund),
                    goodwill := Positive(order.goodwill))];
      ghost var f := View();
      assert Finish(e, c.(phase := Deciding), accepted) == Finish(f, c.(phase := ClosingTicket), accepted);
      disputes := disputes[id := disputes[id].(ticket := TicketResolved)];
      return None;
    }
  }
}
