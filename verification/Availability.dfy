/** Turns a day's opening hours, minus blocks and bookings, into priced slots of one length.
    The day begins at the instant date, a local midnight; hours and recurring blocks are
    clock times in minutes. */
module Availability {
  import opened Wrappers
  import opened Intervals
  import Pricing

  type Clock = m: int | 0 <= m < 1440

  datatype Hours = Hours(day: int, open: Clock, close: Clock, closed: bool)

  datatype Block = Fixed(span: Span) | Recurring(day: int, from: Clock, to: Clock)

  datatype Slot = Slot(start: int, end: int, price: int, currency: string, breakdown: seq<Pricing.Entry>)

  datatype AvailabilityError = EmptyInterval

  /** A clock interval on the day; one that does not end after it starts runs into the next day. */
  function OnDay(date: int, from: Clock, to: Clock): TimeInterval {
    var start, end := date + from * Pricing.MINUTE, date + to * Pricing.MINUTE;
    Span(start, if end <= start then end + Pricing.DAY else end)
  }

  function BaseIntervals(date: int, day: int, hours: seq<Hours>): seq<TimeInterval> {
    if hours == [] then []
    else
      var rest, h := BaseIntervals(date, day, hours[..|hours| - 1]), hours[|hours| - 1];
      if h.day == day && !h.closed then rest + [OnDay(date, h.open, h.close)] else rest
  }

  /** The date window of the queries: a span is fetched when it meets the calendar day. */
  predicate Fetched(date: int, s: Span) {
    s.start < date + Pricing.DAY && date < s.end
  }

  function RecurringSpans(date: int, day: int, blocks: seq<Block>): seq<Span> {
    if blocks == [] then []
    else
      var rest, b := RecurringSpans(date, day, blocks[..|blocks| - 1]), blocks[|blocks| - 1];
      if b.Recurring? && b.day == day then rest + [OnDay(date, b.from, b.to)] else rest
  }

  function FixedSpans(date: int, blocks: seq<Block>): seq<Span> {
    if blocks == [] then []
    else
      var rest, b := FixedSpans(date, blocks[..|blocks| - 1]), blocks[|blocks| - 1];
      if b.Fixed? && Fetched(date, b.span) then rest + [b.span] else rest
  }

  function TakenSpans(date: int, taken: seq<Span>): seq<Span> {
    if taken == [] then []
    else
      var rest, s := TakenSpans(date, taken[..|taken| - 1]), taken[|taken| - 1];
      if Fetched(date, s) then rest + [s] else rest
  }

  /** Everything the day's free time must avoid: recurring blocks, fixed blocks, bookings. */
  function Removed(date: int, day: int, blocks: seq<Block>, taken: seq<Span>): seq<Span> {
    RecurringSpans(date, day, blocks) + FixedSpans(date, blocks) + TakenSpans(date, taken)
  }

  predicate Proper(spans: seq<Span>) {
    forall i :: 0 <= i < |spans| ==> spans[i].start < spans[i].end
  }

  function Typed(spans: seq<Span>): (r: seq<TimeInterval>)
    requires Proper(spans)
    ensures r == spans
  {
    if spans == [] then [] else
      var last: TimeInterval := spans[|spans| - 1];
      Typed(spans[..|spans| - 1]) + [last]
  }

  /** The free time of the day, in canonical form. */
  function Free(date: int, day: int, hours: seq<Hours>, blocks: seq<Block>, taken: seq<Span>): seq<TimeInterval>
    requires Proper(Removed(date, day, blocks, taken))
  {
    CarveAll(Union(BaseIntervals(date, day, hours)), Typed(Removed(date, day, blocks, taken)))
  }

  // ------------------------------------------------------------ what is free

  /** The clock interval that begins on the day holds t; one that does not end after it starts runs into the
      next day. */
  predicate During(date: int, from: Clock, to: Clock, t: int) {
    var minutes := if from < to then to - from else to - from + 1440;
    0 <= t - date - from * Pricing.MINUTE < minutes * Pricing.MINUTE
  }

  /** The venue is open at t by this row. */
  predicate OpenBy(h: Hours, date: int, day: int, t: int) {
    !h.closed && h.day == day && During(date, h.open, h.close, t)
  }

  /** The span meets the calendar day and holds t. */
  predicate MeetsAndHolds(s: Span, date: int, t: int) {
    date < s.end && s.start < date + Pricing.DAY && s.start <= t < s.end
  }

  /** The block holds t: a recurring one of the weekday, or a fixed one that meets the day. */
  predicate BlockedBy(b: Block, date: int, day: int, t: int) {
    match b
    case Fixed(s) => MeetsAndHolds(s, date, t)
    case Recurring(weekday, from, to) => weekday == day && During(date, from, to, t)
  }

  ghost predicate OpenAt(hours: seq<Hours>, date: int, day: int, t: int) {
    exists h :: h in hours && OpenBy(h, date, day, t)
  }

  ghost predicate BookedAt(taken: seq<Span>, date: int, t: int) {
    exists s :: s in taken && MeetsAndHolds(s, date, t)
  }

  lemma OpenSnoc(hours: seq<Hours>, h: Hours, date: int, day: int, t: int)
    ensures OpenAt(hours + [h], date, day, t) <==> OpenAt(hours, date, day, t) || OpenBy(h, date, day, t)
  {
    if OpenAt(hours, date, day, t) {
      var g :| g in hours && OpenBy(g, date, day, t);
      assert g in hours + [h];
    }
    assert h in hours + [h];
  }

  lemma BookedSnoc(taken: seq<Span>, s: Span, date: int, t: int)
    ensures BookedAt(taken + [s], date, t) <==> BookedAt(taken, date, t) || MeetsAndHolds(s, date, t)
  {
    if BookedAt(taken, date, t) {
      var g :| g in taken && MeetsAndHolds(g, date, t);
      assert g in taken + [s];
    }
    assert s in taken + [s];
  }

  lemma OnDayIsDuring(date: int, from: Clock, to: Clock, t: int)
    ensures In(t, OnDay(date, from, to)) <==> During(date, from, to, t)
  {
  }

  lemma {:induction false} BaseIff(date: int, day: int, hours: seq<Hours>, t: int)
    ensures Covers(BaseIntervals(date, day, hours), t) <==> OpenAt(hours, date, day, t)
  {
    if hours != [] {
      var n := |hours| - 1;
      var rest, h := BaseIntervals(date, day, hours[..n]), hours[n];
      BaseIff(date, day, hours[..n], t);
      assert hours == hours[..n] + [h];
      OpenSnoc(hours[..n], h, date, day, t);
      OnDayIsDuring(date, h.open, h.close, t);
      CoversConcat(rest, [OnDay(date, h.open, h.close)], t);
      CoversSingle(OnDay(date, h.open, h.close), t);
    }
  }

  /** Some span of the list holds t. */
  ghost predicate Held(spans: seq<Span>, t: int) {
    exists s :: s in spans && In(t, s)
  }

  lemma HeldConcat(a: seq<Span>, b: seq<Span>, t: int)
    ensures Held(a + b, t) <==> Held(a, t) || Held(b, t)
  {
    forall s | s in a + b
      ensures s in a || s in b
    {
    }
    if Held(a, t) {
      var s :| s in a && In(t, s);
      assert s in a + b;
    }
    if Held(b, t) {
      var s :| s in b && In(t, s);
      assert s in a + b;
    }
  }

  lemma HeldOne(s: Span, t: int)
    ensures Held([s], t) <==> In(t, s)
  {
    assert s in [s];
  }

  lemma {:induction false} RecurringIff(date: int, day: int, blocks: seq<Block>, t: int)
    ensures Held(RecurringSpans(date, day, blocks), t) <==>
            exists b :: b in blocks && b.Recurring? && BlockedBy(b, date, day, t)
  {
    if blocks != [] {
      var n := |blocks| - 1;
      var rest, b := RecurringSpans(date, day, blocks[..n]), blocks[n];
      RecurringIff(date, day, blocks[..n], t);
      assert blocks == blocks[..n] + [b];
      assert forall g :: g in blocks <==> g in blocks[..n] || g == b;
      if b.Recurring? {
        OnDayIsDuring(date, b.from, b.to, t);
        HeldConcat(rest, [OnDay(date, b.from, b.to)], t);
        HeldOne(OnDay(date, b.from, b.to), t);
      }
    }
  }

  lemma {:induction false} FixedIff(date: int, day: int, blocks: seq<Block>, t: int)
    ensures Held(FixedSpans(date, blocks), t) <==>
            exists b :: b in blocks && b.Fixed? && BlockedBy(b, date, day, t)
  {
    if blocks != [] {
      var n := |blocks| - 1;
      var rest, b := FixedSpans(date, blocks[..n]), blocks[n];
      FixedIff(date, day, blocks[..n], t);
      assert blocks == blocks[..n] + [b];
      assert forall g :: g in blocks <==> g in blocks[..n] || g == b;
      if b.Fixed? {
        HeldConcat(rest, [b.span], t);
        HeldOne(b.span, t);
      }
    }
  }

  lemma {:induction false} TakenIff(date: int, taken: seq<Span>, t: int)
    ensures Held(TakenSpans(date, taken), t) <==> BookedAt(taken, date, t)
  {
    if taken != [] {
      var n := |taken| - 1;
      var rest, s := TakenSpans(date, taken[..n]), taken[n];
      TakenIff(date, taken[..n], t);
      assert taken == taken[..n] + [s];
      BookedSnoc(taken[..n], s, date, t);
      HeldConcat(rest, [s], t);
      HeldOne(s, t);
    }
  }

  lemma RemovedIff(date: int, day: int, blocks: seq<Block>, taken: seq<Span>, t: int)
    ensures Held(Removed(date, day, blocks, taken), t) <==>
            || (exists b :: b in blocks && BlockedBy(b, date, day, t))
            || BookedAt(taken, date, t)
  {
    var recurring, fixed := RecurringSpans(date, day, blocks), FixedSpans(date, blocks);
    HeldConcat(recurring + fixed, TakenSpans(date, taken), t);
    HeldConcat(recurring, fixed, t);
    RecurringIff(date, day, blocks, t);
    FixedIff(date, day, blocks, t);
    TakenIff(date, taken, t);
  }

  /** An instant is free if and only if some row of that weekday that is not closed has the venue open, no block
      holds it and no booking that meets the day does. */
  lemma FreeIff(date: int, day: int, hours: seq<Hours>, blocks: seq<Block>, taken: seq<Span>, t: int)
    requires Proper(Removed(date, day, blocks, taken))
    ensures var free := Free(date, day, hours, blocks, taken);
            (exists k :: 0 <= k < |free| && free[k].start <= t < free[k].end) <==>
            && OpenAt(hours, date, day, t) && !BookedAt(taken, date, t)
            && forall b :: b in blocks ==> !BlockedBy(b, date, day, t)
  {
    var base, removed := BaseIntervals(date, day, hours), Removed(date, day, blocks, taken);
    var free := Free(date, day, hours, blocks, taken);
    UnionCanonical(base);
    CarveAllExact(Union(base), Typed(removed));
    assert Covers(free, t) <==> Covers(Union(base), t) && !Covers(Typed(removed), t);
    assert Covers(Union(base), t) <==> Covers(base, t);
    assert Covers(Typed(removed), t) <==> Held(removed, t);
    BaseIff(date, day, hours, t);
    RemovedIff(date, day, blocks, taken, t);
    assert Covers(free, t) <==> exists k :: 0 <= k < |free| && free[k].start <= t < free[k].end;
  }

  /** On a weekday without an open row there is nothing to offer. */
  lemma {:induction false} ShutDayIsEmpty(date: int, day: int, hours: seq<Hours>)
    ensures BaseIntervals(date, day, hours) == [] <==> forall h :: h in hours && h.day == day ==> h.closed
  {
    if hours != [] {
      var n := |hours| - 1;
      ShutDayIsEmpty(date, day, hours[..n]);
      assert hours == hours[..n] + [hours[n]];
    }
  }

  /** The call fails to subtract exactly when a fixed block or a booking that meets the day does not begin
      before it ends. */
  lemma ProperIff(date: int, day: int, blocks: seq<Block>, taken: seq<Span>)
    ensures Proper(Removed(date, day, blocks, taken)) <==>
            && (forall s :: Fixed(s) in blocks && date < s.end && s.start < date + Pricing.DAY ==> s.start < s.end)
            && (forall s :: s in taken && date < s.end && s.start < date + Pricing.DAY ==> s.start < s.end)
  {
    var recurring, fixed, booked := RecurringSpans(date, day, blocks), FixedSpans(date, blocks),
        TakenSpans(date, taken);
    RecurringProper(date, day, blocks);
    FixedMembers(date, blocks);
    TakenMembers(date, taken);
    forall s
      ensures s in Removed(date, day, blocks, taken) <==> s in recurring || s in fixed || s in booked
    {
    }
    assert Proper(Removed(date, day, blocks, taken)) <==>
           forall s :: s in Removed(date, day, blocks, taken) ==> s.start < s.end;
  }

  lemma {:induction false} RecurringProper(date: int, day: int, blocks: seq<Block>)
    ensures forall s :: s in RecurringSpans(date, day, blocks) ==> s.start < s.end
  {
    if blocks != [] {
      RecurringProper(date, day, blocks[..|blocks| - 1]);
    }
  }

  lemma {:induction false} FixedMembers(date: int, blocks: seq<Block>)
    ensures forall s :: s in FixedSpans(date, blocks) <==>
                        Fixed(s) in blocks && date < s.end && s.start < date + Pricing.DAY
  {
    if blocks != [] {
      var n := |blocks| - 1;
      FixedMembers(date, blocks[..n]);
      assert blocks == blocks[..n] + [blocks[n]];
    }
  }

  lemma {:induction false} TakenMembers(date: int, taken: seq<Span>)
    ensures forall s :: s in TakenSpans(date, taken) <==>
                        s in taken && date < s.end && s.start < date + Pricing.DAY
  {
    if taken != [] {
      var n := |taken| - 1;
      TakenMembers(date, taken[..n]);
      assert taken == taken[..n] + [taken[n]];
    }
  }

  // ------------------------------------------------------------ the greedy grid

  function GridFrom(start: int, end: int, d: int): seq<int>
    requires d > 0
    decreases end - start
  {
    if start + d <= end then [start] + GridFrom(start + d, end, d) else []
  }

  /** Slot starts, interval by interval, each as soon as the previous slot ends. */
  function Grid(free: seq<TimeInterval>, d: int): seq<int>
    requires d > 0
  {
    if free == [] then [] else Grid(free[..|free| - 1], d) + GridFrom(free[|free| - 1].start, free[|free| - 1].end, d)
  }

  ghost predicate Inside(free: seq<TimeInterval>, x: int, d: int) {
    forall t :: x <= t < x + d ==> Covers(free, t)
  }

  ghost predicate Spaced(g: seq<int>, d: int) {
    forall i, j :: 0 <= i < j < |g| ==> g[i] + d <= g[j]
  }

  ghost predicate Within(g: seq<int>, lo: int, hi: int, d: int) {
    forall i :: 0 <= i < |g| ==> lo <= g[i] && g[i] + d <= hi
  }

  lemma {:induction false} GridFromSpaced(start: int, end: int, d: int)
    requires d > 0
    ensures Within(GridFrom(start, end, d), start, end, d) && Spaced(GridFrom(start, end, d), d)
    decreases end - start
  {
    if start + d <= end {
      GridFromSpaced(start + d, end, d);
      var g, rest := GridFrom(start, end, d), GridFrom(start + d, end, d);
      assert g == [start] + rest;
      assert forall i :: 0 < i < |g| ==> g[i] == rest[i - 1];
    }
  }

  ghost predicate AllInside(g: seq<int>, free: seq<TimeInterval>, d: int) {
    forall i :: 0 <= i < |g| ==> Inside(free, g[i], d)
  }

  /** Slots are disjoint, in order, of the exact length and inside the free time. */
  lemma {:induction false} GridIsPacking(free: seq<TimeInterval>, d: int)
    requires d > 0 && Canonical(free)
    ensures AllInside(Grid(free, d), free, d) && Spaced(Grid(free, d), d)
    ensures free != [] ==> forall x :: x in Grid(free, d) ==> x + d <= free[|free| - 1].end
  {
    if free != [] {
      var n := |free| - 1;
      var head, last := free[..n], free[n];
      GridIsPacking(head, d);
      GridFromSpaced(last.start, last.end, d);
      var a, b := Grid(head, d), GridFrom(last.start, last.end, d);
      assert free == head + [last];
      forall x | x in a
        ensures Inside(free, x, d) && x + d < last.start
      {
        assert head[n - 1] == free[n - 1];
        forall t | x <= t < x + d
          ensures Covers(free, t)
        {
          var i :| 0 <= i < |a| && a[i] == x;
          assert Inside(head, a[i], d) && Covers(head, t);
          CoversConcat(head, [last], t);
        }
      }
      forall x | x in b
        ensures Inside(free, x, d)
      {
        forall t | x <= t < x + d
          ensures Covers(free, t)
        {
          assert In(t, free[n]);
        }
      }
      PackConcat(a, b, last.start, last.end, d);
    }
  }

  lemma PackConcat(a: seq<int>, b: seq<int>, lo: int, hi: int, d: int)
    requires Spaced(a, d) && Spaced(b, d) && Within(b, lo, hi, d)
    requires forall x :: x in a ==> x + d < lo
    ensures Spaced(a + b, d)
  {
    forall i, j | 0 <= i < j < |a + b|
      ensures (a + b)[i] + d <= (a + b)[j]
    {
      if i < |a| {
        assert (a + b)[i] in a;
      }
    }
  }

  ghost predicate Apart(starts: set<int>, d: int) {
    forall x, y :: x in starts && y in starts && x < y ==> x + d <= y
  }

  lemma {:induction false} GridFromLater(start: int, end: int, d: int)
    requires d > 0
    ensures |GridFrom(start + 1, end, d)| <= |GridFrom(start, end, d)|
    decreases end - start
  {
    if start + 1 + d <= end {
      GridFromLater(start + d, end, d);
    }
  }

  /** Greedy stays ahead: no set of disjoint spans inside one interval is larger than its grid. */
  lemma {:induction false} GridFromOptimal(start: int, end: int, d: int, starts: set<int>)
    requires d > 0 && Apart(starts, d)
    requires forall x :: x in starts ==> start <= x && x + d <= end
    ensures |starts| <= |GridFrom(start, end, d)|
    decreases end - start
  {
    if start + d > end {
      assert starts == {};
    } else if start in starts {
      GridFromOptimal(start + d, end, d, starts - {start});
    } else {
      GridFromOptimal(start + 1, end, d, starts);
      GridFromLater(start, end, d);
    }
  }

  /** A span inside canonical free time lies inside a single interval. */
  lemma SpanInOneInterval(free: seq<TimeInterval>, x: int, d: int, i: nat)
    requires d > 0 && Canonical(free) && Inside(free, x, d)
    requires i < |free| && In(x, free[i])
    ensures x + d <= free[i].end
  {
    var t := free[i].end;
    assert !Covers(free, t);
    assert x <= t < x + d ==> Covers(free, t);
  }

  lemma NothingFitsNowhere(starts: set<int>, d: int)
    requires d > 0 && Apart(starts, d)
    requires forall x :: x in starts ==> Inside([], x, d)
    ensures |starts| == 0
  {
    forall x
      ensures !Inside([], x, d)
    {
      assert !Covers([], x);
    }
    GridFromOptimal(1, 0, d, starts);
  }

  /** The grid is a largest packing: no set of disjoint spans of the slot length inside the free time,
      however placed, has more members than there are grid slots. */
  lemma {:induction false} GridOptimal(free: seq<TimeInterval>, d: int, starts: set<int>)
    requires d > 0 && Canonical(free) && Apart(starts, d)
    requires forall x :: x in starts ==> Inside(free, x, d)
    ensures |starts| <= |Grid(free, d)|
  {
    if free == [] {
      NothingFitsNowhere(starts, d);
    } else {
      var n := |free| - 1;
      var late := set x | x in starts && free[n].start <= x;
      var early := starts - late;
      forall x | x in starts
        ensures x in early ==> Inside(free[..n], x, d)
        ensures x in late ==> free[n].start <= x && x + d <= free[n].end
      {
        FitsEarlyOrLate(free, x, d);
      }
      GridOptimal(free[..n], d, early);
      GridFromOptimal(free[n].start, free[n].end, d, late);
      assert starts == early + late;
      assert early * late == {};
    }
  }

  lemma FitsEarlyOrLate(free: seq<TimeInterval>, x: int, d: int)
    requires d > 0 && free != [] && Canonical(free) && Inside(free, x, d)
    ensures var n := |free| - 1;
            if free[n].start <= x then x + d <= free[n].end else Inside(free[..n], x, d)
  {
    var n := |free| - 1;
    assert Covers(free, x);
    var i :| 0 <= i < |free| && In(x, free[i]);
    SpanInOneInterval(free, x, d, i);
    if i < n {
      assert x < free[n].start;
      forall t | x <= t < x + d
        ensures Covers(free[..n], t)
      {
        assert In(t, free[..n][i]);
      }
    }
  }

  // ------------------------------------------------------------ pricing the slots

  predicate Priced(table: seq<Pricing.Rule>, zone: int, x: int, d: int) {
    Pricing.Quote(table, zone, x, x + d).Ok?
  }

  /** A slot that cannot be priced is left out. */
  function KeepPriced(table: seq<Pricing.Rule>, zone: int, starts: seq<int>, d: int): seq<int> {
    if starts == [] then []
    else
      var rest, x := KeepPriced(table, zone, starts[..|starts| - 1], d), starts[|starts| - 1];
      if Priced(table, zone, x, d) then rest + [x] else rest
  }

  /** The slots offered are exactly these starts, each with its exact quote. */
  ghost predicate Offers(slots: seq<Slot>, starts: seq<int>, table: seq<Pricing.Rule>, zone: int, d: int) {
    |slots| == |starts| && forall i :: 0 <= i < |slots| ==> IsQuoted(slots[i], starts[i], table, zone, d)
  }

  ghost predicate IsQuoted(s: Slot, x: int, table: seq<Pricing.Rule>, zone: int, d: int) {
    && s.start == x && s.end == x + d
    && Pricing.Quote(table, zone, x, x + d) == Ok(s.price)
    && Pricing.Fetch(table, x, x + d) != [] && s.currency == Pricing.Fetch(table, x, x + d)[0].currency
    && Pricing.ExactBreakdown(s.breakdown, Pricing.Fetch(table, x, x + d), zone, x, x + d)
  }

  lemma {:induction false} KeepPricedAll(table: seq<Pricing.Rule>, zone: int, starts: seq<int>, d: int)
    ensures forall x :: x in KeepPriced(table, zone, starts, d) <==> x in starts && Priced(table, zone, x, d)
    ensures (forall x :: x in starts ==> Priced(table, zone, x, d)) <==> KeepPriced(table, zone, starts, d) == starts
    ensures |KeepPriced(table, zone, starts, d)| <= |starts|
  {
    if starts != [] {
      var n := |starts| - 1;
      KeepPricedAll(table, zone, starts[..n], d);
      assert starts == starts[..n] + [starts[n]];
      assert |KeepPriced(table, zone, starts, d)| == |starts| ==> Priced(table, zone, starts[n], d);
    }
  }

  lemma {:induction false} KeepPricedConcat(table: seq<Pricing.Rule>, zone: int, a: seq<int>, b: seq<int>, d: int)
    ensures KeepPriced(table, zone, a + b, d) == KeepPriced(table, zone, a, d) + KeepPriced(table, zone, b, d)
  {
    if b == [] {
      assert a + b == a;
    } else {
      assert (a + b)[..|a + b| - 1] == a + b[..|b| - 1];
      KeepPricedConcat(table, zone, a, b[..|b| - 1], d);
    }
  }

  lemma GridGoesOn(done: seq<int>, cur: int, end: int, d: int)
    requires d > 0 && cur + d <= end
    ensures done + GridFrom(cur, end, d) == done + [cur] + GridFrom(cur + d, end, d)
  {
    assert done + [cur] + GridFrom(cur + d, end, d) == done + ([cur] + GridFrom(cur + d, end, d));
  }

  lemma OffersOneMore(slots: seq<Slot>, more: seq<Slot>, done: seq<int>, x: int, table: seq<Pricing.Rule>, zone: int,
                      d: int)
    requires Offers(slots, KeepPriced(table, zone, done, d), table, zone, d)
    requires if Priced(table, zone, x, d) then |more| == 1 && IsQuoted(more[0], x, table, zone, d) else more == []
    ensures Offers(slots + more, KeepPriced(table, zone, done + [x], d), table, zone, d)
  {
    assert (done + [x])[..|done|] == done;
  }

  method SlotsOf(interval: TimeInterval, d: int, table: seq<Pricing.Rule>, zone: int) returns (slots: seq<Slot>)
    requires d > 0
    ensures Offers(slots, KeepPriced(table, zone, GridFrom(interval.start, interval.end, d), d), table, zone, d)
  {
    slots := [];
    var currentStart := interval.start;
    ghost var done: seq<int> := [];
    while currentStart + d <= interval.end
      invariant GridFrom(interval.start, interval.end, d) == done + GridFrom(currentStart, interval.end, d)
      invariant Offers(slots, KeepPriced(table, zone, done, d), table, zone, d)
      decreases interval.end - currentStart
    {
      var slotEnd := currentStart + d;
      var pricing := Pricing.CalculatePrice(table, zone, currentStart, slotEnd);
      var more := [];
      if pricing.Ok? {
        more := [Slot(currentStart, slotEnd, pricing.value.total, pricing.value.currency, pricing.value.breakdown)];
      }
      OffersOneMore(slots, more, done, currentStart, table, zone, d);
      GridGoesOn(done, currentStart, interval.end, d);
      slots := slots + more;
      done := done + [currentStart];
      currentStart := slotEnd;
    }
    assert done + [] == done;
  }

  method GetAvailability(date: int, zone: int, hours: seq<Hours>, blocks: seq<Block>, taken: seq<Span>,
                         d: int, table: seq<Pricing.Rule>)
    returns (r: Result<seq<Slot>, AvailabilityError>)
    requires d > 0
    ensures (forall h :: h in hours && h.day == Pricing.DayOfWeek(date, zone) ==> h.closed) ==> r == Ok([])
    ensures r.Err? <==>
            && (exists h :: h in hours && h.day == Pricing.DayOfWeek(date, zone) && !h.closed)
            && ((exists s :: Fixed(s) in blocks && date < s.end <= s.start < date + Pricing.DAY)
                || (exists s :: s in taken && date < s.end <= s.start < date + Pricing.DAY))
    ensures var day := Pricing.DayOfWeek(date, zone);
            match r
            case Err(_) => BaseIntervals(date, day, hours) != [] && !Proper(Removed(date, day, blocks, taken))
            case Ok(slots) =>
              if BaseIntervals(date, day, hours) == [] then slots == []
              else Proper(Removed(date, day, blocks, taken))
                   && Offers(slots, KeepPriced(table, zone, Grid(Free(date, day, hours, blocks, taken), d), d), table,
                             zone, d)
  {
    var day := Pricing.DayOfWeek(date, zone);
    ShutDayIsEmpty(date, day, hours);
    ProperIff(date, day, blocks, taken);
    var available := CollectHours(date, day, hours);
    if |available| == 0 {
      return Ok([]);
    }
    available := Merge(available);
    var subtract := CollectRemoved(date, day, blocks, taken);
    if exists i :: 0 <= i < |subtract| && subtract[i].start >= subtract[i].end {
      return Err(EmptyInterval);
    }
    available := SubtractMany(available, Typed(subtract));
    var slots := PriceSlots(available, d, table, zone);
    return Ok(slots);
  }

  method PriceSlots(available: seq<TimeInterval>, d: int, table: seq<Pricing.Rule>, zone: int)
      returns (slots: seq<Slot>)
    requires d > 0
    ensures Offers(slots, KeepPriced(table, zone, Grid(available, d), d), table, zone, d)
  {
    slots := [];
    for i := 0 to |available|
      invariant Offers(slots, KeepPriced(table, zone, Grid(available[..i], d), d), table, zone, d)
    {
      var more := SlotsOf(available[i], d, table, zone);
      slots := slots + more;
      assert available[..i + 1][..i] == available[..i];
      KeepPricedConcat(table, zone, Grid(available[..i], d), GridFrom(available[i].start, available[i].end, d), d);
    }
    assert available[..|available|] == available;
  }

  method CollectHours(date: int, day: int, hours: seq<Hours>) returns (available: seq<TimeInterval>)
    ensures available == BaseIntervals(date, day, hours)
  {
    available := [];
    for i := 0 to |hours|
      invariant available == BaseIntervals(date, day, hours[..i])
    {
      assert hours[..i + 1][..i] == hours[..i];
      if hours[i].day == day && !hours[i].closed {
        available := available + [OnDay(date, hours[i].open, hours[i].close)];
      }
    }
    assert hours[..|hours|] == hours;
  }

  method CollectRemoved(date: int, day: int, blocks: seq<Block>, taken: seq<Span>) returns (subtract: seq<Span>)
    ensures subtract == Removed(date, day, blocks, taken)
  {
    subtract := [];
    for i := 0 to |blocks|
      invariant subtract == RecurringSpans(date, day, blocks[..i])
    {
      assert blocks[..i + 1][..i] == blocks[..i];
      if blocks[i].Recurring? && blocks[i].day == day {
        subtract := subtract + [OnDay(date, blocks[i].from, blocks[i].to)];
      }
    }
    assert blocks[..|blocks|] == blocks;
    for i := 0 to |blocks|
      invariant subtract == RecurringSpans(date, day, blocks) + FixedSpans(date, blocks[..i])
    {
      assert blocks[..i + 1][..i] == blocks[..i];
      if blocks[i].Fixed? && Fetched(date, blocks[i].span) {
        subtract := subtract + [blocks[i].span];
      }
    }
    for i := 0 to |taken|
      invariant subtract == RecurringSpans(date, day, blocks) + FixedSpans(date, blocks) + TakenSpans(date, taken[..i])
    {
      assert taken[..i + 1][..i] == taken[..i];
      if Fetched(date, taken[i]) {
        subtract := subtract + [taken[i]];
      }
    }
    assert taken[..|taken|] == taken;
  }
}
