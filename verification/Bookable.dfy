/** What a customer is offered can be booked: the link between slot generation, pricing and
    the booking transaction of one facility. */
module Bookable {
  import opened Wrappers
  import opened Intervals
  import opened Availability
  import Bookings
  import Pricing

  /** Opening hours as the venue service accepts them: open strictly before close. */
  predicate SameDay(hours: seq<Hours>) {
    forall i :: 0 <= i < |hours| && !hours[i].closed ==> hours[i].open < hours[i].close
  }

  /** taken lists the spans of exactly the active bookings of the facility. */
  ghost predicate ListsActive(taken: seq<Span>, rows: map<int, Bookings.Booking>, facility: int) {
    forall s :: s in taken <==>
      exists j :: j in rows && Bookings.Active(rows[j]) && rows[j].facility == facility
          && s == Span(rows[j].start, rows[j].end)
  }

  /** The local midnight before t. */
  function DayOf(t: int, zone: int): int {
    t - (t + zone) % Pricing.DAY
  }

  /** The availability call for a day answers, whatever it answers: no block or booking it reads is degenerate. */
  predicate Answers(date: int, zone: int, hours: seq<Hours>, blocks: seq<Block>, taken: seq<Span>) {
    var day := Pricing.DayOfWeek(date, zone);
    BaseIntervals(date, day, hours) == [] || Proper(Removed(date, day, blocks, taken))
  }

  /** The slots are what the availability of the day that begins at date answers. */
  ghost predicate Offered(slots: seq<Slot>, date: int, zone: int, hours: seq<Hours>, blocks: seq<Block>,
                          taken: seq<Span>, d: int, table: seq<Pricing.Rule>) {
    var day := Pricing.DayOfWeek(date, zone);
    && d > 0 && date == DayOf(date, zone)
    && Proper(Removed(date, day, blocks, taken))
    && Offers(slots, KeepPriced(table, zone, Grid(Free(date, day, hours, blocks, taken), d), d), table, zone, d)
  }

  lemma {:induction false} BaseWithinDay(date: int, day: int, hours: seq<Hours>, t: int)
    requires Covers(BaseIntervals(date, day, hours), t)
    ensures date <= t && (SameDay(hours) ==> t < date + Pricing.DAY)
  {
    var n := |hours| - 1;
    var rest, h := BaseIntervals(date, day, hours[..n]), hours[n];
    if h.day == day && !h.closed {
      CoversConcat(rest, [OnDay(date, h.open, h.close)], t);
      CoversSingle(OnDay(date, h.open, h.close), t);
    }
    if Covers(rest, t) {
      BaseWithinDay(date, day, hours[..n], t);
    }
  }

  lemma {:induction false} TakenKept(date: int, taken: seq<Span>, s: Span)
    requires s in taken && Fetched(date, s)
    ensures s in TakenSpans(date, taken)
  {
    var n := |taken| - 1;
    if taken[n] != s {
      TakenKept(date, taken[..n], s);
    }
  }

  lemma {:induction false} FixedKept(date: int, blocks: seq<Block>, s: Span)
    requires Fixed(s) in blocks && Fetched(date, s)
    ensures s in FixedSpans(date, blocks)
  {
    var n := |blocks| - 1;
    if blocks[n] != Fixed(s) {
      FixedKept(date, blocks[..n], s);
    }
  }

  lemma {:induction false} RecurringKept(date: int, day: int, blocks: seq<Block>, from: Clock, to: Clock)
    requires Recurring(day, from, to) in blocks
    ensures OnDay(date, from, to) in RecurringSpans(date, day, blocks)
  {
    var n := |blocks| - 1;
    if blocks[n] != Recurring(day, from, to) {
      RecurringKept(date, day, blocks[..n], from, to);
    }
  }

  lemma FreeAvoidsRemoved(date: int, day: int, hours: seq<Hours>, blocks: seq<Block>, taken: seq<Span>, t: int, s: Span)
    requires Proper(Removed(date, day, blocks, taken))
    requires Covers(Free(date, day, hours, blocks, taken), t)
    ensures date <= t && (SameDay(hours) ==> t < date + Pricing.DAY)
    ensures s in Removed(date, day, blocks, taken) ==> !In(t, s)
  {
    var base, removed := BaseIntervals(date, day, hours), Removed(date, day, blocks, taken);
    UnionCanonical(base);
    CarveAllExact(Union(base), Typed(removed));
    assert Covers(Union(base), t) && Covers(base, t);
    BaseWithinDay(date, day, hours, t);
    assert !Covers(Typed(removed), t);
  }

  /** The day's queries ask for whatever begins before the next midnight. */
  predicate AskedFor(date: int, hours: seq<Hours>, s: Span) {
    SameDay(hours) || s.start < date + Pricing.DAY
  }

  /** Free time meets no booking of the facility, no fixed block and none of the day's own recurring blocks; where
      the hours run past midnight, this is promised for what begins before it. */
  lemma FreeAvoidsEverything(date: int, day: int, hours: seq<Hours>, blocks: seq<Block>, taken: seq<Span>, t: int)
    requires Proper(Removed(date, day, blocks, taken))
    requires Covers(Free(date, day, hours, blocks, taken), t)
    ensures forall s :: s in taken && AskedFor(date, hours, s) ==> !In(t, s)
    ensures forall s :: Fixed(s) in blocks && AskedFor(date, hours, s) ==> !In(t, s)
    ensures forall from: Clock, to: Clock :: Recurring(day, from, to) in blocks ==> !In(t, OnDay(date, from, to))
  {
    FreeAvoidsRemoved(date, day, hours, blocks, taken, t, Span(0, 0));
    forall s | s in taken && AskedFor(date, hours, s)
      ensures !In(t, s)
    {
      if Fetched(date, s) {
        TakenKept(date, taken, s);
      }
      FreeAvoidsRemoved(date, day, hours, blocks, taken, t, s);
    }
    forall s | Fixed(s) in blocks && AskedFor(date, hours, s)
      ensures !In(t, s)
    {
      if Fetched(date, s) {
        FixedKept(date, blocks, s);
      }
      FreeAvoidsRemoved(date, day, hours, blocks, taken, t, s);
    }
    forall from: Clock, to: Clock | Recurring(day, from, to) in blocks
      ensures !In(t, OnDay(date, from, to))
    {
      RecurringKept(date, day, blocks, from, to);
      FreeAvoidsRemoved(date, day, hours, blocks, taken, t, OnDay(date, from, to));
    }
  }

  /** An occurrence of a recurring block, on whatever day, meets the free time of a day only if it is yesterday's
      and runs past midnight. */
  lemma OnlyYesterdaysBlockMeetsFree(date: int, zone: int, other: int, hours: seq<Hours>, blocks: seq<Block>,
                                     taken: seq<Span>, from: Clock, to: Clock, t: int)
    requires date == DayOf(date, zone) && other == DayOf(other, zone) && SameDay(hours)
    requires var day := Pricing.DayOfWeek(date, zone);
             Proper(Removed(date, day, blocks, taken)) && Covers(Free(date, day, hours, blocks, taken), t)
    requires Recurring(Pricing.DayOfWeek(other, zone), from, to) in blocks && In(t, OnDay(other, from, to))
    ensures other == date - Pricing.DAY && to <= from
  {
    var day := Pricing.DayOfWeek(date, zone);
    FreeAvoidsRemoved(date, day, hours, blocks, taken, t, Span(0, 0));
    FreeAvoidsEverything(date, day, hours, blocks, taken, t);
    WholeDays(date, other, zone);
  }

  lemma WholeDays(date: int, other: int, zone: int)
    requires date == DayOf(date, zone) && other == DayOf(other, zone)
    ensures other < date ==> other <= date - Pricing.DAY
    ensures other <= date - Pricing.DAY && date < other + 2 * Pricing.DAY ==> other == date - Pricing.DAY
    ensures other > date ==> other >= date + Pricing.DAY
  {
    var m, n := (date + zone) / Pricing.DAY, (other + zone) / Pricing.DAY;
    assert date + zone == m * Pricing.DAY && other + zone == n * Pricing.DAY;
  }

  /** Such a block: yesterday's from 22:00 to 02:00 leaves midnight free today. */
  lemma YesterdaysBlockIsFree()
    ensures var hours, blocks := [Hours(0, 0, 120, false)], [Recurring(6, 1320, 120)];
            SameDay(hours) && Pricing.DayOfWeek(-Pricing.DAY, 0) == 6 && Proper(Removed(0, 0, blocks, []))
            && Covers(Free(0, 0, hours, blocks, []), 0) && In(0, OnDay(-Pricing.DAY, 1320, 120))
  {
    var blocks := [Recurring(6, 1320, 120)];
    assert blocks[..0] == [];
    assert RecurringSpans(0, 0, blocks) == [] && FixedSpans(0, blocks) == [];
    NothingRemoved([Hours(0, 0, 120, false)], blocks, [], 0);
  }

  /** And hours from 22:00 to 02:00 leave midnight free whatever is booked there. */
  lemma BookedMidnightIsFree()
    ensures var hours, taken := [Hours(0, 1320, 120, false)], [Span(Pricing.DAY, Pricing.DAY + Pricing.STEP)];
            Proper(Removed(0, 0, [], taken)) && Covers(Free(0, 0, hours, [], taken), Pricing.DAY)
  {
    var taken := [Span(Pricing.DAY, Pricing.DAY + Pricing.STEP)];
    assert taken[..0] == [];
    assert TakenSpans(0, taken) == [];
    NothingRemoved([Hours(0, 1320, 120, false)], [], taken, Pricing.DAY);
  }

  lemma NothingRemoved(hours: seq<Hours>, blocks: seq<Block>, taken: seq<Span>, t: int)
    requires |hours| == 1 && hours[0].day == 0 && !hours[0].closed && In(t, OnDay(0, hours[0].open, hours[0].close))
    requires Removed(0, 0, blocks, taken) == []
    ensures Proper(Removed(0, 0, blocks, taken)) && Covers(Free(0, 0, hours, blocks, taken), t)
  {
    var base := BaseIntervals(0, 0, hours);
    assert hours[..0] == [];
    assert BaseIntervals(0, 0, hours[..0]) == [];
    assert base == [] + [OnDay(0, hours[0].open, hours[0].close)];
    CoversSingle(base[0], t);
    UnionCanonical(base);
    CarveAllExact(Union(base), Typed([]));
  }

  lemma FreeIsCanonical(date: int, day: int, hours: seq<Hours>, blocks: seq<Block>, taken: seq<Span>)
    requires Proper(Removed(date, day, blocks, taken))
    ensures Canonical(Free(date, day, hours, blocks, taken))
  {
    UnionCanonical(BaseIntervals(date, day, hours));
    CarveAllExact(Union(BaseIntervals(date, day, hours)), Typed(Removed(date, day, blocks, taken)));
  }

  lemma OfferedStart(slots: seq<Slot>, k: nat, starts: seq<int>, d: int, table: seq<Pricing.Rule>, zone: int)
    requires Offers(slots, starts, table, zone, d) && k < |slots|
    ensures k < |starts| && slots[k].start == starts[k] && slots[k].end == starts[k] + d
    ensures Pricing.Quote(table, zone, slots[k].start, slots[k].end) == Ok(slots[k].price)
  {
    assert IsQuoted(slots[k], starts[k], table, zone, d);
  }

  lemma StartIsInside(k: nat, free: seq<TimeInterval>, d: int, table: seq<Pricing.Rule>, zone: int)
    requires d > 0 && Canonical(free) && k < |KeepPriced(table, zone, Grid(free, d), d)|
    ensures Inside(free, KeepPriced(table, zone, Grid(free, d), d)[k], d)
  {
    var x := KeepPriced(table, zone, Grid(free, d), d)[k];
    KeepPricedAll(table, zone, Grid(free, d), d);
    assert x in Grid(free, d);
    GridIsPacking(free, d);
  }

  /** An offered slot is free throughout and carries its exact quote. */
  lemma SlotIsFree(slots: seq<Slot>, k: nat, date: int, zone: int, hours: seq<Hours>, blocks: seq<Block>,
                   taken: seq<Span>, d: int, table: seq<Pricing.Rule>)
    requires Offered(slots, date, zone, hours, blocks, taken, d, table) && k < |slots|
    ensures slots[k].end == slots[k].start + d
    ensures Pricing.Quote(table, zone, slots[k].start, slots[k].end) == Ok(slots[k].price)
    ensures Inside(Free(date, Pricing.DayOfWeek(date, zone), hours, blocks, taken), slots[k].start, d)
  {
    var day := Pricing.DayOfWeek(date, zone);
    var free := Free(date, day, hours, blocks, taken);
    FreeIsCanonical(date, day, hours, blocks, taken);
    OfferedStart(slots, k, KeepPriced(table, zone, Grid(free, d), d), d, table, zone);
    StartIsInside(k, free, d, table, zone);
  }

  /** It answers unless the venue is open that weekday and a fixed block or a booking that meets the day ends no
      later than it begins. */
  lemma AnswersIff(date: int, zone: int, hours: seq<Hours>, blocks: seq<Block>, taken: seq<Span>)
    ensures Answers(date, zone, hours, blocks, taken) <==>
            || (forall h :: h in hours && h.day == Pricing.DayOfWeek(date, zone) ==> h.closed)
            || ((forall s :: Fixed(s) in blocks && date < s.end && s.start < date + Pricing.DAY ==> s.start < s.end)
                && (forall s :: s in taken && date < s.end && s.start < date + Pricing.DAY ==> s.start < s.end))
  {
    ShutDayIsEmpty(date, Pricing.DayOfWeek(date, zone), hours);
    ProperIff(date, Pricing.DayOfWeek(date, zone), blocks, taken);
  }

  lemma WithinDay(date: int, zone: int, t: int)
    requires date == DayOf(date, zone) && date <= t < date + Pricing.DAY
    ensures DayOf(t, zone) == date
  {
    assert (t + zone) % Pricing.DAY == t - date;
  }

  /** An offered slot starts on the day it is offered for, so the availability call inside a booking of it is
      for that day, and answers. */
  lemma SlotOnItsDay(slots: seq<Slot>, k: nat, date: int, zone: int, hours: seq<Hours>, blocks: seq<Block>,
                     taken: seq<Span>, d: int, table: seq<Pricing.Rule>)
    requires SameDay(hours) && Offered(slots, date, zone, hours, blocks, taken, d, table) && k < |slots|
    ensures DayOf(slots[k].start, zone) == date
    ensures Answers(DayOf(slots[k].start, zone), zone, hours, blocks, taken)
  {
    var x := slots[k].start;
    SlotIsFree(slots, k, date, zone, hours, blocks, taken, d, table);
    FreeAvoidsRemoved(date, Pricing.DayOfWeek(date, zone), hours, blocks, taken, x, Span(0, 0));
    WithinDay(date, zone, x);
  }

  /** An offered slot overlaps no active booking of the facility. */
  lemma OfferedSlotIsUntaken(slots: seq<Slot>, k: nat, date: int, zone: int, hours: seq<Hours>, blocks: seq<Block>,
                             taken: seq<Span>, d: int, table: seq<Pricing.Rule>,
                             rows: map<int, Bookings.Booking>, facility: int)
    requires SameDay(hours) && Offered(slots, date, zone, hours, blocks, taken, d, table) && k < |slots|
    requires ListsActive(taken, rows, facility)
    requires forall j :: j in rows ==> rows[j].start < rows[j].end
    ensures !Bookings.SlotTaken(rows, facility, slots[k].start, slots[k].end, None)
  {
    var x := slots[k].start;
    var day := Pricing.DayOfWeek(date, zone);
    SlotIsFree(slots, k, date, zone, hours, blocks, taken, d, table);
    forall j | j in rows && Bookings.Active(rows[j]) && rows[j].facility == facility
      ensures !Bookings.Overlapping(rows[j], x, x + d)
    {
      var s := Span(rows[j].start, rows[j].end);
      assert s in taken;
      var t := if x < s.start then s.start else x;
      if x <= t < x + d {
        FreeAvoidsEverything(date, day, hours, blocks, taken, t);
        assert AskedFor(date, hours, s);
      }
    }
  }

  /** Every offered future slot is bookable at the quoted price, on the service code alone. */
  lemma OfferedSlotIsBookable(slots: seq<Slot>, k: nat, date: int, zone: int, hours: seq<Hours>, blocks: seq<Block>,
                              taken: seq<Span>, d: int, table: seq<Pricing.Rule>,
                              t: Bookings.Tables, id: int, want: Bookings.Booking, now: int)
    requires SameDay(hours) && Offered(slots, date, zone, hours, blocks, taken, d, table) && k < |slots|
    requires ListsActive(taken, t.rows, want.facility)
    requires forall j :: j in t.rows ==> t.rows[j].start < t.rows[j].end
    requires want.start == slots[k].start && want.end == slots[k].end && now <= want.start
    requires id !in t.rows && (want.key.None? || forall j :: j in t.rows ==> t.rows[j].key != want.key)
    ensures var quote := Pricing.Quote(table, zone, want.start, want.end);
            && quote.Ok?
            && Bookings.CreateTx(false, t, id, want, Some(quote.value), now,
                                 Answers(DayOf(want.start, zone), zone, hours, blocks, taken))
               == Ok(t.(rows := t.rows[id := want.(status := Bookings.Pending, price := slots[k].price)]))
  {
    SlotIsFree(slots, k, date, zone, hours, blocks, taken, d, table);
    SlotOnItsDay(slots, k, date, zone, hours, blocks, taken, d, table);
    OfferedSlotIsUntaken(slots, k, date, zone, hours, blocks, taken, d, table, t.rows, want.facility);
  }

  /** With the exclusion constraint the same booking goes through if and only if no row that is
      rejected, checked in, completed or a no-show overlaps the slot: slot generation ignores those
      rows and the constraint does not. */
  lemma BookableUnderConstraintIff(slots: seq<Slot>, k: nat, date: int, zone: int, hours: seq<Hours>,
                                   blocks: seq<Block>,
                                   taken: seq<Span>, d: int, table: seq<Pricing.Rule>,
                                   t: Bookings.Tables, id: int, want: Bookings.Booking, now: int)
    requires SameDay(hours) && Offered(slots, date, zone, hours, blocks, taken, d, table) && k < |slots|
    requires ListsActive(taken, t.rows, want.facility)
    requires forall j :: j in t.rows ==> t.rows[j].start < t.rows[j].end
    requires want.start == slots[k].start && want.end == slots[k].end && now <= want.start
    requires id !in t.rows && (want.key.None? || forall j :: j in t.rows ==> t.rows[j].key != want.key)
    ensures Bookings.CreateTx(true, t, id, want, Some(slots[k].price), now,
                              Answers(DayOf(want.start, zone), zone, hours, blocks, taken)).Ok? <==>
            forall j :: j in t.rows && t.rows[j].facility == want.facility
                && t.rows[j].status in {Bookings.Rejected, Bookings.CheckedIn, Bookings.NoShow, Bookings.Completed}
                ==> !Bookings.Overlapping(t.rows[j], want.start, want.end)
  {
    SlotIsFree(slots, k, date, zone, hours, blocks, taken, d, table);
    SlotOnItsDay(slots, k, date, zone, hours, blocks, taken, d, table);
    OfferedSlotIsUntaken(slots, k, date, zone, hours, blocks, taken, d, table, t.rows, want.facility);
    var row := want.(status := Bookings.Pending, price := slots[k].price);
    forall j | j in t.rows && t.rows[j].facility == want.facility && Bookings.Active(t.rows[j])
      ensures !Bookings.Overlapping(t.rows[j], row.start, row.end)
    {
    }
  }

  /** The verdict of a reschedule: some slot of the new duration is the new span, or covers it. */
  predicate IsAvailable(slots: seq<Slot>, start: int, end: int) {
    || (exists i :: 0 <= i < |slots| && slots[i].start == start && slots[i].end == end)
    || (exists i :: 0 <= i < |slots| && slots[i].start <= start && end <= slots[i].end)
  }

  /** Every slot is this long. */
  ghost predicate AllOfLength(slots: seq<Slot>, d: int) {
    forall k :: 0 <= k < |slots| ==> slots[k].end == slots[k].start + d
  }

  lemma OfferedOfLength(slots: seq<Slot>, date: int, zone: int, hours: seq<Hours>, blocks: seq<Block>,
                        taken: seq<Span>, d: int, table: seq<Pricing.Rule>)
    requires Offered(slots, date, zone, hours, blocks, taken, d, table)
    ensures AllOfLength(slots, d)
  {
    forall k | 0 <= k < |slots|
      ensures slots[k].end == slots[k].start + d
    {
      SlotIsFree(slots, k, date, zone, hours, blocks, taken, d, table);
    }
  }

  lemma SlotAt(slots: seq<Slot>, start: int, end: int) returns (k: nat)
    requires AllOfLength(slots, end - start)
    ensures IsAvailable(slots, start, end) ==> k < |slots| && slots[k].start == start && slots[k].end == end
  {
    if IsAvailable(slots, start, end) {
      k :| 0 <= k < |slots| && slots[k].start == start;
    } else {
      k := 0;
    }
  }

  lemma AvailableIffSlotStarts(slots: seq<Slot>, start: int, end: int)
    requires AllOfLength(slots, end - start)
    ensures IsAvailable(slots, start, end) <==> exists k :: 0 <= k < |slots| && slots[k].start == start
  {
  }

  /** Slots of exactly the new duration cover the new span only if one of them is it. */
  lemma AvailableIffOffered(slots: seq<Slot>, date: int, zone: int, hours: seq<Hours>, blocks: seq<Block>,
                            taken: seq<Span>, start: int, end: int, table: seq<Pricing.Rule>)
    requires Offered(slots, date, zone, hours, blocks, taken, end - start, table)
    ensures IsAvailable(slots, start, end) <==> exists k :: 0 <= k < |slots| && slots[k].start == start
  {
    OfferedOfLength(slots, date, zone, hours, blocks, taken, end - start, table);
    AvailableIffSlotStarts(slots, start, end);
  }

  /** No slot overlaps an active booking. */
  ghost predicate AllUntaken(slots: seq<Slot>, rows: map<int, Bookings.Booking>, facility: int) {
    forall k :: 0 <= k < |slots| ==> !Bookings.SlotTaken(rows, facility, slots[k].start, slots[k].end, None)
  }

  lemma OfferedAllUntaken(slots: seq<Slot>, date: int, zone: int, hours: seq<Hours>, blocks: seq<Block>,
                          taken: seq<Span>, d: int, table: seq<Pricing.Rule>,
                          rows: map<int, Bookings.Booking>, facility: int)
    requires SameDay(hours) && Offered(slots, date, zone, hours, blocks, taken, d, table)
    requires ListsActive(taken, rows, facility)
    requires forall j :: j in rows ==> rows[j].start < rows[j].end
    ensures AllUntaken(slots, rows, facility)
  {
    forall k | 0 <= k < |slots|
      ensures !Bookings.SlotTaken(rows, facility, slots[k].start, slots[k].end, None)
    {
      OfferedSlotIsUntaken(slots, k, date, zone, hours, blocks, taken, d, table, rows, facility);
    }
  }

  lemma AvailableIsUntaken(slots: seq<Slot>, start: int, end: int, rows: map<int, Bookings.Booking>, facility: int)
    requires AllOfLength(slots, end - start) && AllUntaken(slots, rows, facility)
    ensures IsAvailable(slots, start, end) ==> !Bookings.SlotTaken(rows, facility, start, end, None)
  {
    var k := SlotAt(slots, start, end);
  }

  /** An active booking is moved to a future span, at a price that is allowed, if and only if one of the slots
      offered for that day and duration starts there; and then exactly its span and price change. */
  lemma RescheduledIffOffered(slots: seq<Slot>, date: int, zone: int, hours: seq<Hours>, blocks: seq<Block>,
                              taken: seq<Span>, table: seq<Pricing.Rule>, t: Bookings.Tables, id: int,
                              paid: bool, start: int, end: int, price: int, now: int)
    requires SameDay(hours) && Offered(slots, date, zone, hours, blocks, taken, end - start, table)
    requires id in t.rows && Bookings.Active(t.rows[id]) && ListsActive(taken, t.rows, t.rows[id].facility)
    requires forall j :: j in t.rows ==> t.rows[j].start < t.rows[j].end
    requires now <= start && (paid ==> price <= t.rows[id].price)
    requires start != t.rows[id].start || end != t.rows[id].end
    ensures var r := Bookings.RescheduleTx(false, t, id, t.rows[id], paid, start, end, Some(price), now,
                                           IsAvailable(slots, start, end));
            && (r.Ok? <==> exists k :: 0 <= k < |slots| && slots[k].start == start)
            && (r.Ok? ==> r.value == t.(rows := t.rows[id := t.rows[id].(start := start, end := end, price := price)]))
  {
    OfferedOfLength(slots, date, zone, hours, blocks, taken, end - start, table);
    OfferedAllUntaken(slots, date, zone, hours, blocks, taken, end - start, table, t.rows, t.rows[id].facility);
    RescheduledIffSlotStarts(slots, t, id, paid, start, end, price, now);
  }

  lemma RescheduledIffSlotStarts(slots: seq<Slot>, t: Bookings.Tables, id: int, paid: bool, start: int, end: int,
                                 price: int, now: int)
    requires id in t.rows && Bookings.Active(t.rows[id]) && now <= start < end && (paid ==> price <= t.rows[id].price)
    requires start != t.rows[id].start || end != t.rows[id].end
    requires AllOfLength(slots, end - start) && AllUntaken(slots, t.rows, t.rows[id].facility)
    ensures var r := Bookings.RescheduleTx(false, t, id, t.rows[id], paid, start, end, Some(price), now,
                                           IsAvailable(slots, start, end));
            && (r.Ok? <==> exists k :: 0 <= k < |slots| && slots[k].start == start)
            && (r.Ok? ==> r.value == t.(rows := t.rows[id := t.rows[id].(start := start, end := end, price := price)]))
  {
    AvailableIffSlotStarts(slots, start, end);
    AvailableIsUntaken(slots, start, end, t.rows, t.rows[id].facility);
    ReschedulesIffAvailable(t, id, paid, start, end, price, now, IsAvailable(slots, start, end));
  }

  lemma ReschedulesIffAvailable(t: Bookings.Tables, id: int, paid: bool, start: int, end: int, price: int, now: int,
                                available: bool)
    requires id in t.rows && Bookings.Active(t.rows[id]) && now <= start < end && (paid ==> price <= t.rows[id].price)
    requires start != t.rows[id].start || end != t.rows[id].end
    requires available ==> !Bookings.SlotTaken(t.rows, t.rows[id].facility, start, end, None)
    ensures var r := Bookings.RescheduleTx(false, t, id, t.rows[id], paid, start, end, Some(price), now, available);
            && (r.Ok? <==> available)
            && (r.Ok? ==> r.value == t.(rows := t.rows[id := t.rows[id].(start := start, end := end, price := price)]))
  {
  }

  /** Once booked, nothing overlapping is offered, for any day, duration or blocks, until the booking leaves the
      active statuses; for hours that run past midnight, if it begins before that midnight. */
  lemma BookedSlotNotOffered(slots: seq<Slot>, k: nat, date: int, zone: int, hours: seq<Hours>, blocks: seq<Block>,
                             taken: seq<Span>, d: int, table: seq<Pricing.Rule>,
                             rows: map<int, Bookings.Booking>, id: int)
    requires Offered(slots, date, zone, hours, blocks, taken, d, table) && k < |slots|
    requires id in rows && Bookings.Active(rows[id]) && ListsActive(taken, rows, rows[id].facility)
    requires rows[id].start < rows[id].end && AskedFor(date, hours, Span(rows[id].start, rows[id].end))
    ensures slots[k].end <= rows[id].start || rows[id].end <= slots[k].start
  {
    var s, x := Span(rows[id].start, rows[id].end), slots[k].start;
    SlotIsFree(slots, k, date, zone, hours, blocks, taken, d, table);
    assert s in taken;
    var t := if x < s.start then s.start else x;
    if x <= t < x + d {
      FreeAvoidsEverything(date, Pricing.DayOfWeek(date, zone), hours, blocks, taken, t);
    }
  }

  /** When every slot of the day prices, the slots are a largest packing: no set of disjoint spans of
      the slot length inside the free time has more members. */
  lemma OfferIsOptimal(slots: seq<Slot>, date: int, zone: int, hours: seq<Hours>, blocks: seq<Block>,
                       taken: seq<Span>, d: int, table: seq<Pricing.Rule>, starts: set<int>)
    requires Offered(slots, date, zone, hours, blocks, taken, d, table) && Apart(starts, d)
    requires var free := Free(date, Pricing.DayOfWeek(date, zone), hours, blocks, taken);
             && (forall x :: x in starts ==> Inside(free, x, d))
             && (forall x :: x in Grid(free, d) ==> Priced(table, zone, x, d))
    ensures |starts| <= |slots|
    ensures forall i, j :: 0 <= i < j < |slots| ==> slots[i].end <= slots[j].start
  {
    var day := Pricing.DayOfWeek(date, zone);
    var free := Free(date, day, hours, blocks, taken);
    UnionCanonical(BaseIntervals(date, day, hours));
    CarveAllExact(Union(BaseIntervals(date, day, hours)), Typed(Removed(date, day, blocks, taken)));
    KeepPricedAll(table, zone, Grid(free, d), d);
    GridOptimal(free, d, starts);
    GridIsPacking(free, d);
    forall i, j | 0 <= i < j < |slots|
      ensures slots[i].end <= slots[j].start
    {
      assert IsQuoted(slots[i], Grid(free, d)[i], table, zone, d);
      assert IsQuoted(slots[j], Grid(free, d)[j], table, zone, d);
    }
  }
}
