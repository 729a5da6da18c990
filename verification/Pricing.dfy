/** Prices a span of time in fifteen-minute steps, each step at the rate of the first
    matching rule. Instants are milliseconds in a zone of fixed offset. Rates are paise per
    hour and a price is rate times milliseconds, so nothing is ever rounded. */
module Pricing {
  import opened Wrappers

  const MINUTE := 60000
  const STEP := 15 * MINUTE
  const DAY := 1440 * MINUTE

  datatype Rule = Rule(
    name: string, rate: int, currency: string, priority: int, active: bool,
    days: set<int>, windowStart: Option<int>, windowEnd: Option<int>,
    effectiveFrom: Option<int>, effectiveTo: Option<int>)

  datatype Entry = Entry(start: int, end: int, price: int, ruleName: string)

  datatype PricingResult = PricingResult(total: int, currency: string, breakdown: seq<Entry>)

  datatype PricingError = NoRules | NoRuleForStep

  function DayOfWeek(t: int, zone: int): int {
    ((t + zone) / DAY) % 7
  }

  function MinuteOfDay(t: int, zone: int): int {
    ((t + zone) % DAY) / MINUTE
  }

  /** A window whose start is not after its end is an ordinary one; otherwise it runs overnight. */
  predicate InWindow(r: Rule, minute: int) {
    r.windowStart.Some? && r.windowEnd.Some? ==>
      if r.windowStart.value <= r.windowEnd.value
      then r.windowStart.value <= minute < r.windowEnd.value
      else r.windowStart.value <= minute || minute < r.windowEnd.value
  }

  predicate Matches(r: Rule, t: int, zone: int) {
    && (r.days != {} ==> DayOfWeek(t, zone) in r.days)
    && InWindow(r, MinuteOfDay(t, zone))
    && (r.effectiveFrom.Some? ==> r.effectiveFrom.value <= t)
    && (r.effectiveTo.Some? ==> t <= r.effectiveTo.value)
  }

  function FindBestRule(rules: seq<Rule>, t: int, zone: int): Option<Rule> {
    if rules == [] then None
    else if Matches(rules[0], t, zone) then Some(rules[0])
    else FindBestRule(rules[1..], t, zone)
  }

  function RateAt(rules: seq<Rule>, t: int, zone: int): Option<int> {
    match FindBestRule(rules, t, zone)
    case None => None
    case Some(r) => Some(r.rate)
  }

  function Active(table: seq<Rule>): seq<Rule> {
    if table == [] then []
    else if table[0].active then [table[0]] + Active(table[1..])
    else Active(table[1..])
  }

  predicate MayApply(r: Rule, start: int, end: int) {
    && r.active
    && (r.effectiveFrom.Some? ==> r.effectiveFrom.value <= end)
    && (r.effectiveTo.Some? ==> start <= r.effectiveTo.value)
  }

  /** The query: rules of the facility that may apply between start and end, in table order
      (highest priority first). */
  function Fetch(table: seq<Rule>, start: int, end: int): seq<Rule> {
    if table == [] then []
    else if MayApply(table[0], start, end) then [table[0]] + Fetch(table[1..], start, end)
    else Fetch(table[1..], start, end)
  }

  predicate ByPriority(table: seq<Rule>) {
    forall i, j :: 0 <= i < j < |table| ==> table[i].priority >= table[j].priority
  }

  /** First match in priority order is the best match: nothing active that matches ranks higher,
      and no rule is found only when none matches. */
  lemma {:induction false} FirstMatchIsHighest(table: seq<Rule>, t: int, zone: int)
    requires ByPriority(table)
    ensures match FindBestRule(Active(table), t, zone)
            case None => forall r <- table :: r.active ==> !Matches(r, t, zone)
            case Some(best) =>
              && best in table && best.active && Matches(best, t, zone)
              && forall r <- table :: r.active && Matches(r, t, zone) ==> r.priority <= best.priority
  {
    if table != [] {
      FirstMatchIsHighest(table[1..], t, zone);
      assert table == [table[0]] + table[1..];
      if table[0].active {
        assert Active(table)[1..] == Active(table[1..]);
      }
    }
  }

  /** The date prefilter of the query never changes which rule is found. */
  lemma {:induction false} PrefilterKeepsBest(table: seq<Rule>, start: int, end: int, t: int, zone: int)
    requires start <= t <= end
    ensures FindBestRule(Fetch(table, start, end), t, zone) == FindBestRule(Active(table), t, zone)
  {
    if table != [] {
      PrefilterKeepsBest(table[1..], start, end, t, zone);
      if MayApply(table[0], start, end) {
        assert Fetch(table, start, end)[1..] == Fetch(table[1..], start, end);
      }
      if table[0].active {
        assert Active(table)[1..] == Active(table[1..]);
      }
    }
  }

  // ------------------------------------------------------------ which rules count, and when

  /** The instant at a week, weekday, minute and rest of a minute of the local calendar. */
  function LocalInstant(week: int, weekday: int, minute: int, rest: int, zone: int): int {
    DAY * (7 * week + weekday) + MINUTE * minute + rest - zone
  }

  lemma OnTheCalendar(week: int, weekday: int, minute: int, rest: int, zone: int)
    requires 0 <= weekday < 7 && 0 <= minute < 1440 && 0 <= rest < MINUTE
    ensures var t := LocalInstant(week, weekday, minute, rest, zone);
            DayOfWeek(t, zone) == weekday && MinuteOfDay(t, zone) == minute
  {
    var t := LocalInstant(week, weekday, minute, rest, zone) + zone;
    assert t == DAY * (7 * week + weekday) + (MINUTE * minute + rest);
    assert t / DAY == 7 * week + weekday && t % DAY == MINUTE * minute + rest;
  }

  /** Read off the local calendar, a rule is in force on its days, from the minute at which its window opens up
      to the one at which it closes, counted around the clock, from its first instant through its last. */
  lemma InForceIff(r: Rule, week: int, weekday: int, minute: int, rest: int, zone: int)
    requires 0 <= weekday < 7 && 0 <= minute < 1440 && 0 <= rest < MINUTE
    requires r.windowStart.Some? ==> 0 <= r.windowStart.value < 1440
    requires r.windowEnd.Some? ==> 0 <= r.windowEnd.value < 1440
    ensures var t := LocalInstant(week, weekday, minute, rest, zone);
            FindBestRule([r], t, zone).Some? <==>
            && (r.days == {} || weekday in r.days)
            && (r.windowStart.Some? && r.windowEnd.Some? ==>
                  (minute - r.windowStart.value) % 1440 < (r.windowEnd.value - r.windowStart.value) % 1440)
            && (r.effectiveFrom.None? || r.effectiveFrom.value <= t)
            && (r.effectiveTo.None? || t <= r.effectiveTo.value)
  {
    OnTheCalendar(week, weekday, minute, rest, zone);
  }

  lemma {:induction false} FindBestConcat(a: seq<Rule>, b: seq<Rule>, t: int, zone: int)
    ensures FindBestRule(a + b, t, zone)
         == if FindBestRule(a, t, zone).Some? then FindBestRule(a, t, zone) else FindBestRule(b, t, zone)
  {
    if a == [] {
      assert a + b == b;
    } else {
      assert (a + b)[1..] == a[1..] + b;
      FindBestConcat(a[1..], b, t, zone);
    }
  }

  lemma {:induction false} ActiveConcat(a: seq<Rule>, b: seq<Rule>)
    ensures Active(a + b) == Active(a) + Active(b)
  {
    if a == [] {
      assert a + b == b;
    } else {
      assert (a + b)[1..] == a[1..] + b;
      ActiveConcat(a[1..], b);
    }
  }

  /** Of two rules on every day whose windows take turns, exactly one is in force at every instant, whichever of
      the windows runs overnight. */
  lemma WindowsPartition(x: Rule, y: Rule, t: int, zone: int)
    requires x.days == y.days == {}
    requires x.effectiveFrom == x.effectiveTo == y.effectiveFrom == y.effectiveTo == None
    requires x.windowStart.Some? && x.windowEnd.Some? && x.windowStart != x.windowEnd
    requires y.windowStart == x.windowEnd && y.windowEnd == x.windowStart
    ensures FindBestRule([x], t, zone).Some? <==> FindBestRule([y], t, zone).None?
    ensures FindBestRule([x, y], t, zone) in {Some(x), Some(y)}
  {
    FindBestConcat([x], [y], t, zone);
    assert [x] + [y] == [x, y];
  }

  lemma {:induction false} FetchConcat(a: seq<Rule>, b: seq<Rule>, start: int, end: int)
    ensures Fetch(a + b, start, end) == Fetch(a, start, end) + Fetch(b, start, end)
  {
    if a == [] {
      assert a + b == b;
    } else {
      assert (a + b)[1..] == a[1..] + b;
      FetchConcat(a[1..], b, start, end);
    }
  }

  /** A rule whose validity is not empty is fetched if and only if it is active and valid at some instant
      between start and end; fetched rules stay in the order of the table. */
  lemma FetchedIff(before: seq<Rule>, r: Rule, after: seq<Rule>, start: int, end: int)
    requires start <= end
    requires r.effectiveFrom.Some? && r.effectiveTo.Some? ==> r.effectiveFrom.value <= r.effectiveTo.value
    ensures Fetch(before + [r] + after, start, end)
         == Fetch(before, start, end)
            + (if r.active && exists t :: start <= t <= end && ValidAt(r, t) then [r] else [])
            + Fetch(after, start, end)
  {
    FetchConcat(before + [r], after, start, end);
    FetchConcat(before, [r], start, end);
    var from := if r.effectiveFrom.Some? && r.effectiveFrom.value > start then r.effectiveFrom.value else start;
    assert MayApply(r, start, end) ==> from <= end && ValidAt(r, from);
  }

  predicate ValidAt(r: Rule, t: int) {
    (r.effectiveFrom.None? || r.effectiveFrom.value <= t) && (r.effectiveTo.None? || t <= r.effectiveTo.value)
  }

  // ------------------------------------------------------------ stepwise price

  function Min(a: int, b: int): int {
    if a < b then a else b
  }

  function Plus(a: Option<int>, b: Option<int>): Option<int> {
    if a.Some? && b.Some? then Some(a.value + b.value) else None
  }

  /** What the steps from cur to end cost, or None if one of them has no rule. */
  function StepsCost(rules: seq<Rule>, zone: int, cur: int, end: int): Option<int>
    decreases end - cur
  {
    if cur >= end then Some(0)
    else match FindBestRule(rules, cur, zone)
      case None => None
      case Some(r) => Plus(Some(r.rate * (Min(cur + STEP, end) - cur)), StepsCost(rules, zone, cur + STEP, end))
  }

  predicate OnGrid(start: int, t: int) {
    (t - start) % STEP == 0
  }

  lemma NextOnGrid(start: int, t: int)
    requires OnGrid(start, t)
    ensures OnGrid(start, t + STEP)
  {
  }

  lemma PlusAssociative(a: Option<int>, b: Option<int>, c: Option<int>)
    ensures Plus(a, Plus(b, c)) == Plus(Plus(a, b), c)
  {
  }

  lemma OneStepFits(a: int, m: int)
    requires a < m && OnGrid(a, m)
    ensures a + STEP <= m && OnGrid(a + STEP, m)
  {
  }

  lemma FirstStep(rules: seq<Rule>, zone: int, a: int, b: int)
    requires a + STEP <= b
    ensures StepsCost(rules, zone, a, b) == Plus(StepPrice(rules, zone, a), StepsCost(rules, zone, a + STEP, b))
  {
  }

  /** What one whole step costs. */
  function StepPrice(rules: seq<Rule>, zone: int, a: int): Option<int> {
    match FindBestRule(rules, a, zone)
    case None => None
    case Some(r) => Some(r.rate * STEP)
  }

  lemma {:induction false} StepsAdditive(rules: seq<Rule>, zone: int, a: int, m: int, b: int)
    requires a <= m <= b && OnGrid(a, m)
    ensures StepsCost(rules, zone, a, b) == Plus(StepsCost(rules, zone, a, m), StepsCost(rules, zone, m, b))
    decreases m - a
  {
    if a < m {
      OneStepFits(a, m);
      StepsAdditive(rules, zone, a + STEP, m, b);
      FirstStep(rules, zone, a, m);
      FirstStep(rules, zone, a, b);
      PlusAssociative(StepPrice(rules, zone, a), StepsCost(rules, zone, a + STEP, m), StepsCost(rules, zone, m, b));
    }
  }

  lemma {:induction false} StepsSameRules(p: seq<Rule>, q: seq<Rule>, zone: int, a: int, b: int)
    requires forall t :: a <= t < b ==> FindBestRule(p, t, zone) == FindBestRule(q, t, zone)
    ensures StepsCost(p, zone, a, b) == StepsCost(q, zone, a, b)
    decreases b - a
  {
    if a < b {
      StepsSameRules(p, q, zone, a + STEP, b);
    }
  }

  lemma {:induction false} StepsFailIff(rules: seq<Rule>, zone: int, a: int, b: int)
    ensures StepsCost(rules, zone, a, b).None? <==>
            exists t :: a <= t < b && OnGrid(a, t) && FindBestRule(rules, t, zone).None?
    decreases b - a
  {
    if a < b {
      StepsFailIff(rules, zone, a + STEP, b);
      forall t | a < t < b && OnGrid(a, t)
        ensures a + STEP <= t && OnGrid(a + STEP, t)
      {
      }
      forall t | OnGrid(a + STEP, t)
        ensures OnGrid(a, t)
      {
      }
      assert OnGrid(a, a);
    }
  }

  /** The price of a span, without its breakdown. */
  function Quote(table: seq<Rule>, zone: int, start: int, end: int): Result<int, PricingError> {
    if Fetch(table, start, end) == [] then Err(NoRules)
    else match StepsCost(Fetch(table, start, end), zone, start, end)
      case None => Err(NoRuleForStep)
      case Some(total) => Ok(total)
  }

  lemma QuoteIsStepsCost(table: seq<Rule>, zone: int, start: int, end: int)
    requires start < end
    ensures StepsCost(Fetch(table, start, end), zone, start, end) == StepsCost(Active(table), zone, start, end)
    ensures Quote(table, zone, start, end).Ok? <==> StepsCost(Active(table), zone, start, end).Some?
    ensures Quote(table, zone, start, end).Ok? ==>
              Some(Quote(table, zone, start, end).value) == StepsCost(Active(table), zone, start, end)
  {
    forall t | start <= t < end
      ensures FindBestRule(Fetch(table, start, end), t, zone) == FindBestRule(Active(table), t, zone)
    {
      PrefilterKeepsBest(table, start, end, t, zone);
    }
    StepsSameRules(Fetch(table, start, end), Active(table), zone, start, end);
  }

  /** Pricing fails exactly when some step has no matching rule. */
  lemma QuoteFailsIff(table: seq<Rule>, zone: int, start: int, end: int)
    requires start < end
    ensures Quote(table, zone, start, end).Err? <==>
            exists t :: start <= t < end && OnGrid(start, t) && FindBestRule(Active(table), t, zone).None?
  {
    QuoteIsStepsCost(table, zone, start, end);
    StepsFailIff(Active(table), zone, start, end);
  }

  /** Splitting a span at any multiple of the step gives parts that add up, and the whole
      is priced exactly when both parts are. */
  lemma QuoteAdditive(table: seq<Rule>, zone: int, start: int, m: int, end: int)
    requires start < m < end && OnGrid(start, m)
    ensures var whole, left, right :=
            Quote(table, zone, start, end), Quote(table, zone, start, m), Quote(table, zone, m, end);
            && (whole.Ok? <==> left.Ok? && right.Ok?)
            && (whole.Ok? ==> whole.value == left.value + right.value)
  {
    QuoteIsStepsCost(table, zone, start, end);
    QuoteIsStepsCost(table, zone, start, m);
    QuoteIsStepsCost(table, zone, m, end);
    StepsAdditive(Active(table), zone, start, m, end);
  }

  /** A span wholly on other weekdays is priced as if the rule were not in the table. */
  lemma OffDaysIgnored(before: seq<Rule>, r: Rule, after: seq<Rule>, zone: int, start: int, end: int)
    requires start < end && r.days != {} && forall t :: start <= t < end ==> DayOfWeek(t, zone) !in r.days
    ensures var with, without :=
            Quote(before + [r] + after, zone, start, end), Quote(before + after, zone, start, end);
            (with.Ok? <==> without.Ok?) && (with.Ok? ==> with == without)
  {
    var p, q := Active(before + [r] + after), Active(before + after);
    ActiveConcat(before + [r], after);
    ActiveConcat(before, [r]);
    ActiveConcat(before, after);
    forall t | start <= t < end
      ensures FindBestRule(p, t, zone) == FindBestRule(q, t, zone)
    {
      OffDayNotFound(r, t, zone);
      FindBestConcat(Active(before) + Active([r]), Active(after), t, zone);
      FindBestConcat(Active(before), Active([r]), t, zone);
      FindBestConcat(Active(before), Active(after), t, zone);
    }
    StepsSameRules(p, q, zone, start, end);
    QuoteIsStepsCost(before + [r] + after, zone, start, end);
    QuoteIsStepsCost(before + after, zone, start, end);
  }

  lemma OffDayNotFound(r: Rule, t: int, zone: int)
    requires r.days != {} && DayOfWeek(t, zone) !in r.days
    ensures FindBestRule(Active([r]), t, zone).None?
  {
    assert [r][1..] == [];
    assert Active([r]) == if r.active then [r] else [];
  }

  // ------------------------------------------------------ refinement of the instant-by-instant price

  /** The reference price: the sum, over every instant, of the rate in force at that instant. */
  function InstantCost(rules: seq<Rule>, zone: int, a: int, b: int): Option<int>
    decreases b - a
  {
    if a >= b then Some(0) else Plus(InstantCost(rules, zone, a, b - 1), RateAt(rules, b - 1, zone))
  }

  function StepStart(start: int, t: int): int {
    t - (t - start) % STEP
  }

  /** Up to the first instant without a rule, the rate stays what it was when its step began. */
  ghost predicate RateStable(rules: seq<Rule>, zone: int, start: int, end: int) {
    forall t :: start <= t < end && Ruled(rules, zone, start, t) ==>
                  RateAt(rules, t, zone) == RateAt(rules, StepStart(start, t), zone)
  }

  /** Every instant from a up to b has a rule. */
  ghost predicate Ruled(rules: seq<Rule>, zone: int, a: int, b: int) {
    forall t :: a <= t < b ==> RateAt(rules, t, zone).Some?
  }

  lemma StepStartIn(start: int, t: int)
    requires start <= t
    ensures OnGrid(start, StepStart(start, t)) && start <= StepStart(start, t) <= t < StepStart(start, t) + STEP
  {
  }

  lemma WithinOneStep(rules: seq<Rule>, zone: int, s: int, e: int)
    requires s < e <= s + STEP
    ensures StepsCost(rules, zone, s, e) == match FindBestRule(rules, s, zone)
                                            case None => None
                                            case Some(r) => Some(r.rate * (e - s))
  {
  }

  lemma StepGrows(rules: seq<Rule>, zone: int, s: int, e: int)
    requires s < e <= s + STEP
    ensures StepsCost(rules, zone, s, e) == Plus(StepsCost(rules, zone, s, e - 1), RateAt(rules, s, zone))
  {
  }

  lemma StepsCostGrowsFrom(rules: seq<Rule>, zone: int, start: int, s: int, e: int)
    requires start <= s < e <= s + STEP && OnGrid(start, s)
    ensures StepsCost(rules, zone, start, e) == Plus(StepsCost(rules, zone, start, e - 1), RateAt(rules, s, zone))
  {
    StepsAdditive(rules, zone, start, s, e);
    StepsAdditive(rules, zone, start, s, e - 1);
    StepGrows(rules, zone, s, e);
    PlusAssociative(StepsCost(rules, zone, start, s), StepsCost(rules, zone, s, e - 1), RateAt(rules, s, zone));
  }

  /** One more instant costs the rate of the step it falls in. */
  lemma StepsCostGrows(rules: seq<Rule>, zone: int, start: int, e: int)
    requires start < e
    ensures StepsCost(rules, zone, start, e)
         == Plus(StepsCost(rules, zone, start, e - 1), RateAt(rules, StepStart(start, e - 1), zone))
  {
    var s := StepStart(start, e - 1);
    StepStartIn(start, e - 1);
    StepsCostGrowsFrom(rules, zone, start, s, e);
  }

  /** The reference price exists exactly where every instant has a rule. */
  lemma {:induction false} InstantPricedIff(rules: seq<Rule>, zone: int, a: int, b: int)
    ensures InstantCost(rules, zone, a, b).Some? <==> Ruled(rules, zone, a, b)
    decreases b - a
  {
    if a < b {
      InstantPricedIff(rules, zone, a, b - 1);
    }
  }

  lemma {:induction false} StableStepsAreExact(rules: seq<Rule>, zone: int, start: int, e: int)
    requires start <= e && RateStable(rules, zone, start, e)
    ensures StepsCost(rules, zone, start, e) == InstantCost(rules, zone, start, e)
    decreases e - start
  {
    if start < e {
      StableStepsAreExact(rules, zone, start, e - 1);
      StepsCostGrows(rules, zone, start, e);
      InstantPricedIff(rules, zone, start, e - 1);
    }
  }

  ghost predicate ExactOnPrefixes(rules: seq<Rule>, zone: int, start: int, end: int) {
    forall e :: start <= e <= end ==> StepsCost(rules, zone, start, e) == InstantCost(rules, zone, start, e)
  }

  lemma ExactStepsAreStable(rules: seq<Rule>, zone: int, start: int, end: int, t: int)
    requires start <= t < end && ExactOnPrefixes(rules, zone, start, end) && Ruled(rules, zone, start, t)
    ensures RateAt(rules, t, zone) == RateAt(rules, StepStart(start, t), zone)
  {
    StepsCostGrows(rules, zone, start, t + 1);
    InstantPricedIff(rules, zone, start, t);
    var before, after := InstantCost(rules, zone, start, t), InstantCost(rules, zone, start, t + 1);
    assert before == StepsCost(rules, zone, start, t);
    assert after == StepsCost(rules, zone, start, t + 1);
    assert after == Plus(before, RateAt(rules, t, zone));
  }

  /** The stepwise price agrees with the reference price on every span that begins at start, where either may
      fail for want of a rule, if and only if up to the first instant without a rule the rate never changes
      inside a step. */
  lemma ExactIffRateStable(rules: seq<Rule>, zone: int, start: int, end: int)
    ensures RateStable(rules, zone, start, end) <==> ExactOnPrefixes(rules, zone, start, end)
  {
    if RateStable(rules, zone, start, end) {
      forall e | start <= e <= end
        ensures StepsCost(rules, zone, start, e) == InstantCost(rules, zone, start, e)
      {
        StableStepsAreExact(rules, zone, start, e);
      }
    } else if ExactOnPrefixes(rules, zone, start, end) {
      forall t | start <= t < end && Ruled(rules, zone, start, t)
        ensures RateAt(rules, t, zone) == RateAt(rules, StepStart(start, t), zone)
      {
        ExactStepsAreStable(rules, zone, start, end, t);
      }
    }
  }

  predicate HasWindow(r: Rule) {
    r.windowStart.Some? && r.windowEnd.Some?
  }

  /** Every instant of the span at which the rule begins or ceases to match is a whole number of steps away
      from its start. */
  ghost predicate ChangesOnGrid(r: Rule, zone: int, start: int, end: int) {
    forall t :: start < t < end && !(Matches(r, t - 1, zone) <==> Matches(r, t, zone)) ==> OnGrid(start, t)
  }

  lemma {:induction false} MatchIsStable(r: Rule, zone: int, start: int, end: int, t: int)
    requires start <= t < end && ChangesOnGrid(r, zone, start, end)
    ensures Matches(r, t, zone) <==> Matches(r, StepStart(start, t), zone)
    decreases t - start
  {
    if !OnGrid(start, t) {
      assert StepStart(start, t) == StepStart(start, t - 1);
      MatchIsStable(r, zone, start, end, t - 1);
    }
  }

  lemma {:induction false} BestIsStable(rules: seq<Rule>, zone: int, start: int, end: int, t: int)
    requires start <= t < end && forall r <- rules :: ChangesOnGrid(r, zone, start, end)
    ensures FindBestRule(rules, t, zone) == FindBestRule(rules, StepStart(start, t), zone)
  {
    if rules != [] {
      MatchIsStable(rules[0], zone, start, end, t);
      BestIsStable(rules[1..], zone, start, end, t);
    }
  }

  /** When the active rules begin and cease to match on the grid of the span's start only, the stepwise price
      is the reference price. */
  lemma QuoteRefinesInstantPrice(table: seq<Rule>, zone: int, start: int, end: int)
    requires start < end && forall r <- Active(table) :: ChangesOnGrid(r, zone, start, end)
    ensures Quote(table, zone, start, end).Ok? <==> Ruled(Active(table), zone, start, end)
    ensures Quote(table, zone, start, end).Ok? ==>
              Some(Quote(table, zone, start, end).value) == InstantCost(Active(table), zone, start, end)
  {
    var rules := Active(table);
    forall t | start <= t < end
      ensures FindBestRule(rules, t, zone) == FindBestRule(rules, StepStart(start, t), zone)
    {
      BestIsStable(rules, zone, start, end, t);
    }
    StableStepsAreExact(rules, zone, start, end);
    QuoteIsStepsCost(table, zone, start, end);
    PricedIffEveryInstantHasRule(rules, zone, start, end);
  }

  lemma PricedIffEveryInstantHasRule(rules: seq<Rule>, zone: int, start: int, end: int)
    requires forall t :: start <= t < end ==>
             FindBestRule(rules, t, zone) == FindBestRule(rules, StepStart(start, t), zone)
    ensures StepsCost(rules, zone, start, end).Some? <==> Ruled(rules, zone, start, end)
  {
    StepsFailIff(rules, zone, start, end);
    forall t | start <= t < end && RateAt(rules, t, zone).None?
      ensures StepsCost(rules, zone, start, end).None?
    {
      StepStartIn(start, t);
      assert FindBestRule(rules, StepStart(start, t), zone).None?;
    }
    if StepsCost(rules, zone, start, end).None? {
      var t :| start <= t < end && OnGrid(start, t) && FindBestRule(rules, t, zone).None?;
      assert RateAt(rules, t, zone).None?;
    }
  }

  // ------------------------------------------------------------ which rules change on the grid

  /** The rule may match right before and right after midnight. */
  predicate SpansMidnight(r: Rule) {
    HasWindow(r) ==> r.windowEnd.value < r.windowStart.value
  }

  /** This minute of every day, which is midnight for 0 and 1440, is on the grid of start. */
  predicate DailyOnGrid(start: int, minute: int, zone: int) {
    0 <= minute <= 1440 && OnGrid(start, minute * MINUTE - zone)
  }

  /** What the rule itself says about its boundaries: both ends of its window, midnight if it has days that end
      there, and its dates are on the grid of start. The last instant of validity is inclusive in the code, so
      it is the instant after it that has to be. */
  predicate Aligned(r: Rule, zone: int, start: int) {
    && (r.days != {} && SpansMidnight(r) ==> DailyOnGrid(start, 0, zone))
    && (HasWindow(r) ==>
          DailyOnGrid(start, r.windowStart.value, zone) && DailyOnGrid(start, r.windowEnd.value, zone))
    && (r.effectiveFrom.Some? ==> OnGrid(start, r.effectiveFrom.value))
    && (r.effectiveTo.Some? ==> OnGrid(start, r.effectiveTo.value + 1))
  }

  lemma GridRepeatsDaily(start: int, t: int, day: int)
    requires OnGrid(start, t)
    ensures OnGrid(start, t + DAY * day)
  {
    var k := (t - start) / STEP;
    assert t + DAY * day - start == STEP * (k + 96 * day);
  }

  /** Between two instants with no grid point at the second, a minute of the day on the grid is passed only
      together with midnight. */
  lemma DailyBarrier(start: int, zone: int, minute: int, t: int)
    requires DailyOnGrid(start, minute, zone) && !OnGrid(start, t)
    ensures if (t - 1 + zone) / DAY == (t + zone) / DAY
            then minute <= MinuteOfDay(t - 1, zone) <==> minute <= MinuteOfDay(t, zone)
            else MinuteOfDay(t, zone) < minute <= MinuteOfDay(t - 1, zone)
  {
    var day, x := (t + zone) / DAY, (t + zone) % DAY;
    GridRepeatsDaily(start, minute * MINUTE - zone, day);
    GridRepeatsDaily(start, minute * MINUTE - zone, day - 1);
    assert x != minute * MINUTE;
    assert x == 0 ==> minute != 1440;
  }

  /** A rule whose boundaries are on the grid of start changes there only, overnight windows and steps across
      midnight included. */
  lemma AlignedChangesOnGrid(r: Rule, zone: int, start: int, end: int)
    requires Aligned(r, zone, start)
    ensures ChangesOnGrid(r, zone, start, end)
  {
    forall t | start < t < end && !OnGrid(start, t)
      ensures Matches(r, t - 1, zone) <==> Matches(r, t, zone)
    {
      if HasWindow(r) {
        DailyBarrier(start, zone, r.windowStart.value, t);
        DailyBarrier(start, zone, r.windowEnd.value, t);
      }
      if r.days != {} && SpansMidnight(r) {
        DailyBarrier(start, zone, 0, t);
      }
    }
  }

  /** Windows that begin and end on quarter hours and validity by whole steps are aligned with every start on
      a local quarter hour. */
  lemma QuarterHoursAlign(r: Rule, zone: int, start: int)
    requires OnGrid(-zone, start)
    requires HasWindow(r) ==> 0 <= r.windowStart.value <= 1440 && r.windowStart.value % 15 == 0
    requires HasWindow(r) ==> 0 <= r.windowEnd.value <= 1440 && r.windowEnd.value % 15 == 0
    requires r.effectiveFrom.Some? ==> OnGrid(-zone, r.effectiveFrom.value)
    requires r.effectiveTo.Some? ==> OnGrid(-zone, r.effectiveTo.value + 1)
    ensures Aligned(r, zone, start)
  {
  }

  /** Off the grid the two prices differ: a dearer rule that begins five minutes into the step
      is not charged until the next step. */
  lemma OffGridDiffers()
    ensures exists table, start, end :: start < end && OnGrid(0, start)
              && Quote(table, 0, start, end).Ok?
              && Some(Quote(table, 0, start, end).value) != InstantCost(Active(table), 0, start, end)
  {
    var cheap := Rule("base", 0, "INR", 0, true, {}, None, None, None, None);
    var dear := Rule("peak", 1, "INR", 1, true, {}, Some(5), Some(15), None, None);
    var table := [dear, cheap];
    assert table[1..] == [cheap] && Active([cheap]) == [cheap] + Active([])
        && Active(table) == [dear] + Active([cheap]);
    assert Active(table) == table;
    forall t | 0 <= t <= 5 * MINUTE
      ensures RateAt(table, t, 0) == Some(if t < 5 * MINUTE then 0 else 1)
    {
      assert t / DAY == 0 && t % DAY == t;
      assert t / MINUTE < 5 <==> t < 5 * MINUTE;
      assert Matches(cheap, t, 0);
      assert FindBestRule([cheap], t, 0) == Some(cheap);
    }
    var end := 5 * MINUTE + 1;
    QuoteIsStepsCost(table, 0, 0, end);
    WithinOneStep(table, 0, 0, end);
    FreeInstants(table, end - 1);
    assert Quote(table, 0, 0, end) == Ok(0);
    assert InstantCost(table, 0, 0, end) == Some(1);
  }

  lemma {:induction false} FreeInstants(rules: seq<Rule>, e: int)
    requires forall t :: 0 <= t < e ==> RateAt(rules, t, 0) == Some(0)
    ensures InstantCost(rules, 0, 0, e) == Some(0)
    decreases e
  {
    if e > 0 {
      FreeInstants(rules, e - 1);
    }
  }

  // ------------------------------------------------------------ the pricing loop

  function SumPrices(b: seq<Entry>): int {
    if b == [] then 0 else SumPrices(b[..|b| - 1]) + b[|b| - 1].price
  }

  /** An entry is a run of steps that all carry its rule name, priced at what those steps cost. */
  ghost predicate Honest(e: Entry, rules: seq<Rule>, zone: int, start: int) {
    && StepsCost(rules, zone, e.start, e.end) == Some(e.price)
    && forall t :: e.start <= t < e.end && OnGrid(start, t) ==>
         FindBestRule(rules, t, zone).Some? && FindBestRule(rules, t, zone).value.name == e.ruleName
  }

  /** Honest entries, one after the other from start to end, neighbours under different names. */
  ghost predicate ExactBreakdown(b: seq<Entry>, rules: seq<Rule>, zone: int, start: int, end: int) {
    if b == [] then end <= start
    else
      var e, rest := b[|b| - 1], b[..|b| - 1];
      && e.end == end && start <= e.start < e.end && OnGrid(start, e.start)
      && Honest(e, rules, zone, start)
      && (rest != [] ==> rest[|rest| - 1].ruleName != e.ruleName)
      && ExactBreakdown(rest, rules, zone, start, e.start)
  }

  /** An exact breakdown tiles the span: no gap, no overlap, and no two neighbours share a name. */
  lemma {:induction false} BreakdownTiles(b: seq<Entry>, rules: seq<Rule>, zone: int, start: int, end: int)
    requires ExactBreakdown(b, rules, zone, start, end)
    ensures start < end ==> b != [] && b[0].start == start && b[|b| - 1].end == end
    ensures forall i :: 0 < i < |b| ==> b[i - 1].end == b[i].start && b[i - 1].ruleName != b[i].ruleName
  {
    if b != [] {
      var n := |b| - 1;
      BreakdownTiles(b[..n], rules, zone, start, b[n].start);
      forall i | 0 < i < n
        ensures b[i - 1].end == b[i].start && b[i - 1].ruleName != b[i].ruleName
      {
        assert b[..n][i] == b[i] && b[..n][i - 1] == b[i - 1];
      }
    }
  }

  lemma {:induction false} BreakdownHonest(b: seq<Entry>, rules: seq<Rule>, zone: int, start: int, end: int, i: nat)
    requires ExactBreakdown(b, rules, zone, start, end) && i < |b|
    ensures Honest(b[i], rules, zone, start)
  {
    var n := |b| - 1;
    if i < n {
      BreakdownHonest(b[..n], rules, zone, start, b[n].start, i);
    }
  }

  lemma OneStep(rules: seq<Rule>, zone: int, start: int, cur: int, segmentEnd: int, rule: Rule)
    requires OnGrid(start, cur) && cur < segmentEnd <= cur + STEP
    requires FindBestRule(rules, cur, zone) == Some(rule)
    ensures Honest(Entry(cur, segmentEnd, rule.rate * (segmentEnd - cur), rule.name), rules, zone, start)
  {
    assert StepsCost(rules, zone, cur + STEP, segmentEnd) == Some(0);
    forall t | cur <= t < segmentEnd && OnGrid(start, t)
      ensures t == cur
    {
      SameGrid(start, cur, t);
    }
  }

  lemma SameGrid(start: int, a: int, b: int)
    requires OnGrid(start, a) && OnGrid(start, b)
    ensures OnGrid(a, b)
  {
  }

  lemma ExtendRun(rules: seq<Rule>, zone: int, start: int, e: Entry, f: Entry)
    requires Honest(e, rules, zone, start) && Honest(f, rules, zone, start)
    requires e.end == f.start && e.start < e.end < f.end && e.ruleName == f.ruleName
    requires OnGrid(start, e.start) && OnGrid(start, f.start)
    ensures Honest(Entry(e.start, f.end, e.price + f.price, e.ruleName), rules, zone, start)
  {
    SameGrid(start, e.start, f.start);
    StepsAdditive(rules, zone, e.start, f.start, f.end);
  }

  /** The breakdown after one more run: the last entry grows if it has the same rule name. */
  function Record(b: seq<Entry>, e: Entry): seq<Entry> {
    var n := |b| - 1;
    if n >= 0 && b[n].ruleName == e.ruleName
    then b[n := b[n].(end := e.end, price := b[n].price + e.price)]
    else b + [e]
  }

  lemma RecordExact(b: seq<Entry>, e: Entry, rules: seq<Rule>, zone: int, start: int)
    requires ExactBreakdown(b, rules, zone, start, e.start) && Honest(e, rules, zone, start)
    requires start <= e.start < e.end && OnGrid(start, e.start)
    ensures ExactBreakdown(Record(b, e), rules, zone, start, e.end)
    ensures SumPrices(Record(b, e)) == SumPrices(b) + e.price
  {
    var n := |b| - 1;
    if n >= 0 && b[n].ruleName == e.ruleName {
      ExtendRun(rules, zone, start, b[n], e);
      assert Record(b, e)[..n] == b[..n];
    } else {
      assert Record(b, e)[..|b|] == b;
    }
  }

  /** The entries of an exact breakdown add up to the price of the span. */
  lemma {:induction false} BreakdownTotal(b: seq<Entry>, rules: seq<Rule>, zone: int, start: int, end: int)
    requires ExactBreakdown(b, rules, zone, start, end)
    ensures StepsCost(rules, zone, start, end) == Some(SumPrices(b))
  {
    if b != [] {
      var n := |b| - 1;
      BreakdownTotal(b[..n], rules, zone, start, b[n].start);
      StepsAdditive(rules, zone, start, b[n].start, end);
    }
  }

  method CalculatePrice(table: seq<Rule>, zone: int, start: int, end: int)
    returns (r: Result<PricingResult, PricingError>)
    ensures r.Err? ==> Quote(table, zone, start, end) == Err(r.error)
    ensures r.Ok? ==> Quote(table, zone, start, end) == Ok(r.value.total)
    ensures r.Ok? ==> ExactBreakdown(r.value.breakdown, Fetch(table, start, end), zone, start, end)
    ensures r.Ok? ==> SumPrices(r.value.breakdown) == r.value.total
    ensures r.Ok? ==> r.value.currency == Fetch(table, start, end)[0].currency
  {
    var rules := Fetch(table, start, end);
    if |rules| == 0 {
      return Err(NoRules);
    }
    var total := 0;
    var breakdown: seq<Entry> := [];
    var current := start;
    while current < end
      invariant OnGrid(start, current) && start <= current
      invariant ExactBreakdown(breakdown, rules, zone, start, if current < end then current else end)
      invariant SumPrices(breakdown) == total
    {
      var next := current + STEP;
      var segmentEnd := if next > end then end else next;
      var matched := FindBestRule(rules, current, zone);
      if matched.None? {
        StepsFailIff(rules, zone, start, end);
        return Err(NoRuleForStep);
      }
      var segmentPrice := matched.value.rate * (segmentEnd - current);
      OneStep(rules, zone, start, current, segmentEnd, matched.value);
      var segment := Entry(current, segmentEnd, segmentPrice, matched.value.name);
      RecordExact(breakdown, segment, rules, zone, start);
      total := total + segmentPrice;
      breakdown := Record(breakdown, segment);
      NextOnGrid(start, current);
      current := next;
    }
    BreakdownTotal(breakdown, rules, zone, start, end);
    r := Ok(PricingResult(total, rules[0].currency, breakdown));
  }
}
