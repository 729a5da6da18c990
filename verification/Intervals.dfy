/** The interval algebra behind slot generation: half-open time intervals,
    their union in canonical form, and the removal of a list of intervals.
    Instants are integers (milliseconds). */
module Intervals {

  datatype Span = Span(start: int, end: int)

  /** The constructor refuses an empty interval, so emptiness is a type error here:
      every place the code builds an interval carries a proof that it is not empty. */
  type TimeInterval = s: Span | s.start < s.end witness Span(0, 1)

  predicate In(t: int, i: Span) {
    i.start <= t < i.end
  }

  predicate Overlaps(a: TimeInterval, b: TimeInterval) {
    a.start < b.end && b.start < a.end
  }

  predicate Contains(a: TimeInterval, b: TimeInterval) {
    a.start <= b.start && b.end <= a.end
  }

  lemma OverlapsIffShareInstant(a: TimeInterval, b: TimeInterval)
    ensures Overlaps(a, b) <==> exists t :: In(t, a) && In(t, b)
  {
    if Overlaps(a, b) {
      var t := if a.start < b.start then b.start else a.start;
      assert In(t, a) && In(t, b);
    }
  }

  lemma ContainsIffSubset(a: TimeInterval, b: TimeInterval)
    ensures Contains(a, b) <==> forall t :: In(t, b) ==> In(t, a)
  {
    if forall t :: In(t, b) ==> In(t, a) {
      assert In(b.start, b) && In(b.end - 1, b);
    }
  }

  /** Instant t lies in one of the intervals of s. */
  ghost predicate Covers(s: seq<TimeInterval>, t: int) {
    exists i :: 0 <= i < |s| && In(t, s[i])
  }

  ghost predicate SameCover(a: seq<TimeInterval>, b: seq<TimeInterval>) {
    forall t :: Covers(a, t) <==> Covers(b, t)
  }

  /** Sorted, with a strict gap between any two intervals. */
  ghost predicate Canonical(s: seq<TimeInterval>) {
    forall i, j :: 0 <= i < j < |s| ==> s[i].end < s[j].start
  }

  lemma CoversConcat(a: seq<TimeInterval>, b: seq<TimeInterval>, t: int)
    ensures Covers(a + b, t) <==> Covers(a, t) || Covers(b, t)
  {
    if Covers(a, t) {
      var i :| 0 <= i < |a| && In(t, a[i]);
      assert (a + b)[i] == a[i];
    }
    if Covers(b, t) {
      var i :| 0 <= i < |b| && In(t, b[i]);
      assert (a + b)[|a| + i] == b[i];
    }
  }

  lemma CoversSingle(x: TimeInterval, t: int)
    ensures Covers([x], t) <==> In(t, x)
  {
    if In(t, x) {
      assert In(t, [x][0]);
    }
  }

  lemma CoversCons(s: seq<TimeInterval>, t: int)
    requires s != []
    ensures Covers(s, t) <==> In(t, s[0]) || Covers(s[1..], t)
  {
  }

  /** Two canonical lists that cover the same instants are the same list. */
  lemma {:induction false} CanonicalUnique(a: seq<TimeInterval>, b: seq<TimeInterval>)
    requires Canonical(a) && Canonical(b) && SameCover(a, b)
    ensures a == b
  {
    if a != [] {
      assert In(a[0].start, a[0]);
      assert Covers(a, a[0].start) && Covers(b, a[0].start);
    }
    if b != [] {
      assert In(b[0].start, b[0]);
      assert Covers(b, b[0].start) && Covers(a, b[0].start);
    }
    if a != [] && b != [] {
      assert a[0].start == b[0].start;
      EndNotBefore(a, b);
      EndNotBefore(b, a);
      forall t
        ensures Covers(a[1..], t) <==> Covers(b[1..], t)
      {
        TailCover(a, t);
        TailCover(b, t);
        assert Covers(a, t) <==> Covers(b, t);
      }
      CanonicalUnique(a[1..], b[1..]);
    }
  }

  lemma EndNotBefore(a: seq<TimeInterval>, b: seq<TimeInterval>)
    requires a != [] && b != [] && Canonical(a) && Canonical(b) && SameCover(a, b)
    requires a[0].start == b[0].start
    ensures b[0].end <= a[0].end
  {
    var t := a[0].end;
    assert !Covers(a, t);
    assert In(t, b[0]) ==> Covers(b, t);
  }

  lemma TailCover(a: seq<TimeInterval>, t: int)
    requires a != [] && Canonical(a)
    ensures Covers(a[1..], t) <==> Covers(a, t) && a[0].end <= t
  {
  }

  // ---------------------------------------------------------------- merge

  function Hull(a: TimeInterval, b: TimeInterval): TimeInterval {
    Span(if a.start < b.start then a.start else b.start, if a.end < b.end then b.end else a.end)
  }

  /** Adds one interval to a canonical list, swallowing whatever it touches. */
  function Absorb(x: TimeInterval, s: seq<TimeInterval>): seq<TimeInterval>
    decreases |s|
  {
    if s == [] || x.end < s[0].start then [x] + s
    else if s[0].end < x.start then [s[0]] + Absorb(x, s[1..])
    else Absorb(Hull(x, s[0]), s[1..])
  }

  /** The reference union: intervals are absorbed one at a time, in any order given. */
  function Union(s: seq<TimeInterval>): seq<TimeInterval> {
    if s == [] then [] else Absorb(s[0], Union(s[1..]))
  }

  ghost predicate AllAfter(s: seq<TimeInterval>, t: int) {
    forall i :: 0 <= i < |s| ==> t < s[i].start
  }

  lemma {:induction false} AbsorbAfter(x: TimeInterval, s: seq<TimeInterval>, l: int)
    requires l < x.start && AllAfter(s, l)
    ensures AllAfter(Absorb(x, s), l)
    decreases |s|
  {
    if s != [] && s[0].start <= x.end {
      assert AllAfter(s[1..], l);
      AbsorbAfter(if s[0].end < x.start then x else Hull(x, s[0]), s[1..], l);
    }
  }

  lemma {:induction false} AbsorbCover(x: TimeInterval, s: seq<TimeInterval>, t: int)
    ensures Covers(Absorb(x, s), t) <==> In(t, x) || Covers(s, t)
    decreases |s|
  {
    if s == [] || x.end < s[0].start {
      CoversCons([x] + s, t);
      assert ([x] + s)[1..] == s;
    } else if s[0].end < x.start {
      var r := Absorb(x, s[1..]);
      AbsorbCover(x, s[1..], t);
      CoversCons([s[0]] + r, t);
      assert ([s[0]] + r)[1..] == r;
      CoversCons(s, t);
    } else {
      AbsorbCover(Hull(x, s[0]), s[1..], t);
      CoversCons(s, t);
    }
  }

  lemma {:induction false} AbsorbCanonical(x: TimeInterval, s: seq<TimeInterval>)
    requires Canonical(s)
    ensures Canonical(Absorb(x, s))
    decreases |s|
  {
    if s != [] && s[0].start <= x.end {
      if s[0].end < x.start {
        AbsorbCanonical(x, s[1..]);
        AbsorbAfter(x, s[1..], s[0].end);
      } else {
        AbsorbCanonical(Hull(x, s[0]), s[1..]);
      }
    }
  }

  /** The union covers exactly the instants of its inputs and is canonical. */
  lemma {:induction false} UnionCanonical(s: seq<TimeInterval>)
    ensures Canonical(Union(s)) && SameCover(Union(s), s)
  {
    if s != [] {
      UnionCanonical(s[1..]);
      AbsorbCanonical(s[0], Union(s[1..]));
      forall t
        ensures Covers(Union(s), t) <==> Covers(s, t)
      {
        CoversCons(s, t);
        AbsorbCover(s[0], Union(s[1..]), t);
        assert Covers(Union(s[1..]), t) <==> Covers(s[1..], t);
      }
    }
  }

  /** Inputs with the same union are merged to the identical list, whatever their
      order, overlaps and duplicates; so merging twice changes nothing. */
  lemma MergeDeterminedByCover(a: seq<TimeInterval>, b: seq<TimeInterval>)
    ensures SameCover(a, b) <==> Union(a) == Union(b)
    ensures Union(Union(a)) == Union(a)
    ensures Canonical(a) <==> Union(a) == a
  {
    UnionCanonical(a);
    UnionCanonical(b);
    if SameCover(a, b) {
      assert forall t :: Covers(Union(a), t) <==> Covers(Union(b), t);
      CanonicalUnique(Union(a), Union(b));
    }
    if Union(a) == Union(b) {
      assert forall t :: Covers(a, t) <==> Covers(Union(a), t);
      assert forall t :: Covers(b, t) <==> Covers(Union(b), t);
    }
    UnionCanonical(Union(a));
    CanonicalUnique(Union(Union(a)), Union(a));
    if Canonical(a) {
      CanonicalUnique(Union(a), a);
    }
  }

  predicate SortedByStart(s: seq<TimeInterval>) {
    forall i, j :: 0 <= i < j < |s| ==> s[i].start <= s[j].start
  }

  function InsertByStart(x: TimeInterval, s: seq<TimeInterval>): seq<TimeInterval> {
    if s == [] || x.start <= s[0].start then [x] + s else [s[0]] + InsertByStart(x, s[1..])
  }

  /** The library's stable sort by start time. */
  function SortByStart(s: seq<TimeInterval>): seq<TimeInterval> {
    if s == [] then [] else InsertByStart(s[0], SortByStart(s[1..]))
  }

  lemma {:induction false} InsertPermutes(x: TimeInterval, s: seq<TimeInterval>)
    ensures multiset(InsertByStart(x, s)) == multiset(s) + multiset{x}
  {
    if s != [] && s[0].start < x.start {
      assert s == [s[0]] + s[1..];
      InsertPermutes(x, s[1..]);
    }
  }

  lemma {:induction false} InsertSorts(x: TimeInterval, s: seq<TimeInterval>)
    requires SortedByStart(s)
    ensures SortedByStart(InsertByStart(x, s))
    ensures forall i :: 0 <= i < |InsertByStart(x, s)| ==> InsertByStart(x, s)[i] == x || InsertByStart(x, s)[i] in s
  {
    if s != [] && s[0].start < x.start {
      InsertSorts(x, s[1..]);
    }
  }

  lemma {:induction false} SortSorts(s: seq<TimeInterval>)
    ensures multiset(SortByStart(s)) == multiset(s)
    ensures SortedByStart(SortByStart(s)) && |SortByStart(s)| == |s|
  {
    if s != [] {
      assert s == [s[0]] + s[1..];
      SortSorts(s[1..]);
      InsertPermutes(s[0], SortByStart(s[1..]));
      InsertSorts(s[0], SortByStart(s[1..]));
    }
    assert |multiset(SortByStart(s))| == |multiset(s)|;
  }

  lemma CoverOfPermutation(a: seq<TimeInterval>, b: seq<TimeInterval>)
    requires multiset(a) == multiset(b)
    ensures SameCover(a, b)
  {
    forall t
      ensures Covers(a, t) <==> Covers(b, t)
    {
      if Covers(a, t) {
        var i :| 0 <= i < |a| && In(t, a[i]);
        assert a[i] in multiset(b);
      }
      if Covers(b, t) {
        var i :| 0 <= i < |b| && In(t, b[i]);
        assert b[i] in multiset(a);
      }
    }
  }

  /** Sort and sweep. The result is the canonical union of the inputs. */
  method Merge(intervals: seq<TimeInterval>) returns (merged: seq<TimeInterval>)
    ensures merged == Union(intervals)
  {
    if |intervals| <= 1 {
      MergeDeterminedByCover(intervals, intervals);
      return intervals;
    }
    var sorted := SortByStart(intervals);
    SortSorts(intervals);
    merged := [];
    var current: TimeInterval := sorted[0];
    assert sorted[..1] == [current] && merged + [current] == [current];
    for i := 1 to |sorted|
      invariant Canonical(merged + [current])
      invariant SameCover(merged + [current], sorted[..i])
      invariant current.start <= sorted[i - 1].start
    {
      var next := sorted[i];
      ghost var was: seq<TimeInterval> := merged + [current];
      assert sorted[..i + 1] == sorted[..i] + [next];
      if current.end >= next.start {
        var newEnd := if current.end > next.end then current.end else next.end;
        ghost var before: TimeInterval := current;
        current := Span(current.start, newEnd);
        forall t
          ensures Covers(merged + [current], t) <==> Covers(sorted[..i + 1], t)
        {
          CoversConcat(merged, [current], t);
          CoversConcat(merged, [before], t);
          CoversConcat(sorted[..i], [next], t);
          CoversSingle(current, t);
          CoversSingle(before, t);
          CoversSingle(next, t);
          assert Covers(was, t) <==> Covers(sorted[..i], t);
        }
        assert forall k :: 0 <= k < |merged| ==> was[k] == merged[k] && was[k].end < was[|merged|].start;
      } else {
        merged := merged + [current];
        current := next;
        forall t
          ensures Covers(merged + [current], t) <==> Covers(sorted[..i + 1], t)
        {
          CoversConcat(merged, [current], t);
          CoversConcat(sorted[..i], [next], t);
          assert Covers(was, t) <==> Covers(sorted[..i], t);
        }
        assert was[|was| - 1].end < next.start;
      }
    }
    merged := merged + [current];
    assert sorted[..|sorted|] == sorted;
    CoverOfPermutation(sorted, intervals);
    UnionCanonical(intervals);
    assert forall t :: Covers(merged, t) <==> Covers(sorted, t);
    assert forall t :: Covers(sorted, t) <==> Covers(intervals, t);
    CanonicalUnique(merged, Union(intervals));
  }

  // ---------------------------------------------------------------- subtract

  /** What is left of a once b is removed: none, one or two pieces. */
  function Subtract(a: TimeInterval, b: TimeInterval): (r: seq<TimeInterval>)
    ensures forall t :: Covers(r, t) <==> In(t, a) && !In(t, b)
    ensures Canonical(r)
    ensures forall i :: 0 <= i < |r| ==> Contains(a, r[i])
  {
    if !Overlaps(a, b) then
      assert forall t :: Covers([a], t) <==> In(t, a) by {
        forall t { CoversSingle(a, t); }
      }
      [a]
    else
      var before: seq<TimeInterval> := if a.start < b.start then [Span(a.start, b.start)] else [];
      var after: seq<TimeInterval> := if b.end < a.end then [Span(b.end, a.end)] else [];
      assert forall t :: Covers(before + after, t) <==> In(t, a) && !In(t, b) by {
        forall t
          ensures Covers(before + after, t) <==> In(t, a) && !In(t, b)
        {
          CoversConcat(before, after, t);
          if before != [] { CoversSingle(before[0], t); }
          if after != [] { CoversSingle(after[0], t); }
        }
      }
      before + after
  }

  function Carve(source: seq<TimeInterval>, b: TimeInterval): seq<TimeInterval> {
    if source == [] then []
    else Carve(source[..|source| - 1], b) + Subtract(source[|source| - 1], b)
  }

  function CarveAll(source: seq<TimeInterval>, subs: seq<TimeInterval>): seq<TimeInterval> {
    if subs == [] then source
    else Carve(CarveAll(source, subs[..|subs| - 1]), subs[|subs| - 1])
  }

  lemma {:induction false} CarveCover(source: seq<TimeInterval>, b: TimeInterval, t: int)
    ensures Covers(Carve(source, b), t) <==> Covers(source, t) && !In(t, b)
  {
    if source != [] {
      var n := |source| - 1;
      CarveCover(source[..n], b, t);
      assert source == source[..n] + [source[n]];
      CoversConcat(source[..n], [source[n]], t);
      CoversSingle(source[n], t);
      CoversConcat(Carve(source[..n], b), Subtract(source[n], b), t);
    }
  }

  lemma {:induction false} CarveCanonical(source: seq<TimeInterval>, b: TimeInterval)
    requires Canonical(source)
    ensures Canonical(Carve(source, b))
    ensures forall i :: 0 <= i < |Carve(source, b)| ==> Carve(source, b)[i].end <= source[|source| - 1].end
  {
    if source != [] {
      var n := |source| - 1;
      CarveCanonical(source[..n], b);
      assert forall i :: 0 <= i < n ==> source[..n][i] == source[i];
    }
  }

  /** Removing a list of intervals is exact set difference, and keeps canonical form. */
  lemma {:induction false} CarveAllExact(source: seq<TimeInterval>, subs: seq<TimeInterval>)
    ensures forall t :: Covers(CarveAll(source, subs), t) <==> Covers(source, t) && !Covers(subs, t)
    ensures Canonical(source) ==> Canonical(CarveAll(source, subs))
  {
    if subs != [] {
      var n := |subs| - 1;
      CarveAllExact(source, subs[..n]);
      var prior := CarveAll(source, subs[..n]);
      assert subs == subs[..n] + [subs[n]];
      forall t
        ensures Covers(CarveAll(source, subs), t) <==> Covers(source, t) && !Covers(subs, t)
      {
        CarveCover(prior, subs[n], t);
        CoversConcat(subs[..n], [subs[n]], t);
        CoversSingle(subs[n], t);
      }
      if Canonical(source) {
        CarveCanonical(prior, subs[n]);
      }
    }
  }

  /** On a merged source the order, repetition and overlap of the removed intervals do not
      matter: only the set of removed instants does. */
  lemma CarveAllOrderIndependent(source: seq<TimeInterval>, a: seq<TimeInterval>, b: seq<TimeInterval>)
    requires Canonical(source) && SameCover(a, b)
    ensures CarveAll(source, a) == CarveAll(source, b)
    ensures CarveAll(source, a) == CarveAll(source, Union(a))
  {
    CarveAllExact(source, a);
    CarveAllExact(source, b);
    CanonicalUnique(CarveAll(source, a), CarveAll(source, b));
    UnionCanonical(a);
    CarveAllExact(source, Union(a));
    assert forall t :: Covers(a, t) <==> Covers(Union(a), t);
    CanonicalUnique(CarveAll(source, a), CarveAll(source, Union(a)));
  }

  /** Each interval to subtract is applied to every surviving piece in turn. */
  method SubtractMany(source: seq<TimeInterval>, toSubtract: seq<TimeInterval>) returns (result: seq<TimeInterval>)
    ensures result == CarveAll(source, toSubtract)
  {
    result := source;
    for k := 0 to |toSubtract|
      invariant result == CarveAll(source, toSubtract[..k])
    {
      var sub := toSubtract[k];
      var nextResult: seq<TimeInterval> := [];
      for i := 0 to |result|
        invariant nextResult == Carve(result[..i], sub)
      {
        assert result[..i + 1][..i] == result[..i];
        nextResult := nextResult + Subtract(result[i], sub);
      }
      assert result[..|result|] == result;
      assert toSubtract[..k + 1][..k] == toSubtract[..k];
      result := nextResult;
    }
    assert toSubtract[..|toSubtract|] == toSubtract;
  }
}
