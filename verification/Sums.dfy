/** Sums over the rows of a table. */
module Sums {

  function Sum<T>(s: seq<T>, f: T -> int): int {
    if s == [] then 0 else Sum(s[..|s| - 1], f) + f(s[|s| - 1])
  }

  lemma {:induction false} SumConcat<T>(a: seq<T>, b: seq<T>, f: T -> int)
    ensures Sum(a + b, f) == Sum(a, f) + Sum(b, f)
  {
    if b == [] {
      assert a + b == a;
    } else {
      assert (a + b)[..|a + b| - 1] == a + b[..|b| - 1];
      SumConcat(a, b[..|b| - 1], f);
    }
  }

  lemma SumSnoc<T>(s: seq<T>, x: T, f: T -> int)
    ensures Sum(s + [x], f) == Sum(s, f) + f(x)
  {
  }

  /** Rows that weigh the same, position by position, have the same sum. */
  lemma {:induction false} SumSame<T>(a: seq<T>, f: T -> int, b: seq<T>, g: T -> int)
    requires |a| == |b| && forall i :: 0 <= i < |a| ==> f(a[i]) == g(b[i])
    ensures Sum(a, f) == Sum(b, g)
  {
    if a != [] {
      SumSame(a[..|a| - 1], f, b[..|b| - 1], g);
    }
  }

  /** If every row of b weighs what the row of a at its position weighs under g and h together,
      the sums add up. */
  lemma {:induction false} SumSplit<T>(b: seq<T>, f: T -> int, a: seq<T>, g: T -> int, h: T -> int)
    requires |a| == |b| && forall i :: 0 <= i < |b| ==> f(b[i]) == g(a[i]) + h(a[i])
    ensures Sum(b, f) == Sum(a, g) + Sum(a, h)
  {
    if b != [] {
      SumSplit(b[..|b| - 1], f, a[..|a| - 1], g, h);
    }
  }

  /** When exactly one row counts, sums over counting rows are the weights of that row. */
  lemma {:induction false} SumOfOne<T>(s: seq<T>, count: T -> int, f: T -> int, g: T -> int) returns (j: nat)
    requires forall i :: 0 <= i < |s| ==> count(s[i]) == 1 || (count(s[i]) == 0 && f(s[i]) == 0 && g(s[i]) == 0)
    requires Sum(s, count) == 1
    ensures j < |s| && count(s[j]) == 1 && Sum(s, f) == f(s[j]) && Sum(s, g) == g(s[j])
  {
    var n := |s| - 1;
    if count(s[n]) == 1 {
      SumOfNone(s[..n], count, f);
      SumOfNone(s[..n], count, g);
      j := n;
    } else {
      j := SumOfOne(s[..n], count, f, g);
    }
  }

  lemma {:induction false} SumOfNone<T>(s: seq<T>, count: T -> int, f: T -> int)
    requires forall i :: 0 <= i < |s| ==> count(s[i]) == 1 || (count(s[i]) == 0 && f(s[i]) == 0)
    ensures Sum(s, count) >= 0
    ensures Sum(s, count) == 0 ==> Sum(s, f) == 0
  {
    if s != [] {
      SumOfNone(s[..|s| - 1], count, f);
    }
  }

  lemma {:induction false} SumUpdate<T>(s: seq<T>, i: nat, x: T, f: T -> int)
    requires i < |s|
    ensures Sum(s[i := x], f) == Sum(s, f) - f(s[i]) + f(x)
  {
    var n := |s| - 1;
    if i == n {
      assert s[i := x][..n] == s[..n];
    } else {
      assert s[i := x][..n] == s[..n][i := x];
      SumUpdate(s[..n], i, x, f);
    }
  }

  /** A sum of ones counts the rows that weigh one. */
  lemma {:induction false} SumCounts<T>(s: seq<T>, f: T -> int, ones: set<int>)
    requires forall i :: 0 <= i < |s| ==> f(s[i]) == if i in ones then 1 else 0
    requires forall i :: i in ones ==> 0 <= i < |s|
    ensures Sum(s, f) == |ones|
  {
    if s == [] {
      forall i
        ensures i !in ones
      {
      }
      assert ones == {};
    } else {
      SumCounts(s[..|s| - 1], f, ones - {|s| - 1});
    }
  }
}
