/** The ranking of venue candidates: a stable sort by final score, then a filter that brings the
    best candidate of every business to the front. */
module Ranking {
  import opened Wrappers

  datatype Candidate = Candidate(id: int, business: Option<int>, score: int)

  /** Candidates without a business count as their own. */
  function Business(c: Candidate): int {
    if c.business.Some? then c.business.value else c.id
  }

  // ------------------------------------------------------------ the stable sort

  function Insert(c: Candidate, s: seq<Candidate>): seq<Candidate> {
    if s == [] || s[0].score <= c.score then [c] + s else [s[0]] + Insert(c, s[1..])
  }

  function SortByScore(s: seq<Candidate>): seq<Candidate> {
    if s == [] then [] else Insert(s[0], SortByScore(s[1..]))
  }

  predicate Descending(s: seq<Candidate>) {
    forall i, j :: 0 <= i < j < |s| ==> s[i].score >= s[j].score
  }

  function OfScore(s: seq<Candidate>, score: int): seq<Candidate> {
    if s == [] then [] else (if s[0].score == score then [s[0]] else []) + OfScore(s[1..], score)
  }

  lemma {:induction false} InsertAdds(c: Candidate, s: seq<Candidate>)
    ensures multiset(Insert(c, s)) == multiset{c} + multiset(s)
  {
    if s != [] && s[0].score > c.score {
      InsertAdds(c, s[1..]);
      assert s == [s[0]] + s[1..];
    }
  }

  lemma {:induction false} InsertDescends(c: Candidate, s: seq<Candidate>)
    requires Descending(s)
    ensures Descending(Insert(c, s))
  {
    if s != [] && s[0].score > c.score {
      var more := Insert(c, s[1..]);
      InsertDescends(c, s[1..]);
      forall j | 0 <= j < |more|
        ensures more[j].score <= s[0].score
      {
        InsertedComesFrom(c, s[1..], j);
      }
    }
  }

  lemma OfScoreCons(c: Candidate, s: seq<Candidate>, score: int)
    ensures OfScore([c] + s, score) == (if c.score == score then [c] else []) + OfScore(s, score)
  {
  }

  lemma {:induction false} InsertBeforeEquals(c: Candidate, s: seq<Candidate>, score: int)
    ensures OfScore(Insert(c, s), score) == OfScore([c] + s, score)
  {
    OfScoreCons(c, s, score);
    if s != [] && s[0].score > c.score {
      InsertBeforeEquals(c, s[1..], score);
      OfScoreCons(c, s[1..], score);
      OfScoreCons(s[0], Insert(c, s[1..]), score);
    }
  }

  /** The sort is descending, loses nothing, and keeps the order of candidates of equal score. */
  lemma {:induction false} SortIsStable(s: seq<Candidate>, score: int)
    ensures Descending(SortByScore(s)) && multiset(SortByScore(s)) == multiset(s)
    ensures OfScore(SortByScore(s), score) == OfScore(s, score)
  {
    if s != [] {
      SortIsStable(s[1..], score);
      InsertAdds(s[0], SortByScore(s[1..]));
      InsertDescends(s[0], SortByScore(s[1..]));
      InsertBeforeEquals(s[0], SortByScore(s[1..]), score);
      OfScoreCons(s[0], SortByScore(s[1..]), score);
      assert s == [s[0]] + s[1..];
    }
  }

  lemma {:induction false} OfScoreBelow(s: seq<Candidate>, score: int)
    requires forall i :: 0 <= i < |s| ==> s[i].score < score
    ensures OfScore(s, score) == []
  {
    if s != [] {
      OfScoreBelow(s[1..], score);
    }
  }

  lemma HeadCounts(s: seq<Candidate>)
    ensures s != [] ==> OfScore(s, s[0].score) != []
  {
  }

  lemma OfScoreTail(s: seq<Candidate>, score: int)
    requires s != []
    ensures OfScore(s[1..], score) == if s[0].score == score then OfScore(s, score)[1..] else OfScore(s, score)
  {
  }

  /** No other list is descending and stable: the ranking is determined by the scores. */
  lemma {:induction false} StableSortUnique(a: seq<Candidate>, b: seq<Candidate>)
    requires Descending(a) && Descending(b) && forall score :: OfScore(a, score) == OfScore(b, score)
    ensures a == b
  {
    if a == [] {
      HeadCounts(b);
    } else {
      assert OfScore(a, a[0].score) == OfScore(b, a[0].score);
      if b == [] || b[0].score < a[0].score {
        OfScoreBelow(b, a[0].score);
      } else if a[0].score < b[0].score {
        OfScoreBelow(a, b[0].score);
      } else {
        assert OfScore(a, a[0].score)[0] == a[0] && OfScore(b, a[0].score)[0] == b[0];
        forall score
          ensures OfScore(a[1..], score) == OfScore(b[1..], score)
        {
          assert OfScore(a, score) == OfScore(b, score);
          OfScoreTail(a, score);
          OfScoreTail(b, score);
        }
        StableSortUnique(a[1..], b[1..]);
      }
    }
  }

  // ------------------------------------------------------------ the diversity filter

  predicate Seen(s: seq<Candidate>, business: int) {
    exists i :: 0 <= i < |s| && Business(s[i]) == business
  }

  /** The first candidate of each business. */
  function Firsts(s: seq<Candidate>): seq<Candidate> {
    if s == [] then []
    else
      var before, last := s[..|s| - 1], s[|s| - 1];
      if Seen(before, Business(last)) then Firsts(before) else Firsts(before) + [last]
  }

  /** All others. */
  function Others(s: seq<Candidate>): seq<Candidate> {
    if s == [] then []
    else
      var before, last := s[..|s| - 1], s[|s| - 1];
      if Seen(before, Business(last)) then Others(before) + [last] else Others(before)
  }

  predicate HasId(s: seq<Candidate>, id: int) {
    exists i :: 0 <= i < |s| && s[i].id == id
  }

  /** The second pass: whatever is not there yet, by id. */
  function Fill(kept: seq<Candidate>, s: seq<Candidate>): seq<Candidate> {
    if s == [] then kept
    else
      var filled, last := Fill(kept, s[..|s| - 1]), s[|s| - 1];
      if HasId(filled, last.id) then filled else filled + [last]
  }

  function Diversified(s: seq<Candidate>): seq<Candidate> {
    if |s| <= 3 then s else Fill(Firsts(s), s)
  }

  method ApplyDiversityFilter(list: seq<Candidate>) returns (diversified: seq<Candidate>)
    ensures diversified == Diversified(list)
  {
    if |list| <= 3 { return list; }
    diversified := [];
    var seenBusinesses: set<int> := {};
    for i := 0 to |list|
      invariant diversified == Firsts(list[..i])
      invariant forall b :: b in seenBusinesses <==> Seen(list[..i], b)
    {
      var item := list[i];
      SeenSnoc(list[..i], item);
      assert list[..i + 1] == list[..i] + [item];
      if Business(item) !in seenBusinesses {
        seenBusinesses := seenBusinesses + {Business(item)};
        diversified := diversified + [item];
      }
    }
    assert list[..|list|] == list;
    for i := 0 to |list|
      invariant diversified == Fill(Firsts(list), list[..i])
    {
      assert list[..i + 1][..i] == list[..i];
      if !HasId(diversified, list[i].id) {
        diversified := diversified + [list[i]];
      }
    }
  }

  lemma SeenSnoc(s: seq<Candidate>, c: Candidate)
    ensures forall b :: Seen(s + [c], b) <==> Seen(s, b) || Business(c) == b
  {
    forall b | Seen(s, b)
      ensures Seen(s + [c], b)
    {
      var i :| 0 <= i < |s| && Business(s[i]) == b;
      assert (s + [c])[i] == s[i];
    }
    assert (s + [c])[|s|] == c;
  }

  /** Two candidates compete for the same front place: of the same business, or one and the same by id when neither
      has one. */
  predicate Rivals(c: Candidate, d: Candidate) {
    match (c.business, d.business)
    case (Some(a), Some(b)) => a == b
    case (None, None) => c.id == d.id
    case (Some(a), None) => a == d.id
    case (None, Some(b)) => c.id == b
  }

  /** A candidate goes to the front in the first pass exactly if no rival comes before it. */
  lemma FrontIff(s: seq<Candidate>, c: Candidate)
    ensures Firsts(s + [c]) == if exists i :: 0 <= i < |s| && Rivals(s[i], c) then Firsts(s) else Firsts(s) + [c]
    ensures Others(s + [c]) == if exists i :: 0 <= i < |s| && Rivals(s[i], c) then Others(s) + [c] else Others(s)
  {
    assert (s + [c])[..|s|] == s;
    assert forall i :: 0 <= i < |s| ==> (Rivals(s[i], c) <==> Business(s[i]) == Business(c));
  }

  // ------------------------------------------------------------ nothing is lost

  /** The candidate at k is not the first of its business, and its id is taken by a first or by an earlier other. */
  predicate Dropped(s: seq<Candidate>, k: nat)
    requires k < |s|
  {
    Seen(s[..k], Business(s[k])) && (HasId(Firsts(s), s[k].id) || HasId(Others(s[..k]), s[k].id))
  }

  ghost predicate NoneDropped(s: seq<Candidate>, n: nat)
    requires n <= |s|
  {
    forall k: nat :: k < n ==> !Dropped(s, k)
  }

  lemma {:induction false} SplitKeepsAll(s: seq<Candidate>)
    ensures multiset(Firsts(s)) + multiset(Others(s)) == multiset(s)
  {
    if s != [] {
      var before, last := s[..|s| - 1], s[|s| - 1];
      SplitKeepsAll(before);
      assert s == before + [last];
    }
  }

  lemma {:induction false} FirstIsKept(s: seq<Candidate>, n: nat) returns (i: nat)
    requires n < |s| && !Seen(s[..n], Business(s[n]))
    ensures i < |Firsts(s)| && Firsts(s)[i] == s[n]
  {
    var before := s[..|s| - 1];
    if n == |before| {
      i := |Firsts(before)|;
    } else {
      assert before[..n] == s[..n];
      i := FirstIsKept(before, n);
    }
  }

  lemma HasIdConcat(a: seq<Candidate>, b: seq<Candidate>, id: int)
    ensures HasId(a + b, id) <==> HasId(a, id) || HasId(b, id)
  {
    if HasId(a, id) {
      var i :| 0 <= i < |a| && a[i].id == id;
      assert (a + b)[i].id == id;
    }
    if HasId(b, id) {
      var i :| 0 <= i < |b| && b[i].id == id;
      assert (a + b)[|a| + i].id == id;
    }
  }

  /** Over a prefix of the list the second pass appends exactly the others, or else falls short of them. */
  lemma {:induction false} FillAppendsOthers(s: seq<Candidate>, n: nat)
    requires n <= |s|
    ensures var kept, filled := Firsts(s), Fill(Firsts(s), s[..n]);
            && kept <= filled
            && (if NoneDropped(s, n) then filled == kept + Others(s[..n]) else |filled| < |kept| + |Others(s[..n])|)
  {
    if n > 0 {
      var m := n - 1;
      assert s[..n][..m] == s[..m];
      FillAppendsOthers(s, m);
      var filled, last := Fill(Firsts(s), s[..m]), s[m];
      HasIdConcat(Firsts(s), Others(s[..m]), last.id);
      if !Seen(s[..m], Business(last)) {
        var i := FirstIsKept(s, m);
        assert filled[i].id == last.id;
      }
      assert NoneDropped(s, n) <==> NoneDropped(s, m) && !Dropped(s, m);
    }
  }

  /** More than three candidates come out as a permutation if and only if none is dropped; then the firsts
      of all businesses come first and the others after them. */
  lemma NothingLostIff(s: seq<Candidate>)
    requires |s| > 3
    ensures multiset(Diversified(s)) == multiset(s) <==> NoneDropped(s, |s|)
    ensures NoneDropped(s, |s|) ==> Diversified(s) == Firsts(s) + Others(s)
  {
    assert s[..|s|] == s;
    FillAppendsOthers(s, |s|);
    SplitKeepsAll(s);
    assert |multiset(Firsts(s)) + multiset(Others(s))| == |s|;
    if !NoneDropped(s, |s|) {
      assert |multiset(Diversified(s))| == |Diversified(s)|;
    }
  }

  predicate DistinctIds(s: seq<Candidate>) {
    forall i, j :: 0 <= i < j < |s| ==> s[i].id != s[j].id
  }

  lemma {:induction false} FirstComesFrom(s: seq<Candidate>, i: nat) returns (m: nat)
    requires i < |Firsts(s)|
    ensures m < |s| && Firsts(s)[i] == s[m] && !Seen(s[..m], Business(s[m]))
  {
    var before := s[..|s| - 1];
    if i < |Firsts(before)| {
      m := FirstComesFrom(before, i);
      assert before[..m] == s[..m];
    } else {
      m := |before|;
    }
  }

  lemma {:induction false} OtherComesFrom(s: seq<Candidate>, i: nat) returns (m: nat)
    requires i < |Others(s)|
    ensures m < |s| && Others(s)[i] == s[m]
  {
    var before := s[..|s| - 1];
    if i < |Others(before)| {
      m := OtherComesFrom(before, i);
    } else {
      m := |before|;
    }
  }

  lemma DistinctNotDropped(s: seq<Candidate>, k: nat)
    requires DistinctIds(s) && k < |s|
    ensures !Dropped(s, k)
  {
    if Dropped(s, k) {
      if HasId(Firsts(s), s[k].id) {
        var i :| 0 <= i < |Firsts(s)| && Firsts(s)[i].id == s[k].id;
        var m := FirstComesFrom(s, i);
      } else {
        var i :| 0 <= i < |Others(s[..k])| && Others(s[..k])[i].id == s[k].id;
        var m := OtherComesFrom(s[..k], i);
      }
    }
  }

  lemma {:induction false} SortKeepsIds(s: seq<Candidate>)
    requires DistinctIds(s)
    ensures DistinctIds(SortByScore(s))
  {
    if s != [] {
      SortKeepsIds(s[1..]);
      SortIsStable(s[1..], 0);
      var t := SortByScore(s[1..]);
      forall i | 0 <= i < |t|
        ensures t[i].id != s[0].id
      {
        assert t[i] in multiset(s[1..]);
      }
      InsertDistinct(s[0], t);
    }
  }

  lemma ConsDistinct(c: Candidate, s: seq<Candidate>)
    requires DistinctIds(s) && forall i :: 0 <= i < |s| ==> s[i].id != c.id
    ensures DistinctIds([c] + s)
  {
  }

  lemma {:induction false} InsertDistinct(c: Candidate, s: seq<Candidate>)
    requires DistinctIds(s) && forall i :: 0 <= i < |s| ==> s[i].id != c.id
    ensures DistinctIds(Insert(c, s))
  {
    if s != [] && s[0].score > c.score {
      var more := Insert(c, s[1..]);
      InsertDistinct(c, s[1..]);
      forall j | 0 <= j < |more|
        ensures more[j].id != s[0].id
      {
        InsertedComesFrom(c, s[1..], j);
      }
      ConsDistinct(s[0], more);
    } else {
      ConsDistinct(c, s);
    }
  }

  lemma InsertedComesFrom(c: Candidate, s: seq<Candidate>, j: nat)
    requires j < |Insert(c, s)|
    ensures Insert(c, s)[j] == c || Insert(c, s)[j] in s
  {
    InsertAdds(c, s);
    assert Insert(c, s)[j] in multiset(Insert(c, s));
  }

  // ------------------------------------------------------------ what the ranking promises

  lemma {:induction false} SplitAbove(s: seq<Candidate>, floor: int)
    requires forall i :: 0 <= i < |s| ==> s[i].score >= floor
    ensures forall i :: 0 <= i < |Firsts(s)| ==> Firsts(s)[i].score >= floor
    ensures forall i :: 0 <= i < |Others(s)| ==> Others(s)[i].score >= floor
  {
    if s != [] {
      SplitAbove(s[..|s| - 1], floor);
    }
  }

  lemma {:induction false} SplitDescends(s: seq<Candidate>)
    requires Descending(s)
    ensures Descending(Firsts(s)) && Descending(Others(s))
  {
    if s != [] {
      var before, last := s[..|s| - 1], s[|s| - 1];
      SplitDescends(before);
      SplitAbove(before, last.score);
    }
  }

  lemma {:induction false} FirstsOnePerBusiness(s: seq<Candidate>)
    ensures forall i, j :: 0 <= i < j < |Firsts(s)| ==> Business(Firsts(s)[i]) != Business(Firsts(s)[j])
    ensures forall k :: 0 <= k < |s| ==> Seen(Firsts(s), Business(s[k]))
    ensures forall i :: 0 <= i < |Firsts(s)| ==> Seen(s, Business(Firsts(s)[i]))
  {
    if s != [] {
      var before, last := s[..|s| - 1], s[|s| - 1];
      FirstsOnePerBusiness(before);
      assert s == before + [last];
      SeenSnoc(before, last);
      SeenSnoc(Firsts(before), last);
      if Seen(before, Business(last)) {
        var k :| 0 <= k < |before| && Business(before[k]) == Business(last);
        assert Seen(Firsts(before), Business(before[k]));
      }
    }
  }

  lemma NotSeenBefore(s: seq<Candidate>, m: nat, business: int, k: nat)
    requires m <= |s| && !Seen(s[..m], business)
    ensures k < m ==> Business(s[k]) != business
  {
  }

  /** The first of a business in a descending list is its best. */
  lemma FirstIsBest(s: seq<Candidate>, i: nat, k: nat)
    requires Descending(s) && i < |Firsts(s)| && k < |s| && Business(s[k]) == Business(Firsts(s)[i])
    ensures s[k].score <= Firsts(s)[i].score
  {
    var m := FirstComesFrom(s, i);
    NotSeenBefore(s, m, Business(s[m]), k);
  }

  lemma {:induction false} FirstsKeepHead(s: seq<Candidate>)
    requires s != []
    ensures Firsts(s) != [] && Firsts(s)[0] == s[0]
  {
    if |s| > 1 {
      FirstsKeepHead(s[..|s| - 1]);
    }
  }

  /** The first n are the best of every business, once each and in order of score, and the rest follow in
      order of score. */
  ghost predicate BestFirst(out: seq<Candidate>, n: nat) {
    && n <= |out| && Descending(out[..n]) && Descending(out[n..])
    && (forall i, j :: 0 <= i < j < n ==> Business(out[i]) != Business(out[j]))
    && (forall k :: 0 <= k < |out| ==> Seen(out[..n], Business(out[k])))
    && (forall i, k :: 0 <= i < n && 0 <= k < |out| && Business(out[k]) == Business(out[i]) ==>
        out[k].score <= out[i].score)
  }

  /** What the ranking promises for candidates with distinct ids: nothing is lost, and the head is the overall
      top. Up to three candidates come in order of score; of more, the best of every business comes first. */
  ghost predicate Promised(scored: seq<Candidate>, out: seq<Candidate>) {
    && multiset(out) == multiset(scored)
    && (forall k :: 0 <= k < |out| ==> out[k].score <= out[0].score)
    && if |scored| <= 3 then Descending(out) else exists n: nat :: BestFirst(out, n)
  }

  lemma FirstsAreBest(s: seq<Candidate>, out: seq<Candidate>)
    requires Descending(s) && out == Firsts(s) + Others(s) && multiset(out) == multiset(s)
    ensures BestFirst(out, |Firsts(s)|)
  {
    var n := |Firsts(s)|;
    SplitDescends(s);
    FirstsOnePerBusiness(s);
    assert out[..n] == Firsts(s) && out[n..] == Others(s);
    forall k | 0 <= k < |out|
      ensures Seen(out[..n], Business(out[k]))
      ensures forall i :: 0 <= i < n && Business(out[k]) == Business(out[i]) ==> out[k].score <= out[i].score
    {
      assert out[k] in multiset(s);
      var m :| 0 <= m < |s| && s[m] == out[k];
      forall i | 0 <= i < n && Business(out[k]) == Business(out[i])
        ensures out[k].score <= out[i].score
      {
        FirstIsBest(s, i, m);
      }
    }
  }

  lemma HeadIsTop(s: seq<Candidate>, out: seq<Candidate>)
    requires Descending(s) && multiset(out) == multiset(s) && (s != [] ==> out != [] && out[0] == s[0])
    ensures forall k :: 0 <= k < |out| ==> out[k].score <= out[0].score
  {
    forall k | 0 <= k < |out|
      ensures out[k].score <= out[0].score
    {
      assert out[k] in multiset(s);
    }
  }

  lemma DiversityPromise(scored: seq<Candidate>)
    requires DistinctIds(scored)
    ensures Promised(scored, Diversified(SortByScore(scored)))
  {
    var s := SortByScore(scored);
    SortIsStable(scored, 0);
    assert |multiset(s)| == |multiset(scored)|;
    if |s| > 3 {
      AllKept(scored, s);
      FirstsKeepHead(s);
      FirstsAreBest(s, Diversified(s));
    }
    HeadIsTop(s, Diversified(s));
  }

  lemma AllKept(scored: seq<Candidate>, s: seq<Candidate>)
    requires DistinctIds(scored) && s == SortByScore(scored) && |s| > 3
    ensures Diversified(s) == Firsts(s) + Others(s) && multiset(Diversified(s)) == multiset(s)
  {
    SortKeepsIds(scored);
    forall k: nat | k < |s|
      ensures !Dropped(s, k)
    {
      DistinctNotDropped(s, k);
    }
    NothingLostIff(s);
  }

  /** Ranking of scored candidates. */
  method RankCandidates(scored: seq<Candidate>) returns (ranked: seq<Candidate>)
    ensures ranked == Diversified(SortByScore(scored))
    ensures DistinctIds(scored) ==> Promised(scored, ranked)
  {
    assert DistinctIds(scored) ==> Promised(scored, Diversified(SortByScore(scored))) by {
      if DistinctIds(scored) {
        DiversityPromise(scored);
      }
    }
    ranked := ApplyDiversityFilter(SortByScore(scored));
  }
}
