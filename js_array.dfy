/** The two array methods the frontend leans on, `filter` and `sort`.
    `sort` is stable (ECMAScript 2019 onwards) and is modelled as an
    insertion sort that moves an element left past every element the
    comparator puts after it; with a comparator that is consistent this is
    the only stable result. */
module JsArray {
  import opened Base

  /** `Array.prototype.filter`. */
  function FilterBy<T>(keep: T -> bool, s: seq<T>): seq<T> {
    if s == [] then []
    else if keep(s[0]) then [s[0]] + FilterBy(keep, s[1..])
    else FilterBy(keep, s[1..])
  }

  /** Inserting one element into a sorted prefix: it moves past every
      element the comparator puts after it. */
  function InsertBy<T>(cmp: (T, T) -> int, sorted: seq<T>, x: T): seq<T> {
    if sorted == [] then [x]
    else if cmp(sorted[|sorted| - 1], x) > 0 then
      InsertBy(cmp, sorted[..|sorted| - 1], x) + [sorted[|sorted| - 1]]
    else sorted + [x]
  }

  /** Insertion sort with a comparator that answers 1 when its first
      argument belongs after its second. */
  function SortBy<T>(cmp: (T, T) -> int, s: seq<T>): seq<T> {
    if s == [] then []
    else InsertBy(cmp, SortBy(cmp, s[..|s| - 1]), s[|s| - 1])
  }

  lemma {:induction false} FilterByMembers<T>(keep: T -> bool, s: seq<T>, x: T)
    ensures x in FilterBy(keep, s) <==> x in s && keep(x)
  {
    if s != [] {
      FilterByMembers(keep, s[1..], x);
      assert s == [s[0]] + s[1..];
    }
  }

  lemma {:induction false} FilterByConcat<T>(keep: T -> bool, xs: seq<T>, ys: seq<T>)
    ensures FilterBy(keep, xs + ys) == FilterBy(keep, xs) + FilterBy(keep, ys)
  {
    if xs != [] {
      assert (xs + ys)[0] == xs[0];
      assert (xs + ys)[1..] == xs[1..] + ys;
      FilterByConcat(keep, xs[1..], ys);
      var tail := FilterBy(keep, xs[1..] + ys);
      if keep(xs[0]) {
        assert FilterBy(keep, xs + ys) == [xs[0]] + tail;
        ConcatAssoc([xs[0]], FilterBy(keep, xs[1..]), FilterBy(keep, ys));
      } else {
        assert FilterBy(keep, xs + ys) == tail;
      }
    } else {
      assert xs + ys == ys;
    }
  }

  /** A comparator that never answers 1 leaves the order as it is. */
  lemma {:induction false} SortByNeutral<T>(cmp: (T, T) -> int, s: seq<T>)
    requires forall a, b :: cmp(a, b) <= 0
    ensures SortBy(cmp, s) == s
  {
    if s != [] {
      SortByNeutral(cmp, s[..|s| - 1]);
      assert s[..|s| - 1] + [s[|s| - 1]] == s;
    }
  }

  lemma {:induction false} InsertByPermutes<T>(cmp: (T, T) -> int, sorted: seq<T>, x: T)
    ensures multiset(InsertBy(cmp, sorted, x)) == multiset(sorted) + multiset{x}
  {
    if sorted != [] && cmp(sorted[|sorted| - 1], x) > 0 {
      InsertByPermutes(cmp, sorted[..|sorted| - 1], x);
      assert sorted == sorted[..|sorted| - 1] + [sorted[|sorted| - 1]];
    }
  }

  lemma {:induction false} SortByPermutes<T>(cmp: (T, T) -> int, s: seq<T>)
    ensures multiset(SortBy(cmp, s)) == multiset(s)
  {
    if s != [] {
      var init := s[..|s| - 1];
      SortByPermutes(cmp, init);
      InsertByPermutes(cmp, SortBy(cmp, init), s[|s| - 1]);
      assert s == init + [s[|s| - 1]];
    }
  }

  /** Ranked non-decreasingly. */
  predicate RankedBy<T>(rank: T -> int, s: seq<T>) {
    forall i, j :: 0 <= i < j < |s| ==> rank(s[i]) <= rank(s[j])
  }

  /** On the elements of `dom` the comparator puts `a` after `b` exactly
      when `a` ranks higher. */
  predicate RankConsistent<T>(cmp: (T, T) -> int, rank: T -> int, dom: set<T>) {
    forall a, b :: a in dom && b in dom ==> (cmp(a, b) > 0 <==> rank(a) > rank(b))
  }

  lemma {:induction false} InsertByRanked<T>(cmp: (T, T) -> int, rank: T -> int, dom: set<T>, sorted: seq<T>, x: T)
    requires RankConsistent(cmp, rank, dom)
    requires x in dom && forall i :: 0 <= i < |sorted| ==> sorted[i] in dom
    requires RankedBy(rank, sorted)
    ensures RankedBy(rank, InsertBy(cmp, sorted, x))
  {
    if sorted != [] {
      var init, last := sorted[..|sorted| - 1], sorted[|sorted| - 1];
      if cmp(last, x) > 0 {
        InsertByRanked(cmp, rank, dom, init, x);
        var r := InsertBy(cmp, init, x);
        InsertByPermutes(cmp, init, x);
        forall i | 0 <= i < |r|
          ensures rank(r[i]) <= rank(last)
        {
          assert r[i] in multiset(r);
          if r[i] != x {
            assert r[i] in multiset(init);
            var k :| 0 <= k < |init| && init[k] == r[i];
            assert sorted[k] == r[i];
          }
        }
      }
    }
  }

  lemma {:induction false} SortByRanked<T>(cmp: (T, T) -> int, rank: T -> int, dom: set<T>, s: seq<T>)
    requires RankConsistent(cmp, rank, dom)
    requires forall i :: 0 <= i < |s| ==> s[i] in dom
    ensures RankedBy(rank, SortBy(cmp, s))
  {
    if s != [] {
      var init := s[..|s| - 1];
      SortByRanked(cmp, rank, dom, init);
      var sorted := SortBy(cmp, init);
      SortByPermutes(cmp, init);
      forall i | 0 <= i < |sorted|
        ensures sorted[i] in dom
      {
        assert sorted[i] in multiset(init);
      }
      InsertByRanked(cmp, rank, dom, sorted, s[|s| - 1]);
    }
  }

  /** An input already ordered by the comparator is left as it is. */
  lemma {:induction false} SortByOrderedInput<T>(cmp: (T, T) -> int, rank: T -> int, dom: set<T>, s: seq<T>)
    requires RankConsistent(cmp, rank, dom)
    requires forall i :: 0 <= i < |s| ==> s[i] in dom
    requires RankedBy(rank, s)
    ensures SortBy(cmp, s) == s
  {
    if s != [] {
      var init := s[..|s| - 1];
      SortByOrderedInput(cmp, rank, dom, init);
      if init != [] {
        assert rank(init[|init| - 1]) <= rank(s[|s| - 1]);
      }
      assert init + [s[|s| - 1]] == s;
    }
  }
}
