/** Ranking of scored records the way both search services do it: `sort((a, b) => b.similarity -
    a.similarity)` followed by `slice(0, k)`. `Array.prototype.sort` is stable, and a comparator
    result that is NaN is not negative, so a NaN score never moves ahead of anything. */
module Ranking {
  import opened VectorMath

  /** A record paired with its similarity score. */
  datatype Scored<T> = Scored(item: T, similarity: Num)

  /** `x` is placed before `y` by the comparator: `y.similarity - x.similarity < 0`. */
  predicate Outranks<T>(x: Scored<T>, y: Scored<T>) {
    x.similarity.Num? && y.similarity.Num? && x.similarity.value > y.similarity.value
  }

  /** Every score is a number (no NaN). */
  predicate AllNumbers<T>(s: seq<Scored<T>>) {
    forall i :: 0 <= i < |s| ==> s[i].similarity.Num?
  }

  /** Highest similarity first: no later element outranks an earlier one. */
  predicate Descending<T>(s: seq<Scored<T>>) {
    forall i, j :: 0 <= i < j < |s| ==> !Outranks(s[j], s[i])
  }

  /** The elements carrying exactly the score `v`, in their order. */
  function WithScore<T>(s: seq<Scored<T>>, v: Num): seq<Scored<T>> {
    if s == [] then [] else (if s[0].similarity == v then [s[0]] else []) + WithScore(s[1..], v)
  }

  /** Places `x` into a ranking after the elements that strictly outrank it and ahead of all others,
      so that `x`, which came first in the input, stays ahead of its equals. */
  function Insert<T>(x: Scored<T>, t: seq<Scored<T>>): (r: seq<Scored<T>>)
    ensures |r| == |t| + 1
    ensures multiset(r) == multiset(t) + multiset{x}
  {
    if t == [] || !Outranks(t[0], x) then [x] + t
    else
      assert t == [t[0]] + t[1..];
      [t[0]] + Insert(x, t[1..])
  }

  /** The stable sort by descending similarity. */
  function SortBySimilarity<T>(s: seq<Scored<T>>): (r: seq<Scored<T>>)
    ensures |r| == |s|
    ensures multiset(r) == multiset(s)
  {
    if s == [] then []
    else
      assert s == [s[0]] + s[1..];
      Insert(s[0], SortBySimilarity(s[1..]))
  }

  /** `sort(...).slice(0, k)`: the `k` best-ranked elements, or all of them when there are fewer. */
  function TopK<T>(s: seq<Scored<T>>, k: nat): (r: seq<Scored<T>>)
    ensures |r| == if k < |s| then k else |s|
  {
    var sorted := SortBySimilarity(s);
    if k < |sorted| then sorted[..k] else sorted
  }

  /** `map((item) => item.business)`: the records, in ranked order. */
  function Items<T>(s: seq<Scored<T>>): (r: seq<T>)
    ensures |r| == |s|
    ensures forall i :: 0 <= i < |s| ==> r[i] == s[i].item
  {
    if s == [] then [] else [s[0].item] + Items(s[1..])
  }

  lemma {:induction false} InsertDescending<T>(x: Scored<T>, t: seq<Scored<T>>)
    requires x.similarity.Num? && AllNumbers(t) && Descending(t)
    ensures AllNumbers(Insert(x, t)) && Descending(Insert(x, t))
  {
    var r := Insert(x, t);
    if t == [] || !Outranks(t[0], x) {
      assert r == [x] + t;
    } else {
      var rest := Insert(x, t[1..]);
      InsertDescending(x, t[1..]);
      assert r == [t[0]] + rest;
      assert multiset(rest) == multiset(t[1..]) + multiset{x};
      forall j | 0 < j < |r|
        ensures !Outranks(r[j], r[0])
      {
        assert r[j] in multiset(rest);
        assert r[j] == x || r[j] in t[1..];
      }
    }
  }

  /** With numeric scores the ranking puts the highest similarity first. */
  lemma {:induction false} SortDescending<T>(s: seq<Scored<T>>)
    requires AllNumbers(s)
    ensures AllNumbers(SortBySimilarity(s)) && Descending(SortBySimilarity(s))
  {
    if s != [] {
      SortDescending(s[1..]);
      InsertDescending(s[0], SortBySimilarity(s[1..]));
    }
  }

  lemma {:induction false} WithScoreInsert<T>(x: Scored<T>, t: seq<Scored<T>>, v: Num)
    ensures WithScore(Insert(x, t), v) == WithScore([x] + t, v)
  {
    if t == [] || !Outranks(t[0], x) {
    } else {
      WithScoreInsert(x, t[1..], v);
      assert t[0].similarity != x.similarity;
      assert ([x] + t)[1..] == t;
      assert ([t[0]] + Insert(x, t[1..]))[1..] == Insert(x, t[1..]);
      assert ([x] + t[1..])[1..] == t[1..];
      assert t == [t[0]] + t[1..];
    }
  }

  /** The sort is stable: elements with equal scores keep their input order. */
  lemma {:induction false} SortStable<T>(s: seq<Scored<T>>, v: Num)
    ensures WithScore(SortBySimilarity(s), v) == WithScore(s, v)
  {
    if s != [] {
      SortStable(s[1..], v);
      WithScoreInsert(s[0], SortBySimilarity(s[1..]), v);
      assert ([s[0]] + SortBySimilarity(s[1..]))[1..] == SortBySimilarity(s[1..]);
    }
  }

  /** The top `k` are the first `k` of the ranking, the rest of it coming after them. */
  lemma TopKPrefix<T>(s: seq<Scored<T>>, k: nat)
    ensures SortBySimilarity(s) == TopK(s, k) + SortBySimilarity(s)[|TopK(s, k)|..]
  {
  }

  /** With numeric scores the top `k` come highest similarity first. */
  lemma TopKDescending<T>(s: seq<Scored<T>>, k: nat)
    requires AllNumbers(s)
    ensures Descending(TopK(s, k))
  {
    SortDescending(s);
    var sorted := SortBySimilarity(s);
    var top := TopK(s, k);
    forall i, j | 0 <= i < j < |top|
      ensures !Outranks(top[j], top[i])
    {
      assert top[i] == sorted[i] && top[j] == sorted[j];
    }
  }

  /** The top `k` are drawn from the input, are ranked highest first, and no element left out
      outranks one that was kept. */
  lemma TopKBest<T>(s: seq<Scored<T>>, k: nat)
    requires AllNumbers(s)
    ensures multiset(TopK(s, k)) <= multiset(s)
    ensures Descending(TopK(s, k))
    ensures forall x, y :: x in TopK(s, k) && y in s && y !in TopK(s, k) ==> !Outranks(y, x)
  {
    var sorted := SortBySimilarity(s);
    SortDescending(s);
    TopKDescending(s, k);
    var r := TopK(s, k);
    var rest := sorted[|r|..];
    TopKPrefix(s, k);
    assert multiset(sorted) == multiset(r) + multiset(rest);
    forall x, y | x in r && y in s && y !in r
      ensures !Outranks(y, x)
    {
      assert y in multiset(sorted);
      var i :| 0 <= i < |r| && r[i] == x;
      var j :| 0 <= j < |sorted| && sorted[j] == y;
      assert sorted[i] == x;
    }
  }

  /** Each of the top `k` is one of the ranked elements. */
  lemma TopKDrawn<T>(s: seq<Scored<T>>, k: nat, i: nat)
    requires i < |TopK(s, k)|
    ensures TopK(s, k)[i] in s
  {
    var sorted := SortBySimilarity(s);
    var top := TopK(s, k);
    TopKPrefix(s, k);
    assert top[i] == sorted[i];
    assert top[i] in multiset(sorted);
  }
}
