/** Sequence helpers shared by every page: the JavaScript array methods the
    views call (`filter`, `slice(0, n)`, `find`, `some`, `reduce` for a sum)
    written once, with the properties the pages rely on. */
module Seqs {

  datatype Option<+T> = None | Some(value: T)

  /** `xs.filter(p)`: the elements satisfying `p`, in their original order. */
  function Filter<T(!new)>(xs: seq<T>, p: T -> bool): (r: seq<T>)
    ensures |r| <= |xs|
    ensures forall x :: x in r <==> x in xs && p(x)
    ensures multiset(r) <= multiset(xs)
    ensures forall i :: 0 <= i < |r| ==> p(r[i])
  {
    if |xs| == 0 then []
    else
      assert xs == [xs[0]] + xs[1..];
      if p(xs[0]) then [xs[0]] + Filter(xs[1..], p)
      else Filter(xs[1..], p)
  }

  /** One step of `filter`: the head, if kept, then the filtered tail. */
  lemma FilterCons<T(!new)>(x: T, xs: seq<T>, p: T -> bool)
    ensures Filter([x] + xs, p) == (if p(x) then [x] else []) + Filter(xs, p)
  {
    assert ([x] + xs)[1..] == xs;
  }

  /** When every element passes, filtering keeps everything. */
  lemma {:induction false} FilterAll<T(!new)>(xs: seq<T>, p: T -> bool)
    requires forall i :: 0 <= i < |xs| ==> p(xs[i])
    ensures Filter(xs, p) == xs
  {
    if |xs| > 0 {
      FilterAll(xs[1..], p);
    }
  }

  /** Filtering with a predicate that rejects everything yields nothing. */
  lemma {:induction false} FilterNone<T(!new)>(xs: seq<T>, p: T -> bool)
    requires forall i :: 0 <= i < |xs| ==> !p(xs[i])
    ensures Filter(xs, p) == []
  {
    if |xs| > 0 {
      FilterNone(xs[1..], p);
    }
  }

  /** Filtering distributes over concatenation, which is what makes the
      result order-preserving. */
  lemma {:induction false} FilterAppend<T(!new)>(xs: seq<T>, ys: seq<T>, p: T -> bool)
    ensures Filter(xs + ys, p) == Filter(xs, p) + Filter(ys, p)
  {
    if |xs| == 0 {
      assert xs + ys == ys;
    } else {
      assert (xs + ys)[1..] == xs[1..] + ys;
      FilterAppend(xs[1..], ys, p);
    }
  }

  /** Filtering out an element that is present makes the array shorter. */
  lemma {:induction false} FilterShorter<T(!new)>(xs: seq<T>, p: T -> bool, i: int)
    requires 0 <= i < |xs| && !p(xs[i])
    ensures |Filter(xs, p)| < |xs|
  {
    if i > 0 {
      FilterShorter(xs[1..], p, i - 1);
    }
  }

  /** Two predicates that agree on the elements give the same filter. */
  lemma {:induction false} FilterCongruent<T(!new)>(xs: seq<T>, p: T -> bool, q: T -> bool)
    requires forall i :: 0 <= i < |xs| ==> p(xs[i]) == q(xs[i])
    ensures Filter(xs, p) == Filter(xs, q)
  {
    if |xs| > 0 {
      FilterCongruent(xs[1..], p, q);
    }
  }

  /** Filtering twice with the same predicate filters once. */
  lemma {:induction false} FilterIdempotent<T(!new)>(xs: seq<T>, p: T -> bool)
    ensures Filter(Filter(xs, p), p) == Filter(xs, p)
  {
    if |xs| > 0 {
      FilterIdempotent(xs[1..], p);
      if p(xs[0]) {
        FilterCons(xs[0], Filter(xs[1..], p), p);
      }
    }
  }

  /** The predicate "differs from `d`", as in `x => x !== d`. */
  function Except<T(==)>(d: T): T -> bool
  {
    x => x != d
  }

  /** Filtering out `d` removes every copy of `d` and nothing else. */
  lemma {:induction false} ExceptMultiset<T(!new)>(xs: seq<T>, d: T)
    ensures multiset(Filter(xs, Except(d))) == multiset(xs)[d := 0]
  {
    if |xs| > 0 {
      ExceptMultiset(xs[1..], d);
      assert xs == [xs[0]] + xs[1..];
      assert multiset(xs) == multiset{xs[0]} + multiset(xs[1..]);
    }
  }

  /** When no two positions both pass, at most one element survives. */
  lemma {:induction false} FilterAtMostOne<T(!new)>(xs: seq<T>, p: T -> bool)
    requires forall i, j :: 0 <= i < j < |xs| ==> !(p(xs[i]) && p(xs[j]))
    ensures |Filter(xs, p)| <= 1
  {
    if |xs| > 0 {
      if p(xs[0]) {
        forall k | 0 <= k < |xs[1..]| ensures !p(xs[1..][k]) {
          assert xs[1..][k] == xs[k + 1];
        }
        FilterNone(xs[1..], p);
      } else {
        forall i, j | 0 <= i < j < |xs[1..]| ensures !(p(xs[1..][i]) && p(xs[1..][j])) {
          assert xs[1..][i] == xs[i + 1] && xs[1..][j] == xs[j + 1];
        }
        FilterAtMostOne(xs[1..], p);
      }
    }
  }

  /** `xs.slice(0, n)`: the first `min(n, |xs|)` elements. */
  function Take<T>(xs: seq<T>, n: nat): (r: seq<T>)
    ensures |r| == if n <= |xs| then n else |xs|
    ensures forall i :: 0 <= i < |r| ==> r[i] == xs[i]
  {
    if n <= |xs| then xs[..n] else xs
  }

  /** `xs.find(p)`: the first element satisfying `p`, if any. */
  function Find<T>(xs: seq<T>, p: T -> bool): (r: Option<T>)
    ensures r.None? <==> forall i :: 0 <= i < |xs| ==> !p(xs[i])
    ensures r.Some? ==>
      exists i :: 0 <= i < |xs| && xs[i] == r.value && p(xs[i]) && forall j :: 0 <= j < i ==> !p(xs[j])
  {
    if |xs| == 0 then None
    else if p(xs[0]) then Some(xs[0])
    else
      var r := Find(xs[1..], p);
      if r.Some? then
        ghost var i :|
          0 <= i < |xs[1..]| && xs[1..][i] == r.value && p(xs[1..][i]) && forall j :: 0 <= j < i ==> !p(xs[1..][j]);
        assert xs[i + 1] == r.value && forall j :: 0 <= j < i + 1 ==> !p(xs[j]) by {
          forall j | 0 <= j < i + 1 ensures !p(xs[j]) {
            if j > 0 { assert xs[j] == xs[1..][j - 1]; }
          }
        }
        r
      else r
  }

  /** `xs.some(p)`. */
  predicate Any<T>(xs: seq<T>, p: T -> bool)
  {
    exists i :: 0 <= i < |xs| && p(xs[i])
  }

  /** Distinct elements: an array that is used as a set. */
  predicate NoDup<T(==)>(xs: seq<T>)
  {
    forall i, j :: 0 <= i < j < |xs| ==> xs[i] != xs[j]
  }

  /** The tail of a duplicate-free array is duplicate-free and lacks the head. */
  lemma NoDupTail<T>(xs: seq<T>)
    requires NoDup(xs) && |xs| > 0
    ensures NoDup(xs[1..]) && xs[0] !in xs[1..]
  {
    var tail := xs[1..];
    forall i, j | 0 <= i < j < |tail| ensures tail[i] != tail[j] {
      assert tail[i] == xs[i + 1] && tail[j] == xs[j + 1];
    }
    forall k | 0 <= k < |tail| ensures tail[k] != xs[0] {
      assert tail[k] == xs[k + 1];
    }
  }

  /** Filtering cannot introduce a duplicate. */
  lemma {:induction false} FilterNoDup<T(!new)>(xs: seq<T>, p: T -> bool)
    requires NoDup(xs)
    ensures NoDup(Filter(xs, p))
  {
    if |xs| > 0 {
      NoDupTail(xs);
      FilterNoDup(xs[1..], p);
    }
  }

  /** Without duplicates, the length of an array is the size of its set. */
  lemma {:induction false} NoDupCardinality<T>(xs: seq<T>)
    requires NoDup(xs)
    ensures |set x | x in xs| == |xs|
  {
    if |xs| > 0 {
      var tail := xs[1..];
      NoDupTail(xs);
      NoDupCardinality(tail);
      assert (set x | x in xs) == {xs[0]} + (set x | x in tail) by {
        forall x | x in xs ensures x == xs[0] || x in tail {
          var k :| 0 <= k < |xs| && xs[k] == x;
          if k > 0 { assert tail[k - 1] == x; }
        }
      }
    }
  }
}
