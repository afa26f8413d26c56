/** `Array.prototype.sort` with a comparator of the form
    `(a, b) => rank(a) - rank(b)`. Since ECMAScript 2019 that sort must be
    stable: elements the comparator calls equal keep their input order. The
    model is an insertion sort, specified by sortedness, permutation and
    stability. */
module StableSort {
  import opened Seqs

  /** Non-decreasing rank from left to right. */
  ghost predicate Sorted<T>(s: seq<T>, rank: T -> real)
  {
    forall i, j :: 0 <= i < j < |s| ==> rank(s[i]) <= rank(s[j])
  }

  /** The elements of rank `v`, in order. Stability says the sort leaves each
      of these subsequences untouched. */
  function WithRank<T(!new)>(s: seq<T>, rank: T -> real, v: real): seq<T>
  {
    Filter(s, HasRank(rank, v))
  }

  function HasRank<T>(rank: T -> real, v: real): T -> bool
  {
    e => rank(e) == v
  }

  /** Places `x` in front of the first element whose rank is not below its
      own, so that `x` precedes the equal-rank elements of `s`. */
  function Insert<T>(x: T, s: seq<T>, rank: T -> real): seq<T>
  {
    if |s| == 0 || rank(x) <= rank(s[0]) then [x] + s
    else [s[0]] + Insert(x, s[1..], rank)
  }

  lemma {:induction false} InsertPermutes<T>(x: T, s: seq<T>, rank: T -> real)
    ensures multiset(Insert(x, s, rank)) == multiset(s) + multiset{x}
  {
    if |s| > 0 && rank(s[0]) < rank(x) {
      InsertPermutes(x, s[1..], rank);
      assert s == [s[0]] + s[1..];
    }
  }

  lemma {:induction false} InsertSorted<T>(x: T, s: seq<T>, rank: T -> real)
    requires Sorted(s, rank)
    ensures Sorted(Insert(x, s, rank), rank)
  {
    if |s| > 0 && rank(s[0]) < rank(x) {
      var tail := Insert(x, s[1..], rank);
      InsertSorted(x, s[1..], rank);
      InsertPermutes(x, s[1..], rank);
      forall i | 0 <= i < |tail| ensures rank(s[0]) <= rank(tail[i]) {
        assert tail[i] in multiset(tail);
        assert tail[i] == x || tail[i] in multiset(s[1..]);
      }
    }
  }

  lemma {:induction false} InsertStable<T(!new)>(x: T, s: seq<T>, rank: T -> real, v: real)
    ensures WithRank(Insert(x, s, rank), rank, v) == (if rank(x) == v then [x] else []) + WithRank(s, rank, v)
  {
    var p := HasRank(rank, v);
    if |s| == 0 || rank(x) <= rank(s[0]) {
      FilterCons(x, s, p);
    } else {
      var rest := s[1..];
      var tail := Insert(x, rest, rank);
      assert Insert(x, s, rank) == [s[0]] + tail;
      assert s == [s[0]] + rest;
      InsertStable(x, rest, rank, v);
      FilterCons(s[0], tail, p);
      FilterCons(s[0], rest, p);
      if p(s[0]) {
        assert rank(x) != v;
        assert ([] + Filter(rest, p)) == Filter(rest, p);
      } else {
        assert [] + Filter(tail, p) == Filter(tail, p);
        assert [] + Filter(rest, p) == Filter(rest, p);
      }
    }
  }

  /** The stable sort: insert the head into the sorted tail. */
  function SortBy<T(!new)>(s: seq<T>, rank: T -> real): (r: seq<T>)
    ensures Sorted(r, rank)
    ensures multiset(r) == multiset(s)
    ensures |r| == |s|
    ensures forall v :: WithRank(r, rank, v) == WithRank(s, rank, v)
  {
    if |s| == 0 then []
    else
      var rest := SortBy(s[1..], rank);
      var r := Insert(s[0], rest, rank);
      assert s == [s[0]] + s[1..];
      InsertSorted(s[0], rest, rank);
      InsertPermutes(s[0], rest, rank);
      forall v ensures WithRank(r, rank, v) == WithRank(s, rank, v) {
        InsertStable(s[0], rest, rank, v);
        FilterAppend([s[0]], s[1..], HasRank(rank, v));
      }
      assert |r| == |multiset(r)| == |multiset(s)| == |s|;
      r
  }

  /** A constant rank reorders nothing: the "recommended" order. */
  lemma {:induction false} SortByConstant<T(!new)>(s: seq<T>, rank: T -> real, c: real)
    requires forall i :: 0 <= i < |s| ==> rank(s[i]) == c
    ensures SortBy(s, rank) == s
  {
    var r := SortBy(s, rank);
    assert forall i :: 0 <= i < |r| ==> rank(r[i]) == c by {
      forall i | 0 <= i < |r| ensures rank(r[i]) == c {
        assert r[i] in multiset(s);
      }
    }
    FilterAll(r, HasRank(rank, c));
    FilterAll(s, HasRank(rank, c));
    assert WithRank(r, rank, c) == WithRank(s, rank, c);
  }
}
