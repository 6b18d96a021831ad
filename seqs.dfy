/**
 * Sequence helpers shared by both roll implementations: Python's slice semantics,
 * list-comprehension filtering and `sorted(..., key=...)` (a stable sort).
 */
module Seqs {
  import opened Calendar

  /** Python's normalisation of a slice bound `i` for a sequence of length `n`. */
  function ClampIndex(i: int, n: nat): (k: nat)
    ensures k <= n
    ensures 0 <= i <= n ==> k == i
    ensures i < 0 ==> k == if n + i < 0 then 0 else n + i
  {
    if i < 0 then (if n + i < 0 then 0 else n + i) else if i > n then n else i
  }

  /** Python's `s[start:stop]` (step 1), negative bounds counting from the end. */
  function PySlice<T>(s: seq<T>, start: int, stop: int): seq<T> {
    var i := ClampIndex(start, |s|);
    var j := ClampIndex(stop, |s|);
    if i < j then s[i..j] else []
  }

  /** Python's `s[:-keep]`: everything except the last `keep` elements, except that `-0` is `0`. */
  function DropNewest<T>(s: seq<T>, keep: int): seq<T> {
    PySlice(s, 0, -keep)
  }

  /**
   * `s[:-keep]` on a listing: with keep = 0 nothing, with keep >= 1 the first
   * max(0, |s| - keep) elements, which leaves the last min(|s|, keep) out.
   */
  lemma DropNewestPrefix<T>(s: seq<T>, keep: int)
    ensures keep == 0 ==> DropNewest(s, keep) == []
    ensures keep >= 1 ==> DropNewest(s, keep) == s[..if |s| > keep then |s| - keep else 0]
    ensures keep >= 1 ==> |DropNewest(s, keep)| + (if |s| < keep then |s| else keep) == |s|
  {
  }

  /** A list comprehension `[x for x in s if p(x)]`. */
  function Filter<T>(s: seq<T>, p: T -> bool): (r: seq<T>)
    ensures |r| <= |s|
  {
    if s == [] then [] else (if p(s[0]) then [s[0]] else []) + Filter(s[1..], p)
  }

  /** The comprehension keeps exactly the elements that satisfy `p`. */
  lemma {:induction false} FilterMeaning<T>(s: seq<T>, p: T -> bool)
    ensures forall x :: x in Filter(s, p) ==> x in s && p(x)
    ensures forall x :: x in s && p(x) ==> x in Filter(s, p)
  {
    if s != [] {
      FilterMeaning(s[1..], p);
      assert s == [s[0]] + s[1..];
    }
  }

  lemma {:induction false} FilterAppend<T>(a: seq<T>, b: seq<T>, p: T -> bool)
    ensures Filter(a + b, p) == Filter(a, p) + Filter(b, p)
  {
    if a == [] {
      assert a + b == b;
    } else {
      var head := if p(a[0]) then [a[0]] else [];
      assert (a + b)[0] == a[0] && (a + b)[1..] == a[1..] + b;
      FilterAppend(a[1..], b, p);
      assert Filter(a + b, p) == head + (Filter(a[1..], p) + Filter(b, p));
    }
  }

  /** Filtering depends only on the predicate's values on the sequence's own elements. */
  lemma {:induction false} FilterCongruent<T>(s: seq<T>, p: T -> bool, q: T -> bool)
    requires forall i :: 0 <= i < |s| ==> p(s[i]) == q(s[i])
    ensures Filter(s, p) == Filter(s, q)
  {
    if s != [] {
      assert forall i :: 0 <= i < |s[1..]| ==> s[1..][i] == s[i + 1];
      FilterCongruent(s[1..], p, q);
    }
  }

  lemma {:induction false} FilterMultiset<T>(s: seq<T>, p: T -> bool)
    ensures multiset(Filter(s, p)) <= multiset(s)
  {
    if s != [] {
      FilterMultiset(s[1..], p);
      assert s == [s[0]] + s[1..];
    }
  }

  /** `s` is ascending by `key` (Python's `sorted(s, key=key)` postcondition). */
  ghost predicate SortedBy<T>(s: seq<T>, key: T -> DateTime) {
    forall i, j :: 0 <= i < j < |s| ==> NoLater(key(s[i]), key(s[j]))
  }

  lemma {:induction false} FilterSorted<T>(s: seq<T>, p: T -> bool, key: T -> DateTime)
    requires SortedBy(s, key)
    ensures SortedBy(Filter(s, p), key)
  {
    if s != [] {
      FilterSorted(s[1..], p, key);
      var rest := Filter(s[1..], p);
      FilterMeaning(s[1..], p);
      forall k | 0 <= k < |rest|
        ensures NoLater(key(s[0]), key(rest[k]))
      {
        assert rest[k] in rest;
        var m :| 0 <= m < |s[1..]| && s[1..][m] == rest[k];
        assert s[1 + m] == rest[k];
      }
    }
  }

  /**
   * Inserts `x` in front of the first element that is not earlier than it, so that
   * elements of equal key keep their relative order (as Python's stable sort does).
   */
  function InsertBy<T>(x: T, s: seq<T>, key: T -> DateTime): (r: seq<T>)
    ensures multiset(r) == multiset(s) + multiset{x}
  {
    if s == [] || NoLater(key(x), key(s[0])) then
      [x] + s
    else
      assert s == [s[0]] + s[1..];
      [s[0]] + InsertBy(x, s[1..], key)
  }

  /** Inserting into a sorted sequence keeps it sorted. */
  lemma {:induction false} InsertBySorted<T>(x: T, s: seq<T>, key: T -> DateTime)
    requires SortedBy(s, key)
    ensures SortedBy(InsertBy(x, s, key), key)
  {
    if !(s == [] || NoLater(key(x), key(s[0]))) {
      InsertBySorted(x, s[1..], key);
      InsertBehindHead(x, s, key, InsertBy(x, s[1..], key));
    }
  }

  /** Sortedness of `s[0]` followed by a sorted insertion into the rest of `s`. */
  lemma InsertBehindHead<T>(x: T, s: seq<T>, key: T -> DateTime, tail: seq<T>)
    requires s != [] && SortedBy(s, key) && SortedBy(tail, key) && !NoLater(key(x), key(s[0]))
    requires multiset(tail) == multiset(s[1..]) + multiset{x}
    ensures SortedBy([s[0]] + tail, key)
  {
    forall k | 0 <= k < |tail|
      ensures NoLater(key(s[0]), key(tail[k]))
    {
      assert tail[k] in multiset(tail);
      if tail[k] != x {
        assert tail[k] in multiset(s[1..]);
        assert tail[k] in s[1..];
        var m :| 0 <= m < |s[1..]| && s[1..][m] == tail[k];
        assert s[1 + m] == tail[k];
      }
    }
  }

  /** `sorted(s, key=key)`: a stable insertion sort. */
  function SortBy<T>(s: seq<T>, key: T -> DateTime): seq<T> {
    if s == [] then [] else InsertBy(s[0], SortBy(s[1..], key), key)
  }

  /** The sort is a permutation of its input, ascending by `key`. */
  lemma {:induction false} SortByMeaning<T>(s: seq<T>, key: T -> DateTime)
    ensures multiset(SortBy(s, key)) == multiset(s)
    ensures SortedBy(SortBy(s, key), key)
  {
    if s != [] {
      assert s == [s[0]] + s[1..];
      SortByMeaning(s[1..], key);
      InsertBySorted(s[0], SortBy(s[1..], key), key);
    }
  }
}
