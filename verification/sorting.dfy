/**
 * `Array.prototype.sort` with a comparator that orders records by a key:
 * the stable insertion sort, which the language's `sort` matches for a
 * consistent comparator, on sequences (for `filter(...).sort(...)` chains,
 * which sort a fresh array) and in place on an array (for `data.sort(...)`,
 * which reorders the caller's array).
 */
module Sorting {

  /** A sort key: records are compared on `major`, then on `minor`. */
  datatype Key = Key(major: real, minor: real)

  /** The comparator returns -1 or 0, never 1: `a` may stay before `b`. */
  predicate Le(a: Key, b: Key) {
    a.major < b.major || (a.major == b.major && a.minor <= b.minor)
  }

  predicate SortedBy<T>(s: seq<T>, key: T -> Key) {
    forall i, j :: 0 <= i < j < |s| ==> Le(key(s[i]), key(s[j]))
  }

  /** Inserting `x` after the last element whose key is not above its own. */
  function InsertSorted<T>(x: T, s: seq<T>, key: T -> Key): seq<T> {
    if s == [] || Le(key(s[|s| - 1]), key(x)) then s + [x]
    else InsertSorted(x, s[..|s| - 1], key) + [s[|s| - 1]]
  }

  /** Insertion sort: each element in turn is inserted into the sorted prefix. */
  function SortBy<T>(s: seq<T>, key: T -> Key): seq<T> {
    if s == [] then [] else InsertSorted(s[|s| - 1], SortBy(s[..|s| - 1], key), key)
  }

  lemma {:induction false} InsertSortedPermutes<T>(x: T, s: seq<T>, key: T -> Key)
    ensures multiset(InsertSorted(x, s, key)) == multiset(s) + multiset{x}
  {
    if !(s == [] || Le(key(s[|s| - 1]), key(x))) {
      InsertSortedPermutes(x, s[..|s| - 1], key);
      assert s == s[..|s| - 1] + [s[|s| - 1]];
    }
  }

  lemma {:induction false} InsertSortedSorted<T>(x: T, s: seq<T>, key: T -> Key)
    requires SortedBy(s, key)
    ensures SortedBy(InsertSorted(x, s, key), key)
  {
    if !(s == [] || Le(key(s[|s| - 1]), key(x))) {
      var init, last := s[..|s| - 1], s[|s| - 1];
      InsertSortedSorted(x, init, key);
      InsertSortedPermutes(x, init, key);
      var r := InsertSorted(x, init, key);
      forall e | e in r
        ensures Le(key(e), key(last))
      {
        assert e in multiset(r);
        if e != x {
          assert e in multiset(init);
          var k :| 0 <= k < |init| && init[k] == e;
          assert s[k] == e;
        }
      }
      forall i, j | 0 <= i < j < |r + [last]|
        ensures Le(key((r + [last])[i]), key((r + [last])[j]))
      {
        if j == |r| {
          assert (r + [last])[i] == r[i] && r[i] in r;
        }
      }
    }
  }

  lemma {:induction false} SortByPermutes<T>(s: seq<T>, key: T -> Key)
    ensures multiset(SortBy(s, key)) == multiset(s)
  {
    if s != [] {
      var init, last := s[..|s| - 1], s[|s| - 1];
      SortByPermutes(init, key);
      InsertSortedPermutes(last, SortBy(init, key), key);
      assert s == init + [last];
    }
  }

  lemma {:induction false} SortBySorted<T>(s: seq<T>, key: T -> Key)
    ensures SortedBy(SortBy(s, key), key)
  {
    if s != [] {
      var init, last := s[..|s| - 1], s[|s| - 1];
      SortBySorted(init, key);
      InsertSortedSorted(last, SortBy(init, key), key);
    }
  }

  /** The sort returns a permutation of its input, ordered by the key. */
  lemma SortBySortsAndPermutes<T>(s: seq<T>, key: T -> Key)
    ensures SortedBy(SortBy(s, key), key)
    ensures multiset(SortBy(s, key)) == multiset(s)
  {
    SortBySorted(s, key);
    SortByPermutes(s, key);
  }

  /** The elements of `s` whose key is `k`, in the order of `s`. */
  function WithKey<T>(s: seq<T>, key: T -> Key, k: Key): seq<T> {
    if s == [] then []
    else WithKey(s[..|s| - 1], key, k) + (if key(s[|s| - 1]) == k then [s[|s| - 1]] else [])
  }

  /** `x` is inserted after every element whose key equals its own. */
  lemma {:induction false} InsertSortedStable<T>(x: T, s: seq<T>, key: T -> Key, k: Key)
    ensures WithKey(InsertSorted(x, s, key), key, k) == WithKey(s, key, k) + (if key(x) == k then [x] else [])
  {
    if s == [] || Le(key(s[|s| - 1]), key(x)) {
      assert (s + [x])[..|s|] == s;
    } else {
      var init, last := s[..|s| - 1], s[|s| - 1];
      var r := InsertSorted(x, init, key);
      InsertSortedStable(x, init, key, k);
      assert (r + [last])[..|r|] == r;
      assert key(last) != key(x);
    }
  }

  /** The sort is stable: the elements of any one key keep their input order. */
  lemma {:induction false} SortByStable<T>(s: seq<T>, key: T -> Key, k: Key)
    ensures WithKey(SortBy(s, key), key, k) == WithKey(s, key, k)
  {
    if s != [] {
      var init, last := s[..|s| - 1], s[|s| - 1];
      SortByStable(init, key, k);
      InsertSortedStable(last, SortBy(init, key), key, k);
    }
  }

  lemma SortByLength<T>(s: seq<T>, key: T -> Key)
    ensures |SortBy(s, key)| == |s|
  {
    SortBySortsAndPermutes(s, key);
    assert |multiset(SortBy(s, key))| == |multiset(s)|;
  }

  /** The elements after `j`, all keyed above `x`, stay after it when it is inserted. */
  lemma {:induction false} InsertPastAbove<T>(x: T, p: seq<T>, j: nat, key: T -> Key)
    requires j <= |p| && forall k :: j <= k < |p| ==> !Le(key(p[k]), key(x))
    ensures InsertSorted(x, p, key) == InsertSorted(x, p[..j], key) + p[j..]
    decreases |p| - j
  {
    if j < |p| {
      InsertPastAbove(x, p, j + 1, key);
      assert p[..j + 1][..j] == p[..j];
      assert p[j..] == [p[j]] + p[j + 1..];
    } else {
      assert p[..j] == p;
    }
  }

  /** The gap has reached its place: `x` goes there. */
  lemma InsertStop<T>(x: T, p: seq<T>, j: nat, i: nat, key: T -> Key)
    requires j <= i == |p| && (j == 0 || Le(key(p[j - 1]), key(x)))
    requires InsertSorted(x, p, key) == InsertSorted(x, p[..j], key) + p[j..]
    ensures InsertSorted(x, p, key) == p[..j] + [x] + p[j..]
  {
  }

  /**
   * `data.sort(comparator)` on the caller's array: insertion sort, shifting
   * the elements whose key is above the inserted one a place to the right.
   */
  method SortInPlace<T>(a: array<T>, key: T -> Key)
    modifies a
    ensures a[..] == SortBy(old(a[..]), key)
  {
    ghost var input := a[..];
    var i := 0;
    while i < a.Length
      invariant 0 <= i <= a.Length
      invariant a[..i] == SortBy(input[..i], key)
      invariant forall k :: i <= k < a.Length ==> a[k] == input[k]
    {
      ghost var p := a[..i];
      var x := a[i];
      SortByNext(input, i, key);
      var j := ShiftAbove(a, i, x, key, p);
      a[j] := x;
      Placed(a[..], i, j, x, p, key);
      i := i + 1;
    }
    assert input[..a.Length] == input;
  }

  /** Sorting one element more inserts it into the sorted prefix. */
  lemma SortByNext<T>(s: seq<T>, i: nat, key: T -> Key)
    requires i < |s|
    ensures SortBy(s[..i + 1], key) == InsertSorted(s[i], SortBy(s[..i], key), key)
  {
    assert s[..i + 1][..i] == s[..i];
  }

  /**
   * The inner loop of the insertion: the elements of the sorted prefix
   * `a[..i]` whose key is above that of `x` move one place right, leaving a
   * gap at `j`.
   */
  method ShiftAbove<T>(a: array<T>, i: nat, x: T, key: T -> Key, ghost p: seq<T>) returns (j: nat)
    requires i < a.Length && a[..i] == p
    modifies a
    ensures j <= i && (j == 0 || Le(key(p[j - 1]), key(x)))
    ensures forall k :: 0 <= k < j ==> a[k] == p[k]
    ensures forall k :: j < k <= i ==> a[k] == p[k - 1]
    ensures forall k :: i < k < a.Length ==> a[k] == old(a[k])
    ensures InsertSorted(x, p, key) == InsertSorted(x, p[..j], key) + p[j..]
  {
    j := i;
    while j > 0 && !Le(key(a[j - 1]), key(x))
      invariant j <= i
      invariant forall k :: 0 <= k < j ==> a[k] == p[k]
      invariant forall k :: j < k <= i ==> a[k] == p[k - 1]
      invariant forall k :: i < k < a.Length ==> a[k] == old(a[k])
      invariant forall k :: j <= k < i ==> !Le(key(p[k]), key(x))
    {
      a[j] := a[j - 1];
      j := j - 1;
    }
    InsertPastAbove(x, p, j, key);
  }

  /** With `x` in the gap, the prefix `a[..i + 1]` is `x` inserted into the old sorted prefix. */
  lemma Placed<T>(s: seq<T>, i: nat, j: nat, x: T, p: seq<T>, key: T -> Key)
    requires j <= i < |s| && |p| == i && s[j] == x && (j == 0 || Le(key(p[j - 1]), key(x)))
    requires forall k :: 0 <= k < j ==> s[k] == p[k]
    requires forall k :: j < k <= i ==> s[k] == p[k - 1]
    requires InsertSorted(x, p, key) == InsertSorted(x, p[..j], key) + p[j..]
    ensures s[..i + 1] == InsertSorted(x, p, key)
  {
    InsertStop(x, p, j, i, key);
    GapFilled(s, i, j, x, p);
  }

  /** The shifted prefix with `x` in the gap is the old prefix with `x` at `j`. */
  lemma GapFilled<T>(s: seq<T>, i: nat, j: nat, x: T, p: seq<T>)
    requires j <= i < |s| && |p| == i && s[j] == x
    requires forall k :: 0 <= k < j ==> s[k] == p[k]
    requires forall k :: j < k <= i ==> s[k] == p[k - 1]
    ensures s[..i + 1] == p[..j] + [x] + p[j..]
  {
    var r := p[..j] + [x] + p[j..];
    forall k | 0 <= k <= i
      ensures s[k] == r[k]
    {
      if k < j {
        assert r[k] == p[..j][k];
      } else if k > j {
        assert r[k] == p[j..][k - j - 1];
      }
    }
    assert s[..i + 1] == r;
  }
}
