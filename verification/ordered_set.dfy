/**
 * The insertion-ordered `Set` of ECMAScript: `add` appends a value not yet
 * present and ignores one already present; iteration (`Array.from`, spread,
 * `for ... of`) follows insertion order.
 */
module OrderedSet {

  predicate NoDup<T(==)>(s: seq<T>) {
    forall i, j :: 0 <= i < j < |s| ==> s[i] != s[j]
  }

  /** `set.add(x)` */
  function Insert<T(==)>(s: seq<T>, x: T): seq<T> {
    if x in s then s else s + [x]
  }

  /** `xs.forEach(x => set.add(x))` */
  function InsertAll<T(==)>(s: seq<T>, xs: seq<T>): seq<T>
    decreases |xs|
  {
    if xs == [] then s else Insert(InsertAll(s, xs[..|xs| - 1]), xs[|xs| - 1])
  }

  /** `new Set(xs)` read back in iteration order. */
  function Distinct<T(==)>(xs: seq<T>): seq<T> {
    InsertAll([], xs)
  }

  /** The index of the first occurrence of `x`. */
  function FirstIndex<T(==)>(xs: seq<T>, x: T): (k: nat)
    requires x in xs
    ensures k < |xs| && xs[k] == x && x !in xs[..k]
  {
    if xs[0] == x then 0 else 1 + FirstIndex(xs[1..], x)
  }

  /** Adding keeps what was there, in place. */
  lemma {:induction false} InsertAllExtends<T>(s: seq<T>, xs: seq<T>)
    ensures |s| <= |InsertAll(s, xs)| && InsertAll(s, xs)[..|s|] == s
  {
    if xs != [] {
      InsertAllExtends(s, xs[..|xs| - 1]);
    }
  }

  /** Adding two values with `forEach` is adding one, then the other. */
  lemma InsertAllPair<T>(s: seq<T>, a: T, b: T)
    ensures InsertAll(s, [a, b]) == Insert(Insert(s, a), b)
  {
    calc {
      InsertAll(s, [a, b]);
      Insert(InsertAll(s, [a, b][..1]), b);
      { assert [a, b][..1] == [a]; }
      Insert(InsertAll(s, [a]), b);
      { assert [a][..0] == []; }
      Insert(Insert(s, a), b);
    }
  }

  /** Adding one list, then another, is adding their concatenation. */
  lemma {:induction false} InsertAllAppend<T>(s: seq<T>, xs: seq<T>, ys: seq<T>)
    ensures InsertAll(InsertAll(s, xs), ys) == InsertAll(s, xs + ys)
    decreases |ys|
  {
    if ys == [] {
      assert xs + ys == xs;
    } else {
      InsertAllAppend(s, xs, ys[..|ys| - 1]);
      assert (xs + ys)[..|xs + ys| - 1] == xs + ys[..|ys| - 1];
    }
  }

  /** A set filled from `[a, c] + rest` lists `a` first, then `c` unless it is `a`. */
  lemma DistinctHead<T>(a: T, c: T, rest: seq<T>)
    ensures var d := Distinct([a, c] + rest);
      |d| >= 1 && d[0] == a && (c != a ==> |d| >= 2 && d[1] == c)
  {
    InsertAllAppend([], [a, c], rest);
    var h := InsertAll([], [a, c]);
    InsertAllExtends(h, rest);
    InsertAllPair([], a, c);
    assert Insert([], a) == [a];
    assert h[0] == a;
    assert c != a ==> h == [a, c];
    var d := InsertAll(h, rest);
    assert d[..|h|] == h;
    assert d[0] == h[0];
  }

  /** The set holds exactly what it held plus what was added. */
  lemma {:induction false} InsertAllMembers<T>(s: seq<T>, xs: seq<T>, x: T)
    ensures x in InsertAll(s, xs) <==> x in s || x in xs
  {
    if xs != [] {
      var init := xs[..|xs| - 1];
      InsertAllMembers(s, init, x);
      assert xs == init + [xs[|xs| - 1]];
    }
  }

  /** No value is held twice. */
  lemma {:induction false} InsertAllNoDup<T>(s: seq<T>, xs: seq<T>)
    requires NoDup(s)
    ensures NoDup(InsertAll(s, xs))
  {
    if xs != [] {
      InsertAllNoDup(s, xs[..|xs| - 1]);
    }
  }

  /** Every added value is held exactly once. */
  lemma DistinctMembers<T>(xs: seq<T>)
    ensures NoDup(Distinct(xs))
    ensures forall x :: x in Distinct(xs) <==> x in xs
  {
    InsertAllNoDup([], xs);
    forall x ensures x in Distinct(xs) <==> x in xs {
      InsertAllMembers([], xs, x);
    }
  }

  /** Each held value was added. */
  lemma DistinctFrom<T>(xs: seq<T>)
    ensures forall k :: 0 <= k < |Distinct(xs)| ==> Distinct(xs)[k] in xs
  {
    forall k | 0 <= k < |Distinct(xs)|
      ensures Distinct(xs)[k] in xs
    {
      InsertAllMembers([], xs, Distinct(xs)[k]);
    }
  }

  /** The first occurrence in a prefix is the first occurrence in the whole. */
  lemma {:induction false} FirstIndexPrefix<T>(xs: seq<T>, n: nat, x: T)
    requires n <= |xs| && x in xs[..n]
    ensures FirstIndex(xs[..n], x) == FirstIndex(xs, x)
  {
    if xs[0] != x {
      assert xs[..n][1..] == xs[1..][..n - 1];
      FirstIndexPrefix(xs[1..], n - 1, x);
    }
  }

  /** A last element that does not occur earlier first occurs at the end. */
  lemma FirstIndexLast<T>(xs: seq<T>)
    requires xs != [] && xs[|xs| - 1] !in xs[..|xs| - 1]
    ensures xs[|xs| - 1] in xs && FirstIndex(xs, xs[|xs| - 1]) == |xs| - 1
  {
    var n, last := |xs| - 1, xs[|xs| - 1];
    assert xs[n] == last;
    forall m | 0 <= m < n
      ensures xs[m] != last
    {
      assert xs[..n][m] == xs[m];
    }
  }

  /** `a` and `b` both occur in `xs`, `a` first. */
  ghost predicate SeenBefore<T>(xs: seq<T>, a: T, b: T) {
    a in xs && b in xs && FirstIndex(xs, a) < FirstIndex(xs, b)
  }

  /** The held values of `new Set(xs)` come in the order of their first occurrence in `xs`. */
  ghost predicate FirstSeenOrdered<T>(xs: seq<T>) {
    forall i, j :: 0 <= i < j < |Distinct(xs)| ==> SeenBefore(xs, Distinct(xs)[i], Distinct(xs)[j])
  }

  /** The first-seen order of two held values, from that of the values held before the last one was added. */
  lemma FirstSeenPair<T>(xs: seq<T>, i: nat, j: nat)
    requires xs != [] && i < j < |Distinct(xs)| && FirstSeenOrdered(xs[..|xs| - 1])
    ensures SeenBefore(xs, Distinct(xs)[i], Distinct(xs)[j])
  {
    var n := |xs| - 1;
    var init, last := xs[..n], xs[n];
    var d0, d := Distinct(init), Distinct(xs);
    assert d == Insert(d0, last);
    InsertAllExtends(d0, [last]);
    assert [last][..0] == [];
    DistinctMembers(init);
    assert d[..|d0|] == d0;
    assert i < |d0| && d[i] == d0[i];
    assert d0[i] in init;
    FirstIndexPrefix(xs, n, d[i]);
    if j < |d0| {
      assert d[j] == d0[j];
      assert d0[j] in init;
      FirstIndexPrefix(xs, n, d[j]);
    } else {
      assert d == d0 + [last] && d[j] == last && last !in init;
      FirstIndexLast(xs);
    }
  }

  /** Adding the last value keeps the held values in first-seen order. */
  lemma FirstSeenStep<T>(xs: seq<T>)
    requires xs != [] && FirstSeenOrdered(xs[..|xs| - 1])
    ensures FirstSeenOrdered(xs)
  {
    forall i, j | 0 <= i < j < |Distinct(xs)|
      ensures SeenBefore(xs, Distinct(xs)[i], Distinct(xs)[j])
    {
      FirstSeenPair(xs, i, j);
    }
  }

  /** Values are held in the order of their first occurrence. */
  lemma {:induction false} DistinctFirstSeenOrder<T>(xs: seq<T>)
    ensures forall i :: 0 <= i < |Distinct(xs)| ==> Distinct(xs)[i] in xs
    ensures forall i, j :: 0 <= i < j < |Distinct(xs)| ==>
      FirstIndex(xs, Distinct(xs)[i]) < FirstIndex(xs, Distinct(xs)[j])
  {
    DistinctFrom(xs);
    if xs != [] {
      var init := xs[..|xs| - 1];
      DistinctFirstSeenOrder(init);
      forall i, j | 0 <= i < j < |Distinct(init)|
        ensures SeenBefore(init, Distinct(init)[i], Distinct(init)[j])
      {
      }
      FirstSeenStep(xs);
      forall i, j | 0 <= i < j < |Distinct(xs)|
        ensures FirstIndex(xs, Distinct(xs)[i]) < FirstIndex(xs, Distinct(xs)[j])
      {
        assert SeenBefore(xs, Distinct(xs)[i], Distinct(xs)[j]);
      }
    } else {
      assert |Distinct(xs)| == 0;
    }
  }

  /** A list without repeats has as many values as elements. */
  lemma {:induction false} NoDupSize<T>(a: seq<T>)
    requires NoDup(a)
    ensures |(set x | x in a)| == |a|
  {
    if a != [] {
      NoDupSize(a[1..]);
      assert (set x | x in a) == (set x | x in a[1..]) + {a[0]};
      assert a[0] !in (set x | x in a[1..]);
    }
  }
}
