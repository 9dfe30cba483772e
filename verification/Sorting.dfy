/**
 Go's `sort.Slice`: some permutation that is ordered by the given comparison.  Callers know only that; the
 order of elements that compare equal is theirs to pin down, with `SortedUnique` when none do.
 */
module Sorting {

  /** The comparison is a strict weak order, as `sort.Slice` demands. */
  ghost predicate WeakOrder<T(!new)>(less: (T, T) -> bool) {
    && (forall x, y :: less(x, y) ==> !less(y, x))
    && (forall x, y, z :: !less(y, x) && !less(z, y) ==> !less(z, x))
  }

  ghost predicate Sorted<T>(less: (T, T) -> bool, s: seq<T>) {
    forall i, j :: 0 <= i < j < |s| ==> !less(s[j], s[i])
  }

  /** No two different elements compare equal. */
  ghost predicate TotalOn<T>(less: (T, T) -> bool, s: seq<T>) {
    forall x, y :: x in s && y in s && x != y ==> less(x, y) || less(y, x)
  }

  method SortSlice<T(!new)>(less: (T, T) -> bool, s: seq<T>) returns (r: seq<T>)
    requires WeakOrder(less)
    ensures Sorted(less, r) && multiset(r) == multiset(s) && |r| == |s|
  {
    r := [];
    for i := 0 to |s|
      invariant Sorted(less, r) && multiset(r) == multiset(s[..i]) && |r| == i
    {
      assert s[..i + 1] == s[..i] + [s[i]];
      r := InsertInOrder(less, r, s[i]);
    }
    assert s[..|s|] == s;
  }

  method InsertInOrder<T(!new)>(less: (T, T) -> bool, r: seq<T>, x: T) returns (t: seq<T>)
    requires WeakOrder(less) && Sorted(less, r)
    ensures Sorted(less, t) && multiset(t) == multiset(r) + multiset{x} && |t| == |r| + 1
  {
    var j := |r|;
    while j > 0 && less(x, r[j - 1])
      invariant 0 <= j <= |r|
      invariant forall k :: j <= k < |r| ==> less(x, r[k])
    {
      j := j - 1;
    }
    InsertSorted(less, r, x, j);
    assert r == r[..j] + r[j..];
    t := r[..j] + [x] + r[j..];
  }

  lemma InsertSorted<T(!new)>(less: (T, T) -> bool, r: seq<T>, x: T, j: nat)
    requires WeakOrder(less) && Sorted(less, r) && j <= |r|
    requires j > 0 ==> !less(x, r[j - 1])
    requires forall k :: j <= k < |r| ==> less(x, r[k])
    ensures Sorted(less, r[..j] + [x] + r[j..])
  {
    forall k | 0 <= k < j ensures !less(x, r[k]) {
      if k < j - 1 { assert !less(r[j - 1], r[k]); }
    }
  }

  /** Being a permutation says what is in the sequence. */
  lemma SameElements<T>(a: seq<T>, b: seq<T>, x: T)
    requires multiset(a) == multiset(b)
    ensures x in a <==> x in b
  {
    assert x in a <==> x in multiset(a);
    assert x in b <==> x in multiset(b);
  }

  ghost predicate Distinct<T>(s: seq<T>) { forall i, j :: 0 <= i < j < |s| ==> s[i] != s[j] }

  lemma {:induction false} OnceEach<T>(s: seq<T>)
    requires Distinct(s)
    ensures forall x :: multiset(s)[x] <= 1
  {
    if s != [] {
      var n := |s| - 1;
      OnceEach(s[..n]);
      assert s == s[..n] + [s[n]];
      assert s[n] !in s[..n];
      assert multiset(s[..n])[s[n]] == 0;
    }
  }

  lemma Twice<T>(s: seq<T>, i: nat, j: nat)
    requires i < j < |s| && s[i] == s[j]
    ensures multiset(s)[s[i]] >= 2
  {
    assert s == s[..j] + [s[j]] + s[j + 1..];
    assert s[i] in s[..j];
    assert multiset(s[..j])[s[i]] >= 1;
  }

  lemma PermutationKeepsDistinct<T>(a: seq<T>, b: seq<T>)
    requires multiset(a) == multiset(b) && Distinct(a)
    ensures Distinct(b)
  {
    OnceEach(a);
    forall i, j | 0 <= i < j < |b| ensures b[i] != b[j] {
      if b[i] == b[j] { Twice(b, i, j); }
    }
  }

  /** Sequences without repetition that have the same elements are permutations of each other. */
  lemma SameSet<T(!new)>(a: seq<T>, b: seq<T>)
    requires Distinct(a) && Distinct(b) && forall x :: x in a <==> x in b
    ensures multiset(a) == multiset(b)
  {
    OnceEach(a);
    OnceEach(b);
    forall x ensures multiset(a)[x] == multiset(b)[x] {
      assert x in a <==> x in multiset(a);
      assert x in b <==> x in multiset(b);
    }
  }

  lemma SameHead<T>(less: (T, T) -> bool, a: seq<T>, b: seq<T>)
    requires a != [] && b != [] && multiset(a) == multiset(b)
    requires Sorted(less, a) && Sorted(less, b) && TotalOn(less, a)
    ensures a[0] == b[0]
  {
    SameElements(a, b, a[0]);
    SameElements(a, b, b[0]);
    var i :| 0 <= i < |a| && a[i] == b[0];
    var j :| 0 <= j < |b| && b[j] == a[0];
    assert (i == 0 || !less(b[0], a[0])) && (j == 0 || !less(a[0], b[0]));
  }

  lemma SameTail<T>(a: seq<T>, b: seq<T>)
    requires a != [] && b != [] && multiset(a) == multiset(b) && a[0] == b[0]
    ensures multiset(a[1..]) == multiset(b[1..])
  {
    assert a == [a[0]] + a[1..] && b == [b[0]] + b[1..];
    assert multiset(a[1..]) == multiset(a) - multiset{a[0]};
    assert multiset(b[1..]) == multiset(b) - multiset{b[0]};
  }

  /** Two ordered permutations of the same elements are the same sequence when no two elements compare equal. */
  lemma {:induction false} SortedUnique<T>(less: (T, T) -> bool, a: seq<T>, b: seq<T>)
    requires multiset(a) == multiset(b) && Sorted(less, a) && Sorted(less, b) && TotalOn(less, a)
    ensures a == b
  {
    assert |a| == |multiset(a)| == |multiset(b)| == |b|;
    if a != [] {
      SameHead(less, a, b);
      SameTail(a, b);
      SortedUnique(less, a[1..], b[1..]);
      assert a == [a[0]] + a[1..] && b == [b[0]] + b[1..];
    }
  }
}
