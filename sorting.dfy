/** Sorting by a comparator, as `Array.prototype.sort` is used by the pages:
    in place on an array, or on a fresh copy (`[...xs].sort(cmp)`).
    The comparator is given as the "may come before" relation it induces, which
    must be a total preorder for the result to be well defined. */
module Sorting {

  ghost predicate TotalPreorder<T(!new)>(leq: (T, T) -> bool) {
    && (forall x, y :: leq(x, y) || leq(y, x))
    && (forall x, y, z :: leq(x, y) && leq(y, z) ==> leq(x, z))
  }

  ghost predicate SortedBy<T>(leq: (T, T) -> bool, s: seq<T>) {
    forall i, j :: 0 <= i < j < |s| ==> leq(s[i], s[j])
  }

  /** Sorts `a` in place by insertion: each element is swapped leftwards past
      every element it must precede. */
  method InsertionSort<T(==,!new)>(a: array<T>, leq: (T, T) -> bool)
    requires TotalPreorder(leq)
    modifies a
    ensures SortedBy(leq, a[..])
    ensures multiset(a[..]) == old(multiset(a[..]))
  {
    var i := 0;
    while i < a.Length
      invariant 0 <= i <= a.Length
      invariant SortedBy(leq, a[..i])
      invariant multiset(a[..]) == old(multiset(a[..]))
    {
      InsertAt(a, i, leq);
      i := i + 1;
    }
    assert a[..] == a[..a.Length];
  }

  /** Moves `a[i]` leftwards into the sorted prefix `a[..i]`, leaving
      `a[..i + 1]` sorted. */
  method InsertAt<T(==,!new)>(a: array<T>, i: nat, leq: (T, T) -> bool)
    requires TotalPreorder(leq)
    requires i < a.Length && SortedBy(leq, a[..i])
    modifies a
    ensures SortedBy(leq, a[..i + 1])
    ensures multiset(a[..]) == old(multiset(a[..]))
  {
    var j := i;
    assert Inserting(leq, a[..], j, i);
    while j > 0 && !leq(a[j - 1], a[j])
      invariant 0 <= j <= i
      invariant Inserting(leq, a[..], j, i)
      invariant multiset(a[..]) == old(multiset(a[..]))
    {
      ghost var s := a[..];
      Swap(a, j - 1, j);
      SwapKeepsInserting(leq, s, j, i);
      j := j - 1;
    }
    InsertingDone(leq, a[..], j, i);
  }

  method Swap<T>(a: array<T>, p: nat, q: nat)
    requires p < q < a.Length
    modifies a
    ensures a[..] == old(a[..])[p := old(a[q])][q := old(a[p])]
    ensures multiset(a[..]) == old(multiset(a[..]))
  {
    a[p], a[q] := a[q], a[p];
  }

  /** While `s[j]` travels left from position `i`: the other elements of
      `s[..i + 1]` are in order, those before `j` precede those after it, and
      `s[j]` precedes everything after it. */
  ghost predicate Inserting<T>(leq: (T, T) -> bool, s: seq<T>, j: int, i: int)
    requires 0 <= j <= i < |s|
  {
    && (forall p, q :: 0 <= p < q <= i && p != j && q != j ==> leq(s[p], s[q]))
    && (forall p, q :: 0 <= p < j < q <= i ==> leq(s[p], s[q]))
    && (forall q :: j < q <= i ==> leq(s[j], s[q]))
  }

  lemma SwapKeepsInserting<T(!new)>(leq: (T, T) -> bool, s: seq<T>, j: int, i: int)
    requires TotalPreorder(leq)
    requires 0 < j <= i < |s| && Inserting(leq, s, j, i) && !leq(s[j - 1], s[j])
    ensures Inserting(leq, s[j - 1 := s[j]][j := s[j - 1]], j - 1, i)
  {
  }

  lemma InsertingDone<T(!new)>(leq: (T, T) -> bool, s: seq<T>, j: int, i: int)
    requires 0 <= j <= i < |s| && Inserting(leq, s, j, i)
    requires j == 0 || leq(s[j - 1], s[j])
    requires TotalPreorder(leq)
    ensures SortedBy(leq, s[..i + 1])
  {
  }

  /** `[...s].sort(cmp)`: a sorted permutation of `s`; `s` itself is a value
      and cannot be affected. */
  method SortedCopy<T(==,!new)>(s: seq<T>, leq: (T, T) -> bool) returns (r: seq<T>)
    requires TotalPreorder(leq)
    ensures SortedBy(leq, r)
    ensures multiset(r) == multiset(s)
  {
    var copy := new T[|s|](k requires 0 <= k < |s| => s[k]);
    assert copy[..] == s;
    InsertionSort(copy, leq);
    r := copy[..];
  }
}
