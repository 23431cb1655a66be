/**
 Ascending sort of a sequence of integers, the model of Ruby's
 `Array#sort` with the block `{|a,b| a<=>b}`. The library's algorithm is not
 visible, so the model sorts by insertion and proves that a sorted permutation
 is unique: any correct sort returns the same sequence.
 */
module Sorting {

  predicate Sorted(s: seq<int>)
  {
    forall i, j :: 0 <= i < j < |s| ==> s[i] <= s[j]
  }

  /** Inserts `x` into the sorted sequence `s`, before the first element not smaller than it. */
  function Insert(x: int, s: seq<int>): (r: seq<int>)
    requires Sorted(s)
    ensures Sorted(r)
    ensures multiset(r) == multiset(s) + multiset{x}
    ensures |r| == |s| + 1
    ensures forall y :: y in r ==> y == x || y in s
  {
    if s == [] then [x]
    else if x <= s[0] then [x] + s
    else
      var rest := Insert(x, s[1..]);
      assert s == [s[0]] + s[1..];
      assert forall k :: 0 <= k < |rest| ==> s[0] <= rest[k] by {
        forall k | 0 <= k < |rest|
          ensures s[0] <= rest[k]
        {
          assert rest[k] in rest;
        }
      }
      [s[0]] + rest
  }

  /** The sequence `s` in ascending order. */
  function SortAscending(s: seq<int>): (r: seq<int>)
    ensures Sorted(r)
    ensures multiset(r) == multiset(s)
    ensures |r| == |s|
  {
    if s == [] then []
    else
      assert s == [s[0]] + s[1..];
      Insert(s[0], SortAscending(s[1..]))
  }

  /** The first element of a sorted sequence is its least. */
  lemma HeadIsLeast(a: seq<int>)
    requires Sorted(a) && a != []
    ensures forall y :: y in a ==> a[0] <= y
  {
  }

  /** The tail of `a` holds the elements of `a` less one copy of its head. */
  lemma TailMultiset(a: seq<int>)
    requires a != []
    ensures multiset(a[1..]) == multiset(a) - multiset{a[0]}
  {
    assert a == [a[0]] + a[1..];
  }

  /** Two sorted sequences with the same elements are equal. */
  lemma {:induction false} SortedPermutationsAreEqual(a: seq<int>, b: seq<int>)
    requires Sorted(a) && Sorted(b)
    requires multiset(a) == multiset(b)
    ensures a == b
  {
    assert |a| == |multiset(a)| == |multiset(b)| == |b|;
    if a != [] {
      HeadIsLeast(a);
      HeadIsLeast(b);
      assert a[0] in multiset(b);
      assert b[0] in multiset(a);
      assert a[0] == b[0];
      TailMultiset(a);
      TailMultiset(b);
      SortedPermutationsAreEqual(a[1..], b[1..]);
      assert a == [a[0]] + a[1..];
      assert b == [b[0]] + b[1..];
    }
  }

  /** Any sorted permutation of `s` is `SortAscending(s)`. */
  lemma SortAscendingIsTheOnlySort(s: seq<int>, r: seq<int>)
    requires Sorted(r) && multiset(r) == multiset(s)
    ensures r == SortAscending(s)
  {
    SortedPermutationsAreEqual(r, SortAscending(s));
  }
}
