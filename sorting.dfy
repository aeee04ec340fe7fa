/**
 * The in-place `Array.prototype.sort` with a `(a, b) => key(b) - key(a)`
 * comparator: a stable sort into non-increasing key order. It is given here
 * as a functional insertion sort, the reference for what the library does.
 */
module Sorting {

  /** Non-increasing by `key`. */
  ghost predicate SortedDesc<T>(s: seq<T>, key: T -> int)
  {
    forall i, j :: 0 <= i < j < |s| ==> key(s[i]) >= key(s[j])
  }

  /** An element no smaller than any element of a sorted list can go in front of it. */
  lemma SortedCons<T>(y: T, s: seq<T>, key: T -> int)
    requires SortedDesc(s, key)
    requires forall k :: 0 <= k < |s| ==> key(s[k]) <= key(y)
    ensures SortedDesc([y] + s, key)
  {
    var r := [y] + s;
    forall i, j | 0 <= i < j < |r| ensures key(r[i]) >= key(r[j]) {
      if i > 0 {
        assert r[i] == s[i - 1] && r[j] == s[j - 1];
      } else {
        assert r[j] == s[j - 1];
      }
    }
  }

  /** A bound on the keys of a sequence is a bound on the keys of any permutation of it. */
  lemma BoundOfPermutation<T>(r: seq<T>, s: seq<T>, key: T -> int, bound: int)
    requires multiset(r) == multiset(s)
    requires forall k :: 0 <= k < |s| ==> key(s[k]) <= bound
    ensures forall k :: 0 <= k < |r| ==> key(r[k]) <= bound
  {
    forall k | 0 <= k < |r| ensures key(r[k]) <= bound {
      assert r[k] in multiset(s);
    }
  }

  /** Puts `x` in front of the first element whose key is not larger, which keeps ties in input order. */
  function InsertDesc<T>(x: T, s: seq<T>, key: T -> int): (r: seq<T>)
    requires SortedDesc(s, key)
    ensures |r| == |s| + 1
    ensures multiset(r) == multiset(s) + multiset{x}
    ensures SortedDesc(r, key)
  {
    if s == [] || key(s[0]) <= key(x) then
      SortedCons(x, s, key);
      assert multiset([x] + s) == multiset{x} + multiset(s);
      [x] + s
    else
      var rest := s[1..];
      assert SortedDesc(rest, key);
      var tail := InsertDesc(x, rest, key);
      assert s == [s[0]] + rest;
      assert multiset(rest + [x]) == multiset(rest) + multiset{x};
      assert forall k :: 0 <= k < |rest + [x]| ==> key((rest + [x])[k]) <= key(s[0]) by {
        forall k | 0 <= k < |rest + [x]| ensures key((rest + [x])[k]) <= key(s[0]) {
          if k < |rest| { assert (rest + [x])[k] == s[k + 1]; }
        }
      }
      BoundOfPermutation(tail, rest + [x], key, key(s[0]));
      SortedCons(s[0], tail, key);
      assert multiset([s[0]] + tail) == multiset{s[0]} + multiset(tail);
      assert multiset(s) == multiset{s[0]} + multiset(rest);
      [s[0]] + tail
  }

  /** The stable descending sort of `s`. */
  function SortDesc<T>(s: seq<T>, key: T -> int): (r: seq<T>)
    ensures |r| == |s|
    ensures multiset(r) == multiset(s)
    ensures SortedDesc(r, key)
  {
    if s == [] then []
    else
      assert s == [s[0]] + s[1..];
      InsertDesc(s[0], SortDesc(s[1..], key), key)
  }

  /** No element occurs twice. */
  ghost predicate Distinct<T>(s: seq<T>)
  {
    forall i, j :: 0 <= i < j < |s| ==> s[i] != s[j]
  }

  lemma {:induction false} DistinctCount<T>(s: seq<T>, x: T)
    requires Distinct(s)
    ensures multiset(s)[x] <= 1
  {
    if s != [] {
      assert s == [s[0]] + s[1..];
      DistinctCount(s[1..], x);
      if x == s[0] {
        assert x !in s[1..];
      }
    }
  }

  /** Reordering a sequence without repeats gives a sequence without repeats. */
  lemma PermutationKeepsDistinct<T>(a: seq<T>, b: seq<T>)
    requires multiset(a) == multiset(b)
    requires Distinct(a)
    ensures Distinct(b)
  {
    forall i, j | 0 <= i < j < |b| ensures b[i] != b[j] {
      if b[i] == b[j] {
        var x := b[i];
        assert b == b[..i] + [x] + b[i+1..j] + [x] + b[j+1..];
        assert multiset(b)[x] >= 2;
        DistinctCount(a, x);
        assert false;
      }
    }
  }
}
