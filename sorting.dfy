/**
 * `Collections.sort` on a list of strings: an insertion sort that returns an
 * ascending permutation of its input, and the fact that such a result is unique.
 */
module Sorting {
  import opened Text

  /** Ascending in `String.compareTo` order. */
  ghost predicate Sorted(s: seq<string>) {
    forall i, j :: 0 <= i < j < |s| ==> LessEq(s[i], s[j])
  }

  ghost predicate NoDuplicates(s: seq<string>) {
    forall i, j :: 0 <= i < j < |s| ==> s[i] != s[j]
  }

  /** A list whose neighbours are in order is ascending. */
  lemma {:induction false} ChainSorted(s: seq<string>)
    requires forall k :: 0 <= k < |s| - 1 ==> LessEq(s[k], s[k + 1])
    ensures Sorted(s)
    decreases |s|
  {
    if |s| > 1 {
      ChainSorted(s[1..]);
      forall j | 1 < j < |s| ensures LessEq(s[0], s[j]) {
        assert s[1..][j - 1] == s[j];
        LessEqTransitive(s[0], s[1], s[j]);
      }
    }
  }

  /** Inserts `x` in front of the first element it does not exceed. */
  function Insert(s: seq<string>, x: string): seq<string> {
    if s == [] then [x]
    else if LessEq(x, s[0]) then [x] + s
    else [s[0]] + Insert(s[1..], x)
  }

  lemma {:induction false} InsertPermutation(s: seq<string>, x: string)
    ensures multiset(Insert(s, x)) == multiset(s) + multiset{x}
    decreases |s|
  {
    if s != [] && !LessEq(x, s[0]) {
      InsertPermutation(s[1..], x);
      assert s == [s[0]] + s[1..];
    }
  }

  /** A lower bound of the list and of `x` bounds the result. */
  lemma {:induction false} InsertLowerBound(s: seq<string>, x: string, b: string)
    requires forall j :: 0 <= j < |s| ==> LessEq(b, s[j])
    requires LessEq(b, x)
    ensures forall j :: 0 <= j < |Insert(s, x)| ==> LessEq(b, Insert(s, x)[j])
    decreases |s|
  {
    if s != [] && !LessEq(x, s[0]) {
      InsertLowerBound(s[1..], x, b);
    }
  }

  /** Prepending a lower bound keeps a list ascending. */
  lemma ConsSorted(h: string, t: seq<string>)
    requires Sorted(t)
    requires forall j :: 0 <= j < |t| ==> LessEq(h, t[j])
    ensures Sorted([h] + t)
  {
  }

  lemma {:induction false} InsertSorted(s: seq<string>, x: string)
    requires Sorted(s)
    ensures Sorted(Insert(s, x))
    decreases |s|
  {
    if s == [] {
    } else if LessEq(x, s[0]) {
      forall j | 0 <= j < |s| ensures LessEq(x, s[j]) {
        if j > 0 { LessEqTransitive(x, s[0], s[j]); }
      }
      ConsSorted(x, s);
    } else {
      InsertSorted(s[1..], x);
      LessEqTotal(x, s[0]);
      InsertLowerBound(s[1..], x, s[0]);
      ConsSorted(s[0], Insert(s[1..], x));
    }
  }

  /** `Collections.sort(list)` on strings. */
  method SortStrings(s: seq<string>) returns (r: seq<string>)
    ensures Sorted(r)
    ensures multiset(r) == multiset(s)
  {
    r := [];
    var i := 0;
    while i < |s|
      invariant 0 <= i <= |s|
      invariant Sorted(r)
      invariant multiset(r) == multiset(s[..i])
    {
      assert s[..i + 1] == s[..i] + [s[i]];
      InsertSorted(r, s[i]);
      InsertPermutation(r, s[i]);
      r := Insert(r, s[i]);
      i := i + 1;
    }
    assert s[..i] == s;
  }

  /** The head of an ascending list does not exceed any of its elements. */
  lemma HeadIsLeast(s: seq<string>, x: string)
    requires Sorted(s) && x in s
    ensures LessEq(s[0], x)
  {
    var i :| 0 <= i < |s| && s[i] == x;
    if i == 0 { LessEqReflexive(x); }
  }

  lemma TailMultiset(s: seq<string>)
    requires s != []
    ensures multiset(s[1..]) == multiset(s) - multiset{s[0]}
  {
    assert s == [s[0]] + s[1..];
  }

  /** Two ascending permutations of the same elements are the same list. */
  lemma {:induction false} SortedUnique(a: seq<string>, b: seq<string>)
    requires Sorted(a) && Sorted(b)
    requires multiset(a) == multiset(b)
    ensures a == b
    decreases |a|
  {
    assert |b| == |a| by { assert |multiset(a)| == |multiset(b)|; }
    if a != [] {
      assert a[0] in multiset(b) && b[0] in multiset(a);
      HeadIsLeast(a, b[0]);
      HeadIsLeast(b, a[0]);
      LessEqAntisymmetric(a[0], b[0]);
      TailMultiset(a);
      TailMultiset(b);
      SortedUnique(a[1..], b[1..]);
      assert a == [a[0]] + a[1..] && b == [b[0]] + b[1..];
    }
  }

  /** A list without repetitions has each element at most once in its multiset. */
  lemma {:induction false} NoDuplicatesCount(s: seq<string>, x: string)
    requires NoDuplicates(s)
    ensures multiset(s)[x] <= 1
    decreases |s|
  {
    if s != [] {
      assert s == [s[0]] + s[1..];
      assert NoDuplicates(s[1..]);
      NoDuplicatesCount(s[1..], x);
      if x == s[0] { assert x !in s[1..]; }
    }
  }

  /** Reordering a list without repetitions introduces none. */
  lemma PermutationKeepsNoDuplicates(a: seq<string>, b: seq<string>)
    requires NoDuplicates(a) && multiset(a) == multiset(b)
    ensures NoDuplicates(b)
  {
    forall i, j | 0 <= i < j < |b| ensures b[i] != b[j] {
      NoDuplicatesCount(a, b[i]);
      if b[i] == b[j] {
        RepeatedTwice(b, i, j);
        assert false;
      }
    }
  }

  lemma RepeatedTwice(b: seq<string>, i: nat, j: nat)
    requires i < j < |b| && b[i] == b[j]
    ensures multiset(b)[b[i]] >= 2
  {
    assert b == b[..j] + b[j..];
    assert b[..j][i] == b[i] && b[j..][0] == b[i];
    assert b[i] in multiset(b[..j]) && b[i] in multiset(b[j..]);
  }

  /** Two lists without repetitions that hold the same elements are permutations of each other. */
  lemma SameElementsPermutation(a: seq<string>, b: seq<string>)
    requires NoDuplicates(a) && NoDuplicates(b)
    requires forall x :: x in a <==> x in b
    ensures multiset(a) == multiset(b)
  {
    forall x | true ensures multiset(a)[x] == multiset(b)[x] {
      NoDuplicatesCount(a, x);
      NoDuplicatesCount(b, x);
      if x in a {
        assert x in multiset(a) && x in multiset(b);
      } else {
        assert x !in multiset(a) && x !in multiset(b);
      }
    }
  }
}
