/**
 * Kotlin's List.filter / removeAll, as one order-preserving filter over
 * sequences, and the facts about it that the store, the sync loop and the
 * search screen rely on.
 */
module Seqs {

  /** `a` can be obtained from `b` by deleting elements (order is kept). */
  predicate IsSubsequence<T(==)>(a: seq<T>, b: seq<T>)
    decreases |b|
  {
    a == [] || (b != [] && ((a[0] == b[0] && IsSubsequence(a[1..], b[1..])) || IsSubsequence(a, b[1..])))
  }

  /** The elements of `s` that satisfy `keep`, in their original order. */
  function Filter<T(==)>(s: seq<T>, keep: T -> bool): (r: seq<T>)
    ensures |r| <= |s|
    ensures forall i :: 0 <= i < |r| ==> r[i] in s && keep(r[i])
    ensures forall i :: 0 <= i < |s| && keep(s[i]) ==> s[i] in r
  {
    if s == [] then [] else (if keep(s[0]) then [s[0]] else []) + Filter(s[1..], keep)
  }

  /** Filtering distributes over concatenation. */
  lemma {:induction false} FilterAppend<T>(a: seq<T>, b: seq<T>, keep: T -> bool)
    ensures Filter(a + b, keep) == Filter(a, keep) + Filter(b, keep)
  {
    if a != [] {
      assert (a + b)[1..] == a[1..] + b;
      FilterAppend(a[1..], b, keep);
    } else {
      assert a + b == b;
    }
  }

  /** When every element is kept the sequence comes back unchanged. */
  lemma {:induction false} FilterKeepsAll<T>(s: seq<T>, keep: T -> bool)
    requires forall i :: 0 <= i < |s| ==> keep(s[i])
    ensures Filter(s, keep) == s
  {
    if s != [] {
      FilterKeepsAll(s[1..], keep);
      assert s == [s[0]] + s[1..];
    }
  }

  /** The filtered sequence is a subsequence of the original. */
  lemma {:induction false} FilterIsSubsequence<T>(s: seq<T>, keep: T -> bool)
    ensures IsSubsequence(Filter(s, keep), s)
  {
    if s != [] {
      FilterIsSubsequence(s[1..], keep);
      var r := Filter(s, keep);
      if keep(s[0]) {
        assert r[0] == s[0] && r[1..] == Filter(s[1..], keep);
      } else {
        assert r == Filter(s[1..], keep);
        SubsequenceDropFront(r, s);
      }
    }
  }

  /** Filtering keeps every copy of a kept value and no copy of a dropped
      one: each value occurs as often as in `s`, or not at all. */
  lemma {:induction false} FilterMultiset<T>(s: seq<T>, keep: T -> bool)
    ensures forall x :: multiset(Filter(s, keep))[x] == if keep(x) then multiset(s)[x] else 0
  {
    if s != [] {
      FilterMultiset(s[1..], keep);
      assert s == [s[0]] + s[1..];
      assert Filter(s, keep) == (if keep(s[0]) then [s[0]] else []) + Filter(s[1..], keep);
    }
  }

  lemma SubsequenceDropFront<T>(a: seq<T>, b: seq<T>)
    requires b != [] && IsSubsequence(a, b[1..])
    ensures IsSubsequence(a, b)
  {
  }

  /** Filtering a sequence that ends in `x` adds `x` at the end, or nothing. */
  lemma FilterSnoc<T>(s: seq<T>, x: T, keep: T -> bool)
    ensures Filter(s + [x], keep) == Filter(s, keep) + (if keep(x) then [x] else [])
  {
    FilterAppend(s, [x], keep);
    assert Filter([x], keep) == (if keep(x) then [x] else []) + Filter([x][1..], keep);
  }

  /** A kept element `s[j]` sits in the filtered sequence at its rank: the
      number of kept elements before it. */
  lemma FilterAtRank<T>(s: seq<T>, keep: T -> bool, j: int)
    requires 0 <= j < |s| && keep(s[j])
    ensures |Filter(s[..j], keep)| < |Filter(s, keep)|
    ensures Filter(s, keep)[|Filter(s[..j], keep)|] == s[j]
  {
    assert s == s[..j] + [s[j]] + s[j + 1..];
    FilterAppend(s[..j] + [s[j]], s[j + 1..], keep);
    FilterSnoc(s[..j], s[j], keep);
  }

  /** Every element of the filtered sequence comes from a kept position of
      `s` whose rank is its index. */
  lemma {:induction false} FilterPosition<T>(s: seq<T>, keep: T -> bool, i: int) returns (j: int)
    requires 0 <= i < |Filter(s, keep)|
    ensures 0 <= j < |s| && keep(s[j]) && s[j] == Filter(s, keep)[i]
    ensures |Filter(s[..j], keep)| == i
  {
    var n := |s| - 1;
    assert s == s[..n] + [s[n]];
    FilterSnoc(s[..n], s[n], keep);
    if i < |Filter(s[..n], keep)| {
      j := FilterPosition(s[..n], keep, i);
      assert s[..n][..j] == s[..j];
    } else {
      j := n;
    }
  }

  /** A kept element's rank grows by one at each kept position. */
  lemma FilterRankStep<T>(s: seq<T>, keep: T -> bool, j: int)
    requires 0 <= j < |s|
    ensures |Filter(s[..j + 1], keep)| == |Filter(s[..j], keep)| + (if keep(s[j]) then 1 else 0)
  {
    assert s[..j + 1] == s[..j] + [s[j]];
    FilterSnoc(s[..j], s[j], keep);
  }

  /** Two tests that agree on every element filter alike. */
  lemma {:induction false} FilterCongruent<T>(s: seq<T>, keep1: T -> bool, keep2: T -> bool)
    requires forall i :: 0 <= i < |s| ==> keep1(s[i]) == keep2(s[i])
    ensures Filter(s, keep1) == Filter(s, keep2)
  {
    if s != [] {
      FilterCongruent(s[1..], keep1, keep2);
    }
  }

  /** A stricter test keeps a subsequence of what a looser one keeps. */
  lemma {:induction false} FilterNarrow<T>(s: seq<T>, loose: T -> bool, strict: T -> bool)
    requires forall i :: 0 <= i < |s| && strict(s[i]) ==> loose(s[i])
    ensures IsSubsequence(Filter(s, strict), Filter(s, loose))
  {
    if s != [] {
      FilterNarrow(s[1..], loose, strict);
      var a := Filter(s, strict);
      var b := Filter(s, loose);
      if strict(s[0]) {
        assert a[0] == b[0] && a[1..] == Filter(s[1..], strict) && b[1..] == Filter(s[1..], loose);
      } else if loose(s[0]) {
        assert a == Filter(s[1..], strict) && b[1..] == Filter(s[1..], loose);
        SubsequenceDropFront(a, b);
      } else {
        assert a == Filter(s[1..], strict) && b == Filter(s[1..], loose);
      }
    }
  }
}
