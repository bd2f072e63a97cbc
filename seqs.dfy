/** `Array.prototype.filter` and the order-preservation facts every list
    filter of the system relies on. */
module Seqs {

  /** The elements of `s` that `keep` accepts, in their original order. */
  function Filter<T>(s: seq<T>, keep: T -> bool): (r: seq<T>)
    ensures |r| <= |s|
    ensures forall i :: 0 <= i < |r| ==> r[i] in s && keep(r[i])
    ensures forall i :: 0 <= i < |s| && keep(s[i]) ==> s[i] in r
  {
    if s == [] then []
    else if keep(s[0]) then [s[0]] + Filter(s[1..], keep)
    else Filter(s[1..], keep)
  }

  /** `a` can be obtained from `b` by deleting elements. */
  predicate IsSubsequence<T(==)>(a: seq<T>, b: seq<T>)
    decreases |b|
  {
    if a == [] then true
    else if b == [] then false
    else (a[0] == b[0] && IsSubsequence(a[1..], b[1..])) || IsSubsequence(a, b[1..])
  }

  lemma {:induction false} SubsequenceOfLonger<T>(a: seq<T>, x: T, b: seq<T>)
    requires IsSubsequence(a, b)
    ensures IsSubsequence(a, [x] + b)
  {
    if a != [] {
      assert ([x] + b)[1..] == b;
    }
  }

  lemma {:induction false} SubsequenceReflexive<T>(s: seq<T>)
    ensures IsSubsequence(s, s)
  {
    if s != [] {
      SubsequenceReflexive(s[1..]);
    }
  }

  /** Filtering keeps the relative order of what it keeps. */
  lemma {:induction false} FilterIsSubsequence<T>(s: seq<T>, keep: T -> bool)
    ensures IsSubsequence(Filter(s, keep), s)
  {
    if s != [] {
      FilterIsSubsequence(s[1..], keep);
      if keep(s[0]) {
        assert Filter(s, keep)[1..] == Filter(s[1..], keep);
      } else {
        SubsequenceOfLonger(Filter(s[1..], keep), s[0], s[1..]);
        assert [s[0]] + s[1..] == s;
      }
    }
  }

  /** A filter that accepts more elements keeps everything a stricter one keeps,
      in the same order. */
  lemma {:induction false} FilterMonotonic<T>(s: seq<T>, strict: T -> bool, loose: T -> bool)
    requires forall x :: x in s && strict(x) ==> loose(x)
    ensures IsSubsequence(Filter(s, strict), Filter(s, loose))
  {
    if s != [] {
      FilterMonotonic(s[1..], strict, loose);
      var a, b := Filter(s[1..], strict), Filter(s[1..], loose);
      if strict(s[0]) {
        assert Filter(s, strict)[1..] == a && Filter(s, loose)[1..] == b;
      } else if loose(s[0]) {
        SubsequenceOfLonger(a, s[0], b);
      }
    }
  }

  /** A filter that accepts every element is the identity, and only then. */
  lemma {:induction false} FilterKeepsAll<T>(s: seq<T>, keep: T -> bool)
    ensures Filter(s, keep) == s <==> forall x :: x in s ==> keep(x)
  {
    if s != [] {
      FilterKeepsAll(s[1..], keep);
      if !keep(s[0]) {
        assert |Filter(s, keep)| <= |s[1..]|;
      }
    }
  }

  /** Filtering a concatenation filters each part. */
  lemma {:induction false} FilterAppend<T>(a: seq<T>, b: seq<T>, keep: T -> bool)
    ensures Filter(a + b, keep) == Filter(a, keep) + Filter(b, keep)
  {
    if a != [] {
      assert (a + b)[1..] == a[1..] + b;
      FilterAppend(a[1..], b, keep);
    } else {
      assert a + b == b;
    }
  }

  /** How many times each value survives: all its copies if accepted, none otherwise. */
  lemma {:induction false} FilterMultiplicity<T>(s: seq<T>, keep: T -> bool, x: T)
    ensures multiset(Filter(s, keep))[x] == if keep(x) then multiset(s)[x] else 0
  {
    if s != [] {
      FilterMultiplicity(s[1..], keep, x);
      assert s == [s[0]] + s[1..];
    }
  }
}
