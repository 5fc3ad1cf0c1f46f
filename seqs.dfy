/**
 * Order-preserving selection from a sequence: the shape of a Python list
 * comprehension `[x for x in s if keep(x)]`.
 */
module Seqs {

  /** `a` is obtained from `b` by deleting elements, keeping the order of the rest. */
  ghost predicate IsSubsequence<T>(a: seq<T>, b: seq<T>)
    decreases |b|
  {
    if a == [] then true
    else if b == [] then false
    else (a[0] == b[0] && IsSubsequence(a[1..], b[1..])) || IsSubsequence(a, b[1..])
  }

  lemma {:induction false} SubsequenceOfSelf<T>(s: seq<T>)
    ensures IsSubsequence(s, s)
    decreases |s|
  {
    if s != [] {
      SubsequenceOfSelf(s[1..]);
    }
  }

  /**
   * `[x for x in s if keep(x)]`: every element that passes, as many times as
   * it occurs in `s`, and nothing else.
   */
  function Filter<T(==,!new)>(keep: T -> bool, s: seq<T>): (r: seq<T>)
    ensures |r| <= |s|
    ensures forall x :: multiset(r)[x] == if keep(x) then multiset(s)[x] else 0
    ensures forall x :: x in r <==> x in s && keep(x)
    decreases |s|
  {
    if s == [] then
      []
    else
      assert s == [s[0]] + s[1..];
      (if keep(s[0]) then [s[0]] else []) + Filter(keep, s[1..])
  }

  /** The comprehension keeps the relative order of what it selects. */
  lemma {:induction false} FilterIsSubsequence<T(!new)>(keep: T -> bool, s: seq<T>)
    ensures IsSubsequence(Filter(keep, s), s)
    decreases |s|
  {
    if s != [] {
      var r := Filter(keep, s);
      FilterIsSubsequence(keep, s[1..]);
      if keep(s[0]) {
        assert r[0] == s[0] && r[1..] == Filter(keep, s[1..]);
      } else {
        assert r == Filter(keep, s[1..]);
        if r != [] {
          assert keep(r[0]);
        }
      }
    }
  }

  /** When everything passes, the comprehension returns its input unchanged. */
  lemma {:induction false} FilterKeepsAll<T(!new)>(keep: T -> bool, s: seq<T>)
    requires forall x :: x in s ==> keep(x)
    ensures Filter(keep, s) == s
    decreases |s|
  {
    if s != [] {
      FilterKeepsAll(keep, s[1..]);
      assert s == [s[0]] + s[1..];
    }
  }

  /** Filtering a sequence that starts with `x`: `x` is kept or dropped, then the rest is filtered. */
  lemma FilterCons<T(!new)>(keep: T -> bool, x: T, rest: seq<T>)
    ensures Filter(keep, [x] + rest) == (if keep(x) then [x] else []) + Filter(keep, rest)
  {
    assert ([x] + rest)[1..] == rest;
  }

  /** Applying the same comprehension twice gives what applying it once gives. */
  lemma FilterIdempotent<T(!new)>(keep: T -> bool, s: seq<T>)
    ensures Filter(keep, Filter(keep, s)) == Filter(keep, s)
  {
    FilterKeepsAll(keep, Filter(keep, s));
  }

  /** Two tests that agree on the elements of `s` select the same sequence. */
  lemma {:induction false} FilterCongruent<T(!new)>(keep1: T -> bool, keep2: T -> bool, s: seq<T>)
    requires forall x :: x in s ==> keep1(x) == keep2(x)
    ensures Filter(keep1, s) == Filter(keep2, s)
    decreases |s|
  {
    if s != [] {
      FilterCongruent(keep1, keep2, s[1..]);
    }
  }
}
