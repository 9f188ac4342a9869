/**
 * List transforms shared by the server queries and the client caches:
 * `Array.prototype.filter`, `Array.prototype.map`, and the newest-first
 * ordering that every list query of the application sorts by.
 */
module Seqs {

  /** `s.filter(p)`: the elements of `s` that satisfy `p`, in their order. */
  function Filter<T(!new)>(s: seq<T>, p: T -> bool): (r: seq<T>)
    ensures |r| <= |s|
    ensures forall i :: 0 <= i < |r| ==> p(r[i])
  {
    if s == [] then [] else (if p(s[0]) then [s[0]] else []) + Filter(s[1..], p)
  }

  /** The filter keeps every element that satisfies `p` as often as `s` holds it, and no other. */
  lemma {:induction false} FilterCounts<T(!new)>(s: seq<T>, p: T -> bool)
    ensures forall x :: multiset(Filter(s, p))[x] == if p(x) then multiset(s)[x] else 0
  {
    if s != [] {
      FilterCounts(s[1..], p);
      assert s == [s[0]] + s[1..];
    }
  }

  /** `s.map(f)`: `f` applied to every element, length and positions kept. */
  function Map<T>(s: seq<T>, f: T -> T): (r: seq<T>)
    ensures |r| == |s|
    ensures forall i :: 0 <= i < |s| ==> r[i] == f(s[i])
  {
    if s == [] then [] else [f(s[0])] + Map(s[1..], f)
  }

  /** `r` is obtained from `s` by deleting elements: order kept, nothing added. */
  predicate IsSubsequence<T(==)>(r: seq<T>, s: seq<T>)
    decreases |s|
  {
    if r == [] then true
    else if s == [] then false
    else (r[0] == s[0] && IsSubsequence(r[1..], s[1..])) || IsSubsequence(r, s[1..])
  }

  lemma {:induction false} FilterIsSubsequence<T(!new)>(s: seq<T>, p: T -> bool)
    ensures IsSubsequence(Filter(s, p), s)
  {
    if s != [] {
      FilterIsSubsequence(s[1..], p);
      if p(s[0]) {
        assert Filter(s, p) == [s[0]] + Filter(s[1..], p);
        assert Filter(s, p)[1..] == Filter(s[1..], p);
      } else {
        assert Filter(s, p) == Filter(s[1..], p);
      }
    }
  }

  /** A filter whose predicate holds of every element gives back the whole list. */
  lemma {:induction false} FilterKeepsAll<T(!new)>(s: seq<T>, p: T -> bool)
    requires forall i :: 0 <= i < |s| ==> p(s[i])
    ensures Filter(s, p) == s
  {
    if s != [] {
      FilterKeepsAll(s[1..], p);
    }
  }

  /** Filters with pointwise-equal predicates on the elements of `s` agree. */
  lemma {:induction false} FilterCongruent<T(!new)>(s: seq<T>, p: T -> bool, q: T -> bool)
    requires forall i :: 0 <= i < |s| ==> p(s[i]) == q(s[i])
    ensures Filter(s, p) == Filter(s, q)
  {
    if s != [] {
      FilterCongruent(s[1..], p, q);
    }
  }

  /** Every pair is ordered by `at`, largest first (`.sort({ createdAt: -1 })`). */
  predicate NewestFirst<T>(s: seq<T>, at: T -> nat) {
    forall i, j :: 0 <= i < j < |s| ==> at(s[i]) >= at(s[j])
  }

  /** Puts `x` into a list behind every element at least as recent as `x`. */
  function InsertNewestFirst<T>(s: seq<T>, x: T, at: T -> nat): (r: seq<T>)
    ensures multiset(r) == multiset(s) + multiset{x}
  {
    if s == [] then [x]
    else if at(x) > at(s[0]) then
      [x] + s
    else
      assert s == [s[0]] + s[1..];
      [s[0]] + InsertNewestFirst(s[1..], x, at)
  }

  /** Inserting `x` keeps every element at most as recent as a bound both respect. */
  lemma {:induction false} InsertBounded<T>(s: seq<T>, x: T, at: T -> nat, bound: nat)
    requires forall i :: 0 <= i < |s| ==> at(s[i]) <= bound
    requires at(x) <= bound
    ensures forall i :: 0 <= i < |InsertNewestFirst(s, x, at)| ==> at(InsertNewestFirst(s, x, at)[i]) <= bound
  {
    if s != [] && at(x) <= at(s[0]) {
      InsertBounded(s[1..], x, at, bound);
      var r := InsertNewestFirst(s, x, at);
      assert r == [s[0]] + InsertNewestFirst(s[1..], x, at);
      assert forall i :: 1 <= i < |r| ==> r[i] == InsertNewestFirst(s[1..], x, at)[i - 1];
    }
  }

  lemma {:induction false} InsertKeepsNewestFirst<T>(s: seq<T>, x: T, at: T -> nat)
    requires NewestFirst(s, at)
    ensures NewestFirst(InsertNewestFirst(s, x, at), at)
  {
    if s != [] && at(x) <= at(s[0]) {
      var tail := InsertNewestFirst(s[1..], x, at);
      InsertKeepsNewestFirst(s[1..], x, at);
      InsertBounded(s[1..], x, at, at(s[0]));
      var r := [s[0]] + tail;
      assert InsertNewestFirst(s, x, at) == r;
      forall i, j | 0 <= i < j < |r|
        ensures at(r[i]) >= at(r[j])
      {
        assert r[j] == tail[j - 1];
        if i > 0 {
          assert r[i] == tail[i - 1];
        }
      }
    }
  }

  /** Insertion sort into newest-first order; a permutation of `s`. */
  function SortNewestFirst<T>(s: seq<T>, at: T -> nat): (r: seq<T>)
    ensures multiset(r) == multiset(s)
    ensures NewestFirst(r, at)
  {
    if s == [] then []
    else
      assert s == [s[0]] + s[1..];
      var rest := SortNewestFirst(s[1..], at);
      InsertKeepsNewestFirst(rest, s[0], at);
      InsertNewestFirst(rest, s[0], at)
  }
}
