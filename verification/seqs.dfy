/** Sequence operations shared by the pages: `Array.prototype.filter`,
    `slice(0, n)` and `Array.from(new Set(xs))`, each with an independent
    characterisation proved about it. */
module Seqs {

  /** `r` is obtained from `s` by deleting elements, keeping the order of
      the rest. */
  predicate Subseq<T(==,!new)>(r: seq<T>, s: seq<T>)
    decreases |s|
  {
    if r == [] then true
    else if s == [] then false
    else (r[0] == s[0] && Subseq(r[1..], s[1..])) || Subseq(r, s[1..])
  }

  predicate NoDuplicates<T(==,!new)>(s: seq<T>) {
    forall i, j :: 0 <= i < j < |s| ==> s[i] != s[j]
  }

  /** `Array.prototype.filter`: the elements of `s` that satisfy `p`, in
      their original order. */
  function Filter<T(==,!new)>(s: seq<T>, p: T -> bool): (r: seq<T>)
    ensures |r| <= |s|
    ensures forall x :: x in r <==> x in s && p(x)
  {
    if s == [] then []
    else if p(s[0]) then [s[0]] + Filter(s[1..], p)
    else Filter(s[1..], p)
  }

  /** `Filter` keeps every copy of a kept element and no copy of a dropped
      one: it fixes multiplicities, not only membership. */
  lemma {:induction false} FilterMultiplicity<T(!new)>(s: seq<T>, p: T -> bool)
    ensures forall x :: multiset(Filter(s, p))[x] == if p(x) then multiset(s)[x] else 0
  {
    if s != [] {
      FilterMultiplicity(s[1..], p);
      assert s == [s[0]] + s[1..];
    }
  }

  /** One step of `Filter` on a suffix, for evaluating it on a given list. */
  lemma FilterStep<T(!new)>(s: seq<T>, p: T -> bool, k: nat)
    requires k < |s|
    ensures Filter(s[k..], p) == (if p(s[k]) then [s[k]] else []) + Filter(s[k + 1..], p)
  {
    assert s[k..][1..] == s[k + 1..];
  }

  /** The length form of `FilterStep`, for counting. */
  lemma FilterCountStep<T(!new)>(s: seq<T>, p: T -> bool, k: nat)
    requires k < |s|
    ensures |Filter(s[k..], p)| == (if p(s[k]) then 1 else 0) + |Filter(s[k + 1..], p)|
  {
    FilterStep(s, p, k);
  }

  /** Filtering only deletes elements: the result is an order-preserving
      subsequence of the input. */
  lemma {:induction false} FilterIsSubseq<T(!new)>(s: seq<T>, p: T -> bool)
    ensures Subseq(Filter(s, p), s)
    decreases |s|
  {
    if s != [] {
      FilterIsSubseq(s[1..], p);
      var rest := Filter(s[1..], p);
      if p(s[0]) {
        assert ([s[0]] + rest)[1..] == rest;
      } else if rest != [] {
        assert Subseq(rest, s[1..]);
      }
    }
  }

  /** A predicate that accepts every element keeps the whole sequence. */
  lemma {:induction false} FilterKeepsAll<T(!new)>(s: seq<T>, p: T -> bool)
    requires forall x :: x in s ==> p(x)
    ensures Filter(s, p) == s
    decreases |s|
  {
    if s != [] {
      assert forall x :: x in s[1..] ==> x in s;
      FilterKeepsAll(s[1..], p);
      assert [s[0]] + s[1..] == s;
    }
  }

  /** Filtering with a stronger predicate selects a subsequence of what the
      weaker one selects. */
  lemma {:induction false} FilterMonotone<T(!new)>(s: seq<T>, p: T -> bool, q: T -> bool)
    requires forall x :: x in s && p(x) ==> q(x)
    ensures Subseq(Filter(s, p), Filter(s, q))
    decreases |s|
  {
    if s != [] {
      assert forall x :: x in s[1..] ==> x in s;
      FilterMonotone(s[1..], p, q);
      var rp := Filter(s[1..], p);
      var rq := Filter(s[1..], q);
      if p(s[0]) {
        assert ([s[0]] + rp)[1..] == rp;
        assert ([s[0]] + rq)[1..] == rq;
      } else if q(s[0]) {
        if rp != [] {
          assert ([s[0]] + rq)[1..] == rq;
        }
      }
    }
  }

  /** `xs.slice(0, n)`: the first `n` elements, or all of them when there
      are fewer. */
  function Take<T>(s: seq<T>, n: nat): (r: seq<T>)
    ensures |r| == if n <= |s| then n else |s|
    ensures forall i :: 0 <= i < |r| ==> r[i] == s[i]
  {
    if n <= |s| then s[..n] else s
  }

  /** `Set.prototype.add` followed by iteration: insertion order, and a
      repeated element is ignored. */
  function Insert<T(==,!new)>(r: seq<T>, x: T): seq<T> {
    if x in r then r else r + [x]
  }

  /** `Array.from(new Set(s))`: the distinct elements of `s`, in the order
      they are first met. */
  function Unique<T(==,!new)>(s: seq<T>): (r: seq<T>)
    ensures forall x :: x in r <==> x in s
    ensures NoDuplicates(r)
    decreases |s|
  {
    if s == [] then [] else Insert(Unique(s[..|s| - 1]), s[|s| - 1])
  }

  /** One step of `Unique` on a prefix, for evaluating it on a given list. */
  lemma UniqueStep<T(!new)>(s: seq<T>, k: nat)
    requires 0 < k <= |s|
    ensures Unique(s[..k]) == Insert(Unique(s[..k - 1]), s[k - 1])
  {
    assert s[..k][..k - 1] == s[..k - 1];
  }

  /** The position at which `x` first occurs in `s`. */
  function FirstIndex<T(==,!new)>(s: seq<T>, x: T): (k: nat)
    requires x in s
    ensures k < |s| && s[k] == x
    ensures forall i :: 0 <= i < k ==> s[i] != x
  {
    if s[0] == x then 0 else 1 + FirstIndex(s[1..], x)
  }

  lemma FirstIndexOfExtension<T(!new)>(s: seq<T>, y: T, x: T)
    requires x in s
    ensures FirstIndex(s + [y], x) == FirstIndex(s, x)
  {
    assert (s + [y])[FirstIndex(s, x)] == x;
  }

  /** The distinct elements come out ordered by their first occurrence. */
  lemma {:induction false} UniqueFirstOccurrenceOrder<T(!new)>(s: seq<T>)
    ensures forall i, j :: 0 <= i < j < |Unique(s)| ==>
      FirstIndex(s, Unique(s)[i]) < FirstIndex(s, Unique(s)[j])
    decreases |s|
  {
    if s != [] {
      var init := s[..|s| - 1];
      var y := s[|s| - 1];
      assert s == init + [y];
      UniqueFirstOccurrenceOrder(init);
      var r' := Unique(init);
      forall x | x in init
        ensures FirstIndex(s, x) == FirstIndex(init, x)
      {
        FirstIndexOfExtension(init, y, x);
      }
      if y !in r' {
        assert FirstIndex(s, y) == |init|;
      }
    }
  }
}
