/**
 * Sequence functions behind `Array.prototype.filter`, `startsWith` and
 * most-recent-first lists, with the facts the page models rely on.
 */
module Seqs {

  /** `s.filter(p)`: the elements of `s` that satisfy `p`, in their original order. */
  function Filter<T>(s: seq<T>, p: T -> bool): (r: seq<T>)
    ensures |r| <= |s|
    ensures forall x :: x in r ==> x in s && p(x)
    ensures forall x :: x in s && p(x) ==> x in r
    decreases |s|
  {
    if s == [] then []
    else if p(s[0]) then [s[0]] + Filter(s[1..], p)
    else Filter(s[1..], p)
  }

  /**
   * `Filter` keeps every copy: an element that satisfies `p` occurs in the
   * result exactly as often as in `s`, and any other element not at all.
   */
  lemma {:induction false} FilterCounts<T>(s: seq<T>, p: T -> bool)
    ensures forall x :: multiset(Filter(s, p))[x] == if p(x) then multiset(s)[x] else 0
    decreases |s|
  {
    if s != [] {
      FilterCounts(s[1..], p);
      assert s == [s[0]] + s[1..];
    }
  }

  /** The positions in `s` of the elements that `Filter(s, p)` keeps. */
  function KeptPositions<T>(s: seq<T>, p: T -> bool): (idx: seq<nat>)
    decreases |s|
  {
    if s == [] then []
    else
      var rest := KeptPositions(s[1..], p);
      var shifted := seq(|rest|, k requires 0 <= k < |rest| => rest[k] + 1);
      if p(s[0]) then [0] + shifted else shifted
  }

  lemma {:induction false} KeptPositionsPick<T>(s: seq<T>, p: T -> bool)
    ensures |KeptPositions(s, p)| == |Filter(s, p)|
    ensures forall k :: 0 <= k < |KeptPositions(s, p)| ==>
      KeptPositions(s, p)[k] < |s| && s[KeptPositions(s, p)[k]] == Filter(s, p)[k]
    decreases |s|
  {
    if s != [] {
      KeptPositionsPick(s[1..], p);
      var rest := KeptPositions(s[1..], p);
      var tail := Filter(s[1..], p);
      var idx := KeptPositions(s, p);
      if p(s[0]) {
        assert Filter(s, p) == [s[0]] + tail;
        forall k | 1 <= k < |idx|
          ensures idx[k] < |s| && s[idx[k]] == Filter(s, p)[k]
        {
          assert idx[k] == rest[k - 1] + 1;
          assert s[idx[k]] == s[1..][rest[k - 1]];
        }
      } else {
        assert Filter(s, p) == tail;
        forall k | 0 <= k < |idx|
          ensures idx[k] < |s| && s[idx[k]] == Filter(s, p)[k]
        {
          assert idx[k] == rest[k] + 1;
          assert s[idx[k]] == s[1..][rest[k]];
        }
      }
    }
  }

  lemma {:induction false} KeptPositionsIncrease<T>(s: seq<T>, p: T -> bool)
    ensures forall k, l :: 0 <= k < l < |KeptPositions(s, p)| ==> KeptPositions(s, p)[k] < KeptPositions(s, p)[l]
    decreases |s|
  {
    if s != [] {
      KeptPositionsIncrease(s[1..], p);
    }
  }

  /**
   * Filtering keeps order: the result is picked out of `s` at strictly
   * increasing positions, and every picked element satisfies `p`.
   */
  lemma FilterPreservesOrder<T>(s: seq<T>, p: T -> bool) returns (idx: seq<nat>)
    ensures |idx| == |Filter(s, p)|
    ensures forall k :: 0 <= k < |idx| ==> idx[k] < |s| && s[idx[k]] == Filter(s, p)[k] && p(s[idx[k]])
    ensures forall k, l :: 0 <= k < l < |idx| ==> idx[k] < idx[l]
  {
    idx := KeptPositions(s, p);
    KeptPositionsPick(s, p);
    KeptPositionsIncrease(s, p);
    forall k | 0 <= k < |idx|
      ensures p(s[idx[k]])
    {
      assert Filter(s, p)[k] in Filter(s, p);
    }
  }

  /** A filter whose predicate holds everywhere in `s` returns `s` itself. */
  lemma {:induction false} FilterKeepsAll<T>(s: seq<T>, p: T -> bool)
    requires forall j :: 0 <= j < |s| ==> p(s[j])
    ensures Filter(s, p) == s
    decreases |s|
  {
    if s != [] {
      FilterKeepsAll(s[1..], p);
    }
  }

  /** When only the element at position `i` fails `p`, filtering removes just that position. */
  lemma {:induction false} FilterDropsOne<T>(s: seq<T>, p: T -> bool, i: nat)
    requires i < |s| && !p(s[i])
    requires forall j :: 0 <= j < |s| && j != i ==> p(s[j])
    ensures Filter(s, p) == s[..i] + s[i + 1..]
    decreases |s|
  {
    var rest := s[1..];
    if i == 0 {
      assert Filter(s, p) == Filter(rest, p);
      FilterKeepsAll(rest, p);
      assert s[i + 1..] == rest;
    } else {
      assert Filter(rest, p) == rest[..i - 1] + rest[i..] by {
        FilterDropsOne(rest, p, i - 1);
      }
      assert s[..i] + s[i + 1..] == [s[0]] + (rest[..i - 1] + rest[i..]);
    }
  }

  /** Position `k` of `s` without its element at `i`. */
  lemma DropOneAt<T>(s: seq<T>, i: nat, k: nat)
    requires i < |s| && k < |s| - 1
    ensures (s[..i] + s[i + 1..])[k] == s[if k < i then k else k + 1]
  {
  }

  /** Filtering a second time with the same predicate changes nothing. */
  lemma FilterIdempotent<T>(s: seq<T>, p: T -> bool)
    ensures Filter(Filter(s, p), p) == Filter(s, p)
  {
    FilterKeepsAll(Filter(s, p), p);
  }

  /** Two predicates that agree on the elements of `s` filter it alike. */
  lemma {:induction false} FilterAgreeing<T>(s: seq<T>, p: T -> bool, q: T -> bool)
    requires forall x :: x in s ==> p(x) == q(x)
    ensures Filter(s, p) == Filter(s, q)
    decreases |s|
  {
    if s != [] {
      FilterAgreeing(s[1..], p, q);
    }
  }

  /** Filtering by a conjunction is filtering by one conjunct, then by the other. */
  lemma {:induction false} FilterConjunction<T>(s: seq<T>, p: T -> bool, q: T -> bool, both: T -> bool)
    requires forall x :: both(x) == (p(x) && q(x))
    ensures Filter(s, both) == Filter(Filter(s, p), q)
    decreases |s|
  {
    if s != [] {
      FilterConjunction(s[1..], p, q, both);
      if p(s[0]) {
        assert Filter(s, p) == [s[0]] + Filter(s[1..], p);
        assert Filter(s, p)[1..] == Filter(s[1..], p);
      }
    }
  }

  /** Filtering an extended sequence extends the filtered prefix by the new element when it is kept. */
  lemma {:induction false} FilterSnoc<T>(s: seq<T>, x: T, p: T -> bool)
    ensures Filter(s + [x], p) == Filter(s, p) + (if p(x) then [x] else [])
    decreases |s|
  {
    if s == [] {
      assert [x][1..] == [];
    } else {
      assert (s + [x])[1..] == s[1..] + [x];
      FilterSnoc(s[1..], x, p);
    }
  }

  /** `s.startsWith(prefix)`. */
  predicate StartsWith(s: string, prefix: string)
  {
    |prefix| <= |s| && s[..|prefix|] == prefix
  }

  /** The elements of `s` in the opposite order. */
  function Reverse<T>(s: seq<T>): (r: seq<T>)
    ensures |r| == |s|
    decreases |s|
  {
    if s == [] then [] else Reverse(s[1..]) + [s[0]]
  }
}
