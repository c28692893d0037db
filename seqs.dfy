/**
 * The list primitives the storefront's logic is written with: `Array.prototype.filter`
 * and `Array.prototype.map`, and the order-preserving sub-list relation that `filter`
 * establishes. Both walk the array left to right and build the result by appending,
 * so they are defined here from the back of the sequence.
 */
module Seqs {

  /** `s.filter(p)`: the elements of `s` that satisfy `p`, in their original order. */
  function Filter<T>(s: seq<T>, p: T -> bool): (r: seq<T>)
    ensures |r| <= |s|
    ensures forall x :: x in r ==> x in s && p(x)
  {
    if s == [] then []
    else Filter(s[..|s| - 1], p) + (if p(s[|s| - 1]) then [s[|s| - 1]] else [])
  }

  /** `s.map(f)`. */
  function Map<T, U>(s: seq<T>, f: T -> U): (r: seq<U>)
    ensures |r| == |s|
    ensures forall i :: 0 <= i < |s| ==> r[i] == f(s[i])
  {
    if s == [] then [] else Map(s[..|s| - 1], f) + [f(s[|s| - 1])]
  }

  /** `idx` lists, in strictly increasing order, the positions of `s` that make up `r`. */
  ghost predicate Embedding<T>(idx: seq<nat>, r: seq<T>, s: seq<T>)
  {
    && |idx| == |r|
    && (forall k :: 0 <= k < |idx| ==> idx[k] < |s| && r[k] == s[idx[k]])
    && (forall k, l :: 0 <= k < l < |idx| ==> idx[k] < idx[l])
  }

  /** `r` is obtained from `s` by deleting elements, without reordering the rest. */
  ghost predicate IsSubsequence<T>(r: seq<T>, s: seq<T>)
  {
    exists idx :: Embedding(idx, r, s)
  }

  /** The positions of `s` that `Filter` keeps. */
  lemma {:induction false} FilterEmbedding<T>(s: seq<T>, p: T -> bool) returns (idx: seq<nat>)
    ensures Embedding(idx, Filter(s, p), s)
    ensures forall k :: 0 <= k < |idx| ==> p(s[idx[k]])
  {
    if s == [] {
      idx := [];
    } else {
      var init, last := s[..|s| - 1], s[|s| - 1];
      var prev := FilterEmbedding(init, p);
      var before := Filter(init, p);
      var r := Filter(s, p);
      assert r == before + (if p(last) then [last] else []);
      if p(last) {
        idx := prev + [|s| - 1];
        forall k | 0 <= k < |idx|
          ensures idx[k] < |s| && r[k] == s[idx[k]] && p(s[idx[k]])
        {
          if k < |prev| {
            assert r[k] == before[k] == init[prev[k]] == s[prev[k]];
          }
        }
      } else {
        idx := prev;
        forall k | 0 <= k < |idx|
          ensures idx[k] < |s| && r[k] == s[idx[k]] && p(s[idx[k]])
        {
          assert r[k] == before[k] == init[prev[k]] == s[prev[k]];
        }
      }
    }
  }

  /** `filter` never reorders: its result is a subsequence of its input. */
  lemma FilterIsSubsequence<T>(s: seq<T>, p: T -> bool)
    ensures IsSubsequence(Filter(s, p), s)
  {
    var idx := FilterEmbedding(s, p);
  }

  /** The multiset of a non-empty sequence, split at its last element. */
  lemma MultisetSnoc<T>(s: seq<T>)
    requires s != []
    ensures multiset(s) == multiset(s[..|s| - 1]) + multiset{s[|s| - 1]}
  {
    assert s == s[..|s| - 1] + [s[|s| - 1]];
  }

  /** `filter` keeps every occurrence of a matching element and none of the others. */
  lemma {:induction false} FilterCount<T>(s: seq<T>, p: T -> bool, x: T)
    ensures multiset(Filter(s, p))[x] == if p(x) then multiset(s)[x] else 0
  {
    if s != [] {
      var init := s[..|s| - 1];
      FilterCount(init, p, x);
      assert s == init + [s[|s| - 1]];
    }
  }

  /** When every element matches, `filter` returns its input unchanged. */
  lemma {:induction false} FilterKeepsAll<T>(s: seq<T>, p: T -> bool)
    requires forall i :: 0 <= i < |s| ==> p(s[i])
    ensures Filter(s, p) == s
  {
    if s != [] {
      var init, last := s[..|s| - 1], s[|s| - 1];
      forall i | 0 <= i < |init|
        ensures p(init[i])
      {
        assert init[i] == s[i];
      }
      FilterKeepsAll(init, p);
      assert s == init + [last];
      FilterAppend(init, [last], p);
      assert [last][..0] == [];
    }
  }

  /** `filter` distributes over concatenation. */
  lemma {:induction false} FilterAppend<T>(a: seq<T>, b: seq<T>, p: T -> bool)
    ensures Filter(a + b, p) == Filter(a, p) + Filter(b, p)
  {
    if b != [] {
      var b' := b[..|b| - 1];
      assert (a + b)[..|a + b| - 1] == a + b';
      FilterAppend(a, b', p);
    } else {
      assert a + b == a;
    }
  }
}
