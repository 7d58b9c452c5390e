/** `Array.prototype.filter` and `Array.prototype.map` over sequences, and the
    index characterisation of a filter: the kept elements form an
    order-preserving subsequence picked out by a strictly increasing list of
    positions.
 */
module Seqs {

  /** `s.filter(p)`: the elements satisfying `p`, in their original order. */
  function Filter<T>(p: T -> bool, s: seq<T>): (r: seq<T>)
    ensures |r| <= |s|
    ensures forall i :: 0 <= i < |r| ==> r[i] in s && p(r[i])
    ensures forall i :: 0 <= i < |s| && p(s[i]) ==> s[i] in r
  {
    if s == [] then []
    else if p(s[0]) then [s[0]] + Filter(p, s[1..])
    else Filter(p, s[1..])
  }

  /** `s.map(f)`. */
  function Map<T, U>(f: T -> U, s: seq<T>): (r: seq<U>)
    ensures |r| == |s|
    ensures forall i :: 0 <= i < |s| ==> r[i] == f(s[i])
  {
    if s == [] then [] else [f(s[0])] + Map(f, s[1..])
  }

  /** The positions `i`, `from <= i < |s|`, whose element satisfies `p`,
      in increasing order. */
  function KeptIndices<T>(p: T -> bool, s: seq<T>, from: nat): seq<nat>
    requires from <= |s|
    decreases |s| - from
  {
    if from == |s| then []
    else if p(s[from]) then [from] + KeptIndices(p, s, from + 1)
    else KeptIndices(p, s, from + 1)
  }

  ghost predicate StrictlyIncreasing(idx: seq<nat>) {
    forall k, l :: 0 <= k < l < |idx| ==> idx[k] < idx[l]
  }

  /** The kept positions lie in `[from, |s|)` and strictly increase. */
  lemma {:induction false} KeptIndicesAscend<T>(p: T -> bool, s: seq<T>, from: nat)
    requires from <= |s|
    ensures forall k :: 0 <= k < |KeptIndices(p, s, from)| ==> from <= KeptIndices(p, s, from)[k] < |s|
    ensures StrictlyIncreasing(KeptIndices(p, s, from))
    decreases |s| - from
  {
    if from < |s| {
      KeptIndicesAscend(p, s, from + 1);
    }
  }

  /** A position is kept exactly when its element satisfies `p`. */
  lemma {:induction false} KeptIndicesExact<T>(p: T -> bool, s: seq<T>, from: nat)
    requires from <= |s|
    ensures forall i :: from <= i < |s| ==> (p(s[i]) <==> i in KeptIndices(p, s, from))
    decreases |s| - from
  {
    if from < |s| {
      KeptIndicesExact(p, s, from + 1);
      KeptIndicesAscend(p, s, from + 1);
    }
  }

  /** The k-th element `Filter` keeps is the element at the k-th kept position. */
  lemma {:induction false} FilterAtKeptIndices<T>(p: T -> bool, s: seq<T>, from: nat)
    requires from <= |s|
    ensures |Filter(p, s[from..])| == |KeptIndices(p, s, from)|
    ensures forall k :: 0 <= k < |KeptIndices(p, s, from)| ==> KeptIndices(p, s, from)[k] < |s|
    ensures forall k :: 0 <= k < |KeptIndices(p, s, from)| ==>
              Filter(p, s[from..])[k] == s[KeptIndices(p, s, from)[k]]
    decreases |s| - from
  {
    if from < |s| {
      FilterAtKeptIndices(p, s, from + 1);
      KeptIndicesAscend(p, s, from);
      assert s[from..][1..] == s[from + 1..];
      var rest := KeptIndices(p, s, from + 1);
      var idx := KeptIndices(p, s, from);
      if p(s[from]) {
        assert Filter(p, s[from..]) == [s[from]] + Filter(p, s[from + 1..]);
        forall k | 0 <= k < |idx|
          ensures Filter(p, s[from..])[k] == s[idx[k]]
        {
          if k > 0 {
            assert idx[k] == rest[k - 1];
          }
        }
      } else {
        assert Filter(p, s[from..]) == Filter(p, s[from + 1..]);
      }
    }
  }

  /** `Filter(p, s)` is the order-preserving subsequence of `s` at the
      positions `KeptIndices(p, s, 0)`: those positions strictly increase, are
      exactly the positions whose element satisfies `p`, and the k-th kept
      element is the element at the k-th position. */
  lemma FilterIsSubsequence<T>(p: T -> bool, s: seq<T>)
    ensures var idx := KeptIndices(p, s, 0);
            && |Filter(p, s)| == |idx|
            && StrictlyIncreasing(idx)
            && (forall k :: 0 <= k < |idx| ==> idx[k] < |s|)
            && (forall i :: 0 <= i < |s| ==> (p(s[i]) <==> i in idx))
            && (forall k :: 0 <= k < |idx| ==> Filter(p, s)[k] == s[idx[k]])
  {
    assert s[0..] == s;
    KeptIndicesAscend(p, s, 0);
    KeptIndicesExact(p, s, 0);
    FilterAtKeptIndices(p, s, 0);
  }
}
