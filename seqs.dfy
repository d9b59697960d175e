/**
 * Selecting elements of a list by ascending positions, and reading a Go
 * `map[string][]T` whose missing keys read as the empty slice.
 */
module Seqs {

  /** Every position is a valid index of a list of length `n`, in strictly increasing order. */
  predicate AscendingBelow(idx: seq<nat>, n: nat)
  {
    && (forall t :: 0 <= t < |idx| ==> idx[t] < n)
    && (forall t, u :: 0 <= t < u < |idx| ==> idx[t] < idx[u])
  }

  /** The elements of `xs` at the positions `idx`, in that order. */
  function Pick<T>(xs: seq<T>, idx: seq<nat>): seq<T>
    requires forall t :: 0 <= t < |idx| ==> idx[t] < |xs|
  {
    seq(|idx|, t requires 0 <= t < |idx| => xs[idx[t]])
  }

  lemma PickSnoc<T>(xs: seq<T>, idx: seq<nat>, i: nat)
    requires forall t :: 0 <= t < |idx| ==> idx[t] < |xs|
    requires i < |xs|
    ensures Pick(xs, idx + [i]) == Pick(xs, idx) + [xs[i]]
  {
  }

  /** Picking positions of a prefix reads the same elements from the whole list. */
  lemma PickPrefix<T>(xs: seq<T>, ys: seq<T>, idx: seq<nat>)
    requires forall t :: 0 <= t < |idx| ==> idx[t] < |xs|
    requires |xs| <= |ys| && ys[..|xs|] == xs
    ensures Pick(ys, idx) == Pick(xs, idx)
  {
    forall t | 0 <= t < |idx|
      ensures Pick(ys, idx)[t] == Pick(xs, idx)[t]
    {
      assert ys[..|xs|][idx[t]] == ys[idx[t]];
    }
  }

  /** Strictly ascending positions below `n` are at most `n` many. */
  lemma {:induction false} AscendingBelowLength(idx: seq<nat>, n: nat)
    requires AscendingBelow(idx, n)
    ensures |idx| <= n
  {
    if idx != [] {
      var last := idx[|idx| - 1];
      AscendingBelowLength(idx[..|idx| - 1], last);
    }
  }

  /** `m[k]` for a Go map of slices: the empty slice when `k` is absent. */
  function Lookup<T>(m: map<string, seq<T>>, k: string): seq<T>
  {
    if k in m then m[k] else []
  }

  /** The map from each key to the length of its list. */
  function Lengths<T>(m: map<string, seq<T>>): (r: map<string, int>)
    ensures r.Keys == m.Keys
    ensures forall k :: k in m ==> r[k] == |m[k]|
  {
    map k | k in m :: |m[k]|
  }
}
