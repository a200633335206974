/** Sequence notions shared by the modules. */
module Seqs {

  /** The first `n` elements, or all of them. */
  function Take<T>(xs: seq<T>, n: nat): seq<T> {
    if n < |xs| then xs[..n] else xs
  }

  predicate Distinct<T(==)>(xs: seq<T>) {
    forall i, j | 0 <= i < j < |xs| :: xs[i] != xs[j]
  }

  lemma {:induction false} TakeSize<T>(xs: seq<T>, n: nat)
    ensures Take(xs, n) <= xs && |Take(xs, n)| == if n < |xs| then n else |xs|
  {
  }
}
