/** Notions about sequences that several floors share. */
module Sequences {

  ghost predicate Increasing(xs: seq<int>) {
    forall i, j :: 0 <= i < j < |xs| ==> xs[i] < xs[j]
  }

  /** The newest `n` elements, oldest first. */
  function Newest<T>(xs: seq<T>, n: int): seq<T> {
    if n <= 0 then [] else if |xs| <= n then xs else xs[|xs| - n..]
  }

  /** Pruning early loses nothing: what the pruned list keeps is what the whole history would keep. */
  lemma NewestOfNewest<T>(xs: seq<T>, ys: seq<T>, n: int)
    ensures Newest(Newest(xs, n) + ys, n) == Newest(xs + ys, n)
  {
  }

  /** The newest elements are a suffix, of length `n` as far as there are that many. */
  lemma NewestIsSuffix<T>(xs: seq<T>, n: int)
    ensures |Newest(xs, n)| == if n <= 0 then 0 else if n <= |xs| then n else |xs|
    ensures xs[|xs| - |Newest(xs, n)|..] == Newest(xs, n)
  {
  }
}
