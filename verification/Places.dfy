/** Places in a list, in order. */
module Places {
  predicate Increasing(at: seq<nat>) { forall i, j :: 0 <= i < j < |at| ==> at[i] < at[j] }

  predicate Below(at: seq<nat>, n: nat) { forall i :: 0 <= i < |at| ==> at[i] < n }

  /** A place behind all others comes last. */
  lemma LastPlace(at: seq<nat>, n: nat)
    requires Increasing(at) && Below(at, n)
    ensures Increasing(at + [n]) && Below(at + [n], n + 1)
    ensures forall k :: k in at + [n] <==> k in at || k == n
    ensures n !in at
  {}
}
