/** Identities that have not been given out yet. */
module Naturals {

  lemma FreshNat(used: set<nat>)
    ensures exists n: nat :: n !in used
  {
    var n: nat, left := 0, used;
    while n in used
      invariant left <= used && forall k: nat :: k in used && k !in left ==> k < n
      decreases left
    {
      left := left - {n};
      n := n + 1;
    }
  }
}
