/** Facts about sequences that the solver is slow to find in a rich context. */
module Seqs {

  lemma SliceSnoc<A>(s: seq<A>, m: nat, n: nat)
    requires m < n <= |s|
    ensures s[m..n] == s[m..n - 1] + [s[n - 1]]
  {
  }
}
