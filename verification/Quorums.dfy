// Majorities of a fixed set of peers numbered 0 .. n-1.
module Quorums {

  // The peers of a cluster of size n.
  function Ids(n: nat): (ids: set<nat>)
    ensures |ids| == n
    ensures forall i: nat :: i in ids <==> i < n
  {
    if n == 0 then {} else Ids(n - 1) + {n - 1}
  }

  // More than half of n peers, as the code tests it: count > n / 2.
  ghost predicate Quorum(n: nat, q: set<nat>) {
    q <= Ids(n) && |q| > n / 2
  }

  lemma SubsetSize<T>(a: set<T>, b: set<T>)
    requires a <= b
    ensures |a| <= |b|
  {
    assert b == a + (b - a);
  }

  // Any two majorities share a peer.
  lemma QuorumsMeet(n: nat, p: set<nat>, q: set<nat>) returns (m: nat)
    requires Quorum(n, p) && Quorum(n, q)
    ensures m < n && m in p && m in q
  {
    if p !! q {
      assert |p + q| == |p| + |q|;
      SubsetSize(p + q, Ids(n));
      assert false;
    }
    m :| m in p && m in q;
  }
}
