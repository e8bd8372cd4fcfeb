// What a leader commits: the highest entry of its own term that it knows a majority to store.
module RaftCommit {
  import opened Quorums
  import opened RaftLog
  import opened RaftCore
  import opened RaftNode

  // These servers, more than half of them all, are known to the leader to store entry j.
  ghost predicate StoredBy(n: Node, me: nat, j: int, quorum: set<nat>) {
    && 2 * |quorum| > |n.matched|
    && forall p :: p in quorum ==> p < |n.matched| && (p == me || n.matched[p] >= j)
  }

  // Entry j is in the leader's log, of its term, and stored by a majority.
  ghost predicate MayCommit(n: Node, me: nat, j: int) {
    n.inc <= j <= LastIndex(n) && n.log[j - n.inc].term == n.term && exists quorum :: StoredBy(n, me, j, quorum)
  }

  lemma StoredCounts(n: Node, me: nat, j: int)
    requires me < |n.matched|
    ensures MayCommit(n, me, j) <==> Committable(n, me, j)
  {
    if quorum :| StoredBy(n, me, j, quorum) {
      SubsetSize(quorum, Holders(n.matched, me, j));
    }
    if |Holders(n.matched, me, j)| > |n.matched| / 2 {
      assert StoredBy(n, me, j, Holders(n.matched, me, j));
    }
  }

  // The commit loop either leaves the commit index or finds an entry of the
  // current term, at or below k, that a majority stores.
  lemma {:induction false} ScanSound(n: Node, me: nat, k: nat)
    ensures var j := CommitScan(n, me, k); j == n.commit || (n.commit < j <= k && Committable(n, me, j))
    decreases k
  {
    if k > n.commit && !Committable(n, me, k) {
      ScanSound(n, me, k - 1);
    }
  }

  lemma {:induction false} ScanHighest(n: Node, me: nat, k: nat, j: nat)
    requires n.commit < j <= k && Committable(n, me, j)
    ensures CommitScan(n, me, k) >= j
    decreases k
  {
    if !Committable(n, me, k) { ScanHighest(n, me, k - 1, j); }
  }

  // The commit index that a leader takes when it knows of peer `from` that it stores
  // everything through k: the highest that may be committed and that this peer stores.
  ghost predicate Highest(n: Node, me: nat, k: nat, before: nat) {
    && n.commit >= before
    && (n.commit == before || (n.commit <= k && MayCommit(n, me, n.commit)))
    && forall j: nat {:trigger MayCommit(n, me, j)} :: before < j <= k && MayCommit(n, me, j) ==> n.commit >= j
  }

  lemma SameStored(w: Node, m: Node, me: nat, j: int)
    requires m == w.(commit := m.commit)
    ensures MayCommit(w, me, j) <==> MayCommit(m, me, j)
  {
    if quorum :| StoredBy(w, me, j, quorum) { assert StoredBy(m, me, j, quorum); }
    if quorum :| StoredBy(m, me, j, quorum) { assert StoredBy(w, me, j, quorum); }
  }

  // Where the scan from k ends is the highest.
  lemma ScanIsHighest(n: Node, me: nat, k: nat)
    requires me < |n.matched|
    ensures Highest(n.(commit := CommitScan(n, me, k)), me, k, n.commit)
  {
    var m := n.(commit := CommitScan(n, me, k));
    ScanSound(n, me, k);
    if m.commit != n.commit {
      StoredCounts(n, me, m.commit);
      SameStored(n, m, me, m.commit);
    }
    forall j: nat | n.commit < j <= k && MayCommit(m, me, j) ensures m.commit >= j {
      SameStored(n, m, me, j);
      StoredCounts(n, me, j);
      ScanHighest(n, me, k, j);
    }
  }

  // A success reply in the leader's own term moves its commit index to the highest entry of
  // that term which a majority, this peer among them, stores; it leaves it where it is if
  // there is none above it.
  lemma CommitsHighest(n: Node, me: nat, from: nat, x: AppendArgs, reply: AppendReply)
    requires n.role == Leader && n.term == x.term && reply.term <= n.term && reply.success
    requires me < |n.next| && from < |n.next| == |n.matched|
    ensures var k := x.prev + |x.entries|; var m := HandleAppendReply(n, me, from, x, reply);
      && m.log == n.log && m.inc == n.inc && m.term == n.term && m.matched == n.matched[from := k]
      && Highest(m, me, k, n.commit)
  {
    var k := x.prev + |x.entries|;
    ScanIsHighest(n.(matched := n.matched[from := k], next := n.next[from := k + 1]), me, k);
  }
}
