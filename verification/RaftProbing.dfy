// How a leader finds the point where a follower's log matches its own: when the
// search makes progress, and for which boundaries of the two it always ends.
module RaftProbing {
  import opened Options
  import opened Kv
  import opened RaftLog
  import opened RaftCore
  import opened RaftNode
  import opened RaftCluster
  import opened RaftRefinement
  import opened RaftSafety

  // A leader and a follower that are not disturbed by anyone else, with one request
  // at a time between them.
  datatype Pair = Pair(leader: Node, follower: Node)

  ghost predicate Ready(p: Pair, to: nat) {
    && p.leader.role == Leader && to < |p.leader.next| == |p.leader.matched|
    && |p.leader.log| > 0 && |p.follower.log| > 0
    && p.follower.term <= p.leader.term
    && (p.leader.inc == 0 ==> p.leader.log[0].term == 0)
    && (p.follower.inc == 0 ==> p.follower.log[0].term == 0)
  }

  // In every run, a server that never compacted has the dummy's term at its boundary.
  lemma BoundaryZero(n: nat, acts: seq<Action>, s: nat)
    requires s < n
    ensures var x := Exec(n, acts).servers[s].node; |x.log| > 0 && (x.inc == 0 ==> x.log[0].term == 0)
  {
    var a := Simulated(n, acts);
    Look(Exec(n, acts), a, s);
  }

  // The leader's next message is entries, and the follower refuses it.
  predicate Refused(p: Pair, me: nat, to: nat)
    requires to < |p.leader.next| && |p.leader.log| > 0 && |p.follower.log| > 0
  {
    var (_, out) := RoundFor(p.leader, me, to);
    out.AppendRound? && !HandleAppend(p.follower, out.append).1.success
  }

  // The previous index the leader would send.
  function PrevSent(p: Pair, to: nat): int
    requires to < |p.leader.next|
  {
    ClampNext(p.leader, to) - 1
  }

  // Both sides after a refused round.
  ghost function AfterRefusal(p: Pair, me: nat, to: nat): Pair
    requires Ready(p, to) && Refused(p, me, to)
  {
    var (l, out) := RoundFor(p.leader, me, to);
    var (f, reply) := HandleAppend(p.follower, out.append);
    Pair(HandleAppendReply(l, me, to, out.append, reply), f)
  }

  // What a refusal names: the place before the run of entries of the conflicting term that ends at j.
  lemma {:induction false} RunStartIs(log: Log, j: int, term: nat)
    requires -1 <= j < |log|
    ensures var i := RunStart(log, j, term);
      && -1 <= i <= j && (i >= 0 ==> log[i].term != term)
      && forall k :: i < k <= j ==> log[k].term == term
    decreases j + 1
  {
    if j >= 0 && log[j].term == term { RunStartIs(log, j - 1, term); }
  }

  predicate PassedOver(n: Node, k: int, xIndex: int, xTerm: nat) {
    xIndex <= k && n.inc <= k < n.inc + |n.log| && n.log[k - n.inc].term != xTerm
  }

  // Where the leader's search from j ends: at its last entry of that term, if it has one
  // there that is not below xIndex; otherwise below xIndex, or outside its log.
  lemma {:induction false} ScanBackIs(n: Node, j: int, xIndex: int, xTerm: nat)
    ensures var i := ScanBack(n, j, xIndex, xTerm);
      && i <= j && (i < xIndex || i < n.inc || i - n.inc >= |n.log| || n.log[i - n.inc].term == xTerm)
      && forall k :: i < k <= j ==> PassedOver(n, k, xIndex, xTerm)
    decreases j - xIndex
  {
    if !(j < xIndex || j < n.inc || j - n.inc >= |n.log| || n.log[j - n.inc].term == xTerm) {
      ScanBackIs(n, j - 1, xIndex, xTerm);
    }
  }

  // Exactly when a refused round lowers nextIndex: when the index it probed is not
  // below the follower's snapshot boundary. Below it, nextIndex jumps up.
  lemma RefusalLowersIff(p: Pair, me: nat, to: nat)
    requires Ready(p, to) && Refused(p, me, to) && PrevSent(p, to) > 0
    ensures var q := AfterRefusal(p, me, to); var before := PrevSent(p, to) + 1;
      && q.leader.next[to] >= 1
      && (q.leader.next[to] < before <==> PrevSent(p, to) >= p.follower.inc)
      && (q.leader.next[to] > before <==> PrevSent(p, to) < p.follower.inc)
  {
    var (l, out) := RoundFor(p.leader, me, to);
    var x := out.append;
    var f := p.follower;
    if f.inc <= x.prev <= LastIndex(f) {
      var si := x.prev - f.inc;
      var reply := HandleAppend(f, x).1;
      RunStartIs(f.log, si - 1, f.log[si].term);
      ScanBackIs(l, x.prev - 1, reply.xIndex, reply.xTerm);
    }
  }

  // At nextIndex 1 a follower that has not compacted further than the leader cannot refuse.
  lemma NoRefusalAtOne(p: Pair, me: nat, to: nat)
    requires Ready(p, to) && p.follower.inc <= p.leader.inc && PrevSent(p, to) <= 0
    ensures !Refused(p, me, to)
  {
  }

  lemma RefusalKeeps(p: Pair, me: nat, to: nat)
    requires Ready(p, to) && Refused(p, me, to)
    ensures var q := AfterRefusal(p, me, to);
      && Ready(q, to) && q.follower.inc == p.follower.inc && q.follower.log == p.follower.log
      && q.leader.log == p.leader.log && q.leader.inc == p.leader.inc
  {
  }

  lemma ClampLower(n: Node, to: nat)
    requires to < |n.next| && |n.log| > 0 && n.next[to] >= 1
    ensures 0 < ClampNext(n, to) <= n.next[to]
  {
  }

  // How many rounds are refused before the follower accepts entries or is sent a
  // snapshot: finitely many, and fewer than the first nextIndex.
  ghost function Refusals(p: Pair, me: nat, to: nat): (rounds: nat)
    requires Ready(p, to) && p.follower.inc <= p.leader.inc
    ensures rounds == 0 || rounds <= PrevSent(p, to)
    decreases PrevSent(p, to)
  {
    if Refused(p, me, to) then
      RefusalLowers(p, me, to);
      1 + Refusals(AfterRefusal(p, me, to), me, to)
    else 0
  }

  // Below the leader's boundary a snapshot is sent, so what is refused was probed at or
  // above it, and the next probe is lower.
  lemma RefusalLowers(p: Pair, me: nat, to: nat)
    requires Ready(p, to) && p.follower.inc <= p.leader.inc && Refused(p, me, to)
    ensures PrevSent(p, to) > 0
    ensures var q := AfterRefusal(p, me, to);
      Ready(q, to) && q.follower.inc == p.follower.inc && q.leader.inc == p.leader.inc && 0 <= PrevSent(q, to) < PrevSent(p, to)
  {
    if PrevSent(p, to) <= 0 { NoRefusalAtOne(p, me, to); }
    RefusalLowersIff(p, me, to);
    RefusalKeeps(p, me, to);
    ClampLower(AfterRefusal(p, me, to).leader, to);
  }

  // The pair after the given number of refused rounds, stopping at the first that is not refused.
  ghost function Probe(p: Pair, me: nat, to: nat, rounds: nat): Pair
    requires Ready(p, to)
    decreases rounds
  {
    if rounds == 0 || !Refused(p, me, to) then p
    else
      RefusalKeeps(p, me, to);
      Probe(AfterRefusal(p, me, to), me, to, rounds - 1)
  }

  // One round, then the rest.
  lemma {:induction false} ProbeOn(p: Pair, me: nat, to: nat, k: nat)
    requires Ready(p, to) && Refused(p, me, to)
    ensures Ready(AfterRefusal(p, me, to), to) && Probe(p, me, to, k + 1) == Probe(AfterRefusal(p, me, to), me, to, k)
  {
    RefusalKeeps(p, me, to);
  }

  lemma {:induction false} ProbeReady(p: Pair, me: nat, to: nat, k: nat)
    requires Ready(p, to)
    ensures Ready(Probe(p, me, to, k), to)
    decreases k
  {
    if k > 0 && Refused(p, me, to) {
      RefusalKeeps(p, me, to);
      ProbeReady(AfterRefusal(p, me, to), me, to, k - 1);
    }
  }

  // After k rounds the follower has accepted entries or is sent a snapshot.
  ghost predicate EndsIn(p: Pair, me: nat, to: nat, k: nat)
    requires Ready(p, to)
  {
    ProbeReady(p, me, to, k);
    !Refused(Probe(p, me, to, k), me, to)
  }

  lemma {:induction false} EndsAfter(p: Pair, me: nat, to: nat, r: nat)
    requires Ready(p, to) && p.follower.inc <= p.leader.inc && r == Refusals(p, me, to)
    ensures EndsIn(p, me, to, r)
    decreases r
  {
    if r > 0 {
      RefusalLowers(p, me, to);
      EndsAfter(AfterRefusal(p, me, to), me, to, r - 1);
      ProbeOn(p, me, to, r - 1);
    }
  }

  // Probing a follower that has not compacted further than the leader ends within
  // nextIndex - 1 refusals.
  lemma ProbingEnds(p: Pair, me: nat, to: nat)
    requires Ready(p, to) && p.follower.inc <= p.leader.inc
    ensures EndsIn(p, me, to, Refusals(p, me, to))
    ensures Refusals(p, me, to) == 0 || Refusals(p, me, to) <= PrevSent(p, to)
  {
    EndsAfter(p, me, to, Refusals(p, me, to));
  }

  // The request for nextIndex 1 was refused: the same request is sent and refused for ever.
  lemma {:induction false} RefusalAtOneSticks(p: Pair, me: nat, to: nat, k: nat)
    requires Ready(p, to) && Refused(p, me, to) && PrevSent(p, to) <= 0
    ensures p.follower.inc > p.leader.inc
    ensures Ready(Probe(p, me, to, k), to) && Refused(Probe(p, me, to, k), me, to)
    ensures RoundFor(Probe(p, me, to, k).leader, me, to).1 == RoundFor(p.leader, me, to).1
    decreases k
  {
    if p.follower.inc <= p.leader.inc { NoRefusalAtOne(p, me, to); }
    if k > 0 {
      AtOneAgain(p, me, to);
      var q := AfterRefusal(p, me, to);
      RefusalAtOneSticks(q, me, to, k - 1);
      ProbeOn(p, me, to, k - 1);
    }
  }

  lemma AtOneAgain(p: Pair, me: nat, to: nat)
    requires Ready(p, to) && Refused(p, me, to) && PrevSent(p, to) <= 0
    ensures var q := AfterRefusal(p, me, to);
      && Ready(q, to) && Refused(q, me, to) && PrevSent(q, to) <= 0
      && RoundFor(q.leader, me, to).1 == RoundFor(p.leader, me, to).1
  {
    RefusalKeeps(p, me, to);
  }

  // ---------- a pair that never gets anywhere ----------

  // The leader's log has term 1 through f and one entry of term 3 after that; it is cut at
  // l. The follower's is cut at f, with an entry of term 2 after that. The leader is about
  // to probe its last entry, or the one before the follower's boundary.
  ghost predicate Circling(p: Pair, to: nat, l: nat, f: nat) {
    && Ready(p, to) && l < f && p.leader.inc == l && |p.leader.log| == f - l + 2
    && (forall i :: 0 < i < f - l + 1 ==> p.leader.log[i].term == 1) && p.leader.log[f - l + 1].term == 3
    && p.follower.inc == f && |p.follower.log| == 2 && p.follower.log[0].term == 1 && p.follower.log[1].term == 2
    && (p.leader.next[to] == f + 2 || p.leader.next[to] == f)
  }

  lemma CircleAtEnd(p: Pair, me: nat, to: nat, l: nat, f: nat)
    requires Circling(p, to, l, f) && p.leader.next[to] == f + 2
    ensures Refused(p, me, to) && AfterRefusal(p, me, to).leader.next[to] == f
  {
    var (n, out) := RoundFor(p.leader, me, to);
    assert out.AppendRound? && out.append.prev == f + 1;
    assert RunStart(p.follower.log, 0, 2) == 0;
    assert HandleAppend(p.follower, out.append).1 == AppendReply(p.leader.term, false, 2, f + 1, -1);
    assert ScanBack(n, f, f + 1, 2) == f;
  }

  lemma CircleBelow(p: Pair, me: nat, to: nat, l: nat, f: nat)
    requires Circling(p, to, l, f) && p.leader.next[to] == f
    ensures Refused(p, me, to) && AfterRefusal(p, me, to).leader.next[to] == if f > 1 then f + 2 else f
  {
    var (n, out) := RoundFor(p.leader, me, to);
    assert out.AppendRound? && out.append.prev == f - 1;
    assert HandleAppend(p.follower, out.append).1 == AppendReply(p.leader.term, false, 0, 0, f + 2);
  }

  // Every round is refused, for ever.
  lemma {:induction false} CirclesForEver(p: Pair, me: nat, to: nat, l: nat, f: nat, k: nat)
    requires Circling(p, to, l, f)
    ensures !EndsIn(p, me, to, k)
    decreases k
  {
    if p.leader.next[to] == f { CircleBelow(p, me, to, l, f); } else { CircleAtEnd(p, me, to, l, f); }
    RefusalKeeps(p, me, to);
    if k > 0 {
      CirclesForEver(AfterRefusal(p, me, to), me, to, l, f, k - 1);
      ProbeOn(p, me, to, k - 1);
    }
  }
}
