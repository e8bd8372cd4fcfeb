// More about single steps of a run: exact follower commit, commit never moving
// back, and the decisions of a compacted server compared with an uncompacted one.
module RaftTheorems {
  import opened Options
  import opened Kv
  import opened RaftLog
  import opened RaftCore
  import opened RaftCoreProof
  import opened RaftNode
  import opened RaftCommit
  import opened RaftCluster
  import opened RaftRefinement
  import opened RaftSafety

  // ---------- follower commit ----------

  // What an accepted AppendEntries leaves behind.
  ghost predicate AcceptExact(n: Node, x: AppendArgs, n': Node) {
    var k := x.prev + |x.entries|;
    && x.leaderCommit <= k <= LastIndex(n')
    && n'.inc == n.inc && n.inc <= x.prev
    && n'.commit == (if x.leaderCommit > n.commit then x.leaderCommit else n.commit)
    && n'.log[x.prev + 1 - n.inc..k + 1 - n.inc] == x.entries
  }

  // A node's part of a log that agrees with the leader's.
  lemma PartIs(log: Log, inc: nat, full: Log, lead: Log, i: nat, j: nat)
    requires Compacts(log, inc, full) && inc < i <= j + 1 <= |lead| && Agree(full, lead, j)
    ensures j - inc < |log| && log[i - inc..j + 1 - inc] == lead[i..j + 1]
  {
  }

  lemma AcceptExactFrom(a: Core, b: Core, s: nat, n: Node, n': Node, x: AppendArgs)
    requires Adoptable(a, s, x.prev + |x.entries|) && b == Adopt(a, s, x.prev + |x.entries|, x.leaderCommit)
    requires NodeOk(a, s, n) && NodeOk(b, s, n') && n'.inc == n.inc <= x.prev
    requires AppendOk(a, x) && Agree(b.peers[s].log, a.reign[x.term], x.prev + |x.entries|)
    ensures AcceptExact(n, x, n')
  {
    PartIs(n'.log, n'.inc, b.peers[s].log, a.reign[x.term], x.prev + 1, x.prev + |x.entries|);
  }

  lemma AcceptSame(a: Core, s: nat, sv: Server, x: AppendArgs)
    requires Inv(a) && s < |a.peers| && ServerOk(a, s, sv) && x.term == sv.node.term && AppendOk(a, x)
    requires sv.node.inc <= x.prev <= LastIndex(sv.node) && sv.node.log[x.prev - sv.node.inc].term == x.prevTerm
    ensures AcceptExact(sv.node, x, HandleAppend(sv.node, x).0)
  {
    var k := x.prev + |x.entries|;
    AcceptHere(a, s, sv, x, k);
    AcceptExactFrom(a, Adopt(a, s, k, x.leaderCommit), s, sv.node, HandleAppend(sv.node, x).0, x);
  }

  // When AppendEntries succeeds.
  lemma SuccessMeans(n: Node, x: AppendArgs)
    requires |n.log| > 0
    ensures HandleAppend(n, x).1.success <==>
      x.term >= n.term && n.inc <= x.prev <= LastIndex(n) && n.log[x.prev - n.inc].term == x.prevTerm
  {
  }

  lemma AcceptExactLater(n: Node, x: AppendArgs, n': Node)
    requires AcceptExact(Persist(Later(n, x.term)), x, n')
    ensures AcceptExact(n, x, n')
  {
  }

  // Every AppendEntries in flight carries a slice that reaches its LeaderCommit, so
  // a server that accepts one ends with exactly the leader's commit index (or keeps
  // its own higher one), however long its own log is.
  lemma FollowerCommitExact(n: nat, acts: seq<Action>, to: nat, x: AppendArgs)
    requires to < n && AppendReq(to, x) in Exec(n, acts).net
    requires HandleAppend(Exec(n, acts).servers[to].node, x).1.success
    ensures AcceptExact(Exec(n, acts).servers[to].node, x, HandleAppend(Exec(n, acts).servers[to].node, x).0)
  {
    var c := Exec(n, acts);
    var a := Simulated(n, acts);
    Look(c, a, to);
    assert MsgOk(a, AppendReq(to, x));
    AcceptAnyTerm(a, to, c.servers[to], x);
  }

  lemma AcceptAnyTerm(a: Core, s: nat, sv: Server, x: AppendArgs)
    requires Inv(a) && s < |a.peers| && ServerOk(a, s, sv) && AppendOk(a, x) && HandleAppend(sv.node, x).1.success
    ensures AcceptExact(sv.node, x, HandleAppend(sv.node, x).0)
  {
    SuccessMeans(sv.node, x);
    if x.term == sv.node.term {
      AcceptSame(a, s, sv, x);
    } else {
      var d, sv' := MoveToTerm(a, s, sv, x.term);
      MsgOnward(a, d, s, x);
      AppendLater(sv.node, x);
      AcceptSame(d, s, sv', x);
      AcceptExactLater(sv.node, x, HandleAppend(sv'.node, x).0);
    }
  }

  lemma MsgOnward(a: Core, b: Core, to: nat, x: AppendArgs)
    requires Ext(a, b) && AppendOk(a, x)
    ensures AppendOk(b, x)
  {
    MsgStable(a, b, AppendReq(to, x));
  }

  // ---------- terms ----------

  // What a server has become that has heard of term t: in that term without a vote if it is
  // later than its own, and otherwise where it was.
  ghost predicate InTerm(n: Node, t: nat, m: Node) {
    && m.term == (if t > n.term then t else n.term)
    && m.voted == (if t > n.term then -1 else n.voted)
    && m.saved == Some(Image(m))
  }

  // A request of a leader brings a server of an earlier term to that term, whether it takes
  // what is in it or refuses, and makes it a follower; one of an earlier leader does nothing.
  lemma LeaderHeard(n: Node, x: AppendArgs, y: InstallArgs)
    requires |n.log| > 0
    ensures var (m, reply) := HandleAppend(n, x);
      InTerm(n, x.term, m) && reply.term == m.term && m.role == (if x.term >= n.term then Follower else n.role)
    ensures y.term >= n.term ==> var m := HandleInstall(n, y).0; InTerm(n, y.term, m) && m.role == Follower
    ensures y.term < n.term ==> HandleInstall(n, y).0 == n
  {
  }

  // Any reply of a later term ends a candidacy or a reign.
  lemma ReplyHeard(n: Node, me: nat, from: nat, t: nat, vote: VoteReply, x: AppendArgs, append: AppendReply, y: InstallArgs, install: nat)
    requires from < |n.next| == |n.matched|
    ensures vote.term > n.term ==> var m := HandleVoteReply(n, from, t, vote); InTerm(n, vote.term, m) && m.role == Follower
    ensures append.term > n.term ==> var m := HandleAppendReply(n, me, from, x, append); InTerm(n, append.term, m) && m.role == Follower
    ensures install > n.term ==> var m := HandleInstallReply(n, from, y, install); InTerm(n, install, m) && m.role == Follower
  {
  }

  // A peer that has taken a snapshot is sent what follows it, or the leader's newer snapshot.
  lemma AfterInstall(n: Node, me: nat, from: nat, x: InstallArgs, t: nat)
    requires from < |n.next| == |n.matched| && |n.log| > 0 && n.role == Leader && n.term == x.term && t <= n.term
    requires x.inc <= LastIndex(n)
    ensures var m := HandleInstallReply(n, from, x, t);
      && m.matched[from] == x.inc
      && match RoundFor(m, me, from).1
         case InstallRound(y) => x.inc < n.inc == y.inc
         case AppendRound(y) => y.prev == x.inc && y.entries == n.log[x.inc + 1 - n.inc..]
  {
  }

  // ---------- the commit index never moves back ----------

  lemma CommitStays(n: nat, acts: seq<Action>, act: Action, s: nat)
    requires s < n && act != At(s, Crash)
    ensures Exec(n, acts + [act]).servers[s].node.commit >= Exec(n, acts).servers[s].node.commit
  {
    ExecSnoc(n, acts, act);
    var c := Exec(n, acts);
    match act
    case At(q, what) => if q == s { LocalCommit(c, s, what); } else if q < n { LocalElsewhere(c, q, what, s); }
    case Deliver(m) =>
      if m in c.net && m.to < n {
        if m.to != s {
          DeliverElsewhere(c, m, s);
        } else if m.AppendReq? {
          if HandleAppend(c.servers[s].node, m.append).1.success { FollowerCommitExact(n, acts, s, m.append); }
        } else {
          DeliverCommit(c, m);
        }
      }
  }

  lemma LocalElsewhere(c: Cluster, q: nat, what: Local, s: nat)
    requires Shape(c) && q < |c.servers| && s < |c.servers| && q != s
    ensures |Act(c, q, what).servers| == |c.servers| && Act(c, q, what).servers[s] == c.servers[s]
  {
  }

  lemma DeliverElsewhere(c: Cluster, m: Msg, s: nat)
    requires Shape(c) && m.to < |c.servers| && s < |c.servers| && m.to != s
    ensures |Receive(c, m).servers| == |c.servers| && Receive(c, m).servers[s] == c.servers[s]
  {
  }

  lemma LocalCommit(c: Cluster, s: nat, what: Local)
    requires Shape(c) && s < |c.servers| && what != Crash
    ensures Act(c, s, what).servers[s].node.commit >= c.servers[s].node.commit
  {
  }

  lemma DeliverCommit(c: Cluster, m: Msg)
    requires Shape(c) && m.to < |c.servers| && !m.AppendReq?
    ensures Receive(c, m).servers[m.to].node.commit >= c.servers[m.to].node.commit
  {
    if m.AppendRep? && m.from < |c.servers| && m.appendReply.success {
      var n := c.servers[m.to].node;
      var k := m.append.prev + |m.append.entries|;
      ScanSound(n.(matched := n.matched[m.from := k], next := n.next[m.from := k + 1]), m.to, k);
    }
  }

  // ---------- compaction changes no decision ----------

  // The same server had it never cut its log.
  function Uncompacted(n: Node, full: Log): Node
    requires |full| > 0
  {
    n.(log := full, inc := 0, incTerm := full[0].term)
  }

  // A vote is decided as the uncompacted server would decide it.
  lemma VoteDecisionSame(n: Node, full: Log, x: VoteArgs)
    requires Compacts(n.log, n.inc, full)
    ensures var (n1, r1) := HandleVote(n, x); var (n2, r2) := HandleVote(Uncompacted(n, full), x);
      r1 == r2 && n1.term == n2.term && n1.voted == n2.voted && n1.role == n2.role
  {
  }

  // The backward search in the compacted log stops where the search in the full log
  // stops, or at the boundary.
  lemma {:induction false} RunStartSame(log: Log, inc: nat, full: Log, j: int, term: nat)
    requires Compacts(log, inc, full) && -1 <= j < |log|
    ensures var u := RunStart(full, inc + j, term); var c := RunStart(log, j, term);
      c == if u < inc - 1 then -1 else u - inc
    decreases j + 1
  {
    if j >= 0 {
      if log[j].term == term { RunStartSame(log, inc, full, j - 1, term); }
    } else {
      RunStartBelow(full, inc - 1, term);
    }
  }

  lemma {:induction false} RunStartBelow(log: Log, j: int, term: nat)
    requires -1 <= j < |log|
    ensures -1 <= RunStart(log, j, term) <= j
    decreases j + 1
  {
    if j >= 0 && log[j].term == term { RunStartBelow(log, j - 1, term); }
  }

  lemma HereDecisionSame(n: Node, full: Log, x: AppendArgs, n1: Node, r1: AppendReply, n2: Node, r2: AppendReply)
    requires Compacts(n.log, n.inc, full) && n.inc <= x.prev
    requires (n1, r1) == AppendHere(n, x) && (n2, r2) == AppendHere(Uncompacted(n, full), x)
    ensures r1 == r2.(xIndex := r1.xIndex)
    ensures r1.xIndex == r2.xIndex || (r1.xIndex == n.inc && r2.xIndex < n.inc)
    ensures Compacts(n1.log, n.inc, n2.log) && n1.inc == n.inc && n1.commit == n2.commit
    ensures n1.term == n2.term == n.term && n1.voted == n2.voted == n.voted && n1.role == n2.role == n.role
  {
    if x.prev <= LastIndex(n) {
      var si := x.prev - n.inc;
      if n.log[si].term == x.prevTerm {
        MergeCompacts(n.log, n.inc, full, si + 1, x.entries);
      } else {
        RunStartSame(n.log, n.inc, full, si - 1, n.log[si].term);
      }
    }
  }

  // With the previous index not below the boundary, AppendEntries is decided as the
  // uncompacted server would decide it: same answer, same new log, same commit. Only
  // the hint XIndex is cut off at the boundary.
  lemma AppendDecisionSame(n: Node, full: Log, x: AppendArgs, n1: Node, r1: AppendReply, n2: Node, r2: AppendReply)
    requires Compacts(n.log, n.inc, full) && n.inc <= x.prev
    requires (n1, r1) == HandleAppend(n, x) && (n2, r2) == HandleAppend(Uncompacted(n, full), x)
    ensures r1 == r2.(xIndex := r1.xIndex)
    ensures r1.xIndex == r2.xIndex || (r1.xIndex == n.inc && r2.xIndex < n.inc)
    ensures Compacts(n1.log, n.inc, n2.log) && n1.inc == n.inc && n1.commit == n2.commit
    ensures n1.term == n2.term && n1.voted == n2.voted && n1.role == n2.role
  {
    if x.term >= n.term {
      assert Heard(Uncompacted(n, full), x.term) == Uncompacted(Heard(n, x.term), full);
      HereDecisionSame(Heard(n, x.term), full, x, n1, r1, n2, r2);
    }
  }

  // Below the boundary the compacted server refuses and asks for what follows its log.
  lemma AppendBelowBoundary(n: Node, full: Log, x: AppendArgs)
    requires Compacts(n.log, n.inc, full) && x.term >= n.term && x.prev < n.inc
    ensures var (n1, r1) := HandleAppend(n, x);
      !r1.success && n1.log == n.log && n1.commit == n.commit && r1.xLen == |full|
  {
  }

  // Snapshot cuts the log the server stands for nowhere.
  lemma CompactSameLog(n: Node, full: Log, index: nat, data: Table)
    requires Compacts(n.log, n.inc, full) && n.incTerm == n.log[0].term
    ensures var m := Compact(n, index, data);
      && Compacts(m.log, m.inc, full) && m.incTerm == m.log[0].term
      && m.inc == (if n.inc < index < |full| then index else n.inc)
      && m.commit == n.commit && m.term == n.term && m.voted == n.voted && m.role == n.role
  {
  }

  // InstallSnapshot keeps the tail exactly when the entry at the new boundary is
  // there with the boundary's term, and otherwise the whole log is gone.
  lemma InstallKeepsTail(n: Node, full: Log, x: InstallArgs)
    requires Compacts(n.log, n.inc, full) && x.term >= n.term && x.inc > n.inc
    ensures var m := HandleInstall(n, x).0;
      && m.inc == x.inc && m.incTerm == x.incTerm == m.log[0].term && m.commit >= x.inc
      && (x.inc < |full| && full[x.inc].term == x.incTerm ==> Compacts(m.log, x.inc, full))
      && (!(x.inc < |full| && full[x.inc].term == x.incTerm) ==> |m.log| == 1)
  {
  }
}
