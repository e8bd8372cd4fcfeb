// Every step of a cluster of compacted servers is matched by steps of RaftCore.
module RaftRefinement {
  import opened Options
  import opened Quorums
  import opened Kv
  import opened RaftLog
  import opened RaftCore
  import opened RaftCoreProof
  import opened RaftNode
  import opened RaftCommit
  import opened RaftCluster

  // ---------- the simulation relation ----------

  // What is on disk is what is in memory.
  ghost predicate Synced(n: Node) {
    match n.saved
    case None => n.term == 0 && n.voted == -1 && n.log == [DUMMY] && n.inc == 0 && n.incTerm == 0
    case Some(s) => s == Image(n)
  }

  // The stored snapshot is the replay of everything that was cut off.
  ghost predicate SnapshotOk(n: Node, full: Log) {
    n.inc < |full| && (n.snapshot == Some(Replay(full, n.inc)) || (n.snapshot == None && n.inc == 0))
  }

  ghost predicate NodeOk(a: Core, s: nat, n: Node)
    requires s < |a.peers|
  {
    var p := a.peers[s];
    && n.role == p.role && n.term == p.term && n.voted == p.voted && n.commit == p.commit
    && Compacts(n.log, n.inc, p.log) && n.incTerm == n.log[0].term
    && n.inc <= n.commit < |p.log|
    && |n.next| == |n.matched| == |a.peers|
    && Synced(n)
    && (n.snapshot == None ==> n.inc == 0)
    && (n.role == Candidate ==> n.tally == |p.voters| && p.voters !! n.waiting && n.waiting <= Ids(|a.peers|))
    && (n.role == Leader ==> forall q: nat :: q < |n.matched| ==> n.matched[q] == 0 || Acked(a, q, n.term, n.matched[q]))
  }

  // What is applied, and where the applier is, whatever has happened in deliveries.
  ghost predicate ServiceBounds(sv: Server) {
    && sv.index <= sv.node.commit && sv.node.applied <= sv.node.commit
    && match sv.offer
       case Nothing => true
       case Next(i, cmd) => i <= sv.node.commit
       case Snap(i, data) => i <= sv.node.inc
       case Taken(i) => i <= sv.node.inc
  }

  // The service's table is the replay of the log up to the service's index, which is
  // what raft has it at; a snapshot on its way is a replay too.
  ghost predicate ServiceOk(log: Log, sv: Server) {
    && sv.index <= sv.node.commit < |log| && sv.node.applied <= sv.node.commit
    && sv.table == Replay(log, sv.index)
    && match sv.offer
       case Nothing => sv.index == sv.node.applied
       case Next(i, cmd) => i == sv.node.applied == sv.index + 1 && cmd == log[i].cmd
       case Snap(i, data) => sv.index == sv.node.applied <= i <= sv.node.inc <= sv.node.commit && data == Replay(log, i)
       case Taken(i) => sv.node.applied <= i == sv.index <= sv.node.inc
  }

  ghost predicate ServerOk(a: Core, s: nat, sv: Server)
    requires s < |a.peers|
  {
    && NodeOk(a, s, sv.node) && ServiceBounds(sv)
    && (a.calm ==> SnapshotOk(sv.node, a.peers[s].log) && ServiceOk(a.peers[s].log, sv))
  }

  ghost predicate AppendOk(a: Core, x: AppendArgs) {
    var k := x.prev + |x.entries|;
    && x.term in a.reign && k < |a.reign[x.term]|
    && a.reign[x.term][x.prev].term == x.prevTerm
    && x.entries == a.reign[x.term][x.prev + 1..k + 1]
    && x.leaderCommit <= k
    && Covered(a, a.reign[x.term], x.leaderCommit, x.term)
  }

  ghost predicate InstallOk(a: Core, x: InstallArgs) {
    && x.term in a.reign && x.inc < |a.reign[x.term]|
    && a.reign[x.term][x.inc].term == x.incTerm
    && Covered(a, a.reign[x.term], x.inc, x.term)
    && (a.calm ==> x.data == Replay(a.reign[x.term], x.inc))
  }

  ghost predicate MsgOk(a: Core, m: Msg) {
    match m
    case VoteReq(to, x) =>
      (x.cand, x.term) in a.bids && var bid := a.bids[(x.cand, x.term)];
      |bid| > 0 && x.lastIndex == |bid| - 1 && x.lastTerm == LastTerm(bid)
    case VoteRep(to, from, reqTerm, reply) =>
      reply.granted ==> (from, reqTerm) in a.votes && a.votes[(from, reqTerm)] == to
    case AppendReq(to, x) => AppendOk(a, x)
    case AppendRep(to, from, x, reply) => reply.success ==> Acked(a, from, x.term, x.prev + |x.entries|)
    case InstallReq(to, x) => InstallOk(a, x)
    case InstallRep(to, from, x, t) => t <= x.term ==> Acked(a, from, x.term, x.inc)
  }

  ghost predicate Sim(c: Cluster, a: Core) {
    && |c.servers| == |a.peers|
    && (forall s: nat {:trigger ServerOk(a, s, c.servers[s])} :: s < |a.peers| ==> ServerOk(a, s, c.servers[s]))
    && (forall m {:trigger MsgOk(a, m)} :: m in c.net ==> MsgOk(a, m))
  }

  // ---------- stability ----------

  lemma ReignPrefix(a: Core, b: Core, t: nat, i: nat)
    requires Ext(a, b) && t in a.reign && i < |a.reign[t]|
    ensures t in b.reign && Agree(a.reign[t], b.reign[t], i)
    ensures Replay(a.reign[t], i) == Replay(b.reign[t], i)
  {
    ReplayAgree(a.reign[t], b.reign[t], i);
  }

  lemma CoveredReign(a: Core, b: Core, t: nat, c: nat)
    requires Ext(a, b) && t in a.reign && Covered(a, a.reign[t], c, t)
    ensures t in b.reign && Covered(b, b.reign[t], c, t)
  {
    CoveredStable(a, b, a.reign[t], c, t, t);
    CoveredGrow(b, a.reign[t], b.reign[t], c, t);
  }

  lemma MsgStable(a: Core, b: Core, m: Msg)
    requires Ext(a, b) && MsgOk(a, m)
    ensures MsgOk(b, m)
  {
    match m
    case AppendReq(to, x) => CoveredReign(a, b, x.term, x.leaderCommit);
    case InstallReq(to, x) =>
      CoveredReign(a, b, x.term, x.inc);
      ReignPrefix(a, b, x.term, x.inc);
    case _ =>
  }

  lemma ServerStable(a: Core, b: Core, s: nat, sv: Server)
    requires Ext(a, b) && s < |a.peers| && a.peers[s] == b.peers[s] && ServerOk(a, s, sv)
    ensures ServerOk(b, s, sv)
  {
  }

  // One server moves, and some messages go out.
  lemma Rebuild(a: Core, b: Core, c: Cluster, s: nat, sv: Server, out: set<Msg>)
    requires Sim(c, a) && Ext(a, b) && s < |a.peers|
    requires forall q :: 0 <= q < |a.peers| && q != s ==> a.peers[q] == b.peers[q]
    requires ServerOk(b, s, sv) && forall m :: m in out ==> MsgOk(b, m)
    ensures Sim(SetServer(c, s, sv, out), b)
  {
    var d := SetServer(c, s, sv, out);
    forall q: nat | q < |b.peers| ensures ServerOk(b, q, d.servers[q]) {
      if q != s {
        assert ServerOk(a, q, c.servers[q]);
        ServerStable(a, b, q, c.servers[q]);
      }
    }
    forall m | m in d.net ensures MsgOk(b, m) {
      if m in c.net {
        assert MsgOk(a, m);
        MsgStable(a, b, m);
      }
    }
  }

  // b moves only server s of a.
  ghost predicate OnlyPeer(a: Core, b: Core, s: nat) {
    && Inv(b) && Ext(a, b) && b.calm == a.calm && |a.peers| == |b.peers|
    && forall q :: 0 <= q < |a.peers| && q != s ==> a.peers[q] == b.peers[q]
  }

  // The service keeps its relation when the log keeps what is committed.
  lemma ServiceKept(calm: bool, before: Log, log: Log, sv: Server, n: Node)
    requires ServiceBounds(sv) && (calm ==> ServiceOk(before, sv)) && Agree(before, log, sv.node.commit)
    requires n.applied == sv.node.applied && sv.node.inc <= n.inc <= n.commit < |log| && sv.node.commit <= n.commit
    ensures ServiceBounds(sv.(node := n)) && (calm ==> ServiceOk(log, sv.(node := n)))
  {
    if calm {
      ReplayAgree(before, log, sv.index);
      if sv.offer.Snap? { ReplayAgree(before, log, sv.offer.index); }
    }
  }

  // ---------- elections ----------

  lemma CampaignRel(a: Core, s: nat, sv: Server)
    requires s < |a.peers| && ServerOk(a, s, sv) && sv.node.role != Leader
    ensures ServerOk(Campaign(a, s), s, sv.(node := Timeout(sv.node, s)))
  {
  }

  lemma ExpireOnNode(a: Core, s: nat, sv: Server) returns (b: Core)
    requires Inv(a) && s < |a.peers| && ServerOk(a, s, sv)
    ensures OnlyPeer(a, b, s) && ServerOk(b, s, sv.(node := Timeout(sv.node, s)))
  {
    if sv.node.role == Leader {
      b := a;
    } else {
      CampaignRel(a, s, sv);
      CampaignInv(a, s);
      b := Campaign(a, s);
    }
  }

  lemma SimExpire(c: Cluster, a: Core, s: nat) returns (b: Core)
    requires Inv(a) && Sim(c, a) && s < |a.peers|
    ensures Inv(b) && Ext(a, b) && b.calm == a.calm && Sim(SetNode(c, s, Timeout(c.servers[s].node, s), {}), b)
  {
    var sv := c.servers[s];
    assert ServerOk(a, s, sv);
    b := ExpireOnNode(a, s, sv);
    Rebuild(a, b, c, s, sv.(node := Timeout(sv.node, s)), {});
  }

  lemma AskOk(a: Core, s: nat, sv: Server, to: nat)
    requires s < |a.peers| && PeerOk(a, s) && ServerOk(a, s, sv) && sv.node.role == Candidate
    ensures MsgOk(a, VoteReq(to, VoteRequest(sv.node, s)))
  {
  }

  lemma SimAskVote(c: Cluster, a: Core, s: nat, to: nat) returns (b: Core)
    requires Inv(a) && Sim(c, a) && s < |a.peers| && c.servers[s].node.role == Candidate
    requires |c.servers[s].node.log| > 0
    ensures Inv(b) && Ext(a, b) && b.calm == a.calm && Sim(SetServer(c, s, c.servers[s], {VoteReq(to, VoteRequest(c.servers[s].node, s))}), b)
  {
    var sv := c.servers[s];
    assert ServerOk(a, s, sv);
    assert PeerOk(a, s);
    AskOk(a, s, sv, to);
    b := a;
    Rebuild(a, a, c, s, sv, {VoteReq(to, VoteRequest(sv.node, s))});
  }

  // A node that moves to a later term refines the peer that does.
  lemma LaterRel(a: Core, s: nat, sv: Server, t: nat)
    requires s < |a.peers| && ServerOk(a, s, sv) && t > sv.node.term
    ensures ServerOk(Advance(a, s, t), s, sv.(node := Persist(Later(sv.node, t))))
  {
  }

  lemma LaterOk(a: Core, s: nat, sv: Server, t: nat) returns (b: Core)
    requires Inv(a) && s < |a.peers| && ServerOk(a, s, sv) && t > sv.node.term
    ensures OnlyPeer(a, b, s) && ServerOk(b, s, sv.(node := Persist(Later(sv.node, t))))
  {
    LaterRel(a, s, sv, t);
    AdvanceInv(a, s, t);
    b := Advance(a, s, t);
  }

  // A message of a later term first moves the server to that term.
  lemma MoveToTerm(a: Core, s: nat, sv: Server, t: nat) returns (b: Core, sv': Server)
    requires Inv(a) && s < |a.peers| && ServerOk(a, s, sv)
    ensures OnlyPeer(a, b, s) && ServerOk(b, s, sv')
    ensures sv' == if t > sv.node.term then sv.(node := Persist(Later(sv.node, t))) else sv
  {
    if t > sv.node.term {
      b := LaterOk(a, s, sv, t);
      sv' := sv.(node := Persist(Later(sv.node, t)));
    } else {
      b, sv' := a, sv;
    }
  }

  lemma OnlyPeerTrans(a: Core, b: Core, d: Core, s: nat)
    requires OnlyPeer(a, b, s) && OnlyPeer(b, d, s)
    ensures OnlyPeer(a, d, s)
  {
    ExtTrans(a, b, d);
  }

  lemma GrantRel(a: Core, s: nat, sv: Server, cand: nat)
    requires s < |a.peers| && ServerOk(a, s, sv)
    ensures ServerOk(Grant(a, s, cand), s, sv.(node := Persist(sv.node.(voted := cand))))
  {
  }

  lemma PersistRel(a: Core, s: nat, sv: Server)
    requires s < |a.peers| && ServerOk(a, s, sv)
    ensures ServerOk(a, s, sv.(node := Persist(sv.node)))
  {
  }

  // The up-to-date check of a compacted server is the check on its whole log.
  lemma VoteGuard(a: Core, s: nat, sv: Server, x: VoteArgs)
    requires s < |a.peers| && ServerOk(a, s, sv) && x.term == sv.node.term && MsgOk(a, VoteReq(s, x))
    requires UpToDate(x.lastTerm, x.lastIndex, LastTerm(sv.node.log), LastIndex(sv.node))
    requires sv.node.voted == -1 || sv.node.voted == x.cand
    ensures MayGrant(a, s, x.cand)
  {
  }

  lemma GrantOnNode(a: Core, s: nat, sv: Server, x: VoteArgs) returns (b: Core)
    requires Inv(a) && s < |a.peers| && ServerOk(a, s, sv) && x.term == sv.node.term && MsgOk(a, VoteReq(s, x))
    requires UpToDate(x.lastTerm, x.lastIndex, LastTerm(sv.node.log), LastIndex(sv.node))
    requires sv.node.voted == -1 || sv.node.voted == x.cand
    ensures OnlyPeer(a, b, s) && ServerOk(b, s, sv.(node := Persist(sv.node.(voted := x.cand))))
    ensures (s, x.term) in b.votes && b.votes[(s, x.term)] == x.cand
  {
    VoteGuard(a, s, sv, x);
    GrantInv(a, s, x.cand);
    GrantRel(a, s, sv, x.cand);
    b := Grant(a, s, x.cand);
  }

  // The same-term half of RequestVote.
  lemma BallotOk(a: Core, s: nat, sv: Server, x: VoteArgs) returns (b: Core)
    requires Inv(a) && s < |a.peers| && ServerOk(a, s, sv) && x.term == sv.node.term && MsgOk(a, VoteReq(s, x))
    ensures OnlyPeer(a, b, s)
    ensures var (n', reply) := HandleVote(sv.node, x);
      ServerOk(b, s, sv.(node := n')) && MsgOk(b, VoteRep(x.cand, s, x.term, reply))
  {
    var n := sv.node;
    if UpToDate(x.lastTerm, x.lastIndex, LastTerm(n.log), LastIndex(n)) && (n.voted == -1 || n.voted == x.cand) {
      b := GrantOnNode(a, s, sv, x);
    } else {
      PersistRel(a, s, sv);
      b := a;
    }
  }

  lemma VoteLater(n: Node, x: VoteArgs)
    requires |n.log| > 0 && x.term > n.term
    ensures HandleVote(n, x) == HandleVote(Persist(Later(n, x.term)), x)
  {
  }

  lemma VoteOnNode(a: Core, s: nat, sv: Server, x: VoteArgs) returns (b: Core)
    requires Inv(a) && s < |a.peers| && ServerOk(a, s, sv) && MsgOk(a, VoteReq(s, x))
    ensures OnlyPeer(a, b, s)
    ensures var (n', reply) := HandleVote(sv.node, x);
      ServerOk(b, s, sv.(node := n')) && MsgOk(b, VoteRep(x.cand, s, x.term, reply))
  {
    if x.term < sv.node.term {
      PersistRel(a, s, sv);
      b := a;
    } else {
      var d, sv' := MoveToTerm(a, s, sv, x.term);
      MsgStable(a, d, VoteReq(s, x));
      b := BallotOk(d, s, sv', x);
      OnlyPeerTrans(a, d, b, s);
      if x.term > sv.node.term { VoteLater(sv.node, x); }
    }
  }

  lemma SimVote(c: Cluster, a: Core, to: nat, x: VoteArgs) returns (b: Core)
    requires Inv(a) && Sim(c, a) && Shape(c) && to < |a.peers| && VoteReq(to, x) in c.net
    ensures Inv(b) && Ext(a, b) && b.calm == a.calm && Sim(Receive(c, VoteReq(to, x)), b)
  {
    var sv := c.servers[to];
    assert ServerOk(a, to, sv);
    assert MsgOk(a, VoteReq(to, x));
    var (n', reply) := HandleVote(sv.node, x);
    b := VoteOnNode(a, to, sv, x);
    Rebuild(a, b, c, to, sv.(node := n'), {VoteRep(x.cand, to, x.term, reply)});
  }

  // A vote that does not count: the peer has answered, and nothing else.
  lemma RefusedRel(a: Core, s: nat, sv: Server, from: nat)
    requires s < |a.peers| && ServerOk(a, s, sv) && sv.node.role == Candidate
    ensures ServerOk(a, s, sv.(node := sv.node.(waiting := sv.node.waiting - {from})))
  {
  }

  lemma VoteReplyOnNode(a: Core, s: nat, sv: Server, from: nat, reqTerm: nat, reply: VoteReply) returns (b: Core)
    requires Inv(a) && s < |a.peers| && ServerOk(a, s, sv) && MsgOk(a, VoteRep(s, from, reqTerm, reply))
    ensures OnlyPeer(a, b, s) && ServerOk(b, s, sv.(node := HandleVoteReply(sv.node, from, reqTerm, reply)))
  {
    var n := sv.node;
    if reply.term > n.term {
      b := LaterOk(a, s, sv, reply.term);
    } else if n.role != Candidate || n.term != reqTerm || from !in n.waiting {
      b := a;
    } else if reply.granted {
      b := CountOnNode(a, s, sv, from);
    } else {
      RefusedRel(a, s, sv, from);
      b := a;
    }
  }

  lemma CountRel(a: Core, s: nat, sv: Server, from: nat)
    requires s < |a.peers| && ServerOk(a, s, sv) && sv.node.role == Candidate && from in sv.node.waiting
    ensures var n := sv.node;
      ServerOk(CountVote(a, s, from), s, sv.(node := n.(waiting := n.waiting - {from}, tally := n.tally + 1)))
  {
    assert |a.peers[s].voters + {from}| == |a.peers[s].voters| + 1;
  }

  // A candidate whose count passes half of the peers holds a majority of real votes.
  lemma WinGuard(a: Core, s: nat, sv: Server)
    requires PeersOk(a) && s < |a.peers| && ServerOk(a, s, sv) && sv.node.role == Candidate
    requires sv.node.tally > |sv.node.next| / 2
    ensures MayElect(a, s)
  {
    assert PeerOk(a, s);
  }

  lemma WinRel(a: Core, s: nat, sv: Server)
    requires s < |a.peers| && ServerOk(a, s, sv) && |a.peers[s].log| > 0
    ensures ServerOk(Elect(a, s), s, sv.(node := Crowned(sv.node)))
  {
  }

  lemma CountedOnNode(a: Core, s: nat, sv: Server, from: nat) returns (b: Core)
    requires Inv(a) && s < |a.peers| && ServerOk(a, s, sv) && sv.node.role == Candidate && from in sv.node.waiting
    requires (from, sv.node.term) in a.votes && a.votes[(from, sv.node.term)] == s
    ensures OnlyPeer(a, b, s)
    ensures ServerOk(b, s, sv.(node := sv.node.(waiting := sv.node.waiting - {from}, tally := sv.node.tally + 1)))
  {
    CountVoteInv(a, s, from);
    CountRel(a, s, sv, from);
    b := CountVote(a, s, from);
  }

  // The counted votes are the votes of as many different peers.
  lemma CountOnNode(a: Core, s: nat, sv: Server, from: nat) returns (b: Core)
    requires Inv(a) && s < |a.peers| && ServerOk(a, s, sv) && sv.node.role == Candidate && from in sv.node.waiting
    requires (from, sv.node.term) in a.votes && a.votes[(from, sv.node.term)] == s
    ensures OnlyPeer(a, b, s)
    ensures var n := sv.node;
      ServerOk(b, s, sv.(node := Counted(n.(waiting := n.waiting - {from}, tally := n.tally + 1))))
  {
    var n := sv.node;
    b := CountedOnNode(a, s, sv, from);
    var sv' := sv.(node := n.(waiting := n.waiting - {from}, tally := n.tally + 1));
    if sv'.node.tally > |n.next| / 2 {
      var d := b;
      b := WinOnNode(d, s, sv');
      OnlyPeerTrans(a, d, b, s);
    }
  }

  lemma WinOnNode(a: Core, s: nat, sv: Server) returns (b: Core)
    requires Inv(a) && s < |a.peers| && ServerOk(a, s, sv) && sv.node.role == Candidate
    requires sv.node.tally > |sv.node.next| / 2
    ensures OnlyPeer(a, b, s)
    ensures ServerOk(b, s, sv.(node := Crowned(sv.node)))
  {
    WinGuard(a, s, sv);
    ElectInv(a, s);
    WinRel(a, s, sv);
    b := Elect(a, s);
  }

  lemma SimVoteReply(c: Cluster, a: Core, to: nat, from: nat, reqTerm: nat, reply: VoteReply) returns (b: Core)
    requires Inv(a) && Sim(c, a) && Shape(c) && to < |a.peers| && VoteRep(to, from, reqTerm, reply) in c.net
    ensures Inv(b) && Ext(a, b) && b.calm == a.calm && Sim(Receive(c, VoteRep(to, from, reqTerm, reply)), b)
  {
    var sv := c.servers[to];
    assert ServerOk(a, to, sv);
    assert MsgOk(a, VoteRep(to, from, reqTerm, reply));
    b := VoteReplyOnNode(a, to, sv, from, reqTerm, reply);
    Rebuild(a, b, c, to, sv.(node := HandleVoteReply(sv.node, from, reqTerm, reply)), {});
  }

  // ---------- replication ----------

  // Appending a leader's entries after a matching previous entry either leaves the
  // log alone (it already agrees) or makes it a prefix of the leader's log.
  lemma {:induction false} MergeIsPrefix(reign: map<nat, Log>, log: Log, bound: nat, t: nat, idx: nat, k: nat, entries: seq<Entry>)
    requires ReignsOk(reign) && LogOk(reign, log, bound) && t in reign
    requires 0 < idx <= k + 1 <= |reign[t]| && Agree(log, reign[t], idx - 1) && entries == reign[t][idx..k + 1]
    ensures Merge(log, idx, entries) == Follow(log, reign[t], k)
    decreases k + 1 - idx
  {
    var lead := reign[t];
    if idx == k + 1 {
    } else if idx < |log| {
      if log[idx].term == lead[idx].term {
        LogMatch(reign, log, bound, t, idx);
        MergeIsPrefix(reign, log, bound, t, idx + 1, k, entries[1..]);
      } else {
        assert log[..idx] + entries == lead[..k + 1];
      }
    } else {
      assert log + entries == lead[..k + 1];
    }
  }

  lemma DemoteRel(a: Core, s: nat, sv: Server)
    requires s < |a.peers| && ServerOk(a, s, sv)
    ensures ServerOk(Demote(a, s, sv.node.commit), s, sv.(node := Persist(sv.node.(role := Follower))))
  {
  }

  lemma RejectOnNode(a: Core, s: nat, sv: Server) returns (b: Core)
    requires Inv(a) && s < |a.peers| && ServerOk(a, s, sv)
    ensures OnlyPeer(a, b, s) && ServerOk(b, s, sv.(node := Persist(sv.node.(role := Follower))))
  {
    DemoteInv(a, s, sv.node.commit);
    DemoteRel(a, s, sv);
    b := Demote(a, s, sv.node.commit);
  }

  // Accepting entries: the compacted log follows the full log.
  lemma AcceptLog(reign: map<nat, Log>, log: Log, inc: nat, full: Log, bound: nat, t: nat, prev: nat, k: nat, entries: seq<Entry>)
    requires ReignsOk(reign) && LogOk(reign, full, bound) && Compacts(log, inc, full) && t in reign
    requires inc <= prev <= k < |reign[t]| && prev < |full| && log[prev - inc].term == reign[t][prev].term
    requires entries == reign[t][prev + 1..k + 1]
    ensures Compacts(Merge(log, prev - inc + 1, entries), inc, Follow(full, reign[t], k))
  {
    LogMatch(reign, full, bound, t, prev);
    MergeIsPrefix(reign, full, bound, t, prev + 1, k, entries);
    MergeCompacts(log, inc, full, prev - inc + 1, entries);
  }

  // The leader of the server's term has an entry m.
  ghost predicate Adoptable(a: Core, s: nat, m: nat) {
    s < |a.peers| && a.peers[s].term in a.reign && m < |a.reign[a.peers[s].term]|
  }

  // The commit index becomes exactly the leader's, never that of a stale extra entry.
  lemma AcceptCommit(a: Core, s: nat, n: Node, k: nat, c: nat, log: Log)
    requires Adoptable(a, s, k) && c <= k && Compacts(log, n.inc, Adopt(a, s, k, c).peers[s].log)
    requires k < |Adopt(a, s, k, c).peers[s].log| && n.commit == a.peers[s].commit
    ensures NewCommit(n.(log := log), c) == Adopt(a, s, k, c).peers[s].commit
    ensures NewCommit(n.(log := log), c) == if c > n.commit then c else n.commit
  {
  }

  lemma AdoptRel(a: Core, s: nat, sv: Server, m: nat, c: nat, log: Log)
    requires Adoptable(a, s, m) && ServerOk(a, s, sv)
    requires var p := Adopt(a, s, m, c).peers[s];
      Agree(a.peers[s].log, p.log, a.peers[s].commit) && Compacts(log, sv.node.inc, p.log) && p.commit < |p.log|
    ensures var b := Adopt(a, s, m, c);
      ServerOk(b, s, sv.(node := Persist(sv.node.(role := Follower, log := log, commit := b.peers[s].commit))))
  {
    var n := sv.node;
    var b := Adopt(a, s, m, c);
    var n' := Persist(n.(role := Follower, log := log, commit := b.peers[s].commit));
    ServiceKept(a.calm, a.peers[s].log, b.peers[s].log, sv, n');
    ReplayAgree(a.peers[s].log, b.peers[s].log, n.inc);
  }

  // What accepting entries through k does to the whole log, of which the server has what is
  // left from inc on.
  lemma AcceptAdopts(a: Core, s: nat, log: Log, inc: nat, x: AppendArgs, k: nat)
    requires ReignsOk(a.reign) && s < |a.peers| && PeerOk(a, s) && Compacts(log, inc, a.peers[s].log)
    requires x.term == a.peers[s].term && AppendOk(a, x) && k == x.prev + |x.entries|
    requires inc <= x.prev < inc + |log| && log[x.prev - inc].term == x.prevTerm
    ensures MayAdopt(a, s, k, x.leaderCommit)
    ensures Compacts(Merge(log, x.prev - inc + 1, x.entries), inc, Follow(a.peers[s].log, a.reign[x.term], k))
  {
    AcceptLog(a.reign, log, inc, a.peers[s].log, x.term, x.term, x.prev, k, x.entries);
  }

  lemma AcceptGuard(a: Core, s: nat, log: Log, inc: nat, x: AppendArgs, k: nat)
    requires ReignsOk(a.reign) && PeersOk(a) && s < |a.peers| && Compacts(log, inc, a.peers[s].log)
    requires x.term == a.peers[s].term && AppendOk(a, x) && k == x.prev + |x.entries|
    requires inc <= x.prev < inc + |log| && log[x.prev - inc].term == x.prevTerm
    ensures MayAdopt(a, s, k, x.leaderCommit)
    ensures Compacts(Merge(log, x.prev - inc + 1, x.entries), inc, Follow(a.peers[s].log, a.reign[x.term], k))
  {
    assert PeerOk(a, s);
    AcceptAdopts(a, s, log, inc, x, k);
  }

  // The server's log after the leader's prefix has been taken over, and its commit index.
  lemma AdoptedLog(a: Core, s: nat, m: nat, c: nat)
    requires Inv(a) && MayAdopt(a, s, m, c)
    ensures var p := Adopt(a, s, m, c).peers[s];
      && Agree(p.log, a.reign[a.peers[s].term], m) && Agree(a.peers[s].log, p.log, a.peers[s].commit) && p.commit < |p.log|
  {
    AdoptLog(a, s, m, c);
    AdoptInv(a, s, m, c);
    CommitInside(Adopt(a, s, m, c), s);
  }

  // The server that accepts is the peer that takes over the leader's entries.
  lemma AcceptHere(a: Core, s: nat, sv: Server, x: AppendArgs, k: nat)
    requires Inv(a) && s < |a.peers| && ServerOk(a, s, sv) && k == x.prev + |x.entries|
    requires x.term == sv.node.term && AppendOk(a, x) && sv.node.inc <= x.prev <= LastIndex(sv.node)
    requires sv.node.log[x.prev - sv.node.inc].term == x.prevTerm
    ensures MayAdopt(a, s, k, x.leaderCommit) && Agree(Adopt(a, s, k, x.leaderCommit).peers[s].log, a.reign[x.term], k)
    ensures ServerOk(Adopt(a, s, k, x.leaderCommit), s, sv.(node := HandleAppend(sv.node, x).0))
  {
    AcceptGuard(a, s, sv.node.log, sv.node.inc, x, k);
    AdoptedLog(a, s, k, x.leaderCommit);
    AcceptRel(a, Adopt(a, s, k, x.leaderCommit), s, sv, x, Merge(sv.node.log, x.prev - sv.node.inc + 1, x.entries));
  }

  lemma AcceptOnNode(a: Core, s: nat, sv: Server, x: AppendArgs) returns (b: Core)
    requires Inv(a) && s < |a.peers| && ServerOk(a, s, sv)
    requires x.term == sv.node.term && AppendOk(a, x) && sv.node.inc <= x.prev <= LastIndex(sv.node)
    requires sv.node.log[x.prev - sv.node.inc].term == x.prevTerm
    ensures OnlyPeer(a, b, s) && Acked(b, s, x.term, x.prev + |x.entries|)
    ensures ServerOk(b, s, sv.(node := HandleAppend(sv.node, x).0))
  {
    var k := x.prev + |x.entries|;
    AcceptHere(a, s, sv, x, k);
    b := Adopt(a, s, k, x.leaderCommit);
    Adopting(a, s, k, x.leaderCommit);
  }

  lemma Adopting(a: Core, s: nat, m: nat, c: nat)
    requires Inv(a) && MayAdopt(a, s, m, c)
    ensures var b := Adopt(a, s, m, c); OnlyPeer(a, b, s) && Acked(b, s, a.peers[s].term, m)
  {
    AdoptInv(a, s, m, c);
  }

  // What an accepted AppendEntries makes of the node.
  lemma AppendTaken(n: Node, x: AppendArgs, log: Log, commit: nat)
    requires |n.log| > 0 && x.term == n.term && n.inc <= x.prev <= LastIndex(n)
    requires n.log[x.prev - n.inc].term == x.prevTerm && log == Merge(n.log, x.prev - n.inc + 1, x.entries)
    requires commit == NewCommit(n.(log := log), x.leaderCommit)
    ensures HandleAppend(n, x).0 == Persist(n.(role := Follower, log := log, commit := commit))
  {
  }

  lemma AcceptNode(a: Core, b: Core, s: nat, n: Node, x: AppendArgs, log: Log, k: nat)
    requires Adoptable(a, s, k) && k == x.prev + |x.entries| && x.leaderCommit <= k && b == Adopt(a, s, k, x.leaderCommit)
    requires |n.log| > 0 && n.commit == a.peers[s].commit && x.term == n.term && n.inc <= x.prev <= LastIndex(n)
    requires n.log[x.prev - n.inc].term == x.prevTerm && log == Merge(n.log, x.prev - n.inc + 1, x.entries)
    requires Compacts(log, n.inc, b.peers[s].log) && k < |b.peers[s].log|
    ensures HandleAppend(n, x).0 == Persist(n.(role := Follower, log := log, commit := b.peers[s].commit))
  {
    AcceptCommit(a, s, n, k, x.leaderCommit, log);
    AppendTaken(n, x, log, b.peers[s].commit);
  }

  lemma AcceptRel(a: Core, b: Core, s: nat, sv: Server, x: AppendArgs, log: Log)
    requires s < |a.peers| && ServerOk(a, s, sv) && x.term == sv.node.term && sv.node.inc <= x.prev <= LastIndex(sv.node)
    requires sv.node.log[x.prev - sv.node.inc].term == x.prevTerm && log == Merge(sv.node.log, x.prev - sv.node.inc + 1, x.entries)
    requires Adoptable(a, s, x.prev + |x.entries|) && x.leaderCommit <= x.prev + |x.entries|
    requires b == Adopt(a, s, x.prev + |x.entries|, x.leaderCommit)
    requires var p := b.peers[s];
      && Agree(a.peers[s].log, p.log, a.peers[s].commit) && p.commit < |p.log| && x.prev + |x.entries| < |p.log|
      && Compacts(log, sv.node.inc, p.log)
    ensures ServerOk(b, s, sv.(node := HandleAppend(sv.node, x).0))
  {
    AcceptNode(a, b, s, sv.node, x, log, x.prev + |x.entries|);
    AdoptRel(a, s, sv, x.prev + |x.entries|, x.leaderCommit, log);
  }

  lemma CommitInside(a: Core, s: nat)
    requires PeersOk(a) && s < |a.peers|
    ensures a.peers[s].commit < |a.peers[s].log|
  {
    assert PeerOk(a, s);
  }

  lemma AppendLater(n: Node, x: AppendArgs)
    requires |n.log| > 0 && x.term > n.term
    ensures HandleAppend(n, x) == HandleAppend(Persist(Later(n, x.term)), x)
  {
  }

  lemma InstallLater(n: Node, x: InstallArgs)
    requires x.term > n.term
    ensures HandleInstall(n, x).0 == HandleInstall(Persist(Later(n, x.term)), x).0
  {
  }

  lemma AppendRefused(n: Node, x: AppendArgs)
    requires |n.log| > 0 && x.term == n.term
    requires x.prev < n.inc || x.prev > LastIndex(n) || n.log[x.prev - n.inc].term != x.prevTerm
    ensures HandleAppend(n, x).0 == Persist(n.(role := Follower)) && !HandleAppend(n, x).1.success
  {
  }

  lemma AppendOnNode(a: Core, s: nat, sv: Server, x: AppendArgs) returns (b: Core)
    requires Inv(a) && s < |a.peers| && ServerOk(a, s, sv) && AppendOk(a, x) && x.term <= sv.node.term
    ensures OnlyPeer(a, b, s)
    ensures var (n', reply) := HandleAppend(sv.node, x);
      ServerOk(b, s, sv.(node := n')) && (reply.success ==> Acked(b, s, x.term, x.prev + |x.entries|))
  {
    var n := sv.node;
    if x.term < n.term {
      PersistRel(a, s, sv);
      b := a;
    } else if x.prev < n.inc || x.prev > LastIndex(n) || n.log[x.prev - n.inc].term != x.prevTerm {
      AppendRefused(n, x);
      b := RejectOnNode(a, s, sv);
    } else {
      b := AcceptOnNode(a, s, sv, x);
    }
  }

  lemma AppendFrom(a: Core, to: nat, sv: Server, x: AppendArgs) returns (b: Core)
    requires Inv(a) && to < |a.peers| && ServerOk(a, to, sv) && MsgOk(a, AppendReq(to, x))
    ensures Inv(b) && OnlyPeer(a, b, to)
    ensures ServerOk(b, to, sv.(node := HandleAppend(sv.node, x).0))
    ensures MsgOk(b, AppendRep(x.leader, to, x, HandleAppend(sv.node, x).1))
  {
    var d, sv' := MoveToTerm(a, to, sv, x.term);
    MsgStable(a, d, AppendReq(to, x));
    b := AppendOnNode(d, to, sv', x);
    OnlyPeerTrans(a, d, b, to);
    if x.term > sv.node.term { AppendLater(sv.node, x); }
  }

  lemma SimAppend(c: Cluster, a: Core, to: nat, x: AppendArgs) returns (b: Core)
    requires Inv(a) && Sim(c, a) && Shape(c) && to < |a.peers| && AppendReq(to, x) in c.net
    ensures Inv(b) && Ext(a, b) && b.calm == a.calm && Sim(Receive(c, AppendReq(to, x)), b)
  {
    var sv := c.servers[to];
    assert ServerOk(a, to, sv);
    assert MsgOk(a, AppendReq(to, x));
    b := AppendFrom(a, to, sv, x);
    var (n', reply) := HandleAppend(sv.node, x);
    Rebuild(a, b, c, to, sv.(node := n'), {AppendRep(x.leader, to, x, reply)});
  }

  // ---------- snapshots ----------

  // The boundary a snapshot brings: a newer one replaces the log or keeps its tail,
  // exactly as taking over the leader's prefix does; an older one changes nothing.
  lemma InstallLog(reign: map<nat, Log>, n: Node, full: Log, bound: nat, x: InstallArgs)
    requires ReignsOk(reign) && LogOk(reign, full, bound) && Compacts(n.log, n.inc, full)
    requires x.term in reign && x.inc < |reign[x.term]| && reign[x.term][x.inc].term == x.incTerm
    requires Agree(full, reign[x.term], n.inc)
    ensures var full' := Follow(full, reign[x.term], x.inc);
      if x.inc <= n.inc then full' == full else Compacts(InstallHere(n, x).log, x.inc, full')
  {
    if x.inc > n.inc {
      if x.inc - n.inc < |n.log| && n.log[x.inc - n.inc].term == x.incTerm {
        LogMatch(reign, full, bound, x.term, x.inc);
      } else if x.inc < |full| {
        assert n.log[x.inc - n.inc].term == full[x.inc].term;
      }
    }
  }

  lemma InstallRel(a: Core, s: nat, sv: Server, x: InstallArgs)
    requires s < |a.peers| && ServerOk(a, s, sv) && x.term == sv.node.term && InstallOk(a, x)
    requires MayAdopt(a, s, x.inc, x.inc) && x.inc > sv.node.inc
    requires var p := Adopt(a, s, x.inc, x.inc).peers[s];
      && Agree(a.peers[s].log, p.log, a.peers[s].commit) && p.commit < |p.log|
      && Agree(p.log, a.reign[x.term], x.inc)
      && Compacts(HandleInstall(sv.node, x).0.log, x.inc, p.log)
    ensures ServerOk(Adopt(a, s, x.inc, x.inc), s, sv.(node := HandleInstall(sv.node, x).0))
  {
    var n := sv.node;
    var b := Adopt(a, s, x.inc, x.inc);
    ServiceKept(a.calm, a.peers[s].log, b.peers[s].log, sv, HandleInstall(n, x).0);
    ReplayAgree(b.peers[s].log, a.reign[x.term], x.inc);
  }

  lemma StaleInstallRel(a: Core, s: nat, sv: Server, x: InstallArgs)
    requires s < |a.peers| && ServerOk(a, s, sv) && x.term == sv.node.term && x.inc <= sv.node.inc
    requires MayAdopt(a, s, x.inc, x.inc) && Adopt(a, s, x.inc, x.inc).peers[s].log == a.peers[s].log
    ensures ServerOk(Adopt(a, s, x.inc, x.inc), s, sv.(node := HandleInstall(sv.node, x).0))
  {
  }

  lemma InstallGuard(a: Core, s: nat, sv: Server, x: InstallArgs)
    requires Inv(a) && s < |a.peers| && ServerOk(a, s, sv) && InstallOk(a, x) && x.term == sv.node.term
    ensures MayAdopt(a, s, x.inc, x.inc) && LogOk(a.reign, a.peers[s].log, x.term)
    ensures Agree(a.peers[s].log, a.reign[x.term], sv.node.inc)
  {
    CommitInReign(a, s);
    assert PeerOk(a, s);
  }

  lemma InstallOnNode(a: Core, s: nat, sv: Server, x: InstallArgs) returns (b: Core)
    requires Inv(a) && s < |a.peers| && ServerOk(a, s, sv) && InstallOk(a, x) && x.term == sv.node.term
    ensures OnlyPeer(a, b, s)
    ensures ServerOk(b, s, sv.(node := HandleInstall(sv.node, x).0)) && Acked(b, s, x.term, x.inc)
  {
    InstallGuard(a, s, sv, x);
    InstallLog(a.reign, sv.node, a.peers[s].log, x.term, x);
    AdoptedLog(a, s, x.inc, x.inc);
    if x.inc <= sv.node.inc {
      StaleInstallRel(a, s, sv, x);
    } else {
      InstallRel(a, s, sv, x);
    }
    b := Adopt(a, s, x.inc, x.inc);
    Adopting(a, s, x.inc, x.inc);
  }

  lemma InstallFrom(a: Core, to: nat, sv: Server, x: InstallArgs) returns (b: Core)
    requires Inv(a) && to < |a.peers| && ServerOk(a, to, sv) && MsgOk(a, InstallReq(to, x))
    ensures Inv(b) && OnlyPeer(a, b, to)
    ensures ServerOk(b, to, sv.(node := HandleInstall(sv.node, x).0))
    ensures MsgOk(b, InstallRep(x.leader, to, x, HandleInstall(sv.node, x).1))
  {
    if x.term < sv.node.term {
      b := a;
    } else {
      var d, sv' := MoveToTerm(a, to, sv, x.term);
      MsgStable(a, d, InstallReq(to, x));
      b := InstallOnNode(d, to, sv', x);
      OnlyPeerTrans(a, d, b, to);
      if x.term > sv.node.term { InstallLater(sv.node, x); }
    }
  }

  lemma SimInstall(c: Cluster, a: Core, to: nat, x: InstallArgs) returns (b: Core)
    requires Inv(a) && Sim(c, a) && Shape(c) && to < |a.peers| && InstallReq(to, x) in c.net
    ensures Inv(b) && Ext(a, b) && b.calm == a.calm && Sim(Receive(c, InstallReq(to, x)), b)
  {
    var sv := c.servers[to];
    assert ServerOk(a, to, sv);
    assert MsgOk(a, InstallReq(to, x));
    b := InstallFrom(a, to, sv, x);
    var (n', t) := HandleInstall(sv.node, x);
    Rebuild(a, b, c, to, sv.(node := n'), {InstallRep(x.leader, to, x, t)});
  }

  // ---------- the leader's side ----------

  lemma SubmitOnNode(a: Core, s: nat, sv: Server, cmd: Command) returns (b: Core)
    requires Inv(a) && s < |a.peers| && ServerOk(a, s, sv)
    ensures OnlyPeer(a, b, s) && ServerOk(b, s, sv.(node := Start(sv.node, cmd).0))
  {
    if sv.node.role == Leader {
      ProposeInv(a, s, cmd);
      ProposeRel(a, s, sv, cmd);
      b := Propose(a, s, cmd);
    } else {
      b := a;
    }
  }

  lemma SimSubmit(c: Cluster, a: Core, s: nat, cmd: Command) returns (b: Core)
    requires Inv(a) && Sim(c, a) && s < |a.peers|
    ensures Inv(b) && Ext(a, b) && b.calm == a.calm && Sim(SetNode(c, s, Start(c.servers[s].node, cmd).0, {}), b)
  {
    var sv := c.servers[s];
    assert ServerOk(a, s, sv);
    b := SubmitOnNode(a, s, sv, cmd);
    Rebuild(a, b, c, s, sv.(node := Start(sv.node, cmd).0), {});
  }

  lemma ProposeRel(a: Core, s: nat, sv: Server, cmd: Command)
    requires s < |a.peers| && ServerOk(a, s, sv) && sv.node.role == Leader && Ext(a, Propose(a, s, cmd))
    ensures ServerOk(Propose(a, s, cmd), s, sv.(node := Start(sv.node, cmd).0))
  {
    var b := Propose(a, s, cmd);
    var n' := Start(sv.node, cmd).0;
    ServiceKept(a.calm, a.peers[s].log, b.peers[s].log, sv, n');
    ReplayAgree(a.peers[s].log, b.peers[s].log, sv.node.inc);
  }

  // A leader only ever sends a slice of its own log that runs to its very end,
  // with a commit index inside that slice.
  lemma RoundSlice(n: Node, me: nat, to: nat)
    requires to < |n.next| && |n.log| > 0 && RoundFor(n, me, to).1.AppendRound?
    ensures var x := RoundFor(n, me, to).1.append;
      && x.term == n.term && x.leaderCommit == n.commit && n.inc <= x.prev && x.prev + |x.entries| == LastIndex(n)
      && x.prevTerm == n.log[x.prev - n.inc].term && x.entries == n.log[x.prev + 1 - n.inc..]
  {
  }

  // What uncompacted Raft knows of a leader.
  ghost predicate Reigns(a: Core, n: Node, full: Log) {
    && n.term in a.reign && a.reign[n.term] == full && Compacts(n.log, n.inc, full)
    && n.commit < |full| && Covered(a, full, n.commit, n.term)
  }

  lemma LeaderReigns(a: Core, s: nat, sv: Server)
    requires s < |a.peers| && PeerOk(a, s) && ServerOk(a, s, sv) && sv.node.role == Leader
    ensures Reigns(a, sv.node, a.peers[s].log)
  {
  }

  lemma RoundAppendOk(a: Core, s: nat, sv: Server, to: nat)
    requires s < |a.peers| && PeerOk(a, s) && ServerOk(a, s, sv) && sv.node.role == Leader
    requires to < |a.peers| && RoundFor(sv.node, s, to).1.AppendRound?
    ensures var x := RoundFor(sv.node, s, to).1.append;
      && AppendOk(a, x)
      && x.prev + |x.entries| == LastIndex(sv.node) && sv.node.inc <= x.prev && x.leaderCommit == sv.node.commit
  {
    LeaderReigns(a, s, sv);
    RoundSlice(sv.node, s, to);
    SliceOk(a, sv.node, a.peers[s].log, RoundFor(sv.node, s, to).1.append);
  }

  lemma SliceOf(log: Log, inc: nat, full: Log, prev: nat)
    requires Compacts(log, inc, full) && inc <= prev < |full|
    ensures log[prev - inc].term == full[prev].term && log[prev + 1 - inc..] == full[prev + 1..]
  {
  }

  lemma SliceOk(a: Core, n: Node, full: Log, x: AppendArgs)
    requires Reigns(a, n, full)
    requires x.term == n.term && x.leaderCommit == n.commit && n.inc <= x.prev && x.prev + |x.entries| == LastIndex(n)
    requires x.prevTerm == n.log[x.prev - n.inc].term && x.entries == n.log[x.prev + 1 - n.inc..]
    ensures AppendOk(a, x)
  {
    SliceOf(n.log, n.inc, full, x.prev);
    assert x.entries == full[x.prev + 1..|full|];
  }

  lemma RoundInstallOk(a: Core, s: nat, sv: Server, to: nat)
    requires s < |a.peers| && PeerOk(a, s) && ServerOk(a, s, sv) && sv.node.role == Leader
    requires to < |a.peers| && RoundFor(sv.node, s, to).1.InstallRound?
    ensures InstallOk(a, RoundFor(sv.node, s, to).1.install)
  {
    CoveredShrink(a, a.peers[s].log, sv.node.commit, sv.node.inc, sv.node.term);
  }

  // nextIndex is of no concern to uncompacted Raft.
  lemma NextRel(a: Core, s: nat, sv: Server, next: seq<int>)
    requires s < |a.peers| && ServerOk(a, s, sv) && |next| == |a.peers|
    ensures ServerOk(a, s, sv.(node := sv.node.(next := next)))
  {
  }

  lemma RoundOnNode(a: Core, s: nat, sv: Server, to: nat)
    requires s < |a.peers| && PeerOk(a, s) && ServerOk(a, s, sv) && sv.node.role == Leader && to < |a.peers|
    ensures ServerOk(a, s, sv.(node := RoundFor(sv.node, s, to).0))
    ensures MsgOk(a, Sent(to, RoundFor(sv.node, s, to).1))
  {
    NextRel(a, s, sv, sv.node.next[to := ClampNext(sv.node, to)]);
    if RoundFor(sv.node, s, to).1.AppendRound? { RoundAppendOk(a, s, sv, to); } else { RoundInstallOk(a, s, sv, to); }
  }

  lemma SimSendRound(c: Cluster, a: Core, s: nat, to: nat) returns (b: Core)
    requires Inv(a) && Sim(c, a) && Shape(c) && s < |a.peers| && to < |a.peers| && to != s
    ensures Inv(b) && Ext(a, b) && b.calm == a.calm && Sim(Act(c, s, SendRound(to)), b)
  {
    var sv := c.servers[s];
    assert ServerOk(a, s, sv);
    b := a;
    if sv.node.role == Leader {
      assert PeerOk(a, s);
      RoundOnNode(a, s, sv, to);
      var (n', out) := RoundFor(sv.node, s, to);
      Rebuild(a, a, c, s, sv.(node := n'), {Sent(to, out)});
    }
  }

  lemma CommittableGuard(a: Core, s: nat, sv: Server, j: nat)
    requires PeersOk(a) && s < |a.peers| && ServerOk(a, s, sv) && sv.node.role == Leader
    requires 0 < j && Committable(sv.node, s, j)
    ensures Own(a, sv.node.term, j) && CommittedBy(a, sv.node.term, j, Holders(sv.node.matched, s, j))
  {
    assert PeerOk(a, s);
    var n := sv.node;
    assert Holders(n.matched, s, j) <= Ids(|a.peers|);
    assert a.peers[s].log[j].term == n.term by {
      if j == n.inc { assert n.log[0].term == a.peers[s].log[n.inc].term; }
    }
  }

  lemma MatchedRel(a: Core, s: nat, sv: Server, from: nat, k: nat, next: seq<int>)
    requires s < |a.peers| && ServerOk(a, s, sv) && sv.node.role == Leader && from < |a.peers|
    requires Acked(a, from, sv.node.term, k) && |next| == |a.peers|
    ensures ServerOk(a, s, sv.(node := sv.node.(matched := sv.node.matched[from := k], next := next)))
  {
  }

  lemma DecideRel(a: Core, s: nat, sv: Server, j: nat)
    requires s < |a.peers| && ServerOk(a, s, sv) && sv.node.commit <= j < |a.peers[s].log|
    ensures ServerOk(Decide(a, s, j), s, sv.(node := sv.node.(commit := j)))
  {
  }

  lemma CommitOnNode(a: Core, s: nat, sv: Server, k: nat) returns (b: Core)
    requires Inv(a) && s < |a.peers| && ServerOk(a, s, sv) && sv.node.role == Leader
    ensures OnlyPeer(a, b, s) && ServerOk(b, s, sv.(node := sv.node.(commit := CommitScan(sv.node, s, k))))
  {
    var j := CommitScan(sv.node, s, k);
    ScanSound(sv.node, s, k);
    if j == sv.node.commit {
      b := a;
    } else {
      CommittableGuard(a, s, sv, j);
      DecideInv(a, s, j, Holders(sv.node.matched, s, j));
      DecideRel(a, s, sv, j);
      b := Decide(a, s, j);
    }
  }

  // A successful reply of the leader's term.
  lemma StoredOnNode(a: Core, s: nat, sv: Server, from: nat, k: nat) returns (b: Core)
    requires Inv(a) && s < |a.peers| && ServerOk(a, s, sv) && from < |a.peers| && sv.node.role == Leader
    requires Acked(a, from, sv.node.term, k)
    ensures OnlyPeer(a, b, s)
    ensures var m := sv.node.(matched := sv.node.matched[from := k], next := sv.node.next[from := k + 1]);
      ServerOk(b, s, sv.(node := m.(commit := CommitScan(m, s, k))))
  {
    var m := sv.node.(matched := sv.node.matched[from := k], next := sv.node.next[from := k + 1]);
    MatchedRel(a, s, sv, from, k, m.next);
    b := CommitOnNode(a, s, sv.(node := m), k);
  }

  lemma AppendReplyOnNode(a: Core, s: nat, sv: Server, from: nat, x: AppendArgs, reply: AppendReply) returns (b: Core)
    requires Inv(a) && s < |a.peers| && ServerOk(a, s, sv) && from < |a.peers|
    requires reply.success ==> Acked(a, from, x.term, x.prev + |x.entries|)
    ensures OnlyPeer(a, b, s) && ServerOk(b, s, sv.(node := HandleAppendReply(sv.node, s, from, x, reply)))
  {
    var n := sv.node;
    if reply.term > n.term {
      b := LaterOk(a, s, sv, reply.term);
    } else if n.role != Leader || n.term != x.term {
      b := a;
    } else if reply.success {
      b := StoredOnNode(a, s, sv, from, x.prev + |x.entries|);
    } else {
      b := a;
      NextRel(a, s, sv, n.next[from := NextAfter(n, from, x.prev, reply)]);
    }
  }

  lemma SimAppendReply(c: Cluster, a: Core, to: nat, from: nat, x: AppendArgs, reply: AppendReply) returns (b: Core)
    requires Inv(a) && Sim(c, a) && Shape(c) && to < |a.peers| && AppendRep(to, from, x, reply) in c.net
    ensures Inv(b) && Ext(a, b) && b.calm == a.calm && Sim(Receive(c, AppendRep(to, from, x, reply)), b)
  {
    var sv := c.servers[to];
    assert ServerOk(a, to, sv);
    assert MsgOk(a, AppendRep(to, from, x, reply));
    b := a;
    if from < |a.peers| {
      b := AppendReplyOnNode(a, to, sv, from, x, reply);
      Rebuild(a, b, c, to, sv.(node := HandleAppendReply(sv.node, to, from, x, reply)), {});
    }
  }

  lemma InstallReplyOnNode(a: Core, s: nat, sv: Server, from: nat, x: InstallArgs, t: nat) returns (b: Core)
    requires Inv(a) && s < |a.peers| && ServerOk(a, s, sv) && from < |a.peers|
    requires t <= x.term ==> Acked(a, from, x.term, x.inc)
    ensures OnlyPeer(a, b, s) && ServerOk(b, s, sv.(node := HandleInstallReply(sv.node, from, x, t)))
  {
    var n := sv.node;
    if t > n.term {
      b := LaterOk(a, s, sv, t);
    } else {
      b := a;
      if n.role == Leader && n.term == x.term {
        MatchedRel(a, s, sv, from, x.inc, n.next[from := x.inc + 1]);
      }
    }
  }

  lemma SimInstallReply(c: Cluster, a: Core, to: nat, from: nat, x: InstallArgs, t: nat) returns (b: Core)
    requires Inv(a) && Sim(c, a) && Shape(c) && to < |a.peers| && InstallRep(to, from, x, t) in c.net
    ensures Inv(b) && Ext(a, b) && b.calm == a.calm && Sim(Receive(c, InstallRep(to, from, x, t)), b)
  {
    var sv := c.servers[to];
    assert ServerOk(a, to, sv);
    assert MsgOk(a, InstallRep(to, from, x, t));
    b := a;
    if from < |a.peers| {
      b := InstallReplyOnNode(a, to, sv, from, x, t);
      Rebuild(a, b, c, to, sv.(node := HandleInstallReply(sv.node, from, x, t)), {});
    }
  }

  // ---------- the service ----------

  lemma OfferRel(a: Core, s: nat, sv: Server)
    requires s < |a.peers| && ServerOk(a, s, sv)
    ensures ServerOk(a, s, Offering(sv))
  {
  }

  lemma TakeRel(a: Core, s: nat, sv: Server)
    requires s < |a.peers| && ServerOk(a, s, sv)
    ensures ServerOk(a, s, Taking(sv))
  {
  }

  // lastApplied moves to where the service is, unless the boundary has moved.
  lemma MoveRel(a: Core, b: Core, s: nat, sv: Server)
    requires s < |a.peers| && ServerOk(a, s, sv) && (b == a || b == Upset(a))
    requires b.calm ==> (sv.offer.Taken? ==> sv.node.inc == sv.offer.index)
    ensures ServerOk(b, s, Moving(sv))
  {
  }

  // Raft.Snapshot(index) with an index the service has applied cuts the log, and
  // the log it stands for stays the same.
  lemma CompactRel(a: Core, s: nat, sv: Server)
    requires s < |a.peers| && ServerOk(a, s, sv)
    ensures ServerOk(a, s, sv.(node := Compact(sv.node, sv.index, sv.table)))
  {
  }

  lemma SimServe(c: Cluster, a: Core, s: nat, what: Local) returns (b: Core)
    requires Inv(a) && Sim(c, a) && Shape(c) && s < |a.peers|
    requires what == OfferNext || what == TakeOffer || what == MakeSnapshot
    ensures Inv(b) && Ext(a, b) && b.calm == a.calm && Sim(Act(c, s, what), b)
  {
    var sv := c.servers[s];
    assert ServerOk(a, s, sv);
    b := a;
    var sv' := match what case OfferNext => Offering(sv) case TakeOffer => Taking(sv)
                         case _ => sv.(node := Compact(sv.node, sv.index, sv.table));
    OfferRel(a, s, sv);
    TakeRel(a, s, sv);
    CompactRel(a, s, sv);
    Rebuild(a, a, c, s, sv', {});
  }

  lemma SimMove(c: Cluster, a: Core, s: nat) returns (b: Core)
    requires Inv(a) && Sim(c, a) && Shape(c) && s < |a.peers|
    ensures Inv(b) && Ext(a, b) && Sim(Act(c, s, MoveApplied), b)
    ensures b.calm <==> a.calm && StepSteady(c, At(s, MoveApplied))
  {
    var sv := c.servers[s];
    assert ServerOk(a, s, sv);
    if StepSteady(c, At(s, MoveApplied)) {
      b := a;
    } else {
      b := Upset(a);
      UpsetInv(a);
    }
    MoveRel(a, b, s, sv);
    Rebuild(a, b, c, s, Moving(sv), {});
  }

  // A restarted server has everything but its commit index beyond the snapshot.
  lemma CrashRel(a: Core, s: nat, sv: Server)
    requires s < |a.peers| && ServerOk(a, s, sv)
    ensures ServerOk(Demote(a, s, sv.node.inc), s, Rebooting(sv))
  {
  }

  lemma SimCrash(c: Cluster, a: Core, s: nat) returns (b: Core)
    requires Inv(a) && Sim(c, a) && s < |a.peers|
    ensures Inv(b) && Ext(a, b) && b.calm == a.calm && Sim(SetServer(c, s, Rebooting(c.servers[s]), {}), b)
  {
    var sv := c.servers[s];
    assert ServerOk(a, s, sv);
    DemoteInv(a, s, sv.node.inc);
    CrashRel(a, s, sv);
    b := Demote(a, s, sv.node.inc);
    Rebuild(a, b, c, s, Rebooting(sv), {});
  }

  // ---------- every step, every run ----------

  lemma SimLocal(c: Cluster, a: Core, s: nat, what: Local) returns (b: Core)
    requires Inv(a) && Sim(c, a) && Shape(c) && s < |a.peers|
    ensures Inv(b) && Ext(a, b) && Sim(Act(c, s, what), b)
    ensures b.calm <==> a.calm && StepSteady(c, At(s, what))
  {
    b := a;
    match what
    case Expire => b := SimExpire(c, a, s);
    case AskVote(to) =>
      if to < |c.servers| && to != s && c.servers[s].node.role == Candidate { b := SimAskVote(c, a, s, to); }
    case SendRound(to) =>
      if to < |c.servers| && to != s { b := SimSendRound(c, a, s, to); }
    case Submit(cmd) => b := SimSubmit(c, a, s, cmd);
    case Crash => b := SimCrash(c, a, s);
    case MoveApplied => b := SimMove(c, a, s);
    case _ => b := SimServe(c, a, s, what);
  }

  lemma SimStep(c: Cluster, a: Core, act: Action) returns (b: Core)
    requires Inv(a) && Sim(c, a) && Shape(c)
    ensures Inv(b) && Ext(a, b) && Sim(Step(c, act), b)
    ensures b.calm <==> a.calm && StepSteady(c, act)
  {
    b := a;
    match act
    case At(s, what) => if s < |c.servers| { b := SimLocal(c, a, s, what); }
    case Deliver(m) =>
      if m in c.net && m.to < |c.servers| {
        match m
        case VoteReq(to, x) => b := SimVote(c, a, to, x);
        case VoteRep(to, from, reqTerm, reply) => b := SimVoteReply(c, a, to, from, reqTerm, reply);
        case AppendReq(to, x) => b := SimAppend(c, a, to, x);
        case AppendRep(to, from, x, reply) => b := SimAppendReply(c, a, to, from, x, reply);
        case InstallReq(to, x) => b := SimInstall(c, a, to, x);
        case InstallRep(to, from, x, t) => b := SimInstallReply(c, a, to, from, x, t);
      }
  }
}
