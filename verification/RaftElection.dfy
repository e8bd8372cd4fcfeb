// Elections: exactly when a vote is given and when a candidate wins, and that from any state
// a cluster of more than one server can elect a leader. A cluster of one never does.
module RaftElection {
  import opened Options
  import opened Quorums
  import opened Kv
  import opened RaftLog
  import opened RaftCore
  import opened RaftNode
  import opened RaftCluster
  import opened RaftRefinement
  import opened RaftSafety
  import opened RaftTheorems
  import opened RaftScenes

  // ---------- one vote, one count ----------

  // The candidate's log is at least as up to date: a later last term, or the same and no
  // earlier last index.
  predicate NotBehind(n: Node, lastTerm: nat, lastIndex: int)
    requires |n.log| > 0
  {
    var mine := n.log[|n.log| - 1].term;
    lastTerm > mine || (lastTerm == mine && lastIndex >= LastIndex(n))
  }

  // A vote is given exactly to a candidate of a term that is not older, whose log is not
  // behind, by a server that has not voted for another in that term.
  lemma VoteExactly(n: Node, x: VoteArgs)
    requires |n.log| > 0
    ensures var (m, reply) := HandleVote(n, x);
      && (reply.granted <==>
            && x.term >= n.term && NotBehind(n, x.lastTerm, x.lastIndex)
            && (x.term > n.term || n.voted == -1 || n.voted == x.cand))
      && (reply.granted ==> m.voted == x.cand && m.term == x.term == reply.term)
      && (!reply.granted ==> m.voted == if x.term > n.term then -1 else n.voted)
  {
  }

  // A counted vote makes a candidate the leader exactly if more than half have then voted for it.
  lemma WinsExactly(n: Node, from: nat, reply: VoteReply)
    requires n.role == Candidate && from in n.waiting && reply.term <= n.term && reply.granted
    ensures var m := HandleVoteReply(n, from, n.term, reply);
      && m.term == n.term && m.tally == n.tally + 1 && m.waiting == n.waiting - {from}
      && m.role == (if 2 * (n.tally + 1) > |n.next| then Leader else Candidate)
  {
  }

  // ---------- no candidate has won already ----------

  ghost predicate Short(x: Node) {
    x.role == Candidate && |x.next| > 1 ==> 2 * x.tally <= |x.next|
  }

  lemma ActShort(c: Cluster, s: nat, what: Local)
    requires Shape(c) && s < |c.servers| && Short(c.servers[s].node)
    ensures s < |Act(c, s, what).servers| && Short(Act(c, s, what).servers[s].node)
  {
  }

  lemma VoteReplyShort(n: Node, from: nat, reqTerm: nat, reply: VoteReply)
    requires Short(n)
    ensures Short(HandleVoteReply(n, from, reqTerm, reply))
  {
  }

  lemma ReceiveShort(c: Cluster, m: Msg)
    requires Shape(c) && m.to < |c.servers| && Short(c.servers[m.to].node)
    ensures m.to < |Receive(c, m).servers| && Short(Receive(c, m).servers[m.to].node)
  {
    if m.VoteRep? { VoteReplyShort(c.servers[m.to].node, m.from, m.reqTerm, m.voteReply); }
  }

  lemma StepShort(c: Cluster, act: Action, s: nat)
    requires Shape(c) && s < |c.servers| && Short(c.servers[s].node)
    ensures Shape(Step(c, act)) && |Step(c, act).servers| == |c.servers| && Short(Step(c, act).servers[s].node)
  {
    StepShape(c, act);
    match act
    case At(q, what) =>
      if q < |c.servers| { if q == s { ActShort(c, s, what); } else { LocalElsewhere(c, q, what, s); } }
    case Deliver(m) =>
      if m in c.net && m.to < |c.servers| { if m.to == s { ReceiveShort(c, m); } else { DeliverElsewhere(c, m, s); } }
  }

  // In every run a candidate has the votes of at most half of the servers: with more it leads.
  lemma {:induction false} CandidateShort(n: nat, acts: seq<Action>, s: nat)
    requires n > 1 && s < n
    ensures var x := Exec(n, acts).servers[s].node; x.role == Candidate ==> 2 * x.tally <= n
    decreases |acts|
  {
    if acts != [] {
      CandidateShort(n, acts[..|acts| - 1], s);
      StepShort(Exec(n, acts[..|acts| - 1]), acts[|acts| - 1], s);
    }
  }

  // ---------- a cluster of one ----------

  ghost predicate Lone(c: Cluster) {
    |c.servers| == 1 && c.servers[0].node.role != Leader && c.servers[0].node.waiting == {}
  }

  lemma ActLone(c: Cluster, what: Local)
    requires Shape(c) && Lone(c)
    ensures Lone(Act(c, 0, what))
  {
    assert Ids(1) == {0};
  }

  lemma ReceiveLone(c: Cluster, m: Msg)
    requires Shape(c) && Lone(c) && m.to == 0
    ensures Lone(Receive(c, m))
  {
  }

  lemma StepLone(c: Cluster, act: Action)
    requires Shape(c) && Lone(c)
    ensures Lone(Step(c, act))
  {
    match act
    case At(q, what) => if q == 0 { ActLone(c, what); }
    case Deliver(m) => if m in c.net && m.to == 0 { ReceiveLone(c, m); }
  }

  // It stands for election and has its own vote, which is a majority, but votes are counted
  // only when a peer's comes in.
  lemma {:induction false} AloneNeverLeads(acts: seq<Action>)
    ensures Lone(Exec(1, acts))
    decreases |acts|
  {
    if acts != [] {
      AloneNeverLeads(acts[..|acts| - 1]);
      StepLone(Exec(1, acts[..|acts| - 1]), acts[|acts| - 1]);
    }
  }

  // ---------- an election that goes well ----------

  // Server q would vote for s.
  ghost predicate Behind(c: Cluster, s: nat, q: nat)
    requires s < |c.servers| && q < |c.servers| && |c.servers[s].node.log| > 0 && |c.servers[q].node.log| > 0
  {
    var x := c.servers[s].node;
    c.servers[q].node.term < x.term && NotBehind(c.servers[q].node, LastTerm(x.log), LastIndex(x))
  }

  lemma CountDoes(c: Cluster, s: nat, q: nat)
    requires Shape(c) && s < |c.servers|
    requires var n := c.servers[s].node; n.role == Candidate && q in n.waiting && VoteRep(s, q, n.term, VoteReply(n.term, true)) in c.net
    ensures var n := c.servers[s].node; var d := Step(c, Deliver(VoteRep(s, q, n.term, VoteReply(n.term, true))));
      d.servers == c.servers[s := c.servers[s].(node := Counted(n.(waiting := n.waiting - {q}, tally := n.tally + 1)))]
  {
  }

  // q is asked, votes, and its vote is counted.
  lemma Vote(n: nat, acts: seq<Action>, c: Cluster, s: nat, q: nat) returns (more: seq<Action>)
    requires c == Exec(n, acts) && s < n && q < n && s != q
    requires c.servers[s].node.role == Candidate && q in c.servers[s].node.waiting && Behind(c, s, q)
    ensures acts <= more
    ensures var d := Exec(n, more); var x := c.servers[s].node;
      d.servers == c.servers[q := d.servers[q]][s := c.servers[s].(node := Counted(x.(waiting := x.waiting - {q}, tally := x.tally + 1)))]
  {
    var x := VoteRequest(c.servers[s].node, s);
    AskDoes(c, s, q);
    ExecSnoc(n, acts, At(s, AskVote(q)));
    var a := acts + [At(s, AskVote(q))];
    VoteDoes(Exec(n, a), s, q, x);
    ExecSnoc(n, a, Deliver(VoteReq(q, x)));
    var b := a + [Deliver(VoteReq(q, x))];
    CountDoes(Exec(n, b), s, q);
    ExecSnoc(n, b, Deliver(VoteRep(s, q, x.term, VoteReply(x.term, true))));
    more := b + [Deliver(VoteRep(s, q, x.term, VoteReply(x.term, true)))];
  }

  // s leads, or has the votes of the first k servers and has not asked the others.
  ghost predicate Gathered(c: Cluster, d: Cluster, s: nat, k: nat)
    requires s < |c.servers| == |d.servers|
  {
    var x, y := c.servers[s].node, d.servers[s].node;
    && y.term == x.term && y.log == x.log && y.inc == x.inc
    && (|| y.role == Leader
        || (&& y.role == Candidate && y.tally == k + (if s < k then 0 else 1)
            && forall q: nat :: k <= q < |c.servers| && q != s ==> q in y.waiting && d.servers[q] == c.servers[q]))
  }

  lemma GatherOn(c: Cluster, d: Cluster, e: Cluster, s: nat, k: nat)
    requires s < |c.servers| == |d.servers| == |e.servers| && k < |c.servers| && k != s && Gathered(c, d, s, k)
    requires d.servers[s].node.role == Candidate && |d.servers[s].node.log| > 0
    requires var y := d.servers[s].node;
      e.servers == d.servers[k := e.servers[k]][s := d.servers[s].(node := Counted(y.(waiting := y.waiting - {k}, tally := y.tally + 1)))]
    ensures Gathered(c, e, s, k + 1)
  {
  }

  lemma GatherOne(n: nat, acts: seq<Action>, c: Cluster, d: Cluster, s: nat, k: nat) returns (more: seq<Action>)
    requires d == Exec(n, acts) && Shape(c) && s < n == |c.servers| && k < n && Gathered(c, d, s, k)
    requires k != s ==> Behind(c, s, k)
    ensures acts <= more && Gathered(c, Exec(n, more), s, k + 1)
  {
    if d.servers[s].node.role == Leader || k == s {
      more := acts;
    } else {
      more := Vote(n, acts, d, s, k);
      GatherOn(c, d, Exec(n, more), s, k);
    }
  }

  lemma {:induction false} Gather(n: nat, acts: seq<Action>, c: Cluster, s: nat, k: nat) returns (more: seq<Action>)
    requires c == Exec(n, acts) && s < n && k <= n
    requires var x := c.servers[s].node; x.role == Candidate && x.tally == 1 && x.waiting == Ids(n) - {s}
    requires forall q: nat :: q < n && q != s ==> Behind(c, s, q)
    ensures acts <= more && Gathered(c, Exec(n, more), s, k)
    decreases k
  {
    if k == 0 {
      more := acts;
    } else {
      var some := Gather(n, acts, c, s, k - 1);
      more := GatherOne(n, some, c, Exec(n, some), s, k - 1);
    }
  }

  // A server that does not lead stands until its term is past the given one.
  lemma {:induction false} StandPast(n: nat, acts: seq<Action>, c: Cluster, s: nat, term: nat) returns (more: seq<Action>)
    requires c == Exec(n, acts) && s < n && c.servers[s].node.role != Leader
    ensures acts <= more
    ensures var d := Exec(n, more); var x, y := c.servers[s].node, d.servers[s].node;
      && d.servers == c.servers[s := d.servers[s]] && y.log == x.log && y.inc == x.inc
      && y.role == Candidate && y.term > term && y.tally == 1 && y.waiting == Ids(n) - {s}
    decreases term - c.servers[s].node.term
  {
    ExpireDoes(c, s);
    ExecSnoc(n, acts, At(s, Expire));
    more := acts + [At(s, Expire)];
    if c.servers[s].node.term < term {
      more := StandPast(n, more, Exec(n, more), s, term);
    }
  }

  lemma StepDown(n: nat, acts: seq<Action>, c: Cluster, s: nat) returns (more: seq<Action>)
    requires c == Exec(n, acts) && s < n
    ensures acts <= more
    ensures var d := Exec(n, more); var x, y := c.servers[s].node, d.servers[s].node;
      && d.servers == c.servers[s := d.servers[s]] && y.log == x.log && y.inc == x.inc && y.role != Leader
  {
    if c.servers[s].node.role == Leader {
      CrashLosesNothing(n, acts, s);
      ExecSnoc(n, acts, At(s, Crash));
      more := acts + [At(s, Crash)];
    } else {
      more := acts;
    }
  }

  // A server whose log none of the first k is ahead of.
  lemma {:induction false} Freshest(c: Cluster, k: nat) returns (s: nat)
    requires Shape(c) && 0 < k <= |c.servers|
    ensures s < k
    ensures forall q: nat :: q < k ==> NotBehind(c.servers[q].node, LastTerm(c.servers[s].node.log), LastIndex(c.servers[s].node))
  {
    if k == 1 {
      s := 0;
    } else {
      s := Freshest(c, k - 1);
      var x, y := c.servers[s].node, c.servers[k - 1].node;
      if !NotBehind(y, LastTerm(x.log), LastIndex(x)) { s := k - 1; }
    }
  }

  lemma {:induction false} HighestTerm(c: Cluster, k: nat) returns (t: nat)
    requires k <= |c.servers|
    ensures forall q: nat :: q < k ==> c.servers[q].node.term <= t
  {
    if k == 0 {
      t := 0;
    } else {
      var below := HighestTerm(c, k - 1);
      t := if below < c.servers[k - 1].node.term then c.servers[k - 1].node.term else below;
    }
  }

  // From any state of more than one server, whatever has been lost or is still on its way,
  // a server can be elected, in a term that none of them has reached.
  lemma ElectionPossible(n: nat, acts: seq<Action>) returns (more: seq<Action>, s: nat)
    requires n > 1
    ensures acts <= more && s < n
    ensures var x := Exec(n, more).servers[s].node;
      x.role == Leader && forall q: nat :: q < n ==> Exec(n, acts).servers[q].node.term < x.term
  {
    var c := Exec(n, acts);
    s := Freshest(c, n);
    var t := HighestTerm(c, n);
    var a := StepDown(n, acts, c, s);
    var b := StandPast(n, a, Exec(n, a), s, t);
    forall q: nat | q < n && q != s ensures Behind(Exec(n, b), s, q) {
      assert Exec(n, b).servers[q] == c.servers[q];
    }
    more := Gather(n, b, Exec(n, b), s, n);
    CandidateShort(n, more, s);
  }

  ghost predicate CanElect(n: nat, acts: seq<Action>) {
    exists more, s: nat :: acts <= more && s < n && Exec(n, more).servers[s].node.role == Leader
  }

  // Exactly when: from any state a leader can be elected if and only if there is more than one server.
  lemma ElectionExactly(n: nat, acts: seq<Action>)
    requires n > 0
    ensures CanElect(n, acts) <==> n > 1
  {
    if n > 1 {
      var more, s := ElectionPossible(n, acts);
    } else if more, s: nat :| acts <= more && s < n && Exec(n, more).servers[s].node.role == Leader {
      AloneNeverLeads(more);
    }
  }
}
