// Runs of three servers, put together from a few scenes: a server is elected with one
// other's vote, a leader appends commands, a peer gets them, a service applies them, the
// log is cut, a server crashes.
module RaftScenes {
  import opened Options
  import opened Quorums
  import opened Kv
  import opened RaftLog
  import opened RaftCore
  import opened RaftNode
  import opened RaftCluster
  import opened RaftRefinement
  import opened RaftSafety

  // What there is to see of a server: its node without nextIndex, votes and disk, and its service.
  datatype View = View(
    role: Role, term: nat, log: Log, inc: nat, commit: nat, applied: nat, snapshot: Option<Table>,
    table: Table, index: nat, offer: Offer)

  function Sight(sv: Server): View {
    var n := sv.node;
    View(n.role, n.term, n.log, n.inc, n.commit, n.applied, n.snapshot, sv.table, sv.index, sv.offer)
  }

  function End(v: View): int {
    v.inc + |v.log| - 1
  }

  ghost predicate NetKept(acts: seq<Action>, more: seq<Action>) {
    Exec(3, acts).net <= Exec(3, more).net && (Steady(3, acts) ==> Steady(3, more))
  }

  // One more step, which is not the end of a snapshot delivery.
  lemma More(acts: seq<Action>, a: Action)
    ensures Exec(3, acts + [a]) == Step(Exec(3, acts), a)
    ensures a.Deliver? || a.what != MoveApplied ==> (Steady(3, acts) ==> Steady(3, acts + [a]))
  {
    ExecSnoc(3, acts, a);
  }

  // nextIndex of every peer is x.
  predicate AllNext(n: Node, x: int) {
    |n.next| == 3 && forall k :: 0 <= k < 3 ==> n.next[k] == x
  }

  // ---------- elections ----------

  lemma ExpireDoes(c: Cluster, i: nat)
    requires Shape(c) && i < |c.servers| && c.servers[i].node.role != Leader
    ensures var n := c.servers[i].node; var d := Step(c, At(i, Expire)); var m := d.servers[i].node;
      && d.servers == c.servers[i := c.servers[i].(node := m)] && d.net == c.net
      && m == Timeout(n, i) && m.role == Candidate && m.term == n.term + 1 && m.tally == 1 && m.waiting == Ids(|c.servers|) - {i}
  {
  }

  lemma AskDoes(c: Cluster, i: nat, j: nat)
    requires Shape(c) && i < |c.servers| && j < |c.servers| && i != j && c.servers[i].node.role == Candidate
    ensures var d := Step(c, At(i, AskVote(j)));
      d.servers == c.servers && d.net == c.net + {VoteReq(j, VoteRequest(c.servers[i].node, i))}
  {
  }

  lemma VoteDoes(c: Cluster, i: nat, j: nat, x: VoteArgs)
    requires Shape(c) && j < |c.servers| && x.cand == i && VoteReq(j, x) in c.net
    requires x.term > c.servers[j].node.term
    requires var n := c.servers[j].node; UpToDate(x.lastTerm, x.lastIndex, LastTerm(n.log), LastIndex(n))
    ensures var d := Step(c, Deliver(VoteReq(j, x))); var sv := c.servers[j];
      && |d.servers| == |c.servers| && d.servers == c.servers[j := d.servers[j]]
      && d.net == c.net + {VoteRep(i, j, x.term, VoteReply(x.term, true))}
      && Sight(d.servers[j]) == Sight(sv).(role := Follower, term := x.term)
  {
  }

  lemma WinDoes(c: Cluster, i: nat, j: nat, t: nat)
    requires Shape(c) && |c.servers| == 3 && i < 3 && j < 3 && i != j
    requires VoteRep(i, j, t, VoteReply(t, true)) in c.net
    requires var n := c.servers[i].node; n.role == Candidate && n.term == t && n.tally == 1 && j in n.waiting
    ensures var d := Step(c, Deliver(VoteRep(i, j, t, VoteReply(t, true)))); var sv := c.servers[i];
      && |d.servers| == 3 && d.servers == c.servers[i := d.servers[i]] && d.net == c.net
      && Sight(d.servers[i]) == Sight(sv).(role := Leader)
      && AllNext(d.servers[i].node, LastIndex(sv.node) + 1)
  {
  }

  // Server i stands for the next term and asks j.
  lemma Campaigns(c: Cluster, d: Cluster, i: nat, j: nat)
    requires Shape(c) && |c.servers| == 3 && i < 3 && j < 3 && i != j && c.servers[i].node.role != Leader
    requires Shape(d) && d == Step(c, At(i, Expire))
    ensures var e := Step(d, At(i, AskVote(j))); var n := e.servers[i].node;
      && |e.servers| == 3 && e.servers == c.servers[i := c.servers[i].(node := n)]
      && Sight(e.servers[i]) == Sight(c.servers[i]).(role := Candidate, term := c.servers[i].node.term + 1)
      && n.tally == 1 && j in n.waiting && e.net == c.net + {VoteReq(j, VoteRequest(n, i))}
  {
    ExpireDoes(c, i);
    AskDoes(d, i, j);
  }

  // j grants the vote, and that is a majority.
  lemma Elects(c: Cluster, d: Cluster, i: nat, j: nat, x: VoteArgs)
    requires Shape(c) && |c.servers| == 3 && i < 3 && j < 3 && i != j
    requires var n := c.servers[i].node; n.role == Candidate && n.tally == 1 && j in n.waiting && x == VoteRequest(n, i)
    requires VoteReq(j, x) in c.net && x.term > c.servers[j].node.term
    requires var n := c.servers[j].node; UpToDate(x.lastTerm, x.lastIndex, LastTerm(n.log), LastIndex(n))
    requires Shape(d) && d == Step(c, Deliver(VoteReq(j, x)))
    ensures var e := Step(d, Deliver(VoteRep(i, j, x.term, VoteReply(x.term, true))));
      && |e.servers| == 3 && e.servers == c.servers[i := e.servers[i]][j := e.servers[j]] && c.net <= e.net
      && Sight(e.servers[i]) == Sight(c.servers[i]).(role := Leader)
      && Sight(e.servers[j]) == Sight(c.servers[j]).(role := Follower, term := x.term)
      && AllNext(e.servers[i].node, LastIndex(c.servers[i].node) + 1)
  {
    VoteDoes(c, i, j, x);
    WinDoes(d, i, j, x.term);
  }

  lemma Two(acts: seq<Action>, a: Action, b: Action) returns (more: seq<Action>)
    ensures Exec(3, acts + [a]) == Step(Exec(3, acts), a)
    ensures Exec(3, more) == Step(Exec(3, acts + [a]), b)
    ensures (a.Deliver? || a.what != MoveApplied) && (b.Deliver? || b.what != MoveApplied) ==> (Steady(3, acts) ==> Steady(3, more))
  {
    More(acts, a);
    More(acts + [a], b);
    more := acts + [a] + [b];
  }

  // The first half of an election, and the second.
  lemma Stand(acts: seq<Action>, c: Cluster, i: nat, j: nat) returns (more: seq<Action>)
    requires c == Exec(3, acts) && i < 3 && j < 3 && i != j && c.servers[i].node.role != Leader
    ensures var e := Exec(3, more); var n := e.servers[i].node;
      && e.servers == c.servers[i := c.servers[i].(node := n)]
      && Sight(e.servers[i]) == Sight(c.servers[i]).(role := Candidate, term := c.servers[i].node.term + 1)
      && n.tally == 1 && j in n.waiting && e.net == c.net + {VoteReq(j, VoteRequest(n, i))}
    ensures NetKept(acts, more)
  {
    StepShape(c, At(i, Expire));
    Campaigns(c, Step(c, At(i, Expire)), i, j);
    more := Two(acts, At(i, Expire), At(i, AskVote(j)));
  }

  lemma Ballot(acts: seq<Action>, c: Cluster, i: nat, j: nat, x: VoteArgs) returns (more: seq<Action>)
    requires c == Exec(3, acts) && i < 3 && j < 3 && i != j
    requires var n := c.servers[i].node; n.role == Candidate && n.tally == 1 && j in n.waiting && x == VoteRequest(n, i)
    requires VoteReq(j, x) in c.net && x.term > c.servers[j].node.term
    requires var n := c.servers[j].node; UpToDate(x.lastTerm, x.lastIndex, LastTerm(n.log), LastIndex(n))
    ensures var e := Exec(3, more);
      && e.servers == c.servers[i := e.servers[i]][j := e.servers[j]] && c.net <= e.net
      && Sight(e.servers[i]) == Sight(c.servers[i]).(role := Leader)
      && Sight(e.servers[j]) == Sight(c.servers[j]).(role := Follower, term := x.term)
      && AllNext(e.servers[i].node, LastIndex(c.servers[i].node) + 1)
    ensures NetKept(acts, more)
  {
    StepShape(c, Deliver(VoteReq(j, x)));
    Elects(c, Step(c, Deliver(VoteReq(j, x))), i, j, x);
    more := Two(acts, Deliver(VoteReq(j, x)), Deliver(VoteRep(i, j, x.term, VoteReply(x.term, true))));
  }

  // Server i, not leading, wins the next term with j's vote.
  lemma Win(acts: seq<Action>, c: Cluster, i: nat, j: nat) returns (more: seq<Action>)
    requires c == Exec(3, acts) && i < 3 && j < 3 && i != j
    requires var v, u := Sight(c.servers[i]), Sight(c.servers[j]);
      v.role != Leader && v.term + 1 > u.term && UpToDate(LastTerm(v.log), End(v), LastTerm(u.log), End(u))
    ensures var d := Exec(3, more); var t := c.servers[i].node.term + 1;
      && d.servers == c.servers[i := d.servers[i]][j := d.servers[j]] && c.net <= d.net
      && Sight(d.servers[i]) == Sight(c.servers[i]).(role := Leader, term := t)
      && Sight(d.servers[j]) == Sight(c.servers[j]).(role := Follower, term := t)
      && AllNext(d.servers[i].node, LastIndex(c.servers[i].node) + 1)
    ensures NetKept(acts, more)
  {
    var stood := Stand(acts, c, i, j);
    var d := Exec(3, stood);
    more := Ballot(stood, d, i, j, VoteRequest(d.servers[i].node, i));
    Won(c, d, Exec(3, more), i, j);
  }

  lemma Won(c: Cluster, d: Cluster, e: Cluster, i: nat, j: nat)
    requires |c.servers| == |d.servers| == |e.servers| == 3 && i < 3 && j < 3 && i != j && c.net <= d.net <= e.net
    requires d.servers == c.servers[i := c.servers[i].(node := d.servers[i].node)]
    requires Sight(d.servers[i]) == Sight(c.servers[i]).(role := Candidate, term := c.servers[i].node.term + 1)
    requires e.servers == d.servers[i := e.servers[i]][j := e.servers[j]]
    requires Sight(e.servers[i]) == Sight(d.servers[i]).(role := Leader)
    ensures e.servers == c.servers[i := e.servers[i]][j := e.servers[j]] && c.net <= e.net
    ensures Sight(e.servers[i]) == Sight(c.servers[i]).(role := Leader, term := c.servers[i].node.term + 1)
    ensures LastIndex(d.servers[i].node) == LastIndex(c.servers[i].node) && d.servers[j] == c.servers[j]
  {
  }

  // Only server s moves.
  ghost predicate Only(c: Cluster, d: Cluster, s: nat) {
    s < 3 && |c.servers| == |d.servers| == 3 && d.servers == c.servers[s := d.servers[s]] && c.net <= d.net
  }

  // ---------- replication ----------

  // A leader appends a command k times.
  lemma {:induction false} Submits(acts: seq<Action>, c: Cluster, i: nat, cmd: Command, k: nat) returns (more: seq<Action>)
    requires c == Exec(3, acts) && i < 3 && c.servers[i].node.role == Leader
    ensures var d := Exec(3, more); var v := Sight(c.servers[i]);
      && Only(c, d, i) && Sight(d.servers[i]) == v.(log := v.log + seq(k, _ => Entry(v.term, cmd)))
      && d.servers[i].node.next == c.servers[i].node.next
    ensures NetKept(acts, more)
    decreases k
  {
    var v := Sight(c.servers[i]);
    if k == 0 {
      more := acts;
      assert v.log + [] == v.log;
    } else {
      var some := Submits(acts, c, i, cmd, k - 1);
      More(some, At(i, Submit(cmd)));
      more := some + [At(i, Submit(cmd))];
      assert v.log + seq(k - 1, _ => Entry(v.term, cmd)) + [Entry(v.term, cmd)] == v.log + seq(k, _ => Entry(v.term, cmd));
    }
  }

  // Leader i sends j its entries, and j gets them.
  lemma Append(acts: seq<Action>, c: Cluster, i: nat, j: nat, x: AppendArgs) returns (more: seq<Action>)
    requires c == Exec(3, acts) && i < 3 && j < 3 && i != j && c.servers[i].node.role == Leader
    requires RoundFor(c.servers[i].node, i, j).1 == AppendRound(x)
    ensures var d := Exec(3, more); var (n', reply) := HandleAppend(c.servers[j].node, x);
      && d.servers == c.servers[i := c.servers[i].(node := RoundFor(c.servers[i].node, i, j).0)][j := c.servers[j].(node := n')]
      && c.net <= d.net && AppendRep(i, j, x, reply) in d.net
    ensures NetKept(acts, more)
  {
    More(acts, At(i, SendRound(j)));
    var sent := acts + [At(i, SendRound(j))];
    assert AppendReq(j, x) in Exec(3, sent).net;
    assert x.leader == i;
    More(sent, Deliver(AppendReq(j, x)));
    more := sent + [Deliver(AppendReq(j, x))];
  }

  // Its answer comes back.
  lemma Acknowledge(acts: seq<Action>, c: Cluster, i: nat, j: nat, x: AppendArgs, reply: AppendReply) returns (more: seq<Action>)
    requires c == Exec(3, acts) && i < 3 && j < 3 && AppendRep(i, j, x, reply) in c.net
    ensures var d := Exec(3, more);
      Only(c, d, i) && d.servers[i] == c.servers[i].(node := HandleAppendReply(c.servers[i].node, i, j, x, reply))
    ensures NetKept(acts, more)
  {
    More(acts, Deliver(AppendRep(i, j, x, reply)));
    more := acts + [Deliver(AppendRep(i, j, x, reply))];
  }

  // Entries that start where the log ends.
  lemma AppendAtEnd(n: Node, x: AppendArgs)
    requires |n.log| > 0 && x.prev == LastIndex(n) && x.prevTerm == LastTerm(n.log) && x.term >= n.term
    ensures var (m, reply) := HandleAppend(n, x);
      && m.log == n.log + x.entries && m.inc == n.inc && m.term == x.term && m.role == Follower
      && m.applied == n.applied && m.snapshot == n.snapshot
      && reply == AppendReply(x.term, true, 0, 0, -1)
      && (n.commit <= x.leaderCommit <= x.prev + |x.entries| ==> m.commit == x.leaderCommit)
  {
  }

  // The leader of three hears from the first peer that has its whole log.
  lemma CommitAll(n: Node, me: nat, from: nat, x: AppendArgs)
    requires n.role == Leader && n.term == x.term && |n.next| == |n.matched| == 3 && me < 3 && from < 3 && me != from
    requires |n.log| > 0 && x.prev + |x.entries| == LastIndex(n) && LastTerm(n.log) == n.term && n.commit <= LastIndex(n)
    ensures var m := HandleAppendReply(n, me, from, x, AppendReply(x.term, true, 0, 0, -1));
      m == n.(commit := LastIndex(n), matched := n.matched[from := LastIndex(n)], next := n.next[from := LastIndex(n) + 1])
  {
    var k := LastIndex(n);
    var m := n.(matched := n.matched[from := k], next := n.next[from := k + 1]);
    var both := {me, from};
    assert both <= Holders(m.matched, me, k);
    SubsetSize(both, Holders(m.matched, me, k));
  }

  // ---------- the service ----------

  // A service with nothing on its way, and more committed.
  predicate Hungry(v: View, k: nat) {
    v.offer == Nothing && v.inc <= v.applied && v.applied + k <= v.commit <= End(v)
  }

  lemma ServeDoes(c: Cluster, d: Cluster, s: nat)
    requires Shape(c) && s < |c.servers| && Shape(d) && d == Step(c, At(s, OfferNext))
    ensures s < |d.servers|
    ensures Step(d, At(s, TakeOffer)) == Cluster(c.servers[s := Taking(Offering(c.servers[s]))], c.net)
  {
    var e := Step(d, At(s, TakeOffer));
    assert d.servers[s] == Offering(c.servers[s]);
    assert e.servers == c.servers[s := Taking(Offering(c.servers[s]))];
    assert e.net == c.net;
  }

  lemma OneDoes(sv: Server)
    requires |sv.node.log| > 0 && Hungry(Sight(sv), 1)
    ensures var v := Sight(sv); var i := v.applied + 1;
      Taking(Offering(sv)) == sv.(node := sv.node.(applied := i), table := ApplyCmd(v.table, v.log[i - v.inc].cmd), index := i)
  {
  }

  lemma AppliedOne(c: Cluster, d: Cluster, s: nat)
    requires |c.servers| == 3 && s < 3 && |c.servers[s].node.log| > 0 && Hungry(Sight(c.servers[s]), 1)
    requires d == Cluster(c.servers[s := Taking(Offering(c.servers[s]))], c.net)
    ensures var v := Sight(c.servers[s]); var i := v.applied + 1;
      && Only(c, d, s) && d.servers[s].node.next == c.servers[s].node.next
      && Sight(d.servers[s]) == v.(applied := i, index := i, table := ApplyCmd(v.table, v.log[i - v.inc].cmd))
  {
    OneDoes(c.servers[s]);
  }

  // The applier offers, the reader takes.
  lemma Serve(acts: seq<Action>, c: Cluster, s: nat) returns (more: seq<Action>)
    requires c == Exec(3, acts) && s < 3
    ensures Exec(3, more) == Cluster(c.servers[s := Taking(Offering(c.servers[s]))], c.net)
    ensures NetKept(acts, more)
  {
    StepShape(c, At(s, OfferNext));
    ServeDoes(c, Step(c, At(s, OfferNext)), s);
    more := Two(acts, At(s, OfferNext), At(s, TakeOffer));
  }

  // It applies the next one.
  lemma Apply(acts: seq<Action>, c: Cluster, s: nat) returns (more: seq<Action>)
    requires c == Exec(3, acts) && s < 3 && Hungry(Sight(c.servers[s]), 1)
    ensures var d := Exec(3, more); var v := Sight(c.servers[s]); var i := v.applied + 1;
      && Only(c, d, s) && d.servers[s].node.next == c.servers[s].node.next
      && Sight(d.servers[s]) == v.(applied := i, index := i, table := ApplyCmd(v.table, v.log[i - v.inc].cmd))
    ensures NetKept(acts, more)
  {
    more := Serve(acts, c, s);
    AppliedOne(c, Exec(3, more), s);
  }

  // It applies the next k.
  lemma {:induction false} Applies(acts: seq<Action>, c: Cluster, s: nat, k: nat) returns (more: seq<Action>)
    requires c == Exec(3, acts) && s < 3 && k > 0 && Hungry(Sight(c.servers[s]), k)
    ensures var d := Exec(3, more); var v, u := Sight(c.servers[s]), Sight(d.servers[s]);
      && Only(c, d, s) && d.servers[s].node.next == c.servers[s].node.next
      && u == v.(applied := v.applied + k, index := v.applied + k, table := u.table)
    ensures NetKept(acts, more)
    decreases k
  {
    if k == 1 {
      more := Apply(acts, c, s);
    } else {
      var some := Applies(acts, c, s, k - 1);
      more := Apply(some, Exec(3, some), s);
    }
  }

  // The service has raft cut the log behind it.
  lemma Cuts(acts: seq<Action>, c: Cluster, s: nat) returns (more: seq<Action>)
    requires c == Exec(3, acts) && s < 3
    requires var v := Sight(c.servers[s]); v.inc < v.index <= End(v)
    ensures var d := Exec(3, more); var v := Sight(c.servers[s]);
      && Only(c, d, s) && d.servers[s].node.next == c.servers[s].node.next
      && Sight(d.servers[s]) == v.(log := v.log[v.index - v.inc..], inc := v.index, snapshot := Some(v.table))
    ensures NetKept(acts, more)
  {
    More(acts, At(s, MakeSnapshot));
    more := acts + [At(s, MakeSnapshot)];
  }

  // A server crashes and restarts from its disk.
  lemma Crashes(acts: seq<Action>, c: Cluster, s: nat) returns (more: seq<Action>)
    requires c == Exec(3, acts) && s < 3
    ensures var d := Exec(3, more); var v, u := Sight(c.servers[s]), Sight(d.servers[s]);
      && Only(c, d, s)
      && u == View(Follower, v.term, v.log, v.inc, v.inc, v.inc, v.snapshot, u.table, v.inc, Nothing)
    ensures NetKept(acts, more)
  {
    CrashLosesNothing(3, acts, s);
    Reboots(c.servers[s]);
    More(acts, At(s, Crash));
    more := acts + [At(s, Crash)];
  }

  lemma Reboots(sv: Server)
    requires var x := sv.node; var y := Restart(x);
      y.term == x.term && y.log == x.log && y.inc == x.inc && y.snapshot == x.snapshot
    ensures var v, u := Sight(sv), Sight(Rebooting(sv));
      u == View(Follower, v.term, v.log, v.inc, v.inc, v.inc, v.snapshot, u.table, v.inc, Nothing)
  {
  }

  // An election timer fires at a server that does not lead.
  lemma Expires(acts: seq<Action>, c: Cluster, i: nat) returns (more: seq<Action>)
    requires c == Exec(3, acts) && i < 3 && c.servers[i].node.role != Leader
    ensures var d := Exec(3, more); var v := Sight(c.servers[i]);
      Only(c, d, i) && Sight(d.servers[i]) == v.(role := Candidate, term := v.term + 1)
    ensures NetKept(acts, more)
  {
    ExpireDoes(c, i);
    More(acts, At(i, Expire));
    more := acts + [At(i, Expire)];
  }

  // A server that has just started.
  const FRESH := View(Follower, 0, [DUMMY], 0, 0, 0, None, map[], 0, Nothing)

  // ---------- entries everyone needs ----------

  // A leader that has just won, with the log it appended to and a peer that has nothing.
  lemma FirstRound(n: Node, me: nat, to: nat)
    requires me < 3 && to < 3 && me != to && |n.next| == 3 && n.next[to] == 1 && n.inc == 0 && |n.log| > 0
    ensures RoundFor(n, me, to) == (n, AppendRound(AppendArgs(n.term, me, 0, n.log[0].term, n.log[1..], n.commit)))
  {
    assert n.next[to := 1] == n.next;
    assert n.log[1..] == if 1 <= LastIndex(n) then n.log[1..] else [];
  }

  lemma Heartbeat(n: Node, me: nat, to: nat)
    requires me < 3 && to < 3 && me != to && |n.next| == 3 && n.next[to] == LastIndex(n) + 1 && |n.log| > 1
    ensures RoundFor(n, me, to) == (n, AppendRound(AppendArgs(n.term, me, LastIndex(n), LastTerm(n.log), [], n.commit)))
  {
    assert n.next[to := LastIndex(n) + 1] == n.next;
  }

  // Leader 0, that has just won, and peer 1 of its term, that has nothing.
  ghost predicate Fresh(c: Cluster) {
    && |c.servers| == 3
    && var v, u := Sight(c.servers[0]), Sight(c.servers[1]);
    && v.role == Leader && v.inc == 0 && |v.log| > 1 && v.log[0] == DUMMY && LastTerm(v.log) == v.term && v.commit == 0
    && AllNext(c.servers[0].node, 1)
    && u.term == v.term && u.log == [DUMMY] && u.inc == 0 && u.commit == 0
  }

  // The leader's whole log, in one message.
  function Whole(v: View): AppendArgs
    requires |v.log| > 0
  {
    AppendArgs(v.term, 0, 0, v.log[0].term, v.log[1..], v.commit)
  }

  // Leader 0 brings its whole log to peer 1.
  lemma Brings(acts: seq<Action>, c: Cluster) returns (more: seq<Action>)
    requires c == Exec(3, acts) && Fresh(c)
    ensures var d := Exec(3, more); var v, u := Sight(c.servers[0]), Sight(c.servers[1]);
      && d.servers[0] == c.servers[0] && d.servers[2] == c.servers[2] && c.net <= d.net
      && Sight(d.servers[1]) == u.(role := Follower, log := v.log)
      && AppendRep(0, 1, Whole(v), AppendReply(v.term, true, 0, 0, -1)) in d.net
    ensures NetKept(acts, more)
  {
    var n := c.servers[0].node;
    FirstRound(n, 0, 1);
    var x := Whole(Sight(c.servers[0]));
    AppendAtEnd(c.servers[1].node, x);
    more := Append(acts, c, 0, 1, x);
    assert [DUMMY] + n.log[1..] == n.log;
  }

  // It hears that it did, and all of it is committed.
  lemma HearsBack(acts: seq<Action>, c: Cluster) returns (more: seq<Action>)
    requires c == Exec(3, acts) && |c.servers[0].node.next| == 3
    requires var v := Sight(c.servers[0]);
      && v.role == Leader && v.inc == 0 && |v.log| > 1 && LastTerm(v.log) == v.term && v.commit == 0
      && AppendRep(0, 1, Whole(v), AppendReply(v.term, true, 0, 0, -1)) in c.net
    ensures var d := Exec(3, more); var v := Sight(c.servers[0]);
      && Only(c, d, 0) && Sight(d.servers[0]) == v.(commit := End(v))
      && d.servers[0].node.next == c.servers[0].node.next[1 := End(v) + 1]
    ensures NetKept(acts, more)
  {
    var n := c.servers[0].node;
    var x := Whole(Sight(c.servers[0]));
    CommitAll(n, 0, 1, x);
    more := Acknowledge(acts, c, 0, 1, x, AppendReply(x.term, true, 0, 0, -1));
  }

  // Leader 0 brings its whole log to peer 1, which makes it committed, and lets it know.
  lemma Shares(acts: seq<Action>, c: Cluster) returns (more: seq<Action>)
    requires c == Exec(3, acts) && Fresh(c)
    ensures var d := Exec(3, more); var v, u := Sight(c.servers[0]), Sight(c.servers[1]);
      && d.servers[2] == c.servers[2]
      && Sight(d.servers[0]) == v.(commit := End(v))
      && Sight(d.servers[1]) == u.(role := Follower, log := v.log, commit := End(v))
      && |d.servers[0].node.next| == 3 && d.servers[0].node.next[2] == 1 && c.net <= d.net
    ensures NetKept(acts, more)
  {
    var a := Brings(acts, c);
    var b := HearsBack(a, Exec(3, a));
    more := Tells(b, Exec(3, b));
  }

  // It lets it know.
  lemma Tells(acts: seq<Action>, c: Cluster) returns (more: seq<Action>)
    requires c == Exec(3, acts)
    requires var v := Sight(c.servers[0]);
      v.role == Leader && v.inc == 0 && |v.log| > 1 && v.commit == End(v) && c.servers[0].node.next[1] == End(v) + 1
    requires var v, u := Sight(c.servers[0]), Sight(c.servers[1]); u.term == v.term && u.log == v.log && u.inc == 0 && u.commit <= v.commit
    ensures var d := Exec(3, more); var v, u := Sight(c.servers[0]), Sight(c.servers[1]);
      && d.servers[2] == c.servers[2] && d.servers[0] == c.servers[0]
      && Sight(d.servers[1]) == u.(role := Follower, commit := End(v)) && c.net <= d.net
    ensures NetKept(acts, more)
  {
    var n := c.servers[0].node;
    Heartbeat(n, 0, 1);
    var x := RoundFor(n, 0, 1).1.append;
    AppendAtEnd(c.servers[1].node, x);
    more := Append(acts, c, 0, 1, x);
    assert c.servers[1].node.log + [] == c.servers[1].node.log;
  }

  // ---------- snapshots ----------

  // Leader i sends j its snapshot.
  lemma SendsSnapshot(acts: seq<Action>, c: Cluster, i: nat, j: nat) returns (more: seq<Action>)
    requires c == Exec(3, acts) && i < 3 && j < 3 && i != j && |c.servers[i].node.next| == 3
    requires var n := c.servers[i].node; n.role == Leader && 1 <= n.next[j] <= n.inc
    ensures var d := Exec(3, more); var n := c.servers[i].node;
      && d.servers == c.servers && c.net <= d.net
      && InstallReq(j, InstallArgs(n.term, i, n.inc, n.log[0].term, Stored(n))) in d.net
    ensures NetKept(acts, more)
  {
    BoundaryHolds(3, acts, i);
    var n := c.servers[i].node;
    assert n.next[j := n.next[j]] == n.next;
    More(acts, At(i, SendRound(j)));
    more := acts + [At(i, SendRound(j))];
    assert Exec(3, more).servers == c.servers;
  }

  // A peer that is further behind gets it.
  lemma GetsSnapshot(acts: seq<Action>, c: Cluster, j: nat, x: InstallArgs) returns (more: seq<Action>)
    requires c == Exec(3, acts) && j < 3 && InstallReq(j, x) in c.net
    requires var v := Sight(c.servers[j]); v.term <= x.term && End(v) < x.inc && v.commit <= x.inc
    ensures var d := Exec(3, more); var v := Sight(c.servers[j]);
      && Only(c, d, j) && InstallRep(x.leader, j, x, v.term) in d.net
      && Sight(d.servers[j]) == v.(role := Follower, term := x.term, log := [Entry(x.incTerm, Nil)], inc := x.inc,
                                   commit := x.inc, snapshot := Some(x.data))
    ensures NetKept(acts, more)
  {
    More(acts, Deliver(InstallReq(j, x)));
    more := acts + [Deliver(InstallReq(j, x))];
  }

  // The leader hears that it did.
  lemma HearsOfSnapshot(acts: seq<Action>, c: Cluster, i: nat, j: nat, x: InstallArgs, t: nat) returns (more: seq<Action>)
    requires c == Exec(3, acts) && i < 3 && j < 3 && InstallRep(i, j, x, t) in c.net && |c.servers[i].node.next| == 3
    requires var n := c.servers[i].node; n.role == Leader && n.term == x.term && t <= x.term
    ensures var d := Exec(3, more);
      && Only(c, d, i) && Sight(d.servers[i]) == Sight(c.servers[i])
      && d.servers[i].node.next == c.servers[i].node.next[j := x.inc + 1]
    ensures NetKept(acts, more)
  {
    More(acts, Deliver(InstallRep(i, j, x, t)));
    more := acts + [Deliver(InstallRep(i, j, x, t))];
  }

  // The applier offers the snapshot and the reader takes it.
  lemma TakesSnapshot(acts: seq<Action>, c: Cluster, s: nat) returns (more: seq<Action>)
    requires c == Exec(3, acts) && s < 3
    requires var v := Sight(c.servers[s]); v.offer == Nothing && v.applied < v.inc <= v.commit && v.snapshot.Some?
    ensures var d := Exec(3, more); var v := Sight(c.servers[s]);
      Only(c, d, s) && Sight(d.servers[s]) == v.(table := v.snapshot.value, index := v.inc, offer := Taken(v.inc))
    ensures NetKept(acts, more)
  {
    more := Serve(acts, c, s);
    TookSnapshot(c, Exec(3, more), s);
  }

  lemma TookSnapshot(c: Cluster, d: Cluster, s: nat)
    requires |c.servers| == 3 && s < 3 && d == Cluster(c.servers[s := Taking(Offering(c.servers[s]))], c.net)
    requires var v := Sight(c.servers[s]); v.offer == Nothing && v.applied < v.inc <= v.commit && v.snapshot.Some?
    ensures var v := Sight(c.servers[s]);
      Only(c, d, s) && Sight(d.servers[s]) == v.(table := v.snapshot.value, index := v.inc, offer := Taken(v.inc))
  {
  }

  // The applier, back from the reader, moves lastApplied.
  lemma Moves(acts: seq<Action>, c: Cluster, s: nat) returns (more: seq<Action>)
    requires c == Exec(3, acts) && s < 3 && c.servers[s].offer.Taken?
    ensures var d := Exec(3, more); var v := Sight(c.servers[s]);
      Only(c, d, s) && Sight(d.servers[s]) == v.(applied := v.inc, offer := Nothing)
  {
    ExecSnoc(3, acts, At(s, MoveApplied));
    more := acts + [At(s, MoveApplied)];
  }
}
