// That the cluster gets somewhere: a leader commits what a majority stores, a candidate wins
// with more than half of the votes, a command is where Start says, a service catches up.
module RaftProgress {
  import opened Options
  import opened Quorums
  import opened Kv
  import opened RaftLog
  import opened RaftCore
  import opened RaftCoreProof
  import opened RaftNode
  import opened RaftCommit
  import opened RaftCluster
  import opened RaftRefinement
  import opened RaftSafety

  // ---------- committing ----------

  // In every run of any number of servers.
  lemma LeaderCommits(n: nat, acts: seq<Action>, s: nat, from: nat, x: AppendArgs, reply: AppendReply)
    requires s < n && from < n && AppendRep(s, from, x, reply) in Exec(n, acts).net
    requires var v := Exec(n, acts).servers[s].node; v.role == Leader && v.term == x.term && reply.term <= v.term && reply.success
    ensures var v := Exec(n, acts).servers[s].node; var w := Exec(n, acts + [Deliver(AppendRep(s, from, x, reply))]).servers[s].node;
      && w.log == v.log && w.inc == v.inc && w.term == v.term && w.matched == v.matched[from := x.prev + |x.entries|]
      && Highest(w, s, x.prev + |x.entries|, v.commit)
  {
    ExecSnoc(n, acts, Deliver(AppendRep(s, from, x, reply)));
    CommitsHighest(Exec(n, acts).servers[s].node, s, from, x, reply);
  }

  // ---------- Start ----------

  // The index that Start returns is where the command is, with the term it returns; a server
  // that does not lead takes nothing.
  lemma StartPuts(n: Node, cmd: Command)
    requires |n.log| > 0
    ensures var (m, (index, term, isLeader)) := Start(n, cmd);
      && (isLeader <==> n.role == Leader) && term == n.term
      && (isLeader ==>
            && index == LastIndex(m) == LastIndex(n) + 1 && m.inc == n.inc && m.log[..|n.log|] == n.log
            && m.log[index - m.inc] == Entry(term, cmd))
      && (!isLeader ==> m == n && index == -1)
  {
  }

  lemma ReignHas(a: Core, b: Core, t: nat, i: nat, e: Entry)
    requires Ext(a, b) && t in a.reign && i < |a.reign[t]| && a.reign[t][i] == e
    ensures t in b.reign && i < |b.reign[t]| && b.reign[t][i] == e
  {
    ReignPrefix(a, b, t, i);
  }

  lemma EntryThere(b: Core, q: nat, y: Node, t: nat, i: nat)
    requires Inv(b) && q < |b.peers| && PeerOk(b, q) && NodeOk(b, q, y) && t in b.reign && i < |b.reign[t]|
    requires b.reign[t][i].term == t && y.inc < i <= LastIndex(y) && y.log[i - y.inc].term == t
    ensures y.log[i - y.inc] == b.reign[t][i]
  {
    EntryOf(b, q, y, i);
    LogMatch(b.reign, b.peers[q].log, b.peers[q].term, t, i);
  }

  lemma EntryIn(b: Core, c: Cluster, t: nat, i: nat, e: Entry, q: nat)
    requires Inv(b) && Sim(c, b) && q < |b.peers|
    requires t in b.reign && i < |b.reign[t]| && b.reign[t][i] == e && e.term == t
    ensures var y := c.servers[q].node; y.inc < i <= LastIndex(y) && y.log[i - y.inc].term == t ==> y.log[i - y.inc] == e
  {
    var y := c.servers[q].node;
    Look(c, b, q);
    if y.inc < i <= LastIndex(y) && y.log[i - y.inc].term == t { EntryThere(b, q, y, t, i); }
  }

  // The leader's own log is the log of its term.
  lemma LeaderHas(a: Core, c: Cluster, s: nat, i: nat)
    requires Inv(a) && Sim(c, a) && s < |a.peers|
    requires var n := c.servers[s].node; n.role == Leader && n.inc < i <= LastIndex(n)
    ensures var n := c.servers[s].node; n.term in a.reign && i < |a.reign[n.term]| && a.reign[n.term][i] == n.log[i - n.inc]
  {
    Look(c, a, s);
    EntryOf(a, s, c.servers[s].node, i);
  }

  // An entry that a leader has in its own term: whatever server has an entry of that term at
  // that index, then or later, has this one.
  lemma FoundLater(n: nat, acts: seq<Action>, s: nat, i: nat, more: seq<Action>, q: nat)
    requires s < n && q < n
    requires var v := Exec(n, acts).servers[s].node;
      v.role == Leader && v.inc < i <= LastIndex(v) && v.log[i - v.inc].term == v.term
    ensures var v := Exec(n, acts).servers[s].node; var y := Exec(n, acts + more).servers[q].node;
      y.inc < i <= LastIndex(y) && y.log[i - y.inc].term == v.term ==> y.log[i - y.inc] == v.log[i - v.inc]
  {
    var a := Simulated(n, acts);
    var b := Onward(n, acts, more, a);
    BothHave(a, b, Exec(n, acts), Exec(n, acts + more), s, i, q);
  }

  lemma BothHave(a: Core, b: Core, c: Cluster, d: Cluster, s: nat, i: nat, q: nat)
    requires Inv(a) && Sim(c, a) && Inv(b) && Sim(d, b) && Ext(a, b) && s < |a.peers| && q < |b.peers|
    requires var v := c.servers[s].node; v.role == Leader && v.inc < i <= LastIndex(v) && v.log[i - v.inc].term == v.term
    ensures var v := c.servers[s].node; var y := d.servers[q].node;
      y.inc < i <= LastIndex(y) && y.log[i - y.inc].term == v.term ==> y.log[i - y.inc] == v.log[i - v.inc]
  {
    var v := c.servers[s].node;
    LeaderHas(a, c, s, i);
    ReignHas(a, b, v.term, i, v.log[i - v.inc]);
    EntryIn(b, d, v.term, i, v.log[i - v.inc], q);
  }

  // From then on whatever server has an entry of that term at that index has the command
  // there: so if the index is committed in that term, it is this command that was.
  lemma StartFound(n: nat, acts: seq<Action>, s: nat, cmd: Command, more: seq<Action>, q: nat)
    requires s < n && q < n && Exec(n, acts).servers[s].node.role == Leader
    ensures var (index, term, _) := Start(Exec(n, acts).servers[s].node, cmd).1;
      var y := Exec(n, acts + [At(s, Submit(cmd))] + more).servers[q].node;
      y.inc < index <= LastIndex(y) && y.log[index - y.inc].term == term ==> y.log[index - y.inc] == Entry(term, cmd)
  {
    StartPuts(Exec(n, acts).servers[s].node, cmd);
    ExecSnoc(n, acts, At(s, Submit(cmd)));
    FoundLater(n, acts + [At(s, Submit(cmd))], s, LastIndex(Exec(n, acts).servers[s].node) + 1, more, q);
  }

  // ---------- the service catches up ----------

  // No snapshot is being handed over, or it is the one of the boundary as it is.
  predicate Current(sv: Server) {
    sv.offer.Snap? || sv.offer.Taken? ==> sv.offer.index == sv.node.inc
  }

  predicate Applier(what: Local) {
    what == OfferNext || what == TakeOffer || what == MoveApplied
  }

  // What a step of the applier or the reader makes of the server.
  function Applying(sv: Server, what: Local): Server {
    match what case OfferNext => Offering(sv) case TakeOffer => Taking(sv) case _ => Moving(sv)
  }

  // Server s after some of these steps: the same node but for lastApplied, and no other server.
  ghost predicate OnlyApplies(c: Cluster, d: Cluster, s: nat) {
    && s < |c.servers| == |d.servers| && d.servers == c.servers[s := d.servers[s]] && d.net == c.net
    && d.servers[s].node == c.servers[s].node.(applied := d.servers[s].node.applied)
  }

  lemma OneStep(n: nat, acts: seq<Action>, s: nat, what: Local) returns (more: seq<Action>)
    requires s < n && Steady(n, acts) && Applier(what) && Current(Exec(n, acts).servers[s])
    ensures acts <= more && Steady(n, more) && OnlyApplies(Exec(n, acts), Exec(n, more), s)
    ensures Exec(n, more).servers[s] == Applying(Exec(n, acts).servers[s], what)
  {
    ExecSnoc(n, acts, At(s, what));
    more := acts + [At(s, what)];
  }

  // What is known of a server in a steady run.
  ghost predicate InOrder(sv: Server) {
    && sv.node.inc <= sv.node.commit <= LastIndex(sv.node) && |sv.node.log| > 0
    && sv.index <= sv.node.commit && sv.node.applied <= sv.node.commit && InStep(sv)
    && (sv.offer.Snap? ==> sv.offer.index <= sv.node.commit)
  }

  lemma SteadyInOrder(n: nat, acts: seq<Action>, s: nat)
    requires s < n && Steady(n, acts)
    ensures InOrder(Exec(n, acts).servers[s])
  {
    var a := Simulated(n, acts);
    Look(Exec(n, acts), a, s);
  }

  lemma TakeSettles(sv: Server)
    requires InOrder(sv) && Current(sv)
    ensures var x := Moving(Taking(sv));
      x.offer == Nothing && x.index >= sv.index && x.node == sv.node.(applied := x.node.applied) && Current(Taking(sv))
  {
  }

  lemma OfferAdvances(sv: Server)
    requires InOrder(sv) && sv.offer == Nothing && sv.index < sv.node.commit
    ensures Current(Offering(sv)) && Current(Taking(Offering(sv)))
    ensures var x := Moving(Taking(Offering(sv)));
      x.offer == Nothing && x.index > sv.index && x.node == sv.node.(applied := x.node.applied)
  {
  }

  lemma TwoSteps(n: nat, acts: seq<Action>, s: nat, first: Local, next: Local) returns (more: seq<Action>)
    requires s < n && Steady(n, acts) && Applier(first) && Applier(next)
    requires var sv := Exec(n, acts).servers[s]; Current(sv) && Current(Applying(sv, first))
    ensures acts <= more && Steady(n, more) && OnlyApplies(Exec(n, acts), Exec(n, more), s)
    ensures Exec(n, more).servers[s] == Applying(Applying(Exec(n, acts).servers[s], first), next)
  {
    var some := OneStep(n, acts, s, first);
    more := OneStep(n, some, s, next);
  }

  // What is on its way is taken.
  lemma Settle(n: nat, acts: seq<Action>, s: nat) returns (more: seq<Action>)
    requires s < n && Steady(n, acts) && Current(Exec(n, acts).servers[s])
    ensures acts <= more && Steady(n, more) && OnlyApplies(Exec(n, acts), Exec(n, more), s)
    ensures Exec(n, more).servers[s].offer == Nothing && Exec(n, more).servers[s].index >= Exec(n, acts).servers[s].index
  {
    SteadyInOrder(n, acts, s);
    TakeSettles(Exec(n, acts).servers[s]);
    more := TwoSteps(n, acts, s, TakeOffer, MoveApplied);
  }

  lemma Advances(n: nat, acts: seq<Action>, s: nat) returns (more: seq<Action>)
    requires s < n && Steady(n, acts)
    requires var sv := Exec(n, acts).servers[s]; sv.offer == Nothing && sv.index < sv.node.commit
    ensures acts <= more && Steady(n, more) && OnlyApplies(Exec(n, acts), Exec(n, more), s)
    ensures Exec(n, more).servers[s].offer == Nothing && Exec(n, more).servers[s].index > Exec(n, acts).servers[s].index
  {
    SteadyInOrder(n, acts, s);
    OfferAdvances(Exec(n, acts).servers[s]);
    var two := TwoSteps(n, acts, s, OfferNext, TakeOffer);
    more := OneStep(n, two, s, MoveApplied);
    AppliesBoth(Exec(n, acts), Exec(n, two), Exec(n, more), s);
  }

  lemma AppliesBoth(c: Cluster, d: Cluster, e: Cluster, s: nat)
    requires OnlyApplies(c, d, s) && OnlyApplies(d, e, s)
    ensures OnlyApplies(c, e, s)
  {
  }

  // In a steady run every service can catch up with what its server has committed, by steps
  // of its own applier and reader, unless a snapshot older than the boundary is being handed over.
  lemma {:induction false} CatchesUp(n: nat, acts: seq<Action>, s: nat) returns (more: seq<Action>)
    requires s < n && Steady(n, acts) && Current(Exec(n, acts).servers[s])
    ensures acts <= more && Steady(n, more) && OnlyApplies(Exec(n, acts), Exec(n, more), s)
    ensures Exec(n, more).servers[s].index == Exec(n, acts).servers[s].node.commit
    decreases Exec(n, acts).servers[s].node.commit - Exec(n, acts).servers[s].index
  {
    SteadyInOrder(n, acts, s);
    if Exec(n, acts).servers[s].index == Exec(n, acts).servers[s].node.commit {
      more := acts;
    } else {
      var a := Settle(n, acts, s);
      SteadyInOrder(n, a, s);
      if Exec(n, a).servers[s].index == Exec(n, a).servers[s].node.commit {
        more := a;
      } else {
        var b := Advances(n, a, s);
        more := CatchesUp(n, b, s);
      }
    }
  }
}
