// A cluster of servers, each a Raft node with the key/value service it feeds, and
// a network that may lose, delay, reorder and repeat messages. One step is one
// critical section of one server.
module RaftCluster {
  import opened Options
  import opened Quorums
  import opened Kv
  import opened RaftLog
  import opened RaftCore
  import opened RaftNode

  // Where the applier is: holding the lock between deliveries; waiting, with the lock
  // released, for the reader to take a command or a snapshot; or with a snapshot taken and
  // the lock not held again yet.
  datatype Offer = Nothing | Next(index: nat, cmd: Command) | Snap(index: nat, data: Table) | Taken(index: nat)

  // The service above a node: its table, the index of the last command it applied, and
  // what the applier is at.
  datatype Server = Server(node: Node, table: Table, index: nat, offer: Offer)

  datatype Msg =
    | VoteReq(to: nat, vote: VoteArgs)
    | VoteRep(to: nat, from: nat, reqTerm: nat, voteReply: VoteReply)
    | AppendReq(to: nat, append: AppendArgs)
    | AppendRep(to: nat, from: nat, append: AppendArgs, appendReply: AppendReply)
    | InstallReq(to: nat, install: InstallArgs)
    | InstallRep(to: nat, from: nat, install: InstallArgs, replyTerm: nat)

  datatype Cluster = Cluster(servers: seq<Server>, net: set<Msg>)

  // What a server may do on its own.
  datatype Local =
    | Expire                 // the election timer fires
    | AskVote(peer: nat)     // a candidate asks a peer for its vote
    | SendRound(peer: nat)   // a leader sends a heartbeat, entries or a snapshot
    | Submit(cmd: Command)   // a client command arrives
    | OfferNext              // the applier moves on
    | TakeOffer              // the reader takes what is offered and applies it
    | MoveApplied            // the applier, back from handing over a snapshot, moves lastApplied
    | MakeSnapshot           // the service hands raft a snapshot
    | Crash                  // crash and restart

  datatype Action = At(s: nat, what: Local) | Deliver(m: Msg)

  function Init(n: nat): Cluster {
    Cluster(seq(n, _ => Server(NewNode(n), map[], 0, Nothing)), {})
  }

  // What indexing in the code relies on: slices as long as the peer list, a boundary
  // entry in the log and in the saved log.
  predicate NodeShape(n: Node, peers: nat) {
    |n.log| > 0 && |n.next| == |n.matched| == peers && (n.saved.Some? ==> |n.saved.value.log| > 0)
  }

  predicate Shape(c: Cluster) {
    forall s :: 0 <= s < |c.servers| ==> NodeShape(c.servers[s].node, |c.servers|)
  }

  // A round's message to a peer.
  function Sent(to: nat, out: Round): Msg {
    match out
    case AppendRound(x) => AppendReq(to, x)
    case InstallRound(x) => InstallReq(to, x)
  }

  function SetServer(c: Cluster, s: nat, sv: Server, out: set<Msg>): Cluster
    requires s < |c.servers|
  {
    Cluster(c.servers[s := sv], c.net + out)
  }

  function SetNode(c: Cluster, s: nat, n: Node, out: set<Msg>): Cluster
    requires s < |c.servers|
  {
    SetServer(c, s, c.servers[s].(node := n), out)
  }

  function Offering(sv: Server): Server {
    var n := sv.node;
    if sv.offer != Nothing || n.applied >= n.commit then sv
    else if n.applied < n.inc then sv.(offer := Snap(n.inc, Stored(n)))
    else
      var i := n.applied + 1;
      var si := i - n.inc;
      if si <= 0 || si >= |n.log| then sv.(node := n.(applied := i))
      else sv.(node := n.(applied := i), offer := Next(i, n.log[si].cmd))
  }

  function Taking(sv: Server): Server {
    match sv.offer
    case Next(i, cmd) => sv.(table := ApplyCmd(sv.table, cmd), index := i, offer := Nothing)
    case Snap(i, data) => sv.(table := data, index := i, offer := Taken(i))
    case _ => sv
  }

  // lastApplied moves to the boundary as it is by now.
  function Moving(sv: Server): Server {
    if sv.offer.Taken? then sv.(node := sv.node.(applied := sv.node.inc), offer := Nothing) else sv
  }

  function Rebooting(sv: Server): Server {
    var n := Restart(sv.node);
    Server(n, Stored(n), n.inc, Nothing)
  }

  ghost function Receive(c: Cluster, m: Msg): Cluster
    requires Shape(c) && m.to < |c.servers|
  {
    var n := c.servers[m.to].node;
    match m
    case VoteReq(to, args) =>
      var (n', reply) := HandleVote(n, args);
      SetNode(c, to, n', {VoteRep(args.cand, to, args.term, reply)})
    case VoteRep(to, from, reqTerm, reply) =>
      SetNode(c, to, HandleVoteReply(n, from, reqTerm, reply), {})
    case AppendReq(to, args) =>
      var (n', reply) := HandleAppend(n, args);
      SetNode(c, to, n', {AppendRep(args.leader, to, args, reply)})
    case AppendRep(to, from, args, reply) =>
      if from < |c.servers| then SetNode(c, to, HandleAppendReply(n, to, from, args, reply), {}) else c
    case InstallReq(to, args) =>
      var (n', reply) := HandleInstall(n, args);
      SetNode(c, to, n', {InstallRep(args.leader, to, args, reply)})
    case InstallRep(to, from, args, reply) =>
      if from < |c.servers| then SetNode(c, to, HandleInstallReply(n, from, args, reply), {}) else c
  }

  ghost function Act(c: Cluster, s: nat, what: Local): Cluster
    requires Shape(c) && s < |c.servers|
  {
    var sv := c.servers[s];
    var n := sv.node;
    match what
    case Expire => SetNode(c, s, Timeout(n, s), {})
    case AskVote(to) =>
      if to < |c.servers| && to != s && n.role == Candidate then SetServer(c, s, sv, {VoteReq(to, VoteRequest(n, s))}) else c
    case SendRound(to) =>
      if to < |c.servers| && to != s && n.role == Leader then
        var (n', out) := RoundFor(n, s, to);
        SetNode(c, s, n', {Sent(to, out)})
      else c
    case Submit(cmd) => SetNode(c, s, Start(n, cmd).0, {})
    case OfferNext => SetServer(c, s, Offering(sv), {})
    case TakeOffer => SetServer(c, s, Taking(sv), {})
    case MoveApplied => SetServer(c, s, Moving(sv), {})
    case MakeSnapshot => SetNode(c, s, Compact(n, sv.index, sv.table), {})
    case Crash => SetServer(c, s, Rebooting(sv), {})
  }

  // One step; an action that is not possible changes nothing.
  ghost function Step(c: Cluster, a: Action): Cluster
    requires Shape(c)
  {
    match a
    case Deliver(m) => if m in c.net && m.to < |c.servers| then Receive(c, m) else c
    case At(s, what) => if s < |c.servers| then Act(c, s, what) else c
  }

  // ---------- shape and runs ----------

  lemma SetShape(c: Cluster, s: nat, sv: Server, out: set<Msg>)
    requires Shape(c) && s < |c.servers| && NodeShape(sv.node, |c.servers|)
    ensures Shape(SetServer(c, s, sv, out)) && |SetServer(c, s, sv, out).servers| == |c.servers|
  {
  }

  lemma ActShape(c: Cluster, s: nat, what: Local)
    requires Shape(c) && s < |c.servers|
    ensures Shape(Act(c, s, what)) && |Act(c, s, what).servers| == |c.servers|
  {
    var sv := c.servers[s];
    match what
    case Expire => SetShape(c, s, sv.(node := Timeout(sv.node, s)), {});
    case SendRound(to) =>
      if to < |c.servers| && to != s && sv.node.role == Leader { SetShape(c, s, sv.(node := RoundFor(sv.node, s, to).0), Act(c, s, what).net); }
    case Submit(cmd) => SetShape(c, s, sv.(node := Start(sv.node, cmd).0), {});
    case OfferNext => SetShape(c, s, Offering(sv), {});
    case TakeOffer => SetShape(c, s, Taking(sv), {});
    case MoveApplied => SetShape(c, s, Moving(sv), {});
    case MakeSnapshot => SetShape(c, s, sv.(node := Compact(sv.node, sv.index, sv.table)), {});
    case Crash => SetShape(c, s, Rebooting(sv), {});
    case AskVote(to) =>
  }

  lemma MergeShape(log: Log, idx: nat, entries: seq<Entry>)
    requires 0 < idx <= |log|
    ensures |Merge(log, idx, entries)| > 0
    decreases |entries|
  {
  }

  lemma RepliesShape(n: Node, m: Msg, peers: nat)
    requires NodeShape(n, peers)
    ensures m.VoteRep? ==> NodeShape(HandleVoteReply(n, m.from, m.reqTerm, m.voteReply), peers)
    ensures m.AppendRep? && m.from < peers ==> NodeShape(HandleAppendReply(n, m.to, m.from, m.append, m.appendReply), peers)
    ensures m.InstallRep? && m.from < peers ==> NodeShape(HandleInstallReply(n, m.from, m.install, m.replyTerm), peers)
  {
  }

  lemma RequestsShape(n: Node, m: Msg, peers: nat)
    requires NodeShape(n, peers)
    ensures m.VoteReq? ==> NodeShape(HandleVote(n, m.vote).0, peers)
    ensures m.AppendReq? ==> NodeShape(HandleAppend(n, m.append).0, peers)
    ensures m.InstallReq? ==> NodeShape(HandleInstall(n, m.install).0, peers)
  {
    if m.AppendReq? && n.inc <= m.append.prev <= LastIndex(n) {
      MergeShape(n.log, m.append.prev - n.inc + 1, m.append.entries);
    }
  }

  lemma ReceiveShape(c: Cluster, m: Msg)
    requires Shape(c) && m.to < |c.servers|
    ensures Shape(Receive(c, m)) && |Receive(c, m).servers| == |c.servers|
  {
    var sv := c.servers[m.to];
    var n := sv.node;
    RequestsShape(n, m, |c.servers|);
    RepliesShape(n, m, |c.servers|);
    match m
    case VoteReq(to, x) => SetShape(c, to, sv.(node := HandleVote(n, x).0), Receive(c, m).net);
    case VoteRep(to, from, t, r) => SetShape(c, to, sv.(node := HandleVoteReply(n, from, t, r)), {});
    case AppendReq(to, x) => SetShape(c, to, sv.(node := HandleAppend(n, x).0), Receive(c, m).net);
    case AppendRep(to, from, x, r) =>
      if from < |c.servers| { SetShape(c, to, sv.(node := HandleAppendReply(n, to, from, x, r)), {}); }
    case InstallReq(to, x) => SetShape(c, to, sv.(node := HandleInstall(n, x).0), Receive(c, m).net);
    case InstallRep(to, from, x, t) =>
      if from < |c.servers| { SetShape(c, to, sv.(node := HandleInstallReply(n, from, x, t)), {}); }
  }

  lemma StepShape(c: Cluster, act: Action)
    requires Shape(c)
    ensures Shape(Step(c, act)) && |Step(c, act).servers| == |c.servers|
  {
    match act
    case At(s, what) => if s < |c.servers| { ActShape(c, s, what); }
    case Deliver(m) => if m in c.net && m.to < |c.servers| { ReceiveShape(c, m); }
  }

  // The cluster of n servers after the given actions.
  ghost function Exec(n: nat, acts: seq<Action>): (c: Cluster)
    ensures Shape(c) && |c.servers| == n
  {
    if acts == [] then Init(n)
    else
      var c := Exec(n, acts[..|acts| - 1]);
      StepShape(c, acts[|acts| - 1]);
      Step(c, acts[|acts| - 1])
  }

  // ---------- runs without interference in deliveries ----------

  // A snapshot delivery ends with the boundary it began with.
  predicate StepSteady(c: Cluster, a: Action) {
    a.At? && a.what == MoveApplied && a.s < |c.servers| && c.servers[a.s].offer.Taken? ==>
      c.servers[a.s].node.inc == c.servers[a.s].offer.index
  }

  // No boundary moves during the delivery of a snapshot.
  ghost predicate Steady(n: nat, acts: seq<Action>) {
    acts == [] || (Steady(n, acts[..|acts| - 1]) && StepSteady(Exec(n, acts[..|acts| - 1]), acts[|acts| - 1]))
  }
}
