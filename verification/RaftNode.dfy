// One Raft server of the code, as values: what each critical section does to the
// server's fields, to its saved state and to its outgoing messages.
module RaftNode {
  import opened Options
  import opened Quorums
  import opened Kv
  import opened RaftLog
  import opened RaftCore

  // What persist() writes.
  datatype Saved = Saved(term: nat, voted: int, log: Log, inc: nat, incTerm: nat)

  datatype Node = Node(
    role: Role,
    term: nat,
    voted: int,              // -1: no vote in this term
    log: Log,                // log[0] is the boundary entry
    inc: nat,                // lastIncludedIndex
    incTerm: nat,            // lastIncludeTerm
    commit: nat,
    applied: nat,
    next: seq<int>,
    matched: seq<nat>,
    tally: nat,              // numGetVoted of the election of this term
    waiting: set<nat>,       // peers whose vote goroutine has not returned yet
    saved: Option<Saved>,
    snapshot: Option<Table>)

  datatype VoteArgs = VoteArgs(term: nat, cand: nat, lastIndex: int, lastTerm: nat)
  datatype VoteReply = VoteReply(term: nat, granted: bool)
  datatype AppendArgs = AppendArgs(term: nat, leader: nat, prev: nat, prevTerm: nat, entries: seq<Entry>, leaderCommit: nat)
  datatype AppendReply = AppendReply(term: nat, success: bool, xTerm: nat, xIndex: int, xLen: int)
  datatype InstallArgs = InstallArgs(term: nat, leader: nat, inc: nat, incTerm: nat, data: Table)

  function LastIndex(n: Node): int {
    n.inc + |n.log| - 1
  }

  function NewNode(peers: nat): Node {
    Node(Follower, 0, -1, [DUMMY], 0, 0, 0, 0, seq(peers, _ => 0), seq(peers, _ => 0), 0, {}, None, None)
  }

  function Image(n: Node): Saved {
    Saved(n.term, n.voted, n.log, n.inc, n.incTerm)
  }

  function Persist(n: Node): Node {
    n.(saved := Some(Image(n)))
  }

  // Make after a crash: the persisted fields come back, the rest starts afresh.
  function Restart(n: Node): Node {
    var init := NewNode(|n.next|).(saved := n.saved, snapshot := n.snapshot);
    match n.saved
    case None => init
    case Some(s) =>
      init.(term := s.term, voted := s.voted, log := s.log, inc := s.inc, incTerm := s.incTerm,
             commit := s.inc, applied := s.inc)
  }

  // A later term was seen in a request or a reply.
  function Later(n: Node, term: nat): Node {
    n.(role := Follower, term := term, voted := -1)
  }

  // ---------- elections ----------

  // A candidate of the next term has its own vote and waits for the others.
  function Standing(n: Node, me: nat): Node {
    n.(role := Candidate, term := n.term + 1, voted := me, tally := 1, waiting := Ids(|n.next|) - {me})
  }

  function Timeout(n: Node, me: nat): Node {
    if n.role == Leader then n
    else Persist(Standing(n, me))
  }

  function VoteRequest(n: Node, me: nat): VoteArgs
    requires |n.log| > 0
  {
    VoteArgs(n.term, me, LastIndex(n), LastTerm(n.log))
  }

  function HandleVote(n: Node, args: VoteArgs): (Node, VoteReply)
    requires |n.log| > 0
  {
    if args.term < n.term then (Persist(n), VoteReply(n.term, false))
    else
      var m := if args.term > n.term then Later(n, args.term) else n;
      if UpToDate(args.lastTerm, args.lastIndex, LastTerm(m.log), LastIndex(m)) && (m.voted == -1 || m.voted == args.cand)
      then (Persist(m.(voted := args.cand)), VoteReply(m.term, true))
      else (Persist(m), VoteReply(m.term, false))
  }

  // A candidate becomes leader, and knows nothing of what the others store.
  function Crowned(n: Node): Node {
    n.(role := Leader, next := seq(|n.next|, _ => LastIndex(n) + 1), matched := seq(|n.next|, _ => 0))
  }

  // With the votes of more than half of the peers it does.
  function Counted(n: Node): Node {
    if n.tally > |n.next| / 2 then Crowned(n) else n
  }

  // The goroutine that asked peer `from` for its vote in reqTerm gets a reply.
  function HandleVoteReply(n: Node, from: nat, reqTerm: nat, reply: VoteReply): Node {
    if reply.term > n.term then Persist(Later(n, reply.term))
    else if n.role != Candidate || n.term != reqTerm || from !in n.waiting then n
    else
      var m := n.(waiting := n.waiting - {from});
      if !reply.granted then m
      else
        Counted(m.(tally := m.tally + 1))
  }

  // ---------- replication ----------

  function Start(n: Node, cmd: Command): (Node, (int, int, bool)) {
    if n.role != Leader then (n, (-1, n.term, false))
    else
      var m := Persist(n.(log := n.log + [Entry(n.term, cmd)]));
      (m, (LastIndex(m), n.term, true))
  }

  // Back from position j over entries of the given term.
  function RunStart(log: Log, j: int, term: nat): int
    requires j < |log|
    decreases j + 1
  {
    if j >= 0 && log[j].term == term then RunStart(log, j - 1, term) else j
  }

  // A leader of a term not older than ours is heard.
  function Heard(n: Node, term: nat): Node {
    (if term > n.term then n.(term := term, voted := -1) else n).(role := Follower)
  }

  function HandleAppend(n: Node, args: AppendArgs): (Node, AppendReply)
    requires |n.log| > 0
  {
    if args.term < n.term then (Persist(n), AppendReply(n.term, false, 0, 0, 0))
    else AppendHere(Heard(n, args.term), args)
  }

  // AppendEntries once terms are settled: the consistency check, the append, the commit.
  function AppendHere(m: Node, args: AppendArgs): (Node, AppendReply)
    requires |m.log| > 0
  {
    if args.prev < m.inc || args.prev > LastIndex(m) then
      (Persist(m), AppendReply(m.term, false, 0, 0, LastIndex(m) + 1))
    else
      var si := args.prev - m.inc;
      if m.log[si].term != args.prevTerm then
        var xTerm := m.log[si].term;
        (Persist(m), AppendReply(m.term, false, xTerm, RunStart(m.log, si - 1, xTerm) + m.inc + 1, -1))
      else
        var w := m.(log := Merge(m.log, si + 1, args.entries));
        (Persist(w.(commit := NewCommit(w, args.leaderCommit))), AppendReply(m.term, true, 0, 0, -1))
  }

  function NewCommit(n: Node, leaderCommit: nat): nat {
    if leaderCommit > n.commit && LastIndex(n) >= 0 then
      if leaderCommit < LastIndex(n) then leaderCommit else LastIndex(n)
    else n.commit
  }

  function HandleInstall(n: Node, args: InstallArgs): (Node, nat) {
    if args.term < n.term then (n, n.term)
    else
      var m := Heard(n, args.term);
      (if args.inc <= m.inc then Persist(m) else InstallHere(m, args), n.term)
  }

  // A newer snapshot: keep the tail if the boundary entry is there, otherwise start over.
  function InstallHere(m: Node, args: InstallArgs): Node
    requires args.inc > m.inc
  {
    var offset := args.inc - m.inc;
    var log := if offset < |m.log| && m.log[offset].term == args.incTerm then m.log[offset..]
               else [Entry(args.incTerm, Nil)];
    Persist(m.(log := log, inc := args.inc, incTerm := args.incTerm,
               commit := if m.commit < args.inc then args.inc else m.commit,
               snapshot := Some(args.data)))
  }

  // Snapshot(index, data): the service has everything through index in data.
  function Compact(n: Node, index: nat, data: Table): Node {
    if index <= n.inc || index - n.inc >= |n.log| then n
    else
      Persist(n.(log := n.log[index - n.inc..], inc := index, incTerm := n.log[index - n.inc].term,
                 snapshot := Some(data)))
  }

  // The snapshot on disk, as a reader finds it.
  function Stored(n: Node): Table {
    if n.snapshot.Some? then n.snapshot.value else map[]
  }

  // nextIndex as one heartbeat round corrects it.
  function ClampNext(n: Node, to: nat): int
    requires to < |n.next|
  {
    var low := if n.next[to] < 1 then 1 else n.next[to];
    if low > LastIndex(n) + 1 then LastIndex(n) + 1 else low
  }

  datatype Round = AppendRound(append: AppendArgs) | InstallRound(install: InstallArgs)

  // What the leader sends to peer `to` in a round.
  function RoundFor(n: Node, me: nat, to: nat): (Node, Round)
    requires to < |n.next| && |n.log| > 0
  {
    var i := ClampNext(n, to);
    var m := n.(next := n.next[to := i]);
    if i <= n.inc then
      (m, InstallRound(InstallArgs(n.term, me, n.inc, n.incTerm, Stored(n))))
    else
      var entries := if i <= LastIndex(n) then n.log[i - n.inc..] else [];
      (m, AppendRound(AppendArgs(n.term, me, i - 1, n.log[i - 1 - n.inc].term, entries, n.commit)))
  }

  // The leader's search back from j for an entry of xTerm, no further than xIndex.
  function ScanBack(n: Node, j: int, xIndex: int, xTerm: nat): int
    decreases j - xIndex
  {
    if j < xIndex || j < n.inc || j - n.inc >= |n.log| || n.log[j - n.inc].term == xTerm then j
    else ScanBack(n, j - 1, xIndex, xTerm)
  }

  // nextIndex after a rejection.
  function NextAfter(n: Node, to: nat, prev: nat, reply: AppendReply): int
    requires to < |n.next|
  {
    if n.next[to] > 1 then
      var j := if reply.xLen != -1 then reply.xLen else ScanBack(n, prev - 1, reply.xIndex, reply.xTerm);
      if j < 1 then 1 else j
    else n.next[to]
  }

  // The peers other than me that are known to store entry j, plus me.
  function Holders(matched: seq<nat>, me: nat, j: int): set<nat> {
    set p: nat | p < |matched| && (p == me || matched[p] >= j)
  }

  ghost predicate Committable(n: Node, me: nat, j: int) {
    && n.inc <= j <= LastIndex(n)
    && n.log[j - n.inc].term == n.term
    && |Holders(n.matched, me, j)| > |n.matched| / 2
  }

  // The commit loop: from j down to the old commit index, the first index that a
  // majority stores and that was created in the current term.
  ghost function CommitScan(n: Node, me: nat, j: nat): nat {
    if j <= n.commit then n.commit
    else if Committable(n, me, j) then j
    else CommitScan(n, me, j - 1)
  }

  ghost function HandleAppendReply(n: Node, me: nat, from: nat, args: AppendArgs, reply: AppendReply): Node
    requires from < |n.next| == |n.matched|
  {
    if reply.term > n.term then Persist(Later(n, reply.term))
    else if n.role != Leader || n.term != args.term then n
    else if !reply.success then n.(next := n.next[from := NextAfter(n, from, args.prev, reply)])
    else
      var k := args.prev + |args.entries|;
      var m := n.(matched := n.matched[from := k], next := n.next[from := k + 1]);
      m.(commit := CommitScan(m, me, k))
  }

  function HandleInstallReply(n: Node, from: nat, args: InstallArgs, replyTerm: nat): Node
    requires from < |n.next| == |n.matched|
  {
    if replyTerm > n.term then Persist(Later(n, replyTerm))
    else if n.role != Leader || n.term != args.term then n
    else n.(next := n.next[from := args.inc + 1], matched := n.matched[from := args.inc])
  }
}
