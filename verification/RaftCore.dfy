// Raft without compaction, and with history: for every term the log of its
// leader, every vote, every candidacy and every acknowledgement ever given.
// The compacted servers of the code are shown to refine this system.
module RaftCore {
  import opened Quorums
  import opened RaftLog

  datatype Role = Follower | Candidate | Leader

  // One server, with its whole log (index 0 holds the dummy entry).
  datatype Peer = Peer(role: Role, term: nat, voted: int, log: Log, commit: nat, voters: set<nat>)

  datatype Core = Core(
    peers: seq<Peer>,
    reign: map<nat, Log>,             // term -> log of that term's leader, as far as it got
    ruler: map<nat, nat>,             // term -> its leader
    votes: map<(nat, nat), nat>,      // (voter, term) -> candidate
    bids: map<(nat, nat), Log>,       // (candidate, term) -> the log it campaigned with
    acks: map<(nat, nat), nat>,       // (server, term) -> highest index acknowledged in that term
    calm: bool)                       // no boundary has moved during the delivery of a snapshot

  // ---------- derived notions ----------

  ghost predicate Acked(a: Core, q: nat, t: nat, i: int) {
    (q, t) in a.acks && a.acks[(q, t)] >= i
  }

  // Index i of the leader of term t holds an entry created in term t.
  ghost predicate Own(a: Core, t: nat, i: int) {
    t in a.reign && 0 < i < |a.reign[t]| && a.reign[t][i].term == t
  }

  ghost predicate BlockedBy(a: Core, t: nat, i: int, quorum: set<nat>) {
    Quorum(|a.peers|, quorum) &&
    forall q :: q in quorum ==> q < |a.peers| && a.peers[q].term > t && !Acked(a, q, t, i)
  }

  // Entry i of term t can never again collect a majority.
  ghost predicate Blocked(a: Core, t: nat, i: int) {
    exists quorum :: BlockedBy(a, t, i, quorum)
  }

  ghost predicate CommittedBy(a: Core, t: nat, i: int, quorum: set<nat>) {
    Quorum(|a.peers|, quorum) && forall q :: q in quorum ==> Acked(a, q, t, i)
  }

  // The commit rule: an entry of the leader's own term stored by a majority.
  ghost predicate Committed(a: Core, t: nat, i: int) {
    Own(a, t, i) && exists quorum :: CommittedBy(a, t, i, quorum)
  }

  ghost predicate CoveredBy(a: Core, log: Log, c: nat, t: nat, j: int) {
    Committed(a, t, j) && c <= j && Agree(log, a.reign[t], c)
  }

  // log[..c+1] is part of something committed in a term no later than bound.
  ghost predicate Covered(a: Core, log: Log, c: nat, bound: nat) {
    c < |log| && (c == 0 || exists t: nat, j: int :: t <= bound && CoveredBy(a, log, c, t, j))
  }

  // ---------- the invariant ----------

  ghost predicate Sane(a: Core) {
    && |a.peers| > 0
    && 0 in a.reign && a.reign[0] == [DUMMY]
  }

  ghost predicate EntryOk(reign: map<nat, Log>, t: nat, i: int)
    requires t in reign && 0 <= i < |reign[t]|
  {
    var u := reign[t][i].term;
    u in reign && u <= t && Agree(reign[t], reign[u], i)
  }

  // Every prefix of a leader's log is a prefix of the log of the leader that
  // created its last entry.
  ghost predicate ReignsOk(reign: map<nat, Log>) {
    && (forall t :: t in reign ==> |reign[t]| > 0 && reign[t][0] == DUMMY)
    && (forall t: nat, i: int {:trigger EntryOk(reign, t, i)} :: t in reign && 0 <= i < |reign[t]| ==> EntryOk(reign, t, i))
  }

  // A log is a prefix of the log of the leader that created its last entry.
  ghost predicate LogOk(reign: map<nat, Log>, log: Log, bound: nat) {
    |log| > 0 &&
    var u := log[|log| - 1].term;
    u in reign && u <= bound && Agree(log, reign[u], |log| - 1)
  }

  ghost predicate PeerOk(a: Core, p: nat)
    requires p < |a.peers|
  {
    var r := a.peers[p];
    && LogOk(a.reign, r.log, r.term)
    && Covered(a, r.log, r.commit, r.term)
    && (r.voted != -1 ==> (p, r.term) in a.votes && a.votes[(p, r.term)] == r.voted)
    && (r.voted == -1 ==> (p, r.term) !in a.votes)
    && (r.role == Candidate ==>
          && (p, r.term) in a.bids && a.bids[(p, r.term)] == r.log
          && r.voters <= Ids(|a.peers|)
          && forall q :: q in r.voters ==> (q, r.term) in a.votes && a.votes[(q, r.term)] == p)
    && (r.role == Leader ==>
          && r.term in a.reign && a.reign[r.term] == r.log && r.term > 0
          && r.term in a.ruler && a.ruler[r.term] == p
          && Acked(a, p, r.term, |r.log| - 1))
  }

  ghost predicate PeersOk(a: Core) {
    forall p: nat {:trigger PeerOk(a, p)} :: p < |a.peers| ==> PeerOk(a, p)
  }

  ghost predicate BidOk(a: Core, c: nat, t: nat)
    requires (c, t) in a.bids
  {
    c < |a.peers| && 0 < t <= a.peers[c].term && LogOk(a.reign, a.bids[(c, t)], t - 1)
  }

  ghost predicate BidsOk(a: Core) {
    forall c: nat, t: nat {:trigger BidOk(a, c, t)} :: (c, t) in a.bids ==> BidOk(a, c, t)
  }

  ghost predicate VoteOk(a: Core, q: nat, t: nat)
    requires (q, t) in a.votes
  {
    && q < |a.peers| && t <= a.peers[q].term
    && (a.votes[(q, t)], t) in a.bids
  }

  ghost predicate VotesOk(a: Core) {
    forall q: nat, t: nat {:trigger VoteOk(a, q, t)} :: (q, t) in a.votes ==> VoteOk(a, q, t)
  }

  ghost predicate ChosenBy(a: Core, t: nat, l: nat, quorum: set<nat>) {
    Quorum(|a.peers|, quorum) &&
    forall q :: q in quorum ==> (q, t) in a.votes && a.votes[(q, t)] == l
  }

  ghost predicate RulerOk(a: Core, t: nat)
    requires t in a.reign
  {
    && t in a.ruler && a.ruler[t] < |a.peers|
    && (exists quorum :: ChosenBy(a, t, a.ruler[t], quorum))
    && t <= a.peers[a.ruler[t]].term
    && (a.peers[a.ruler[t]].term == t ==> a.peers[a.ruler[t]].role != Candidate)
  }

  ghost predicate RulersOk(a: Core) {
    forall t: nat {:trigger RulerOk(a, t)} :: t in a.reign && t > 0 ==> RulerOk(a, t)
  }

  ghost predicate AckOk(a: Core, q: nat, t: nat)
    requires (q, t) in a.acks
  {
    q < |a.peers| && t in a.reign && a.acks[(q, t)] < |a.reign[t]| && t <= a.peers[q].term
  }

  ghost predicate AcksOk(a: Core) {
    forall q: nat, t: nat {:trigger AckOk(a, q, t)} :: (q, t) in a.acks ==> AckOk(a, q, t)
  }

  // A server that acknowledged entry i of term t still stores it, unless the
  // entry can no longer be committed.
  ghost predicate Kept(a: Core, q: nat, t: nat, i: int)
    requires q < |a.peers| && t in a.reign
  {
    Agree(a.peers[q].log, a.reign[t], i) || Blocked(a, t, i)
  }

  ghost predicate KeptAll(a: Core) {
    forall q: nat, t: nat, i: int {:trigger Kept(a, q, t, i)} ::
      q < |a.peers| && Acked(a, q, t, i) && Own(a, t, i) ==> Kept(a, q, t, i)
  }

  // The leader of term u has entry i of the earlier term t, unless ...
  ghost predicate Carried(a: Core, t: nat, u: nat, i: int)
    requires t in a.reign && u in a.reign
  {
    Agree(a.reign[u], a.reign[t], i) || Blocked(a, t, i)
  }

  ghost predicate CarriedAll(a: Core) {
    forall t: nat, u: nat, i: int {:trigger Carried(a, t, u, i)} ::
      u in a.reign && t < u && Own(a, t, i) ==> Carried(a, t, u, i)
  }

  // A candidate of term u that got q's vote has what q acknowledged before, unless ...
  ghost predicate VoteSafe(a: Core, q: nat, u: nat, t: nat, i: int)
    requires (q, u) in a.votes && (a.votes[(q, u)], u) in a.bids && t in a.reign
  {
    Agree(a.bids[(a.votes[(q, u)], u)], a.reign[t], i) || Blocked(a, t, i)
  }

  ghost predicate VotesSafe(a: Core)
    requires VotesOk(a)
  {
    forall q: nat, u: nat, t: nat, i: int {:trigger VoteSafe(a, q, u, t, i)} ::
      (q, u) in a.votes && VoteOk(a, q, u) && t < u && Acked(a, q, t, i) && Own(a, t, i) ==> VoteSafe(a, q, u, t, i)
  }

  ghost predicate Basic(a: Core) {
    Sane(a) && ReignsOk(a.reign) && PeersOk(a) && BidsOk(a) && VotesOk(a) && RulersOk(a) && AcksOk(a)
  }

  ghost predicate Inv(a: Core) {
    Basic(a) && KeptAll(a) && CarriedAll(a) && VotesSafe(a)
  }

  // ---------- the steps ----------

  function SetPeer(a: Core, s: nat, p: Peer): Core
    requires s < |a.peers|
  {
    a.(peers := a.peers[s := p])
  }

  // A message or reply of a later term arrives.
  function Advance(a: Core, s: nat, t: nat): Core
    requires s < |a.peers| && t > a.peers[s].term
  {
    SetPeer(a, s, a.peers[s].(role := Follower, term := t, voted := -1, voters := {}))
  }

  // Any change of the volatile part only: back to follower, commit no higher than it was.
  function Demote(a: Core, s: nat, c: nat): Core
    requires s < |a.peers| && c <= a.peers[s].commit
  {
    SetPeer(a, s, a.peers[s].(role := Follower, commit := c, voters := {}))
  }

  // The election timer fires.
  function Campaign(a: Core, s: nat): Core
    requires s < |a.peers|
  {
    var p := a.peers[s];
    var t := p.term + 1;
    SetPeer(a, s, p.(role := Candidate, term := t, voted := s, voters := {s}))
      .(votes := a.votes[(s, t) := s], bids := a.bids[(s, t) := p.log])
  }

  // Section 5.4.1 of the Raft paper: which of two logs is more up to date.
  predicate UpToDate(candTerm: nat, candIndex: int, myTerm: nat, myIndex: int) {
    candTerm > myTerm || (candTerm == myTerm && candIndex >= myIndex)
  }

  function LastTerm(log: Log): nat
    requires |log| > 0
  {
    log[|log| - 1].term
  }

  // Server s votes for candidate c in its current term.
  function Grant(a: Core, s: nat, c: nat): Core
    requires s < |a.peers|
  {
    var p := a.peers[s];
    SetPeer(a, s, p.(voted := c)).(votes := a.votes[(s, p.term) := c])
  }

  ghost predicate MayGrant(a: Core, s: nat, c: nat) {
    s < |a.peers| &&
    var p := a.peers[s];
    && (p.voted == -1 || p.voted == c)
    && (c, p.term) in a.bids
    && var bid := a.bids[(c, p.term)];
    && |bid| > 0 && |p.log| > 0
    && UpToDate(LastTerm(bid), |bid| - 1, LastTerm(p.log), |p.log| - 1)
  }

  // A candidate counts q's vote.
  function CountVote(a: Core, s: nat, q: nat): Core
    requires s < |a.peers|
  {
    SetPeer(a, s, a.peers[s].(voters := a.peers[s].voters + {q}))
  }

  // A candidate with a majority becomes leader.
  function Elect(a: Core, s: nat): Core
    requires s < |a.peers| && |a.peers[s].log| > 0
  {
    var p := a.peers[s];
    SetPeer(a, s, p.(role := Leader))
      .(reign := a.reign[p.term := p.log], ruler := a.ruler[p.term := s],
        acks := a.acks[(s, p.term) := |p.log| - 1])
  }

  // Start: the leader appends a client command.
  function Propose(a: Core, s: nat, cmd: Command): Core
    requires s < |a.peers|
  {
    var p := a.peers[s];
    var log := p.log + [Entry(p.term, cmd)];
    SetPeer(a, s, p.(log := log))
      .(reign := a.reign[p.term := log], acks := a.acks[(s, p.term) := |log| - 1])
  }

  // A log after the first m+1 entries of a leader's have been taken over.
  ghost function Follow(log: Log, lead: Log, m: nat): Log
    requires m < |lead|
  {
    if Agree(log, lead, m) then log else lead[..m + 1]
  }

  // Server s takes over the first m+1 entries of the leader of its term, and learns that c is committed.
  ghost function Adopt(a: Core, s: nat, m: nat, c: nat): Core
    requires s < |a.peers| && a.peers[s].term in a.reign && m < |a.reign[a.peers[s].term]|
  {
    var p := a.peers[s];
    var lead := a.reign[p.term];
    var ack := if (s, p.term) in a.acks && a.acks[(s, p.term)] > m then a.acks[(s, p.term)] else m;
    SetPeer(a, s, p.(role := Follower, log := Follow(p.log, lead, m), commit := if c > p.commit then c else p.commit, voters := {}))
      .(acks := a.acks[(s, p.term) := ack])
  }

  ghost predicate MayAdopt(a: Core, s: nat, m: nat, c: nat) {
    s < |a.peers| && var t := a.peers[s].term;
    && t in a.reign && m < |a.reign[t]| && c <= m
    && Covered(a, a.reign[t], c, t)
  }

  // A boundary has moved during the delivery of a snapshot.
  function Upset(a: Core): Core {
    a.(calm := false)
  }

  // The leader commits index j.
  function Decide(a: Core, s: nat, j: nat): Core
    requires s < |a.peers|
  {
    SetPeer(a, s, a.peers[s].(commit := j))
  }
}
