// The invariant of RaftCore is kept by every step.
module RaftCoreProof {
  import opened Quorums
  import opened RaftLog
  import opened RaftCore

  // ---------- what every step keeps of the past ----------

  // b is a later state than a.
  ghost predicate Ext(a: Core, b: Core) {
    && |b.peers| == |a.peers|
    && (forall q :: 0 <= q < |a.peers| ==> a.peers[q].term <= b.peers[q].term)
    && (forall t :: t in a.reign ==> t in b.reign && a.reign[t] <= b.reign[t])
    && (forall t :: t in a.ruler && t in a.reign ==> t in b.ruler && b.ruler[t] == a.ruler[t])
    && (forall k :: k in a.votes ==> k in b.votes && b.votes[k] == a.votes[k])
    && (forall k :: k in a.bids ==> k in b.bids && b.bids[k] == a.bids[k])
    && (forall k :: k in a.acks ==> k in b.acks && a.acks[k] <= b.acks[k])
    && (forall q: nat, t: nat :: q < |a.peers| && (q, t) in b.acks && a.peers[q].term > t ==>
          (q, t) in a.acks && b.acks[(q, t)] == a.acks[(q, t)])
    && (b.calm ==> a.calm)
  }

  lemma ExtTrans(a: Core, b: Core, c: Core)
    requires Ext(a, b) && Ext(b, c)
    ensures Ext(a, c)
  {
  }

  lemma BlockedStable(a: Core, b: Core, t: nat, i: int)
    requires Ext(a, b) && Blocked(a, t, i)
    ensures Blocked(b, t, i)
  {
    var quorum :| BlockedBy(a, t, i, quorum);
    assert BlockedBy(b, t, i, quorum);
  }

  lemma CommittedStable(a: Core, b: Core, t: nat, i: int)
    requires Ext(a, b) && Committed(a, t, i)
    ensures Committed(b, t, i)
  {
    var quorum :| CommittedBy(a, t, i, quorum);
    assert CommittedBy(b, t, i, quorum);
  }

  lemma CoveredStable(a: Core, b: Core, log: Log, c: nat, t: nat, u: nat)
    requires Ext(a, b) && Covered(a, log, c, t) && t <= u
    ensures Covered(b, log, c, u)
  {
    if c > 0 {
      var t0: nat, j :| t0 <= t && CoveredBy(a, log, c, t0, j);
      CommittedStable(a, b, t0, j);
      assert CoveredBy(b, log, c, t0, j);
    }
  }

  lemma CommittedNotBlocked(a: Core, t: nat, i: int)
    requires Committed(a, t, i)
    ensures !Blocked(a, t, i)
  {
    if Blocked(a, t, i) {
      var p :| CommittedBy(a, t, i, p);
      var q :| BlockedBy(a, t, i, q);
      var m := QuorumsMeet(|a.peers|, p, q);
      assert false;
    }
  }

  // ---------- consequences of the invariant ----------

  // Terms along a leader's log never decrease.
  lemma TermsGrow(reign: map<nat, Log>, t: nat, i: int, j: int)
    requires ReignsOk(reign) && t in reign && 0 <= i <= j < |reign[t]|
    ensures reign[t][i].term <= reign[t][j].term <= t
  {
    assert EntryOk(reign, t, j);
    var u := reign[t][j].term;
    assert EntryOk(reign, u, i);
  }

  // Log matching: a log and a leader's log with the same term at i agree up to i.
  lemma LogMatch(reign: map<nat, Log>, log: Log, bound: nat, t: nat, i: int)
    requires ReignsOk(reign) && LogOk(reign, log, bound) && t in reign
    requires 0 <= i < |log| && i < |reign[t]| && log[i].term == reign[t][i].term
    ensures Agree(log, reign[t], i)
  {
    var u := log[|log| - 1].term;
    assert EntryOk(reign, u, i);
    assert EntryOk(reign, t, i);
  }

  // What a server knows committed is in the log of the leader of its term.
  lemma CommitInReign(a: Core, s: nat)
    requires Basic(a) && CarriedAll(a) && s < |a.peers| && a.peers[s].term in a.reign
    ensures Agree(a.peers[s].log, a.reign[a.peers[s].term], a.peers[s].commit)
  {
    var p := a.peers[s];
    assert PeerOk(a, s);
    if p.commit == 0 {
      assert EntryOk(a.reign, p.log[|p.log| - 1].term, 0);
    } else {
      var t: nat, j :| t <= p.term && CoveredBy(a, p.log, p.commit, t, j);
      CommittedNotBlocked(a, t, j);
      if t < p.term {
        assert Carried(a, t, p.term, j);
      }
    }
  }

  // ---------- steps that change no log and no history ----------

  ghost predicate SameHistory(a: Core, b: Core) {
    b == a.(peers := b.peers, calm := b.calm)
  }

  ghost predicate SameLogs(a: Core, b: Core) {
    |a.peers| == |b.peers| && forall q :: 0 <= q < |a.peers| ==> a.peers[q].log == b.peers[q].log
  }

  lemma QuietInv(a: Core, b: Core)
    requires Inv(a) && Ext(a, b) && SameHistory(a, b) && SameLogs(a, b) && PeersOk(b) && RulersOk(b)
    ensures Inv(b)
  {
    forall c: nat, t: nat | (c, t) in b.bids ensures BidOk(b, c, t) {
      assert BidOk(a, c, t);
    }
    forall q: nat, t: nat | (q, t) in b.votes ensures VoteOk(b, q, t) {
      assert VoteOk(a, q, t);
    }
    forall q: nat, t: nat | (q, t) in b.acks ensures AckOk(b, q, t) {
      assert AckOk(a, q, t);
    }
    forall q: nat, t: nat, i: int | q < |b.peers| && Acked(b, q, t, i) && Own(b, t, i) ensures Kept(b, q, t, i) {
      assert Acked(a, q, t, i) && Own(a, t, i);
      assert Kept(a, q, t, i);
      if Blocked(a, t, i) { BlockedStable(a, b, t, i); }
    }
    QuietCarried(a, b);
    QuietVotes(a, b);
  }

  lemma QuietCarried(a: Core, b: Core)
    requires CarriedAll(a) && Ext(a, b) && a.reign == b.reign
    ensures CarriedAll(b)
  {
    forall t: nat, u: nat, i: int | u in b.reign && t < u && Own(b, t, i) ensures Carried(b, t, u, i) {
      assert Own(a, t, i);
      assert Carried(a, t, u, i);
      if Blocked(a, t, i) { BlockedStable(a, b, t, i); }
    }
  }

  lemma QuietVotes(a: Core, b: Core)
    requires VotesOk(a) && VotesOk(b) && VotesSafe(a) && Ext(a, b)
    requires a.reign == b.reign && a.acks == b.acks && a.votes == b.votes
    ensures VotesSafe(b)
  {
    forall q: nat, u: nat, t: nat, i: int |
      (q, u) in b.votes && VoteOk(b, q, u) && t < u && Acked(b, q, t, i) && Own(b, t, i)
      ensures VoteSafe(b, q, u, t, i)
    {
      assert VoteOk(a, q, u) && Acked(a, q, t, i) && Own(a, t, i);
      assert VoteSafe(a, q, u, t, i);
      if Blocked(a, t, i) { BlockedStable(a, b, t, i); }
    }
  }

  // The other peers keep PeerOk when only peer s and nothing of their history changes.
  lemma OtherPeers(a: Core, b: Core, s: nat)
    requires PeersOk(a) && Ext(a, b) && s < |a.peers|
    requires forall q :: 0 <= q < |a.peers| && q != s ==> b.peers[q] == a.peers[q]
    requires forall q: nat, t: nat :: q != s && (q, t) in b.votes ==> (q, t) in a.votes
    requires forall t :: t in a.reign && (t in a.ruler ==> a.ruler[t] != s) ==> b.reign[t] == a.reign[t]
    ensures forall q: nat {:trigger PeerOk(b, q)} :: q < |b.peers| && q != s ==> PeerOk(b, q)
  {
    forall q: nat | q < |b.peers| && q != s ensures PeerOk(b, q) {
      assert PeerOk(a, q);
      var r := a.peers[q];
      CoveredStable(a, b, r.log, r.commit, r.term, r.term);
    }
  }

  lemma SameRulers(a: Core, b: Core, s: nat)
    requires RulersOk(a) && Ext(a, b) && s < |a.peers| && a.reign == b.reign
    requires forall q :: 0 <= q < |a.peers| && q != s ==> b.peers[q] == a.peers[q]
    requires b.peers[s].role == Candidate ==> a.peers[s].role == Candidate || a.peers[s].term < b.peers[s].term
    ensures RulersOk(b)
  {
    forall t: nat | t in b.reign && t > 0 ensures RulerOk(b, t) {
      assert RulerOk(a, t);
      var quorum :| ChosenBy(a, t, a.ruler[t], quorum);
      assert ChosenBy(b, t, a.ruler[t], quorum);
    }
  }

  lemma NoFutureVote(a: Core, s: nat, t: nat)
    requires VotesOk(a) && s < |a.peers| && t > a.peers[s].term
    ensures (s, t) !in a.votes
  {
    assert (s, t) in a.votes ==> VoteOk(a, s, t);
  }

  // One peer changes, and nothing of it that is history or log.
  lemma PeerQuiet(a: Core, b: Core, s: nat)
    requires Inv(a) && Ext(a, b) && SameHistory(a, b) && SameLogs(a, b) && s < |a.peers| && PeerOk(b, s)
    requires forall q :: 0 <= q < |a.peers| && q != s ==> b.peers[q] == a.peers[q]
    requires b.peers[s].role == Candidate ==> a.peers[s].role == Candidate || a.peers[s].term < b.peers[s].term
    ensures Inv(b)
  {
    OtherPeers(a, b, s);
    SameRulers(a, b, s);
    QuietInv(a, b);
  }

  lemma AdvancePeer(a: Core, s: nat, t: nat)
    requires s < |a.peers| && PeerOk(a, s) && t > a.peers[s].term && (s, t) !in a.votes
    requires Ext(a, Advance(a, s, t))
    ensures PeerOk(Advance(a, s, t), s)
  {
    var p := a.peers[s];
    CoveredStable(a, Advance(a, s, t), p.log, p.commit, p.term, t);
  }

  lemma AdvanceInv(a: Core, s: nat, t: nat)
    requires Inv(a) && s < |a.peers| && t > a.peers[s].term
    ensures Inv(Advance(a, s, t)) && Ext(a, Advance(a, s, t))
  {
    assert PeerOk(a, s);
    NoFutureVote(a, s, t);
    AdvancePeer(a, s, t);
    PeerQuiet(a, Advance(a, s, t), s);
  }

  lemma DemotePeer(a: Core, s: nat, c: nat)
    requires s < |a.peers| && PeerOk(a, s) && c <= a.peers[s].commit && Ext(a, Demote(a, s, c))
    ensures PeerOk(Demote(a, s, c), s)
  {
    var p := a.peers[s];
    CoveredStable(a, Demote(a, s, c), p.log, p.commit, p.term, p.term);
    CoveredShrink(Demote(a, s, c), p.log, p.commit, c, p.term);
  }

  lemma DemoteInv(a: Core, s: nat, c: nat)
    requires Inv(a) && s < |a.peers| && c <= a.peers[s].commit
    ensures Inv(Demote(a, s, c)) && Ext(a, Demote(a, s, c))
  {
    assert PeerOk(a, s);
    DemotePeer(a, s, c);
    PeerQuiet(a, Demote(a, s, c), s);
  }

  lemma UpsetPeer(a: Core, s: nat)
    requires s < |a.peers| && PeerOk(a, s) && Ext(a, Upset(a))
    ensures PeerOk(Upset(a), s)
  {
    var p := a.peers[s];
    CoveredStable(a, Upset(a), p.log, p.commit, p.term, p.term);
  }

  lemma UpsetInv(a: Core)
    requires Inv(a)
    ensures Inv(Upset(a)) && Ext(a, Upset(a))
  {
    assert PeerOk(a, 0);
    UpsetPeer(a, 0);
    PeerQuiet(a, Upset(a), 0);
  }

  lemma CoveredShrink(a: Core, log: Log, c: nat, d: nat, t: nat)
    requires Covered(a, log, c, t) && d <= c
    ensures Covered(a, log, d, t)
  {
    if d > 0 {
      var t0: nat, j :| t0 <= t && CoveredBy(a, log, c, t0, j);
      assert CoveredBy(a, log, d, t0, j);
    }
  }

  lemma CountVotePeer(a: Core, s: nat, q: nat)
    requires s < |a.peers| && PeerOk(a, s) && q < |a.peers| && Ext(a, CountVote(a, s, q))
    requires (q, a.peers[s].term) in a.votes && a.votes[(q, a.peers[s].term)] == s
    ensures PeerOk(CountVote(a, s, q), s)
  {
    var p := a.peers[s];
    CoveredStable(a, CountVote(a, s, q), p.log, p.commit, p.term, p.term);
  }

  lemma CountVoteInv(a: Core, s: nat, q: nat)
    requires Inv(a) && s < |a.peers| && a.peers[s].role == Candidate
    requires (q, a.peers[s].term) in a.votes && a.votes[(q, a.peers[s].term)] == s
    ensures Inv(CountVote(a, s, q)) && Ext(a, CountVote(a, s, q))
  {
    assert PeerOk(a, s);
    assert VoteOk(a, q, a.peers[s].term);
    CountVotePeer(a, s, q);
    PeerQuiet(a, CountVote(a, s, q), s);
  }

  lemma DecidePeer(a: Core, s: nat, j: nat)
    requires s < |a.peers| && PeerOk(a, s) && a.peers[s].role == Leader && Ext(a, Decide(a, s, j))
    requires Committed(a, a.peers[s].term, j)
    ensures PeerOk(Decide(a, s, j), s)
  {
    var b := Decide(a, s, j);
    CommittedStable(a, b, a.peers[s].term, j);
    assert CoveredBy(b, b.peers[s].log, j, b.peers[s].term, j);
  }

  // The leader commits an entry of its own term that a majority acknowledged.
  lemma DecideInv(a: Core, s: nat, j: nat, quorum: set<nat>)
    requires Inv(a) && s < |a.peers| && a.peers[s].role == Leader
    requires Own(a, a.peers[s].term, j) && CommittedBy(a, a.peers[s].term, j, quorum)
    ensures Inv(Decide(a, s, j)) && Ext(a, Decide(a, s, j))
    ensures Committed(a, a.peers[s].term, j)
  {
    assert PeerOk(a, s);
    DecidePeer(a, s, j);
    PeerQuiet(a, Decide(a, s, j), s);
  }

  // ---------- elections ----------

  lemma BidsGrow(a: Core, b: Core)
    requires BidsOk(a) && Ext(a, b)
    ensures forall c: nat, t: nat :: (c, t) in a.bids ==> (c, t) in b.bids && BidOk(b, c, t)
  {
    forall c: nat, t: nat | (c, t) in a.bids ensures (c, t) in b.bids && BidOk(b, c, t) {
      assert BidOk(a, c, t);
    }
  }

  lemma VotesGrow(a: Core, b: Core)
    requires VotesOk(a) && Ext(a, b)
    ensures forall q: nat, t: nat :: (q, t) in a.votes ==> (q, t) in b.votes && VoteOk(b, q, t)
  {
    forall q: nat, t: nat | (q, t) in a.votes ensures (q, t) in b.votes && VoteOk(b, q, t) {
      assert VoteOk(a, q, t);
    }
  }

  lemma AcksGrow(a: Core, b: Core)
    requires AcksOk(a) && Ext(a, b)
    requires b.acks == a.acks
    ensures AcksOk(b)
  {
    forall q: nat, t: nat | (q, t) in b.acks ensures AckOk(b, q, t) {
      assert AckOk(a, q, t);
    }
  }

  lemma CampaignExt(a: Core, s: nat)
    requires Inv(a) && s < |a.peers|
    ensures Ext(a, Campaign(a, s))
  {
    var t := a.peers[s].term + 1;
    NoFutureVote(a, s, t);
    assert (s, t) in a.bids ==> BidOk(a, s, t);
  }

  lemma CampaignPeer(a: Core, s: nat)
    requires s < |a.peers| && PeerOk(a, s) && Ext(a, Campaign(a, s))
    ensures PeerOk(Campaign(a, s), s) && BidOk(Campaign(a, s), s, a.peers[s].term + 1)
  {
    var p := a.peers[s];
    CoveredStable(a, Campaign(a, s), p.log, p.commit, p.term, p.term + 1);
  }

  lemma CampaignBasic(a: Core, s: nat)
    requires Inv(a) && s < |a.peers|
    ensures Basic(Campaign(a, s))
  {
    var b := Campaign(a, s);
    CampaignExt(a, s);
    OtherPeers(a, b, s);
    assert PeerOk(a, s);
    CampaignPeer(a, s);
    SameRulers(a, b, s);
    BidsGrow(a, b);
    VotesGrow(a, b);
    AcksGrow(a, b);
  }

  lemma CampaignInv(a: Core, s: nat)
    requires Inv(a) && s < |a.peers|
    ensures Inv(Campaign(a, s)) && Ext(a, Campaign(a, s))
  {
    var b := Campaign(a, s);
    var w := a.peers[s].term + 1;
    CampaignBasic(a, s);
    CampaignExt(a, s);
    LogsKept(a, b);
    QuietCarried(a, b);
    forall q: nat, u: nat, t: nat, i: int |
      (q, u) in b.votes && VoteOk(b, q, u) && t < u && Acked(b, q, t, i) && Own(b, t, i)
      ensures VoteSafe(b, q, u, t, i)
    {
      assert Acked(a, q, t, i) && Own(a, t, i);
      if q == s && u == w {
        assert Kept(a, s, t, i);
      } else {
        assert VoteOk(a, q, u);
        assert VoteSafe(a, q, u, t, i);
      }
      if Blocked(a, t, i) { BlockedStable(a, b, t, i); }
    }
  }

  lemma LogsKept(a: Core, b: Core)
    requires KeptAll(a) && Ext(a, b) && SameLogs(a, b) && a.reign == b.reign && a.acks == b.acks
    ensures KeptAll(b)
  {
    forall q: nat, t: nat, i: int | q < |b.peers| && Acked(b, q, t, i) && Own(b, t, i) ensures Kept(b, q, t, i) {
      assert Acked(a, q, t, i) && Own(a, t, i);
      assert Kept(a, q, t, i);
      if Blocked(a, t, i) { BlockedStable(a, b, t, i); }
    }
  }

  lemma GrantExt(a: Core, s: nat, c: nat)
    requires Inv(a) && MayGrant(a, s, c)
    ensures Ext(a, Grant(a, s, c))
  {
    assert PeerOk(a, s);
  }

  lemma GrantBasic(a: Core, s: nat, c: nat)
    requires Inv(a) && MayGrant(a, s, c)
    ensures Basic(Grant(a, s, c))
  {
    var b := Grant(a, s, c);
    GrantExt(a, s, c);
    OtherPeers(a, b, s);
    assert PeerOk(b, s) by {
      assert PeerOk(a, s);
      CoveredStable(a, b, a.peers[s].log, a.peers[s].commit, a.peers[s].term, a.peers[s].term);
    }
    SameRulers(a, b, s);
    BidsGrow(a, b);
    VotesGrow(a, b);
    AcksGrow(a, b);
    assert VoteOk(b, s, a.peers[s].term);
  }

  // The up-to-date check: a bid that passes it has every entry i of an earlier
  // term t that the voter's log has, unless that entry can no longer be committed.
  lemma UpToDateCarries(a: Core, log: Log, bid: Log, v: nat, w: nat, t: nat, i: int)
    requires ReignsOk(a.reign) && CarriedAll(a) && LogOk(a.reign, log, v) && LogOk(a.reign, bid, w)
    requires UpToDate(LastTerm(bid), |bid| - 1, LastTerm(log), |log| - 1)
    requires Own(a, t, i) && Agree(log, a.reign[t], i)
    ensures Agree(bid, a.reign[t], i) || Blocked(a, t, i)
  {
    var u := LastTerm(log);
    var x := LastTerm(bid);
    TermsGrow(a.reign, u, i, |log| - 1);
    assert t <= u;
    if x == t {
      assert u == t;
    } else {
      assert t < x;
      assert Carried(a, t, x, i);
      if Agree(a.reign[x], a.reign[t], i) && |bid| - 1 < i {
        TermsGrow(a.reign, x, |bid| - 1, i);
      }
    }
  }

  lemma GrantInv(a: Core, s: nat, c: nat)
    requires Inv(a) && MayGrant(a, s, c)
    ensures Inv(Grant(a, s, c)) && Ext(a, Grant(a, s, c))
  {
    var b := Grant(a, s, c);
    var w := a.peers[s].term;
    GrantBasic(a, s, c);
    GrantExt(a, s, c);
    LogsKept(a, b);
    QuietCarried(a, b);
    forall q: nat, u: nat, t: nat, i: int |
      (q, u) in b.votes && VoteOk(b, q, u) && t < u && Acked(b, q, t, i) && Own(b, t, i)
      ensures VoteSafe(b, q, u, t, i)
    {
      assert Acked(a, q, t, i) && Own(a, t, i);
      if q == s && u == w {
        assert Kept(a, s, t, i);
        if Agree(a.peers[s].log, a.reign[t], i) {
          assert PeerOk(a, s) && BidOk(a, c, w);
          UpToDateCarries(a, a.peers[s].log, a.bids[(c, w)], w, w - 1, t, i);
        }
      } else {
        assert VoteOk(a, q, u);
        assert VoteSafe(a, q, u, t, i);
      }
      if Blocked(a, t, i) { BlockedStable(a, b, t, i); }
    }
  }

  ghost predicate MayElect(a: Core, s: nat) {
    s < |a.peers| && a.peers[s].role == Candidate && |a.peers[s].log| > 0
    && Quorum(|a.peers|, a.peers[s].voters)
  }

  // Election safety: a term has no leader yet when a candidate of that term wins.
  lemma NoRulerYet(a: Core, s: nat)
    requires Basic(a) && MayElect(a, s)
    ensures a.peers[s].term !in a.reign
  {
    var t := a.peers[s].term;
    assert PeerOk(a, s);
    assert BidOk(a, s, t);
    if t in a.reign {
      assert RulerOk(a, t);
      var quorum :| ChosenBy(a, t, a.ruler[t], quorum);
      var m := QuorumsMeet(|a.peers|, quorum, a.peers[s].voters);
      assert false;
    }
  }

  lemma ElectReigns(a: Core, s: nat)
    requires Basic(a) && MayElect(a, s)
    ensures ReignsOk(Elect(a, s).reign)
  {
    var b := Elect(a, s);
    var w := a.peers[s].term;
    NoRulerYet(a, s);
    assert PeerOk(a, s);
    assert BidOk(a, s, w);
    var log := a.peers[s].log;
    var x := log[|log| - 1].term;
    forall t: nat, i: int | t in b.reign && 0 <= i < |b.reign[t]| ensures EntryOk(b.reign, t, i) {
      if t == w {
        assert EntryOk(a.reign, x, i);
      } else {
        assert EntryOk(a.reign, t, i);
      }
    }
    assert EntryOk(a.reign, x, 0);
  }

  lemma ElectExt(a: Core, s: nat)
    requires Basic(a) && MayElect(a, s)
    ensures Ext(a, Elect(a, s))
  {
    NoRulerYet(a, s);
    assert (s, a.peers[s].term) in a.acks ==> AckOk(a, s, a.peers[s].term);
  }

  lemma ElectBasic(a: Core, s: nat)
    requires Inv(a) && MayElect(a, s)
    ensures Basic(Elect(a, s))
  {
    var b := Elect(a, s);
    var w := a.peers[s].term;
    NoRulerYet(a, s);
    ElectExt(a, s);
    ElectReigns(a, s);
    OtherPeers(a, b, s);
    assert PeerOk(b, s) by {
      assert PeerOk(a, s);
      assert BidOk(a, s, w);
      CoveredStable(a, b, a.peers[s].log, a.peers[s].commit, w, w);
    }
    ElectRulers(a, s);
    BidsGrow(a, b);
    VotesGrow(a, b);
    forall q: nat, t: nat | (q, t) in b.acks ensures AckOk(b, q, t) {
      if (q, t) != (s, w) { assert AckOk(a, q, t); }
    }
  }

  lemma ElectRulers(a: Core, s: nat)
    requires Inv(a) && MayElect(a, s)
    ensures RulersOk(Elect(a, s))
  {
    var b := Elect(a, s);
    var w := a.peers[s].term;
    NoRulerYet(a, s);
    ElectExt(a, s);
    assert PeerOk(a, s);
    forall t: nat | t in b.reign && t > 0 ensures RulerOk(b, t) {
      if t == w {
        assert ChosenBy(b, w, s, a.peers[s].voters);
      } else {
        assert RulerOk(a, t);
        var quorum :| ChosenBy(a, t, a.ruler[t], quorum);
        assert ChosenBy(b, t, a.ruler[t], quorum);
      }
    }
  }

  // The heart of leader completeness: a newly elected leader has every entry of
  // an earlier term that could still be, or already is, committed.
  lemma WinnerCarries(a: Core, s: nat, t: nat, i: int)
    requires Inv(a) && MayElect(a, s) && t < a.peers[s].term && Own(a, t, i)
    ensures Agree(a.peers[s].log, a.reign[t], i) || Blocked(a, t, i)
  {
    var w := a.peers[s].term;
    var voters := a.peers[s].voters;
    assert PeerOk(a, s);
    if q :| q in voters && Acked(a, q, t, i) {
      assert VoteOk(a, q, w);
      assert VoteSafe(a, q, w, t, i);
    } else {
      forall q | q in voters ensures q < |a.peers| && a.peers[q].term > t && !Acked(a, q, t, i) {
        assert VoteOk(a, q, w);
      }
      assert BlockedBy(a, t, i, voters);
    }
  }

  lemma ElectInv(a: Core, s: nat)
    requires Inv(a) && MayElect(a, s)
    ensures Inv(Elect(a, s)) && Ext(a, Elect(a, s))
  {
    var b := Elect(a, s);
    var w := a.peers[s].term;
    NoRulerYet(a, s);
    ElectExt(a, s);
    ElectBasic(a, s);
    assert PeerOk(a, s);
    assert BidOk(a, s, w);
    forall i: int ensures !Own(b, w, i) {
      assert 0 < i < |b.reign[w]| ==> EntryOk(b.reign, w, i);
      OwnTooLate(a, s, i);
    }
    forall q: nat, t: nat, i: int | q < |b.peers| && Acked(b, q, t, i) && Own(b, t, i) ensures Kept(b, q, t, i) {
      assert t != w;
      assert Acked(a, q, t, i) && Own(a, t, i);
      assert Kept(a, q, t, i);
      if Blocked(a, t, i) { BlockedStable(a, b, t, i); }
    }
    ElectCarried(a, s);
    ElectVotes(a, s);
  }

  lemma OwnTooLate(a: Core, s: nat, i: int)
    requires Basic(a) && MayElect(a, s)
    ensures !Own(Elect(a, s), a.peers[s].term, i)
  {
    var w := a.peers[s].term;
    assert PeerOk(a, s);
    assert BidOk(a, s, w);
    var log := a.peers[s].log;
    if 0 < i < |log| {
      TermsGrow(a.reign, log[|log| - 1].term, i, |log| - 1);
    }
  }

  lemma ElectCarried(a: Core, s: nat)
    requires Inv(a) && MayElect(a, s)
    ensures CarriedAll(Elect(a, s))
  {
    var b := Elect(a, s);
    var w := a.peers[s].term;
    NoRulerYet(a, s);
    ElectExt(a, s);
    forall t: nat, u: nat, i: int | u in b.reign && t < u && Own(b, t, i) ensures Carried(b, t, u, i) {
      OwnTooLate(a, s, i);
      assert Own(a, t, i);
      if u == w {
        WinnerCarries(a, s, t, i);
      } else {
        assert Carried(a, t, u, i);
      }
      if Blocked(a, t, i) { BlockedStable(a, b, t, i); }
    }
  }

  lemma ElectVotes(a: Core, s: nat)
    requires Inv(a) && MayElect(a, s) && VotesOk(Elect(a, s))
    ensures VotesSafe(Elect(a, s))
  {
    var b := Elect(a, s);
    NoRulerYet(a, s);
    ElectExt(a, s);
    forall q: nat, u: nat, t: nat, i: int |
      (q, u) in b.votes && VoteOk(b, q, u) && t < u && Acked(b, q, t, i) && Own(b, t, i)
      ensures VoteSafe(b, q, u, t, i)
    {
      OwnTooLate(a, s, i);
      assert VoteOk(a, q, u) && Acked(a, q, t, i) && Own(a, t, i);
      assert VoteSafe(a, q, u, t, i);
      if Blocked(a, t, i) { BlockedStable(a, b, t, i); }
    }
  }

  // ---------- the leader's log grows ----------

  lemma ProposeExt(a: Core, s: nat, cmd: Command)
    requires Inv(a) && s < |a.peers| && a.peers[s].role == Leader
    ensures Ext(a, Propose(a, s, cmd))
  {
    assert PeerOk(a, s);
    assert AckOk(a, s, a.peers[s].term);
  }

  lemma ProposeReigns(a: Core, s: nat, cmd: Command)
    requires Basic(a) && s < |a.peers| && a.peers[s].role == Leader
    ensures ReignsOk(Propose(a, s, cmd).reign)
  {
    var b := Propose(a, s, cmd);
    var w := a.peers[s].term;
    assert PeerOk(a, s);
    forall t: nat, i: int | t in b.reign && 0 <= i < |b.reign[t]| ensures EntryOk(b.reign, t, i) {
      if !(t == w && i == |a.reign[w]|) {
        assert EntryOk(a.reign, t, i);
      }
    }
  }

  lemma ProposePeer(a: Core, s: nat, cmd: Command)
    requires s < |a.peers| && PeerOk(a, s) && a.peers[s].role == Leader && Ext(a, Propose(a, s, cmd))
    ensures PeerOk(Propose(a, s, cmd), s)
  {
    var b := Propose(a, s, cmd);
    var p := a.peers[s];
    CoveredStable(a, b, p.log, p.commit, p.term, p.term);
    CoveredGrow(b, p.log, b.peers[s].log, p.commit, p.term);
  }

  lemma ProposeRulers(a: Core, s: nat, cmd: Command)
    requires RulersOk(a) && s < |a.peers| && PeerOk(a, s) && a.peers[s].role == Leader && Ext(a, Propose(a, s, cmd))
    ensures RulersOk(Propose(a, s, cmd))
  {
    var b := Propose(a, s, cmd);
    forall t: nat | t in b.reign && t > 0 ensures RulerOk(b, t) {
      assert RulerOk(a, t);
      var quorum :| ChosenBy(a, t, a.ruler[t], quorum);
      assert ChosenBy(b, t, a.ruler[t], quorum);
    }
  }

  lemma ProposeAcks(a: Core, s: nat, cmd: Command)
    requires AcksOk(a) && s < |a.peers| && PeerOk(a, s) && a.peers[s].role == Leader && Ext(a, Propose(a, s, cmd))
    ensures AcksOk(Propose(a, s, cmd))
  {
    var b := Propose(a, s, cmd);
    forall q: nat, t: nat | (q, t) in b.acks ensures AckOk(b, q, t) {
      if (q, t) != (s, a.peers[s].term) { assert AckOk(a, q, t); }
    }
  }

  lemma ProposeBasic(a: Core, s: nat, cmd: Command)
    requires Inv(a) && s < |a.peers| && a.peers[s].role == Leader
    ensures Basic(Propose(a, s, cmd))
  {
    var b := Propose(a, s, cmd);
    ProposeExt(a, s, cmd);
    ProposeReigns(a, s, cmd);
    assert PeerOk(a, s);
    OtherPeers(a, b, s);
    ProposePeer(a, s, cmd);
    ProposeRulers(a, s, cmd);
    BidsGrow(a, b);
    VotesGrow(a, b);
    ProposeAcks(a, s, cmd);
  }

  lemma CoveredGrow(a: Core, log: Log, longer: Log, c: nat, t: nat)
    requires Covered(a, log, c, t) && log <= longer
    ensures Covered(a, longer, c, t)
  {
    if c > 0 {
      var t0: nat, j :| t0 <= t && CoveredBy(a, log, c, t0, j);
      assert CoveredBy(a, longer, c, t0, j);
    }
  }

  // Only the leader itself has acknowledged the entry it just created.
  lemma NewEntryAcks(a: Core, s: nat, cmd: Command, q: nat)
    requires Inv(a) && s < |a.peers| && a.peers[s].role == Leader
    requires Acked(Propose(a, s, cmd), q, a.peers[s].term, |a.peers[s].log|)
    ensures q == s
  {
    assert PeerOk(a, s);
    var w := a.peers[s].term;
    assert (q, w) in a.acks ==> AckOk(a, q, w);
  }

  // An entry created by a leader that a later term has already left behind can
  // never be committed.
  lemma NewEntryBlocked(a: Core, s: nat, cmd: Command, u: nat)
    requires Inv(a) && s < |a.peers| && a.peers[s].role == Leader
    requires u in a.reign && u > a.peers[s].term
    ensures Blocked(Propose(a, s, cmd), a.peers[s].term, |a.peers[s].log|)
  {
    var b := Propose(a, s, cmd);
    var w := a.peers[s].term;
    var i := |a.peers[s].log|;
    assert RulerOk(a, u);
    var quorum :| ChosenBy(a, u, a.ruler[u], quorum);
    forall q | q in quorum ensures q < |b.peers| && b.peers[q].term > w && !Acked(b, q, w, i) {
      assert VoteOk(a, q, u);
      if Acked(b, q, w, i) { NewEntryAcks(a, s, cmd, q); }
    }
    assert BlockedBy(b, w, i, quorum);
  }

  lemma ProposeInv(a: Core, s: nat, cmd: Command)
    requires Inv(a) && s < |a.peers| && a.peers[s].role == Leader
    ensures Inv(Propose(a, s, cmd)) && Ext(a, Propose(a, s, cmd))
  {
    var b := Propose(a, s, cmd);
    ProposeExt(a, s, cmd);
    ProposeBasic(a, s, cmd);
    ProposeKept(a, s, cmd);
    ProposeCarried(a, s, cmd);
    ProposeVotes(a, s, cmd);
  }

  lemma ProposeKept(a: Core, s: nat, cmd: Command)
    requires Inv(a) && s < |a.peers| && a.peers[s].role == Leader
    ensures KeptAll(Propose(a, s, cmd))
  {
    var b := Propose(a, s, cmd);
    var w := a.peers[s].term;
    ProposeExt(a, s, cmd);
    assert PeerOk(a, s);
    forall q: nat, t: nat, i: int | q < |b.peers| && Acked(b, q, t, i) && Own(b, t, i) ensures Kept(b, q, t, i) {
      if q == s && t == w {
      } else if t == w && i == |a.reign[w]| {
        NewEntryAcks(a, s, cmd, q);
      } else {
        assert Acked(a, q, t, i) && Own(a, t, i);
        assert Kept(a, q, t, i);
        if Blocked(a, t, i) { BlockedStable(a, b, t, i); }
      }
    }
  }

  lemma ProposeCarried(a: Core, s: nat, cmd: Command)
    requires Inv(a) && s < |a.peers| && a.peers[s].role == Leader
    ensures CarriedAll(Propose(a, s, cmd))
  {
    var b := Propose(a, s, cmd);
    var w := a.peers[s].term;
    ProposeExt(a, s, cmd);
    assert PeerOk(a, s);
    forall t: nat, u: nat, i: int | u in b.reign && t < u && Own(b, t, i) ensures Carried(b, t, u, i) {
      if t == w && i == |a.reign[w]| {
        NewEntryBlocked(a, s, cmd, u);
      } else {
        assert Own(a, t, i);
        assert Carried(a, t, u, i);
        if Blocked(a, t, i) { BlockedStable(a, b, t, i); }
      }
    }
  }

  lemma ProposeVotes(a: Core, s: nat, cmd: Command)
    requires Inv(a) && s < |a.peers| && a.peers[s].role == Leader && VotesOk(Propose(a, s, cmd))
    ensures VotesSafe(Propose(a, s, cmd))
  {
    var b := Propose(a, s, cmd);
    var w := a.peers[s].term;
    ProposeExt(a, s, cmd);
    assert PeerOk(a, s);
    forall q: nat, u: nat, t: nat, i: int |
      (q, u) in b.votes && VoteOk(b, q, u) && t < u && Acked(b, q, t, i) && Own(b, t, i)
      ensures VoteSafe(b, q, u, t, i)
    {
      assert VoteOk(a, q, u);
      if t == w && i == |a.reign[w]| {
        NewEntryAcks(a, s, cmd, q);
      }
      assert Acked(a, q, t, i) && Own(a, t, i);
      assert VoteSafe(a, q, u, t, i);
      if Blocked(a, t, i) { BlockedStable(a, b, t, i); }
    }
  }

  // ---------- a server takes over a prefix of its leader's log ----------

  lemma AdoptExt(a: Core, s: nat, m: nat, c: nat)
    requires MayAdopt(a, s, m, c)
    ensures Ext(a, Adopt(a, s, m, c))
  {
  }

  // Taking over a prefix keeps every entry up to the commit index, and the
  // result agrees with the leader through m.
  lemma AdoptLog(a: Core, s: nat, m: nat, c: nat)
    requires Inv(a) && MayAdopt(a, s, m, c)
    ensures var log := Adopt(a, s, m, c).peers[s].log;
      && Agree(log, a.reign[a.peers[s].term], m)
      && Agree(log, a.peers[s].log, a.peers[s].commit)
      && LogOk(a.reign, log, a.peers[s].term)
  {
    var t := a.peers[s].term;
    CommitInReign(a, s);
    assert PeerOk(a, s);
    assert EntryOk(a.reign, t, m);
  }

  lemma CoveredAgree(a: Core, x: Log, y: Log, c: nat, t: nat)
    requires Covered(a, x, c, t) && Agree(x, y, c)
    ensures Covered(a, y, c, t)
  {
    if c > 0 {
      var t0: nat, j :| t0 <= t && CoveredBy(a, x, c, t0, j);
      assert CoveredBy(a, y, c, t0, j);
    }
  }

  lemma AdoptPeer(a: Core, s: nat, m: nat, c: nat)
    requires MayAdopt(a, s, m, c) && PeerOk(a, s) && Ext(a, Adopt(a, s, m, c))
    requires var p := Adopt(a, s, m, c).peers[s];
      LogOk(a.reign, p.log, p.term) && Agree(a.reign[p.term], p.log, m) && Agree(a.peers[s].log, p.log, a.peers[s].commit)
    ensures PeerOk(Adopt(a, s, m, c), s)
  {
    var b := Adopt(a, s, m, c);
    var p := a.peers[s];
    if c > p.commit {
      CoveredAgree(a, a.reign[p.term], b.peers[s].log, c, p.term);
      CoveredStable(a, b, b.peers[s].log, c, p.term, p.term);
    } else {
      CoveredAgree(a, p.log, b.peers[s].log, p.commit, p.term);
      CoveredStable(a, b, b.peers[s].log, p.commit, p.term, p.term);
    }
  }

  lemma AdoptAcks(a: Core, s: nat, m: nat, c: nat)
    requires AcksOk(a) && MayAdopt(a, s, m, c) && Ext(a, Adopt(a, s, m, c))
    ensures AcksOk(Adopt(a, s, m, c))
  {
    var b := Adopt(a, s, m, c);
    forall q: nat, t: nat | (q, t) in b.acks ensures AckOk(b, q, t) {
      if (q, t) in a.acks { assert AckOk(a, q, t); }
    }
  }

  lemma AdoptBasic(a: Core, s: nat, m: nat, c: nat)
    requires Inv(a) && MayAdopt(a, s, m, c)
    ensures Basic(Adopt(a, s, m, c))
  {
    var b := Adopt(a, s, m, c);
    AdoptExt(a, s, m, c);
    AdoptLog(a, s, m, c);
    OtherPeers(a, b, s);
    assert PeerOk(a, s);
    AdoptPeer(a, s, m, c);
    SameRulers(a, b, s);
    BidsGrow(a, b);
    VotesGrow(a, b);
    AdoptAcks(a, s, m, c);
  }

  lemma AdoptInv(a: Core, s: nat, m: nat, c: nat)
    requires Inv(a) && MayAdopt(a, s, m, c)
    ensures Inv(Adopt(a, s, m, c)) && Ext(a, Adopt(a, s, m, c))
  {
    var b := Adopt(a, s, m, c);
    var w := a.peers[s].term;
    AdoptExt(a, s, m, c);
    AdoptBasic(a, s, m, c);
    QuietCarried(a, b);
    forall q: nat, t: nat, i: int | q < |b.peers| && Acked(b, q, t, i) && Own(b, t, i) ensures Kept(b, q, t, i) {
      AdoptKept(a, s, m, c, q, t, i);
    }
    forall q: nat, u: nat, t: nat, i: int |
      (q, u) in b.votes && VoteOk(b, q, u) && t < u && Acked(b, q, t, i) && Own(b, t, i)
      ensures VoteSafe(b, q, u, t, i)
    {
      assert VoteOk(a, q, u);
      assert (q, t) != (s, w);
      assert Acked(a, q, t, i) && Own(a, t, i);
      assert VoteSafe(a, q, u, t, i);
      if Blocked(a, t, i) { BlockedStable(a, b, t, i); }
    }
  }

  lemma AdoptKept(a: Core, s: nat, m: nat, c: nat, q: nat, t: nat, i: int)
    requires Inv(a) && MayAdopt(a, s, m, c) && Ext(a, Adopt(a, s, m, c))
    requires q < |a.peers| && Acked(Adopt(a, s, m, c), q, t, i) && Own(a, t, i)
    ensures Kept(Adopt(a, s, m, c), q, t, i)
  {
    var b := Adopt(a, s, m, c);
    var w := a.peers[s].term;
    AdoptLog(a, s, m, c);
    if q == s && t == w && i <= m {
      return;
    }
    assert Acked(a, q, t, i);
    assert Kept(a, q, t, i);
    if Blocked(a, t, i) {
      BlockedStable(a, b, t, i);
    } else if q == s {
      assert AckOk(a, s, t);
      if t < w {
        assert Carried(a, t, w, i);
      }
      assert Agree(a.peers[s].log, a.reign[w], i);
      if m <= i {
        assert b.peers[s].log == a.peers[s].log;
      }
    }
  }
}
