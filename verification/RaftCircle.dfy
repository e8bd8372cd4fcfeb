// Probing always ends for exactly those boundaries of leader and follower for which the
// follower has not compacted further than the leader: for all others a run of three
// servers leads to a leader that probes for ever.
module RaftCircle {
  import opened Options
  import opened Kv
  import opened RaftLog
  import opened RaftCore
  import opened RaftNode
  import opened RaftCluster
  import opened RaftSafety
  import opened RaftProbing
  import opened RaftScenes

  const GET := Op(0, GetReq("k"))

  function Ones(k: nat): seq<Entry> {
    seq(k, _ => Entry(1, GET))
  }

  // f commands of term 1 from server 0, stored and committed at 0 and 1.
  function Full(f: nat): Log {
    [DUMMY] + Ones(f)
  }

  lemma Opening(f: nat) returns (acts: seq<Action>)
    requires f > 0
    ensures var c := Exec(3, acts);
      && Sight(c.servers[0]) == FRESH.(role := Leader, term := 1, log := Full(f), commit := f)
      && Sight(c.servers[1]) == FRESH.(term := 1, log := Full(f), commit := f)
      && Sight(c.servers[2]) == FRESH
  {
    var a := Win([], Init(3), 0, 1);
    var b := Submits(a, Exec(3, a), 0, GET, f);
    acts := Shares(b, Exec(3, b));
  }

  // Server 1 applies and compacts all of them, server 0 the first l.
  lemma Compactions(acts: seq<Action>, c: Cluster, l: nat, f: nat) returns (more: seq<Action>)
    requires c == Exec(3, acts) && l < f
    requires Sight(c.servers[0]) == FRESH.(role := Leader, term := 1, log := Full(f), commit := f)
    requires Sight(c.servers[1]) == FRESH.(term := 1, log := Full(f), commit := f)
    ensures var d := Exec(3, more); var v, u := Sight(d.servers[0]), Sight(d.servers[1]);
      && v.role == Leader && v.term == 1 && v.log == Full(f)[l..] && v.inc == l
      && u.role == Follower && u.term == 1 && u.log == [Entry(1, GET)] && u.inc == f
      && d.servers[2] == c.servers[2]
  {
    var a := Applies(acts, c, 1, f);
    var b := Cuts(a, Exec(3, a), 1);
    assert Full(f)[f..] == [Entry(1, GET)];
    if l == 0 {
      more := b;
      assert Full(f)[0..] == Full(f);
    } else {
      var d := Applies(b, Exec(3, b), 0, l);
      more := Cuts(d, Exec(3, d), 0);
    }
  }

  // Server 1 leads term 2 and gets one command that nobody else sees.
  lemma Alone(acts: seq<Action>, c: Cluster, f: nat) returns (more: seq<Action>)
    requires c == Exec(3, acts) && Sight(c.servers[2]) == FRESH
    requires var u := Sight(c.servers[1]); u.role == Follower && u.term == 1 && u.log == [Entry(1, GET)] && u.inc == f
    ensures var d := Exec(3, more); var u := Sight(d.servers[1]);
      && d.servers[0] == c.servers[0]
      && u.role == Leader && u.term == 2 && u.log == [Entry(1, GET), Entry(2, GET)] && u.inc == f
      && Sight(d.servers[2]) == FRESH.(term := 2)
  {
    var a := Win(acts, c, 1, 2);
    more := Submits(a, Exec(3, a), 1, GET, 1);
    assert seq(1, _ => Entry(2, GET)) == [Entry(2, GET)];
  }

  // Server 0 crashes, comes back as the leader of term 3 and appends a command.
  lemma ThirdTerm(acts: seq<Action>, c: Cluster, l: nat, f: nat) returns (more: seq<Action>)
    requires c == Exec(3, acts) && l < f && Sight(c.servers[2]) == FRESH.(term := 2)
    requires var v := Sight(c.servers[0]); v.term == 1 && v.log == Full(f)[l..] && v.inc == l
    ensures var d := Exec(3, more); var v := Sight(d.servers[0]);
      && d.servers[1] == c.servers[1]
      && v.role == Leader && v.term == 3 && v.log == Full(f)[l..] + [Entry(3, GET)] && v.inc == l
      && Sight(d.servers[2]) == FRESH.(term := 3)
  {
    var a := Crashes(acts, c, 0);
    var b := Expires(a, Exec(3, a), 0);
    var d := Win(b, Exec(3, b), 0, 2);
    more := Submits(d, Exec(3, d), 0, GET, 1);
    assert seq(1, _ => Entry(3, GET)) == [Entry(3, GET)];
  }

  // It crashes again and comes back as the leader of term 4.
  lemma FourthTerm(acts: seq<Action>, c: Cluster, l: nat, f: nat) returns (more: seq<Action>)
    requires c == Exec(3, acts) && l < f && Sight(c.servers[2]) == FRESH.(term := 3)
    requires var v := Sight(c.servers[0]); v.term == 3 && v.log == Full(f)[l..] + [Entry(3, GET)] && v.inc == l
    ensures var d := Exec(3, more); var v := Sight(d.servers[0]);
      && d.servers[1] == c.servers[1]
      && v.role == Leader && v.term == 4 && v.log == Full(f)[l..] + [Entry(3, GET)] && v.inc == l
      && AllNext(d.servers[0].node, f + 2)
  {
    var a := Crashes(acts, c, 0);
    EndsInThree(l, f);
    more := Win(a, Exec(3, a), 0, 2);
  }

  lemma EndsInThree(l: nat, f: nat)
    requires l < f
    ensures var log := Full(f)[l..] + [Entry(3, GET)]; |log| == f + 2 - l && LastTerm(log) == 3
  {
  }

  function PairAt(c: Cluster, s: nat, t: nat): Pair
    requires s < |c.servers| && t < |c.servers|
  {
    Pair(c.servers[s].node, c.servers[t].node)
  }

  // A run of three servers that ends with a leader compacted through l and a peer
  // compacted through f > l whose probing goes round for ever.
  lemma CircleReached(l: nat, f: nat) returns (acts: seq<Action>)
    requires l < f
    ensures Circling(PairAt(Exec(3, acts), 0, 1), 1, l, f)
  {
    var a := Opening(f);
    var b := Compactions(a, Exec(3, a), l, f);
    var d := Alone(b, Exec(3, b), f);
    var e := ThirdTerm(d, Exec(3, d), l, f);
    acts := FourthTerm(e, Exec(3, e), l, f);
    ItCircles(PairAt(Exec(3, acts), 0, 1), l, f);
  }

  lemma ItCircles(p: Pair, l: nat, f: nat)
    requires l < f && |p.leader.matched| == 3
    requires p.leader.role == Leader && p.leader.term == 4 && p.leader.log == Full(f)[l..] + [Entry(3, GET)] && p.leader.inc == l
    requires AllNext(p.leader, f + 2)
    requires p.follower.term == 2 && p.follower.log == [Entry(1, GET), Entry(2, GET)] && p.follower.inc == f
    ensures Circling(p, 1, l, f)
  {
    assert l == 0 ==> p.leader.log[0] == DUMMY;
  }

  // ---------- exactly when probing ends ----------

  // s leads and t is not ahead of it; they have compacted through l and f.
  ghost predicate Meet(c: Cluster, s: nat, t: nat, l: nat, f: nat) {
    && s < |c.servers| && t < |c.servers| && s != t
    && c.servers[s].node.role == Leader && c.servers[t].node.term <= c.servers[s].node.term
    && c.servers[s].node.inc == l && c.servers[t].node.inc == f
  }

  ghost predicate Ends(p: Pair, s: nat, t: nat) {
    Ready(p, t) && exists k: nat :: EndsIn(p, s, t, k)
  }

  // Whenever in any run a leader compacted through l probes a peer compacted through f,
  // undisturbed, the peer accepts entries or is sent a snapshot after some rounds.
  ghost predicate AlwaysEnds(l: nat, f: nat) {
    forall n: nat, acts: seq<Action>, s: nat, t: nat {:trigger Meet(Exec(n, acts), s, t, l, f)} ::
      n > 0 && Meet(Exec(n, acts), s, t, l, f) ==> Ends(PairAt(Exec(n, acts), s, t), s, t)
  }

  lemma MeetReady(n: nat, acts: seq<Action>, s: nat, t: nat, l: nat, f: nat)
    requires n > 0 && Meet(Exec(n, acts), s, t, l, f)
    ensures Ready(PairAt(Exec(n, acts), s, t), t)
  {
    BoundaryZero(n, acts, s);
    BoundaryZero(n, acts, t);
  }

  lemma ProbingEndsExactly(l: nat, f: nat)
    ensures AlwaysEnds(l, f) <==> f <= l
  {
    if f <= l {
      forall n: nat, acts: seq<Action>, s: nat, t: nat | n > 0 && Meet(Exec(n, acts), s, t, l, f)
        ensures Ends(PairAt(Exec(n, acts), s, t), s, t)
      {
        MeetReady(n, acts, s, t, l, f);
        ProbingEnds(PairAt(Exec(n, acts), s, t), s, t);
      }
    } else {
      var acts := CircleReached(l, f);
      var p := PairAt(Exec(3, acts), 0, 1);
      assert Meet(Exec(3, acts), 0, 1, l, f);
      forall k: nat ensures !EndsIn(p, 0, 1, k) { CirclesForEver(p, 0, 1, l, f, k); }
    }
  }
}
