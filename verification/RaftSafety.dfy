// What every run of the cluster guarantees.
module RaftSafety {
  import opened Options
  import opened Quorums
  import opened Kv
  import opened RaftLog
  import opened RaftCore
  import opened RaftCoreProof
  import opened RaftNode
  import opened RaftCluster
  import opened RaftRefinement

  // ---------- consequences of the core invariant ----------

  // Leader completeness, section 5.4 of the Raft paper.
  lemma CoreLeaderCompleteness(a: Core, t: nat, i: int, u: nat)
    requires Inv(a) && Committed(a, t, i) && u in a.reign && t <= u
    ensures Agree(a.reign[u], a.reign[t], i)
  {
    CommittedNotBlocked(a, t, i);
    if t < u { assert Carried(a, t, u, i); }
  }

  lemma CoreLogMatching(a: Core, p: nat, q: nat, i: int)
    requires ReignsOk(a.reign) && p < |a.peers| && q < |a.peers| && PeerOk(a, p) && PeerOk(a, q)
    requires 0 <= i < |a.peers[p].log| && i < |a.peers[q].log| && a.peers[p].log[i].term == a.peers[q].log[i].term
    ensures Agree(a.peers[p].log, a.peers[q].log, i)
  {
    var y := a.peers[q].log;
    assert EntryOk(a.reign, LastTerm(y), i);
    LogMatch(a.reign, a.peers[p].log, a.peers[p].term, y[i].term, i);
  }

  // What a core peer knows committed, every later leader has.
  lemma CommittedReaches(a: Core, log: Log, c: nat, t: nat, u: nat)
    requires Inv(a) && Covered(a, log, c, t) && t <= u && u in a.reign && log[0] == DUMMY
    ensures Agree(log, a.reign[u], c)
  {
    if c > 0 {
      var t0: nat, j :| t0 <= t && CoveredBy(a, log, c, t0, j);
      CoreLeaderCompleteness(a, t0, j, u);
    }
  }

  // Any two committed prefixes agree as far as both reach.
  lemma CoveredTogether(a: Core, x: Log, c: nat, xb: nat, y: Log, d: nat, yb: nat)
    requires Inv(a) && Covered(a, x, c, xb) && Covered(a, y, d, yb) && c <= d
    requires x[0] == y[0]
    ensures Agree(x, y, c)
  {
    if c > 0 {
      var t: nat, i :| t <= xb && CoveredBy(a, x, c, t, i);
      var u: nat, j :| u <= yb && CoveredBy(a, y, d, u, j);
      if t <= u {
        CoreLeaderCompleteness(a, t, i, u);
      } else {
        CoreLeaderCompleteness(a, u, j, t);
      }
    }
  }

  // ---------- runs ----------

  ghost function CoreInit(n: nat): Core {
    Core(seq(n, _ => Peer(Follower, 0, -1, [DUMMY], 0, {})), map[0 := [DUMMY]], map[], map[], map[], map[], true)
  }

  lemma InitOk(n: nat)
    requires n > 0
    ensures Inv(CoreInit(n)) && Sim(Init(n), CoreInit(n))
  {
    var a := CoreInit(n);
    assert EntryOk(a.reign, 0, 0);
    forall s: nat | s < n ensures ServerOk(a, s, Init(n).servers[s]) {
    }
  }

  lemma ExecSnoc(n: nat, acts: seq<Action>, act: Action)
    ensures Exec(n, acts + [act]) == Step(Exec(n, acts), act)
    ensures Steady(n, acts + [act]) <==> Steady(n, acts) && StepSteady(Exec(n, acts), act)
  {
    assert (acts + [act])[..|acts|] == acts;
  }

  // From any simulated moment of a run, any later moment is simulated by a later core state.
  lemma {:induction false} Onward(n: nat, acts: seq<Action>, more: seq<Action>, a: Core) returns (b: Core)
    requires Inv(a) && Sim(Exec(n, acts), a) && (a.calm <==> Steady(n, acts))
    ensures Inv(b) && Sim(Exec(n, acts + more), b) && Ext(a, b) && (b.calm <==> Steady(n, acts + more))
    decreases |more|
  {
    if more == [] {
      assert acts + more == acts;
      b := a;
    } else {
      var last := |more| - 1;
      var d := Onward(n, acts, more[..last], a);
      assert acts + more == (acts + more[..last]) + [more[last]];
      ExecSnoc(n, acts + more[..last], more[last]);
      b := SimStep(Exec(n, acts + more[..last]), d, more[last]);
      ExtTrans(a, d, b);
    }
  }

  lemma Simulated(n: nat, acts: seq<Action>) returns (a: Core)
    requires n > 0
    ensures Inv(a) && Sim(Exec(n, acts), a) && (a.calm <==> Steady(n, acts))
  {
    InitOk(n);
    assert [] + acts == acts;
    a := Onward(n, [], acts, CoreInit(n));
  }

  // What is known of one server at one moment, without the whole invariant.
  lemma Look(c: Cluster, a: Core, s: nat)
    requires Inv(a) && Sim(c, a) && s < |a.peers|
    ensures PeerOk(a, s) && ServerOk(a, s, c.servers[s]) && a.peers[s].log[0] == DUMMY
  {
    assert ServerOk(a, s, c.servers[s]);
    assert PeerOk(a, s);
    assert EntryOk(a.reign, LastTerm(a.peers[s].log), 0);
  }

  lemma EntryOf(a: Core, s: nat, n: Node, i: nat)
    requires s < |a.peers| && NodeOk(a, s, n) && n.inc <= i <= LastIndex(n)
    ensures i < |a.peers[s].log| && n.log[i - n.inc].term == a.peers[s].log[i].term
    ensures i > n.inc ==> n.log[i - n.inc] == a.peers[s].log[i]
  {
  }

  // ---------- election safety ----------

  // Two servers that lead the same term, at any two moments of a run with crashes
  // and lost, delayed, reordered or repeated messages, are the same server.
  lemma ElectionSafety(n: nat, acts: seq<Action>, more: seq<Action>, p: nat, q: nat)
    requires p < n && q < n
    requires Exec(n, acts).servers[p].node.role == Leader && Exec(n, acts + more).servers[q].node.role == Leader
    requires Exec(n, acts).servers[p].node.term == Exec(n, acts + more).servers[q].node.term
    ensures p == q
  {
    var a := Simulated(n, acts);
    var b := Onward(n, acts, more, a);
    assert ServerOk(a, p, Exec(n, acts).servers[p]) && ServerOk(b, q, Exec(n, acts + more).servers[q]);
    assert PeerOk(a, p) && PeerOk(b, q);
  }

  // At every moment the disk holds the volatile term, vote, log and boundary, so a
  // crash loses none of them.
  lemma CrashLosesNothing(n: nat, acts: seq<Action>, s: nat)
    requires s < n
    ensures var x := Exec(n, acts).servers[s].node; var y := Restart(x);
      y.term == x.term && y.voted == x.voted && y.log == x.log && y.inc == x.inc && y.incTerm == x.incTerm && y.snapshot == x.snapshot
  {
    var a := Simulated(n, acts);
    assert ServerOk(a, s, Exec(n, acts).servers[s]);
  }

  // The log is never empty, its first entry is the snapshot boundary's, and what is
  // applied and committed lies between the boundary and the end.
  lemma BoundaryHolds(n: nat, acts: seq<Action>, s: nat)
    requires s < n
    ensures var x := Exec(n, acts).servers[s].node;
      |x.log| > 0 && x.log[0].term == x.incTerm && x.inc <= x.commit <= LastIndex(x) && x.applied <= x.commit
  {
    var c := Exec(n, acts);
    var a := Simulated(n, acts);
    Look(c, a, s);
    EntryOf(a, s, c.servers[s].node, c.servers[s].node.inc);
  }

  // ---------- log matching ----------

  // The term a node records for index i, boundary included.
  function TermAt(x: Node, i: nat): nat
    requires |x.log| > 0 && x.inc <= i <= LastIndex(x)
  {
    x.log[i - x.inc].term
  }

  lemma LogMatching(n: nat, acts: seq<Action>, p: nat, q: nat, x: Node, y: Node, i: nat, j: nat)
    requires p < n && q < n && x == Exec(n, acts).servers[p].node && y == Exec(n, acts).servers[q].node
    requires x.inc <= i <= LastIndex(x) && y.inc <= i <= LastIndex(y) && TermAt(x, i) == TermAt(y, i)
    requires x.inc < j <= i && y.inc < j
    ensures x.log[j - x.inc] == y.log[j - y.inc]
  {
    var c := Exec(n, acts);
    var a := Simulated(n, acts);
    Look(c, a, p);
    Look(c, a, q);
    MatchEntries(a, p, q, x, y, i, j);
  }

  lemma MatchEntries(a: Core, p: nat, q: nat, x: Node, y: Node, i: nat, j: nat)
    requires ReignsOk(a.reign) && p < |a.peers| && q < |a.peers| && PeerOk(a, p) && PeerOk(a, q)
    requires NodeOk(a, p, x) && NodeOk(a, q, y)
    requires x.inc <= i <= LastIndex(x) && y.inc <= i <= LastIndex(y) && TermAt(x, i) == TermAt(y, i)
    requires x.inc < j <= i && y.inc < j
    ensures x.log[j - x.inc] == y.log[j - y.inc]
  {
    EntryOf(a, p, x, i);
    EntryOf(a, q, y, i);
    CoreLogMatching(a, p, q, i);
  }

  // ---------- leader completeness ----------

  // What a server knows committed at some moment is held, as log entry or inside
  // the snapshot prefix, by every leader of the same or a later term from then on.
  lemma LeaderCompleteness(n: nat, acts: seq<Action>, more: seq<Action>, p: nat, q: nat, x: Node, y: Node, i: nat)
    requires p < n && q < n && x == Exec(n, acts).servers[p].node && y == Exec(n, acts + more).servers[q].node
    requires x.inc < i <= x.commit && y.role == Leader && x.term <= y.term
    ensures i <= LastIndex(y) && i - x.inc < |x.log|
    ensures i <= y.inc || y.log[i - y.inc] == x.log[i - x.inc]
  {
    var a := Simulated(n, acts);
    var b := Onward(n, acts, more, a);
    Look(Exec(n, acts), a, p);
    Look(Exec(n, acts + more), b, q);
    CoveredStable(a, b, a.peers[p].log, x.commit, x.term, x.term);
    CommittedReaches(b, a.peers[p].log, x.commit, x.term, y.term);
    SameEntry(a, b, p, q, x, y, i);
  }

  lemma SameEntry(a: Core, b: Core, p: nat, q: nat, x: Node, y: Node, i: nat)
    requires p < |a.peers| && q < |b.peers| && NodeOk(a, p, x) && NodeOk(b, q, y) && x.inc < i
    requires Agree(a.peers[p].log, b.peers[q].log, i)
    ensures i <= LastIndex(y) && i - x.inc < |x.log|
    ensures i <= y.inc || y.log[i - y.inc] == x.log[i - x.inc]
  {
    EntryOf(a, p, x, i);
    if i > y.inc { EntryOf(b, q, y, i); }
  }

  // ---------- state machine safety ----------

  // Server sv has committed nothing but a prefix of log: its committed entries are read
  // off that log, and its boundary's term. In a steady run so are its snapshot and the
  // table of its service.
  ghost predicate Follows(sv: Server, log: Log, steady: bool) {
    var x := sv.node;
    && x.inc <= x.commit < |log| && x.commit <= LastIndex(x)
    && (forall i :: x.inc < i <= x.commit ==> x.log[i - x.inc] == log[i])
    && |x.log| > 0 && x.log[0].term == log[x.inc].term
    && sv.index <= x.commit && x.applied <= x.commit
    && (steady ==> Served(sv, log))
  }

  // The snapshot and the table are replays of the log, and raft and the service are in
  // step: the service is at lastApplied, but for what is being handed over.
  ghost predicate Served(sv: Server, log: Log)
    requires sv.node.inc < |log| && sv.index < |log|
  {
    && (sv.node.snapshot == Some(Replay(log, sv.node.inc)) || (sv.node.snapshot == None && sv.node.inc == 0))
    && sv.table == Replay(log, sv.index) && InStep(sv)
  }

  ghost predicate InStep(sv: Server) {
    match sv.offer
    case Nothing => sv.index == sv.node.applied
    case Next(i, cmd) => sv.index + 1 == i == sv.node.applied
    case Snap(i, data) => sv.index == sv.node.applied <= i
    case Taken(i) => sv.index == i >= sv.node.applied
  }

  ghost predicate AllFollow(c: Cluster, log: Log, steady: bool) {
    forall s {:trigger Follows(c.servers[s], log, steady)} :: 0 <= s < |c.servers| ==> Follows(c.servers[s], log, steady)
  }

  lemma ServedFrom(sv: Server, full: Log, log: Log)
    requires SnapshotOk(sv.node, full) && ServiceOk(full, sv) && sv.node.inc <= sv.node.commit && Agree(full, log, sv.node.commit)
    ensures Served(sv, log)
  {
    ReplayAgree(full, log, sv.index);
    ReplayAgree(full, log, sv.node.inc);
  }

  lemma FollowsFrom(a: Core, s: nat, sv: Server, log: Log)
    requires s < |a.peers| && ServerOk(a, s, sv) && Agree(a.peers[s].log, log, sv.node.commit)
    ensures Follows(sv, log, a.calm)
  {
    if a.calm { ServedFrom(sv, a.peers[s].log, log); }
  }

  lemma FollowsLonger(sv: Server, x: Log, y: Log, steady: bool)
    requires Follows(sv, x, steady) && x <= y
    ensures Follows(sv, y, steady)
  {
    ReplayAgree(x, y, sv.index);
    ReplayAgree(x, y, sv.node.inc);
  }

  ghost predicate WholeBy(a: Core, log: Log, bound: nat) {
    |log| > 0 && log[0] == DUMMY && Covered(a, log, |log| - 1, bound)
  }

  // log is committed as a whole.
  ghost predicate WholeCommitted(a: Core, log: Log) {
    exists bound: nat :: WholeBy(a, log, bound)
  }

  lemma WholeStable(a: Core, b: Core, log: Log)
    requires Ext(a, b) && WholeCommitted(a, log)
    ensures WholeCommitted(b, log)
  {
    var bound: nat :| WholeBy(a, log, bound);
    CoveredStable(a, b, log, |log| - 1, bound, bound);
    assert WholeBy(b, log, bound);
  }

  // Lengthen the committed log so that the first k servers follow it too.
  lemma {:induction false} Stretch(c: Cluster, a: Core, log: Log, k: nat) returns (longer: Log)
    requires Inv(a) && Sim(c, a) && WholeCommitted(a, log) && k <= |a.peers|
    ensures WholeCommitted(a, longer) && log <= longer
    ensures forall s {:trigger Follows(c.servers[s], longer, a.calm)} :: 0 <= s < k ==> Follows(c.servers[s], longer, a.calm)
    decreases k
  {
    if k == 0 {
      longer := log;
    } else {
      var l := Stretch(c, a, log, k - 1);
      longer := StretchOne(c, a, l, k - 1);
      forall s: nat | s < k - 1 ensures Follows(c.servers[s], longer, a.calm) {
        FollowsLonger(c.servers[s], l, longer, a.calm);
      }
    }
  }

  lemma StretchOne(c: Cluster, a: Core, log: Log, s: nat) returns (longer: Log)
    requires Inv(a) && Sim(c, a) && WholeCommitted(a, log) && s < |a.peers|
    ensures WholeCommitted(a, longer) && log <= longer && Follows(c.servers[s], longer, a.calm)
  {
    Look(c, a, s);
    var p := a.peers[s];
    var bound: nat :| WholeBy(a, log, bound);
    if p.commit < |log| {
      CoveredTogether(a, p.log, p.commit, p.term, log, |log| - 1, bound);
      longer := log;
    } else {
      CoveredTogether(a, log, |log| - 1, bound, p.log, p.commit, p.term);
      longer := p.log[..p.commit + 1];
      CoveredAgree(a, p.log, longer, p.commit, p.term);
      assert WholeBy(a, longer, p.term);
    }
    FollowsFrom(a, s, c.servers[s], longer);
  }

  // The main theorem. For every run there is one log that every server follows at
  // every moment: servers that committed the same index hold the same entry there and
  // no committed entry is ever replaced. As long as no boundary moves during a snapshot
  // delivery, snapshots are replays of that log too, and services at the same index
  // have the same table.
  lemma OneLog(n: nat, acts: seq<Action>) returns (log: Log)
    requires n > 0
    ensures log != [] && log[0] == DUMMY
    ensures forall k {:trigger acts[..k]} :: 0 <= k <= |acts| ==> AllFollow(Exec(n, acts[..k]), log, Steady(n, acts[..k]))
  {
    var a;
    log, a := GrowLog(n, acts);
  }

  lemma {:induction false} GrowLog(n: nat, acts: seq<Action>) returns (log: Log, a: Core)
    requires n > 0
    ensures Inv(a) && Sim(Exec(n, acts), a) && WholeCommitted(a, log) && (a.calm <==> Steady(n, acts))
    ensures forall k {:trigger acts[..k]} :: 0 <= k <= |acts| ==> AllFollow(Exec(n, acts[..k]), log, Steady(n, acts[..k]))
    decreases |acts|
  {
    if acts == [] {
      InitOk(n);
      a := CoreInit(n);
      assert WholeBy(a, [DUMMY], 0);
      log := Stretch(Init(n), a, [DUMMY], n);
    } else {
      var last := |acts| - 1;
      var before := acts[..last];
      var l, b := GrowLog(n, before);
      a := SimStep(Exec(n, before), b, acts[last]);
      WholeStable(b, a, l);
      log := Stretch(Exec(n, acts), a, l, n);
      forall k | 0 <= k <= |acts| ensures AllFollow(Exec(n, acts[..k]), log, Steady(n, acts[..k])) {
        AllFollowLonger(n, acts, before, l, log, k);
      }
    }
  }

  lemma AllFollowLonger(n: nat, acts: seq<Action>, before: seq<Action>, l: Log, log: Log, k: nat)
    requires k <= |acts| && |acts| > 0 && before == acts[..|acts| - 1] && l <= log
    requires forall j {:trigger before[..j]} :: 0 <= j <= |before| ==> AllFollow(Exec(n, before[..j]), l, Steady(n, before[..j]))
    requires AllFollow(Exec(n, acts), log, Steady(n, acts))
    ensures AllFollow(Exec(n, acts[..k]), log, Steady(n, acts[..k]))
  {
    if k == |acts| {
      assert acts[..k] == acts;
    } else {
      assert acts[..k] == before[..k];
      var c, steady := Exec(n, before[..k]), Steady(n, before[..k]);
      forall s: nat | s < |c.servers| ensures Follows(c.servers[s], log, steady) {
        FollowsLonger(c.servers[s], l, log, steady);
      }
    }
  }

  // What a server knows committed and still holds is what the log holds.
  lemma CommittedEntry(c: Cluster, log: Log, steady: bool, s: nat, x: Node, i: nat)
    requires AllFollow(c, log, steady) && s < |c.servers| && x == c.servers[s].node && x.inc < i <= x.commit
    ensures i - x.inc < |x.log| && i < |log| && x.log[i - x.inc] == log[i]
  {
    assert Follows(c.servers[s], log, steady);
  }

  // State machine safety in the form of section 5.4 of the Raft paper: x and y are
  // any two servers at any two moments of the run.
  lemma StateMachineSafety(n: nat, acts: seq<Action>, j: nat, k: nat, p: nat, q: nat, x: Node, y: Node, i: nat)
    requires p < n && q < n && j <= |acts| && k <= |acts|
    requires x == Exec(n, acts[..j]).servers[p].node && y == Exec(n, acts[..k]).servers[q].node
    requires x.inc < i <= x.commit && y.inc < i <= y.commit
    ensures i - x.inc < |x.log| && i - y.inc < |y.log| && x.log[i - x.inc] == y.log[i - y.inc]
  {
    var log := OneLog(n, acts);
    CommittedEntry(Exec(n, acts[..j]), log, Steady(n, acts[..j]), p, x, i);
    CommittedEntry(Exec(n, acts[..k]), log, Steady(n, acts[..k]), q, y, i);
  }

  // As long as no boundary moves during a snapshot delivery, replicas that have applied
  // the same number of commands have the same table, whether they got there by commands,
  // by a snapshot or through a restart.
  lemma ReplicasAgree(n: nat, acts: seq<Action>, j: nat, k: nat, p: nat, q: nat)
    requires p < n && q < n && j <= |acts| && k <= |acts| && Steady(n, acts[..j]) && Steady(n, acts[..k])
    requires Exec(n, acts[..j]).servers[p].index == Exec(n, acts[..k]).servers[q].index
    ensures Exec(n, acts[..j]).servers[p].table == Exec(n, acts[..k]).servers[q].table
  {
    var log := OneLog(n, acts);
    assert Follows(Exec(n, acts[..j]).servers[p], log, Steady(n, acts[..j]));
    assert Follows(Exec(n, acts[..k]).servers[q], log, Steady(n, acts[..k]));
  }
}
