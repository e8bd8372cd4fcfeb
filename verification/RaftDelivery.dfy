// Snapshot delivery by the applier, in the two halves the code gives it: it hands the
// snapshot to the service with the lock released, then takes the lock again and moves
// lastApplied to whatever the boundary is by then.
module RaftDelivery {
  import opened Options
  import opened Kv
  import opened RaftLog
  import opened RaftCore
  import opened RaftNode
  import opened RaftCluster
  import opened RaftRefinement
  import opened RaftSafety
  import opened RaftScenes

  // ---------- exactly when raft and the service stay in step ----------

  // At every moment of the run every service is where raft believes it is.
  ghost predicate AlwaysInStep(n: nat, acts: seq<Action>) {
    forall k {:trigger acts[..k]} :: 0 <= k <= |acts| ==> AllInStep(Exec(n, acts[..k]))
  }

  ghost predicate AllInStep(c: Cluster) {
    forall s: nat {:trigger InStep(c.servers[s])} :: s < |c.servers| ==> InStep(c.servers[s])
  }

  lemma {:induction false} SteadyPrefix(n: nat, acts: seq<Action>, k: nat)
    requires Steady(n, acts) && k <= |acts|
    ensures Steady(n, acts[..k])
    decreases |acts|
  {
    if k == |acts| {
      assert acts[..k] == acts;
    } else {
      var before := acts[..|acts| - 1];
      SteadyPrefix(n, before, k);
      assert before[..k] == acts[..k];
    }
  }

  // A service that has just been handed a snapshot and was in step stays so when
  // lastApplied moves only if the boundary has not moved.
  lemma MoveInStep(c: Cluster, a: Action)
    requires Shape(c) && AllInStep(c) && AllInStep(Step(c, a))
    ensures StepSteady(c, a)
  {
    StepShape(c, a);
    if a.At? && a.what == MoveApplied && a.s < |c.servers| && c.servers[a.s].offer.Taken? {
      assert InStep(c.servers[a.s]);
      assert InStep(Step(c, a).servers[a.s]);
    }
  }

  lemma {:induction false} InStepSteady(n: nat, acts: seq<Action>)
    requires AlwaysInStep(n, acts)
    ensures Steady(n, acts)
    decreases |acts|
  {
    if acts != [] {
      var last := |acts| - 1;
      var before := acts[..last];
      forall k | 0 <= k <= |before| ensures AllInStep(Exec(n, before[..k])) {
        assert before[..k] == acts[..k];
      }
      InStepSteady(n, before);
      assert acts[..|acts|] == acts;
      MoveInStep(Exec(n, before), acts[last]);
    }
  }

  lemma FollowInStep(c: Cluster, log: Log)
    requires AllFollow(c, log, true)
    ensures AllInStep(c)
  {
    forall s: nat | s < |c.servers| ensures InStep(c.servers[s]) {
      assert Follows(c.servers[s], log, true);
    }
  }

  // For every run: raft and the services stay in step throughout if and only if no
  // boundary moves during the delivery of a snapshot.
  lemma DeliveryExactly(n: nat, acts: seq<Action>)
    requires n > 0
    ensures AlwaysInStep(n, acts) <==> Steady(n, acts)
  {
    if Steady(n, acts) {
      var log := OneLog(n, acts);
      forall k | 0 <= k <= |acts| ensures AllInStep(Exec(n, acts[..k])) {
        SteadyPrefix(n, acts, k);
        FollowInStep(Exec(n, acts[..k]), log);
      }
    }
    if AlwaysInStep(n, acts) { InStepSteady(n, acts); }
  }

  // When a boundary does move, the commands between where the service is and the new
  // boundary are passed over: the next one it gets is the one after the boundary, and it
  // applies that to the table of the old one.
  lemma MovedBoundarySkips(n: nat, acts: seq<Action>, s: nat) returns (log: Log)
    requires n > 0 && s < n && Steady(n, acts)
    requires var sv := Exec(n, acts).servers[s]; sv.offer.Taken? && sv.offer.index != sv.node.inc < sv.node.commit
    ensures var sv := Exec(n, acts).servers[s]; var h, i := sv.offer.index, sv.node.inc;
      var end := Exec(n, acts + [At(s, MoveApplied)] + [At(s, OfferNext)] + [At(s, TakeOffer)]).servers[s];
      && AllFollow(Exec(n, acts), log, true) && h < i && i + 1 < |log|
      && end.index == i + 1 && end.table == ApplyCmd(Replay(log, h), log[i + 1].cmd)
  {
    log := OneLog(n, acts);
    assert acts[..|acts|] == acts;
    var c := Exec(n, acts);
    assert Follows(c.servers[s], log, true);
    var a := Simulated(n, acts);
    Look(c, a, s);
    PassedOver(c.servers[s], log);
    ThreeSteps(n, acts, s);
  }

  lemma ThreeSteps(n: nat, acts: seq<Action>, s: nat)
    requires s < n
    ensures Exec(n, acts + [At(s, MoveApplied)] + [At(s, OfferNext)] + [At(s, TakeOffer)]).servers[s]
         == Taking(Offering(Moving(Exec(n, acts).servers[s])))
  {
    ExecSnoc(n, acts, At(s, MoveApplied));
    var b := acts + [At(s, MoveApplied)];
    ExecSnoc(n, b, At(s, OfferNext));
    ExecSnoc(n, b + [At(s, OfferNext)], At(s, TakeOffer));
  }

  lemma PassedOver(sv: Server, log: Log)
    requires Follows(sv, log, true) && sv.offer.Taken? && sv.offer.index <= sv.node.inc && sv.offer.index != sv.node.inc < sv.node.commit
    ensures var end := Taking(Offering(Moving(sv))); var h, i := sv.offer.index, sv.node.inc;
      h < i && i + 1 < |log| && end.index == i + 1 && end.table == ApplyCmd(Replay(log, h), log[i + 1].cmd)
  {
  }

  // ---------- a run in which it happens ----------

  const A := Op(0, PutReq("a", "x", 0))
  const B := Op(0, PutReq("b", "y", 0))
  const C := Op(0, PutReq("c", "z", 0))

  // The log of the run, and the table after each of its commands.
  const LOG: Log := [DUMMY, Entry(1, A), Entry(1, B), Entry(1, C)]
  const ONE: Table := map["a" := Row("x", 1)]
  const TWO: Table := ONE["b" := Row("y", 1)]
  const THREE: Table := TWO["c" := Row("z", 1)]

  // Server 0 leads term 1 and has these entries after the dummy; nobody else has any.
  ghost predicate Leads(c: Cluster, log: Log) {
    && |c.servers| == 3 && Fresh(c) && Sight(c.servers[2]) == FRESH
    && Sight(c.servers[0]) == FRESH.(role := Leader, term := 1, log := log)
  }

  lemma Starts() returns (acts: seq<Action>)
    ensures Leads(Exec(3, acts), [DUMMY, Entry(1, A)])
  {
    var a := Win([], Init(3), 0, 1);
    acts := Submits(a, Exec(3, a), 0, A, 1);
    assert [DUMMY] + seq(1, _ => Entry(1, A)) == [DUMMY, Entry(1, A)];
  }

  lemma OneMore(acts: seq<Action>, log: Log, cmd: Command) returns (more: seq<Action>)
    requires Leads(Exec(3, acts), log)
    ensures Leads(Exec(3, more), log + [Entry(1, cmd)])
  {
    more := Submits(acts, Exec(3, acts), 0, cmd, 1);
    assert seq(1, _ => Entry(1, cmd)) == [Entry(1, cmd)];
  }

  // Server 0 leads term 1 and commits three commands with server 1; server 2 hears nothing.
  lemma ThreePuts() returns (acts: seq<Action>)
    ensures var c := Exec(3, acts);
      && Sight(c.servers[0]) == FRESH.(role := Leader, term := 1, log := LOG, commit := 3)
      && Sight(c.servers[2]) == FRESH && |c.servers[0].node.next| == 3 && c.servers[0].node.next[2] == 1
  {
    var a := Starts();
    var b := OneMore(a, [DUMMY, Entry(1, A)], B);
    var d := OneMore(b, [DUMMY, Entry(1, A)] + [Entry(1, B)], C);
    assert [DUMMY, Entry(1, A)] + [Entry(1, B)] + [Entry(1, C)] == LOG;
    acts := Shares(d, Exec(3, d));
  }

  // Server 0 applies one more command and has raft compact it.
  lemma OneFurther(acts: seq<Action>, c: Cluster, i: nat, t: Table) returns (more: seq<Action>)
    requires c == Exec(3, acts) && i < 2 && t == ApplyCmd(c.servers[0].table, LOG[i + 1].cmd)
    requires var v := Sight(c.servers[0]);
      && v.role == Leader && v.term == 1 && v.log == LOG[i..] && v.inc == i && v.commit == 3 && v.applied == i && v.offer == Nothing
    ensures var d := Exec(3, more); var v := Sight(d.servers[0]);
      && v == Sight(c.servers[0]).(log := LOG[i + 1..], inc := i + 1, applied := i + 1, index := i + 1, table := t, snapshot := Some(t))
      && d.servers[1] == c.servers[1] && d.servers[2] == c.servers[2] && d.servers[0].node.next == c.servers[0].node.next && c.net <= d.net
    ensures NetKept(acts, more)
  {
    var a := Apply(acts, c, 0);
    more := Cuts(a, Exec(3, a), 0);
    assert LOG[i..][1..] == LOG[i + 1..];
  }

  // The snapshots through 1 and through 2 are both on their way to server 2.
  const FIRST := InstallArgs(1, 0, 1, 1, ONE)
  const SECOND := InstallArgs(1, 0, 2, 1, TWO)

  lemma TwoSnapshots() returns (acts: seq<Action>)
    ensures var c := Exec(3, acts);
      && Sight(c.servers[0]) == View(Leader, 1, LOG[2..], 2, 3, 3, Some(TWO), THREE, 3, Nothing)
      && Sight(c.servers[2]) == FRESH && InstallReq(2, FIRST) in c.net && InstallReq(2, SECOND) in c.net
      && |c.servers[0].node.next| == 3
  {
    var a := ThreePuts();
    assert LOG[0..] == LOG;
    var b := OneFurther(a, Exec(3, a), 0, ONE);
    var d := SendsSnapshot(b, Exec(3, b), 0, 2);
    assert InstallReq(2, FIRST) in Exec(3, d).net;
    var e := OneFurther(d, Exec(3, d), 1, TWO);
    var f := SendsSnapshot(e, Exec(3, e), 0, 2);
    assert InstallReq(2, SECOND) in Exec(3, f).net;
    acts := Apply(f, Exec(3, f), 0);
  }

  // Server 2 is handed the first; before lastApplied moves, the second is installed.
  lemma Overtaken(acts: seq<Action>, c: Cluster) returns (more: seq<Action>)
    requires c == Exec(3, acts) && Sight(c.servers[2]) == FRESH && InstallReq(2, FIRST) in c.net && InstallReq(2, SECOND) in c.net
    ensures var d := Exec(3, more);
      && d.servers[0] == c.servers[0] && InstallRep(0, 2, SECOND, 1) in d.net
      && Sight(d.servers[2]) == View(Follower, 1, [Entry(1, Nil)], 2, 2, 0, Some(TWO), ONE, 1, Taken(1))
    ensures NetKept(acts, more)
  {
    var a := GetsSnapshot(acts, c, 2, FIRST);
    var b := TakesSnapshot(a, Exec(3, a), 2);
    more := GetsSnapshot(b, Exec(3, b), 2, SECOND);
  }

  // Then it gets and applies the third command.
  lemma GoesOn(acts: seq<Action>, c: Cluster) returns (more: seq<Action>)
    requires c == Exec(3, acts) && InstallRep(0, 2, SECOND, 1) in c.net && |c.servers[0].node.next| == 3
    requires Sight(c.servers[0]) == View(Leader, 1, LOG[2..], 2, 3, 3, Some(TWO), THREE, 3, Nothing)
    requires Sight(c.servers[2]) == View(Follower, 1, [Entry(1, Nil)], 2, 2, 2, Some(TWO), ONE, 1, Nothing)
    ensures var d := Exec(3, more);
      && Sight(d.servers[0]) == Sight(c.servers[0])
      && d.servers[2].index == 3 && d.servers[2].table == ONE["c" := Row("z", 1)]
  {
    var a := HearsOfSnapshot(acts, c, 0, 2, SECOND, 1);
    var d := Exec(3, a);
    var n := d.servers[0].node;
    Heartbeat3(n);
    var x := RoundFor(n, 0, 2).1.append;
    AppendAtEnd(d.servers[2].node, x);
    var b := Append(a, d, 0, 2, x);
    more := Apply(b, Exec(3, b), 2);
  }

  lemma Heartbeat3(n: Node)
    requires n.log == LOG[2..] && n.inc == 2 && n.term == 1 && n.commit == 3 && |n.next| == 3 && n.next[2] == 3
    ensures RoundFor(n, 0, 2) == (n, AppendRound(AppendArgs(1, 0, 2, 1, [Entry(1, C)], 3)))
  {
    assert n.next[2 := 3] == n.next;
    assert LOG[2..][1..] == [Entry(1, C)];
  }

  // A run of three servers at whose end two replicas have applied through the same index
  // and have different tables: the second Put, committed, is missing from one for good.
  lemma DeliveryCanSkip() returns (acts: seq<Action>)
    ensures var c := Exec(3, acts);
      c.servers[0].index == c.servers[2].index == 3 && "b" in c.servers[0].table && "b" !in c.servers[2].table
  {
    var a := TwoSnapshots();
    var b := Overtaken(a, Exec(3, a));
    var d := Moves(b, Exec(3, b), 2);
    acts := GoesOn(d, Exec(3, d));
  }
}
