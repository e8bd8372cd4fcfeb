// Retrying clerks are linearizable: exactly which calls are.
module Linearizability {
  import opened Options
  import opened Kv
  import opened ClerkRuns

  // ---------- what an execution and an output say ----------

  ghost predicate Applied(w: World, i: nat) {
    i < |w.execs| && w.execs[i].req.PutReq? && w.execs[i].reply == PutReply(OK)
  }

  // A Put that was applied moved its key past the version it named.
  lemma AppliedMoves(w: World, i: nat, j: nat)
    requires Inv(w) && Applied(w, i) && i < j <= |w.execs|
    ensures VersionAt(w.execs, i, w.execs[i].req.key) == w.execs[i].req.version
    ensures VersionAt(w.execs, j, w.execs[i].req.key) > w.execs[i].req.version
  {
    var e := w.execs[i];
    assert ExecOk(w, i);
    VersionsRise(w.execs, i, i, e.req.key);
    PutExact(TableAt(w.execs, i), e.req.key, e.req.value, e.req.version);
    VersionsRise(w.execs, i + 1, j, e.req.key);
  }

  // However often a Put is resent, it is applied at most once.
  lemma AppliedOnce(w: World, i: nat, j: nat)
    requires Inv(w) && Applied(w, i) && Applied(w, j) && w.execs[i].id == w.execs[j].id
    ensures i == j
  {
    assert ExecOk(w, i) && ExecOk(w, j);
    if i < j {
      AppliedMoves(w, i, j);
      AppliedMoves(w, j, |w.execs|);
    } else if j < i {
      AppliedMoves(w, j, i);
      AppliedMoves(w, i, |w.execs|);
    }
  }

  ghost predicate AppliedBy(w: World, id: nat, i: nat) {
    Applied(w, i) && w.execs[i].id == id
  }

  // What the result of a finished Put says about its effect: OK means one attempt was
  // applied (and no two ever are), ErrVersion means none was or ever will be.
  lemma ResultTellsEffect(w: World, id: nat)
    requires Inv(w) && id in w.ops && w.ops[id].returned.Some? && w.ops[id].req.PutReq?
    ensures forall i, j :: AppliedBy(w, id, i) && AppliedBy(w, id, j) ==> i == j
    ensures w.ops[id].returned.value.result == PutReply(OK) ==> exists i :: AppliedBy(w, id, i)
    ensures w.ops[id].returned.value.result == PutReply(ErrVersion) ==> forall i :: !AppliedBy(w, id, i)
  {
    var o := w.ops[id];
    var p := o.returned.value.exec;
    assert OpOk(w, o, id);
    assert ExecOk(w, p);
    assert AppliedBy(w, id, p) || w.execs[p].reply != PutReply(OK);
    forall i, j | AppliedBy(w, id, i) && AppliedBy(w, id, j) ensures i == j {
      AppliedOnce(w, i, j);
    }
    if o.returned.value.result == PutReply(ErrVersion) {
      forall i | AppliedBy(w, id, i) ensures i == p {
        assert ExecOk(w, i);
      }
    }
  }

  // ---------- what a Get tells ----------

  // The values that applied Puts among the first n executions gave the key, in order.
  function Values(execs: seq<Exec>, n: nat, key: string): seq<string>
    requires n <= |execs|
  {
    if n == 0 then []
    else
      var e := execs[n - 1];
      Values(execs, n - 1, key) + (if e.req.PutReq? && e.req.key == key && e.reply == PutReply(OK) then [e.req.value] else [])
  }

  lemma {:induction false} ValuesHold(w: World, n: nat, key: string)
    requires Inv(w) && n <= |w.execs|
    ensures Holds(TableAt(w.execs, n), key, Values(w.execs, n, key))
  {
    if n > 0 {
      ValuesHold(w, n - 1, key);
      var e := w.execs[n - 1];
      assert ExecOk(w, n - 1);
      if e.req.PutReq? {
        HoldsOn(TableAt(w.execs, n - 1), key, Values(w.execs, n - 1, key), e.req.key, e.req.value, e.req.version);
      }
    }
  }

  // In every run an executed Get answers with the value of the last Put applied to its key
  // and the number of Puts applied to it, and with ErrNoKey exactly if there was none.
  lemma GetTells(acts: seq<Action>, i: nat)
    requires Possible(acts) && i < |After(acts).execs| && After(acts).execs[i].req.GetReq?
    ensures var execs := After(acts).execs; execs[i].reply == Latest(Values(execs, i, execs[i].req.key))
  {
    RunInv(acts);
    var w := After(acts);
    assert ExecOk(w, i);
    ValuesHold(w, i, w.execs[i].req.key);
    HoldsTells(TableAt(w.execs, i), w.execs[i].req.key, Values(w.execs, i, w.execs[i].req.key));
  }

  // And so does the clerk's: what it returns is the answer at some moment inside the call.
  lemma GetReturns(acts: seq<Action>, id: nat)
    requires Possible(acts) && id in After(acts).ops
    requires After(acts).ops[id].req.GetReq? && After(acts).ops[id].returned.Some?
    ensures var w := After(acts); var o := w.ops[id]; var i := o.returned.value.exec;
      && i < |w.execs| && o.invoked < w.execs[i].at < o.returned.value.at
      && o.returned.value.result == Latest(Values(w.execs, i, o.req.key))
  {
    RunInv(acts);
    var w := After(acts);
    assert OpOk(w, w.ops[id], id);
    assert ExecOk(w, w.ops[id].returned.value.exec);
    GetTells(acts, w.ops[id].returned.value.exec);
  }

  // ---------- when a call keeps to itself ----------

  // The version a Put names is no newer than the version its key had when the call began.
  ghost predicate Modest(o: Op) {
    o.req.PutReq? ==> o.req.version <= o.since
  }

  // A finished modest Put has no later effect: its key is past the version it names, so
  // any attempt still in the network is dead; and its result is one the store's
  // specification knows.
  lemma FinishedIsOver(w: World, id: nat)
    requires Inv(w) && id in w.ops && Modest(w.ops[id]) && w.ops[id].req.PutReq? && w.ops[id].returned.Some?
    ensures VersionAt(w.execs, w.ops[id].returned.value.exec + 1, w.ops[id].req.key) > w.ops[id].req.version
    ensures VersionOf(w.table, w.ops[id].req.key) > w.ops[id].req.version
    ensures w.execs[w.ops[id].returned.value.exec].reply in {PutReply(OK), PutReply(ErrVersion)}
    ensures forall i: nat :: AppliedBy(w, id, i) ==> i <= w.ops[id].returned.value.exec
  {
    var o := w.ops[id];
    var p := o.returned.value.exec;
    assert OpOk(w, o, id);
    assert ExecOk(w, p);
    VersionsRise(w.execs, p, p, o.req.key);
    PutExact(TableAt(w.execs, p), o.req.key, o.req.value, o.req.version);
    VersionsRise(w.execs, p + 1, |w.execs|, o.req.key);
    forall i: nat | AppliedBy(w, id, i) ensures i <= p {
      if i > p {
        assert ExecOk(w, i);
        AppliedMoves(w, i, |w.execs|);
        VersionsRise(w.execs, p + 1, i, o.req.key);
      }
    }
  }

  // ---------- linearizability ----------

  // What a call gave its caller; one still running may yet give anything, and ErrMaybe
  // is what the specification always accepts of a Put.
  function Output(o: Op): Reply {
    if o.returned.Some? then o.returned.value.result else PutReply(ErrMaybe)
  }

  // The specification run over calls in order, if it accepts them all.
  function Accept(ops: map<nat, Op>, order: seq<nat>): Option<KvState> {
    if order == [] then Some(INIT)
    else
      var id := order[|order| - 1];
      match Accept(ops, order[..|order| - 1])
      case None => None
      case Some(st) =>
        if id !in ops then None
        else
          var (ok, next) := ModelStep(st, ops[id].req, Output(ops[id]));
          if ok then Some(next) else None
  }

  // One call was over before the other began.
  predicate Before(a: Op, b: Op) {
    a.returned.Some? && a.returned.value.at < b.invoked
  }

  // A legal order of the calls on a key: it has every finished call once, respects
  // which calls were over before others began, and the specification accepts it.
  ghost predicate Linearizes(ops: map<nat, Op>, key: string, order: seq<nat>) {
    && (forall i, j :: 0 <= i < j < |order| ==> order[i] != order[j])
    && (forall i :: 0 <= i < |order| ==> order[i] in ops && ops[order[i]].req.key == key)
    && (forall id :: id in ops && ops[id].req.key == key && ops[id].returned.Some? ==> id in order)
    && (forall i, j :: 0 <= i < j < |order| ==> !Before(ops[order[j]], ops[order[i]]))
    && Accept(ops, order).Some?
  }

  ghost predicate Linearizable(ops: map<nat, Op>, key: string) {
    exists order :: Linearizes(ops, key, order)
  }

  // The execution at which a call takes its place in the order: the one that applied
  // it, or else the one that answered it.
  ghost predicate IsPoint(w: World, i: nat)
    requires i < |w.execs|
  {
    var e := w.execs[i];
    || Applied(w, i)
    || (e.id in w.ops && w.ops[e.id].returned.Some? && w.ops[e.id].returned.value.exec == i && forall j :: !AppliedBy(w, e.id, j))
  }

  ghost predicate PointOn(w: World, key: string, i: nat)
    requires i < |w.execs|
  {
    w.execs[i].req.key == key && IsPoint(w, i)
  }

  ghost function Order(w: World, key: string, n: nat): seq<nat>
    requires n <= |w.execs|
  {
    if n == 0 then []
    else Order(w, key, n - 1) + (if PointOn(w, key, n - 1) then [w.execs[n - 1].id] else [])
  }

  ghost predicate AllModest(ops: map<nat, Op>) {
    forall id :: id in ops ==> Modest(ops[id])
  }

  // Each call has one point at most.
  lemma OnePoint(w: World, i: nat, j: nat)
    requires Inv(w) && i < |w.execs| && j < |w.execs|
    requires IsPoint(w, i) && IsPoint(w, j) && w.execs[i].id == w.execs[j].id
    ensures i == j
  {
    var id := w.execs[i].id;
    assert Applied(w, i) ==> AppliedBy(w, id, i);
    assert Applied(w, j) ==> AppliedBy(w, id, j);
    if Applied(w, i) && Applied(w, j) { AppliedOnce(w, i, j); }
  }

  // Every finished call has a point, inside the call.
  lemma HasPoint(w: World, id: nat) returns (i: nat)
    requires Inv(w) && AllModest(w.ops) && id in w.ops && w.ops[id].returned.Some?
    ensures i < |w.execs| && w.execs[i].id == id && IsPoint(w, i) && PointOn(w, w.ops[id].req.key, i)
  {
    assert OpOk(w, w.ops[id], id);
    i := w.ops[id].returned.value.exec;
    if j :| AppliedBy(w, id, j) { i := j; }
    assert ExecOk(w, i);
  }

  lemma PointInside(w: World, i: nat)
    requires Inv(w) && AllModest(w.ops) && i < |w.execs| && IsPoint(w, i)
    ensures w.execs[i].id in w.ops
    ensures var o := w.ops[w.execs[i].id];
      o.invoked < w.execs[i].at && (o.returned.Some? ==> w.execs[i].at < o.returned.value.at)
  {
    var id := w.execs[i].id;
    assert ExecOk(w, i);
    var o := w.ops[id];
    assert OpOk(w, o, id);
    if o.returned.Some? && Applied(w, i) {
      assert AppliedBy(w, id, i);
      FinishedIsOver(w, id);
    }
  }

  // Position in the order is position among the executions.
  lemma {:induction false} OrderPlaces(w: World, key: string, n: nat, k: nat) returns (i: nat)
    requires Inv(w) && n <= |w.execs| && k < |Order(w, key, n)|
    ensures i < n && PointOn(w, key, i) && w.execs[i].id == Order(w, key, n)[k] && |Order(w, key, i)| == k
  {
    if k < |Order(w, key, n - 1)| {
      i := OrderPlaces(w, key, n - 1, k);
    } else {
      i := n - 1;
    }
  }

  lemma {:induction false} OrderHas(w: World, key: string, n: nat, i: nat)
    requires Inv(w) && n <= |w.execs| && i < n && PointOn(w, key, i)
    ensures w.execs[i].id in Order(w, key, n)
  {
    if i < n - 1 {
      OrderHas(w, key, n - 1, i);
    }
  }

  lemma {:induction false} OrderLonger(w: World, key: string, i: nat, j: nat)
    requires i <= j <= |w.execs|
    ensures |Order(w, key, i)| <= |Order(w, key, j)|
    decreases j
  {
    if i < j { OrderLonger(w, key, i, j - 1); }
  }

  function StateOf(t: Table, key: string): KvState {
    if key in t then KvState(t[key].value, t[key].version) else INIT
  }

  // The specification accepts the result of the call whose point an execution is, and
  // moves as the store does.
  lemma PointAccepted(w: World, i: nat)
    requires Inv(w) && AllModest(w.ops) && i < |w.execs| && IsPoint(w, i)
    ensures w.execs[i].id in w.ops
    ensures var e := w.execs[i];
      ModelStep(StateOf(TableAt(w.execs, i), e.req.key), e.req, Output(w.ops[e.id]))
        == (true, StateOf(TableAt(w.execs, i + 1), e.req.key))
  {
    var e := w.execs[i];
    assert ExecOk(w, i);
    var o := w.ops[e.id];
    assert OpOk(w, o, e.id);
    VersionsRise(w.execs, i, i, e.req.key);
    if e.req.PutReq? {
      PutExact(TableAt(w.execs, i), e.req.key, e.req.value, e.req.version);
      if o.returned.Some? {
        FinishedIsOver(w, e.id);
        var p := o.returned.value.exec;
        assert ExecOk(w, p);
        assert Applied(w, i) && o.sent == 1 ==> i == p;
      }
    }
  }

  lemma NoPoint(w: World, key: string, i: nat)
    requires Inv(w) && i < |w.execs| && !PointOn(w, key, i)
    ensures StateOf(TableAt(w.execs, i + 1), key) == StateOf(TableAt(w.execs, i), key)
  {
    var e := w.execs[i];
    assert ExecOk(w, i);
    VersionsRise(w.execs, i, i, e.req.key);
    if e.req.PutReq? { PutExact(TableAt(w.execs, i), e.req.key, e.req.value, e.req.version); }
  }

  lemma {:induction false} OrderAccepted(w: World, key: string, n: nat)
    requires Inv(w) && AllModest(w.ops) && n <= |w.execs|
    ensures Accept(w.ops, Order(w, key, n)) == Some(StateOf(TableAt(w.execs, n), key))
  {
    if n > 0 {
      OrderAccepted(w, key, n - 1);
      if PointOn(w, key, n - 1) {
        PointAccepted(w, n - 1);
        assert ExecOk(w, n - 1);
        var order := Order(w, key, n);
        assert order[..|order| - 1] == Order(w, key, n - 1);
        assert order[|order| - 1] == w.execs[n - 1].id;
      } else {
        NoPoint(w, key, n - 1);
        assert Order(w, key, n) == Order(w, key, n - 1);
      }
    }
  }

  lemma OrderRespectsTime(w: World, key: string, a: nat, b: nat)
    requires Inv(w) && AllModest(w.ops) && a < b < |Order(w, key, |w.execs|)|
    ensures var order := Order(w, key, |w.execs|);
      && order[a] in w.ops && order[b] in w.ops && w.ops[order[a]].req.key == key
      && order[a] != order[b] && !Before(w.ops[order[b]], w.ops[order[a]])
  {
    var i := OrderPlaces(w, key, |w.execs|, a);
    var j := OrderPlaces(w, key, |w.execs|, b);
    if j <= i { OrderLonger(w, key, j, i); }
    PointInside(w, i);
    PointInside(w, j);
    assert ExecOk(w, i);
    if w.execs[i].id == w.execs[j].id { OnePoint(w, i, j); }
  }

  // Any run of modest calls is linearizable, key by key.
  lemma ModestLinearizable(w: World, key: string)
    requires Inv(w) && AllModest(w.ops)
    ensures Linearizes(w.ops, key, Order(w, key, |w.execs|))
  {
    var n := |w.execs|;
    var order := Order(w, key, n);
    OrderAccepted(w, key, n);
    forall i, j | 0 <= i < j < |order|
      ensures order[i] != order[j] && order[i] in w.ops && order[j] in w.ops && !Before(w.ops[order[j]], w.ops[order[i]])
    {
      OrderRespectsTime(w, key, i, j);
    }
    forall i | 0 <= i < |order| ensures order[i] in w.ops && w.ops[order[i]].req.key == key {
      var p := OrderPlaces(w, key, n, i);
      assert ExecOk(w, p);
    }
    forall id | id in w.ops && w.ops[id].req.key == key && w.ops[id].returned.Some? ensures id in order {
      var i := HasPoint(w, id);
      OrderHas(w, key, n, i);
    }
  }

  // ---------- and no other calls are ----------

  lemma Extend(acts: seq<Action>, a: Action)
    requires Possible(acts) && Enabled(After(acts), a)
    ensures Possible(acts + [a]) && After(acts + [a]) == Step(After(acts), a)
  {
    assert (acts + [a])[..|acts|] == acts;
  }

  // The world after a call that meets no trouble.
  function CallEnd(w: World, id: nat, req: Request): World {
    var (t, reply) := DoOp(w.table, req);
    var o := Op(req, w.now, VersionOf(w.table, req.key), 1, false, Some(Return(w.now + 3, |w.execs|, reply)));
    World(t, w.ops[id := o], w.execs + [Exec(id, 0, req, reply, w.now + 2)], w.now + 4)
  }

  lemma CallSteps(w: World, w1: World, w2: World, w3: World, id: nat, req: Request)
    requires Inv(w) && id !in w.ops
    requires w1 == Step(w, Invoke(id, req))
    requires Enabled(w1, Send(id)) && w2 == Step(w1, Send(id))
    requires Enabled(w2, Execute(id, 0)) && w3 == Step(w2, Execute(id, 0))
    ensures Enabled(w3, Respond(id, |w.execs|)) && Step(w3, Respond(id, |w.execs|)) == CallEnd(w, id, req)
  {
    var v := Step(w3, Respond(id, |w.execs|));
    assert v.ops == CallEnd(w, id, req).ops;
  }

  lemma CallDone(acts: seq<Action>, id: nat, req: Request) returns (done: seq<Action>)
    requires Possible(acts) && id !in After(acts).ops
    ensures Possible(done) && After(done) == CallEnd(After(acts), id, req)
  {
    RunInv(acts);
    var w := After(acts);
    Extend(acts, Invoke(id, req));
    var a1 := acts + [Invoke(id, req)];
    Extend(a1, Send(id));
    var a2 := a1 + [Send(id)];
    forall i: nat | i < |w.execs| ensures w.execs[i].id != id { assert ExecOk(w, i); }
    Extend(a2, Execute(id, 0));
    var a3 := a2 + [Execute(id, 0)];
    CallSteps(w, After(a1), After(a2), After(a3), id, req);
    Extend(a3, Respond(id, |w.execs|));
    done := a3 + [Respond(id, |w.execs|)];
  }

  // A finished put of "y" that ran between lo and hi at the version it found.
  ghost predicate Other(o: Op, lo: nat, hi: nat) {
    && o.req.PutReq? && o.req.key == "k" && o.req.value == "y" && Modest(o)
    && o.returned.Some? && lo <= o.invoked && o.returned.value.at < hi
  }

  // From w to v, n puts with ids from first on have raised the version of the key.
  ghost predicate Raised(w: World, v: World, first: nat, n: nat) {
    && w.now <= v.now
    && VersionOf(v.table, "k") == VersionOf(w.table, "k") + n
    && (n > 0 ==> "k" in v.table) && (n == 0 ==> v == w)
    && (forall i :: i in v.ops <==> i in w.ops || first <= i < first + n)
    && (forall i :: i in w.ops ==> v.ops[i] == w.ops[i])
    && (forall i :: first <= i < first + n ==> Other(v.ops[i], w.now, v.now))
    && |w.execs| <= |v.execs|
    && (forall i :: |w.execs| <= i < |v.execs| ==> v.execs[i].id >= first)
    && (forall i :: 0 <= i < |w.execs| ==> v.execs[i] == w.execs[i])
  }

  lemma RaiseOne(w: World, u: World, first: nat, n: nat)
    requires Raised(w, u, first, n) && Versioned(u.table) && forall i :: i in w.ops ==> i < first
    ensures Raised(w, CallEnd(u, first + n, PutReq("k", "y", VersionOf(u.table, "k"))), first, n + 1)
  {
    var at := VersionOf(u.table, "k");
    PutExact(u.table, "k", "y", at);
    var v := CallEnd(u, first + n, PutReq("k", "y", at));
    forall i | first <= i < first + n + 1 ensures i in v.ops && Other(v.ops[i], w.now, v.now) {
      if i < first + n { assert Other(u.ops[i], w.now, u.now); }
    }
  }

  lemma RaiseMore(w: World, some: seq<Action>, first: nat, n: nat) returns (done: seq<Action>)
    requires Possible(some) && Raised(w, After(some), first, n) && forall i :: i in w.ops ==> i < first
    ensures Possible(done) && Raised(w, After(done), first, n + 1)
  {
    var u := After(some);
    RunInv(some);
    RaiseOne(w, u, first, n);
    done := CallDone(some, first + n, PutReq("k", "y", VersionOf(u.table, "k")));
  }

  lemma {:induction false} Raise(acts: seq<Action>, first: nat, n: nat) returns (done: seq<Action>)
    requires Possible(acts) && forall i :: i in After(acts).ops ==> i < first
    ensures Possible(done) && Raised(After(acts), After(done), first, n)
  {
    if n == 0 {
      done := acts;
    } else {
      var some := Raise(acts, first, n - 1);
      done := RaiseMore(After(acts), some, first, n - 1);
    }
  }

  // The world after the late put's call: its first attempt is still in the network, its
  // second found version c and was answered.
  function LateEnd(w: World, c: nat, v: nat): World {
    var req := PutReq("k", "x", v);
    World(w.table, w.ops[c := Op(req, w.now, c, 2, false, Some(Return(w.now + 5, |w.execs|, PutReply(ErrMaybe))))],
          w.execs + [Exec(c, 1, req, PutReply(ErrVersion), w.now + 4)], w.now + 6)
  }

  lemma LateSends(w: World, w1: World, w2: World, w3: World, w4: World, c: nat, v: nat)
    requires Fresh(w, c) && VersionOf(w.table, "k") == c
    requires w1 == Step(w, Invoke(c, PutReq("k", "x", v)))
    requires Enabled(w1, Send(c)) && w2 == Step(w1, Send(c))
    requires Enabled(w2, Lost(c)) && w3 == Step(w2, Lost(c))
    requires Enabled(w3, Send(c)) && w4 == Step(w3, Send(c))
    ensures w4 == World(w.table, w.ops[c := Op(PutReq("k", "x", v), w.now, c, 2, true, None)], w.execs, w.now + 4)
    ensures Enabled(w4, Execute(c, 1))
  {
  }

  lemma LateAnswer(w: World, w4: World, w5: World, c: nat, v: nat)
    requires Fresh(w, c) && "k" in w.table && w.table["k"].version == c < v
    requires w4 == World(w.table, w.ops[c := Op(PutReq("k", "x", v), w.now, c, 2, true, None)], w.execs, w.now + 4)
    requires Enabled(w4, Execute(c, 1)) && w5 == Step(w4, Execute(c, 1))
    ensures Enabled(w5, Respond(c, |w.execs|)) && Step(w5, Respond(c, |w.execs|)) == LateEnd(w, c, v)
  {
    assert Step(w5, Respond(c, |w.execs|)).ops == LateEnd(w, c, v).ops;
  }

  ghost predicate Fresh(w: World, id: nat) {
    id !in w.ops && forall i: nat :: i < |w.execs| ==> w.execs[i].id != id
  }

  lemma LatePut(acts: seq<Action>, c: nat, v: nat) returns (done: seq<Action>)
    requires Possible(acts) && Fresh(After(acts), c)
    requires "k" in After(acts).table && After(acts).table["k"].version == c < v
    ensures Possible(done) && After(done) == LateEnd(After(acts), c, v)
  {
    var w := After(acts);
    Extend(acts, Invoke(c, PutReq("k", "x", v)));
    var a1 := acts + [Invoke(c, PutReq("k", "x", v))];
    Extend(a1, Send(c));
    var a2 := a1 + [Send(c)];
    Extend(a2, Lost(c));
    var a3 := a2 + [Lost(c)];
    Extend(a3, Send(c));
    var a4 := a3 + [Send(c)];
    LateSends(w, After(a1), After(a2), After(a3), After(a4), c, v);
    Extend(a4, Execute(c, 1));
    var a5 := a4 + [Execute(c, 1)];
    LateAnswer(w, After(a4), After(a5), c, v);
    Extend(a5, Respond(c, |w.execs|));
    done := a5 + [Respond(c, |w.execs|)];
  }

  // The calls of the counterexample: puts 0 .. c-1 and c+1 .. v of "y" around the late put
  // c of "x", and a Get v+1 that finds "x" when all of them are over.
  ghost predicate Story(ops: map<nat, Op>, c: nat, v: nat) {
    && (forall i: nat :: i in ops <==> i <= v + 1)
    && c < v && ops[c].req == PutReq("k", "x", v) && ops[c].since == c && ops[c].returned.Some?
    && (forall i :: 0 <= i <= v && i != c ==> Other(ops[i], 0, ops[v + 1].invoked))
    && (forall i :: c < i <= v ==> Before(ops[c], ops[i]))
    && (forall i :: 0 <= i <= v ==> Before(ops[i], ops[v + 1]))
    && ops[v + 1].req == GetReq("k") && ops[v + 1].returned.Some?
    && ops[v + 1].returned.value.result == GetReply("x", v + 1, OK)
  }

  // Numbers below n, all different: at most n of them.
  lemma {:induction false} FewDistinct(s: seq<nat>, n: nat)
    requires forall i, j :: 0 <= i < j < |s| ==> s[i] != s[j]
    requires forall i :: 0 <= i < |s| ==> s[i] < n
    ensures |s| <= n
  {
    if k :| 0 <= k < |s| && s[k] == n - 1 {
      var rest := s[..k] + s[k + 1..];
      FewDistinct(rest, n - 1);
    } else if s != [] {
      assert s[0] < n;
      FewDistinct(s, n - 1);
    }
  }

  lemma {:induction false} AcceptEach(ops: map<nat, Op>, order: seq<nat>, q: nat)
    requires Accept(ops, order).Some? && q <= |order|
    ensures Accept(ops, order[..q]).Some?
    decreases |order|
  {
    if q == |order| {
      assert order[..q] == order;
    } else {
      var shorter := order[..|order| - 1];
      AcceptEach(ops, shorter, q);
      assert shorter[..q] == order[..q];
    }
  }

  // As long as the late put has not had its version, "x" is never stored.
  lemma {:induction false} NeverStored(ops: map<nat, Op>, c: nat, v: nat, order: seq<nat>)
    requires Story(ops, c, v) && Accept(ops, order).Some?
    requires forall i :: 0 <= i < |order| ==> order[i] in ops
    requires forall i :: 0 <= i < |order| && order[i] == c ==> i <= c
    ensures Accept(ops, order).value.version <= |order| && Accept(ops, order).value.value != "x"
    decreases |order|
  {
    if order != [] {
      var shorter := order[..|order| - 1];
      var id := order[|order| - 1];
      NeverStored(ops, c, v, shorter);
      assert id <= v && id != c ==> Other(ops[id], 0, ops[v + 1].invoked);
    }
  }

  // Only puts before it can come before the late put in a legal order.
  lemma LatePlace(ops: map<nat, Op>, c: nat, v: nat, order: seq<nat>, q: nat)
    requires Story(ops, c, v) && Linearizes(ops, "k", order) && q < |order| && order[q] == c
    ensures q <= c
  {
    forall i | 0 <= i < q ensures order[i] < c {
      assert !Before(ops[order[q]], ops[order[i]]);
      assert Before(ops[c], ops[v + 1]);
    }
    FewDistinct(order[..q], c);
  }

  lemma GetPlace(ops: map<nat, Op>, c: nat, v: nat, order: seq<nat>, g: nat, i: nat)
    requires Story(ops, c, v) && Linearizes(ops, "k", order) && g < |order| && order[g] == v + 1 && i < |order|
    ensures i <= g
  {
    var over := Before(ops[order[i]], ops[order[g]]);
  }

  lemma GetRefused(ops: map<nat, Op>, c: nat, v: nat, order: seq<nat>, g: nat)
    requires Story(ops, c, v) && g + 1 == |order| && order[g] == v + 1
    requires forall i :: 0 <= i < |order| ==> order[i] in ops
    requires forall i :: 0 <= i < |order| && order[i] == c ==> i <= c
    ensures Accept(ops, order).None?
  {
    if Accept(ops, order[..g]).Some? {
      NeverStored(ops, c, v, order[..g]);
    }
  }

  lemma StoryNotLinearizable(ops: map<nat, Op>, c: nat, v: nat, order: seq<nat>)
    requires Story(ops, c, v)
    ensures !Linearizes(ops, "k", order)
  {
    if Linearizes(ops, "k", order) {
      assert v + 1 in order;
      var g :| 0 <= g < |order| && order[g] == v + 1;
      GetPlace(ops, c, v, order, g, |order| - 1);
      forall i | 0 <= i < |order| && order[i] == c ensures i <= c {
        LatePlace(ops, c, v, order, i);
      }
      GetRefused(ops, c, v, order, g);
    }
  }

  lemma OtherPut(w: World, u: World, c: nat, v: nat, i: nat)
    requires c < v && Raised(Start(), w, 0, c) && Fresh(w, c) && Raised(LateEnd(w, c, v), u, c + 1, v - c)
    requires i <= v && i != c
    ensures i in u.ops && Other(u.ops[i], 0, u.now) && (c < i ==> u.ops[i].invoked >= w.now + 6)
  {
    if i < c {
      assert Other(w.ops[i], 0, w.now);
      assert i in LateEnd(w, c, v).ops;
    } else {
      assert Other(u.ops[i], w.now + 6, u.now);
    }
  }

  // When the late attempt has been executed, a Get finds its value.
  lemma LateValue(u: World, u1: World, x: World, c: nat, v: nat)
    requires Enabled(u, Execute(c, 0)) && u1 == Step(u, Execute(c, 0)) && Versioned(u.table)
    requires "k" in u.table && u.table["k"].version == v && u.ops[c].req == PutReq("k", "x", v)
    requires x == CallEnd(u1, v + 1, GetReq("k"))
    ensures x.ops == u.ops[v + 1 := x.ops[v + 1]] && x.ops[v + 1].invoked >= u.now
    ensures var o := x.ops[v + 1]; o.req == GetReq("k") && o.returned.Some? && o.returned.value.result == GetReply("x", v + 1, OK)
  {
    PutExact(u.table, "k", "x", v);
  }

  lemma AfterGet(w: World, u: World, u1: World, x: World, c: nat, v: nat)
    requires 0 < c < v && Raised(Start(), w, 0, c) && Fresh(w, c)
    requires Raised(LateEnd(w, c, v), u, c + 1, v - c)
    requires Enabled(u, Execute(c, 0)) && u1 == Step(u, Execute(c, 0)) && Versioned(u.table)
    requires x == CallEnd(u1, v + 1, GetReq("k"))
    ensures Story(x.ops, c, v) && OneOdd(x.ops, c, v)
  {
    assert c in LateEnd(w, c, v).ops;
    assert u.ops[c] == LateEnd(w, c, v).ops[c];
    LateValue(u, u1, x, c, v);
    forall i: nat | i <= v && i != c ensures i in u.ops && Other(u.ops[i], 0, u.now) && (c < i ==> u.ops[i].invoked >= w.now + 6) {
      OtherPut(w, u, c, v, i);
    }
    IsStory(u.ops, x.ops[v + 1], c, v, w.now + 6, u.now);
  }

  lemma IsStory(ops: map<nat, Op>, get: Op, c: nat, v: nat, late: nat, end: nat)
    requires forall i: nat :: i in ops <==> i <= v
    requires c < v && ops[c].req == PutReq("k", "x", v) && ops[c].since == c && ops[c].returned.Some? && ops[c].returned.value.at < late <= end
    requires forall i: nat :: i <= v && i != c ==> Other(ops[i], 0, end) && (c < i ==> ops[i].invoked >= late)
    requires get.req == GetReq("k") && get.returned.Some? && get.returned.value.result == GetReply("x", v + 1, OK) && get.invoked >= end
    ensures Story(ops[v + 1 := get], c, v) && OneOdd(ops[v + 1 := get], c, v)
  {
  }

  // A call that is modest, or names version v of a key that was at version c.
  ghost predicate ModestBut(o: Op, c: nat, v: nat) {
    Modest(o) || (o.since == c && o.req.PutReq? && o.req.version == v)
  }

  ghost predicate OnlyOdd(ops: map<nat, Op>, c: nat, v: nat) {
    forall id :: id in ops ==> ModestBut(ops[id], c, v)
  }

  // Call c alone is out of line: a Put made when its key was at version c, naming v.
  ghost predicate OneOdd(ops: map<nat, Op>, c: nat, v: nat) {
    && c in ops && ModestBut(ops[c], c, v) && !Modest(ops[c])
    && forall id :: id in ops && id != c ==> Modest(ops[id])
  }

  lemma BadRunMissing(v: nat) returns (acts: seq<Action>)
    requires 0 < v
    ensures Possible(acts) && !Linearizable(After(acts).ops, "k") && OneOdd(After(acts).ops, 0, v)
  {
    acts := CallDone([], 0, PutReq("k", "x", v));
    var ops := After(acts).ops;
    forall order ensures !Linearizes(ops, "k", order) {
      if Linearizes(ops, "k", order) {
        assert 0 in order;
        var q :| 0 <= q < |order| && order[q] == 0;
        assert order[..q + 1][q] == order[q];
        AcceptEach(ops, order, q + 1);
      }
    }
  }

  // Some run with exactly one call out of line, one that names version v of a key at
  // version c < v, that no order explains.
  lemma BadRun(c: nat, v: nat) returns (acts: seq<Action>)
    requires c < v
    ensures Possible(acts) && !Linearizable(After(acts).ops, "k") && OneOdd(After(acts).ops, c, v)
  {
    if c == 0 {
      acts := BadRunMissing(v);
    } else {
      var a := Raise([], 0, c);
      var w := After(a);
      RunInv(a);
      forall i: nat | i < |w.execs| ensures w.execs[i].id != c { assert ExecOk(w, i); }
      var b := LatePut(a, c, v);
      acts := BadEnd(w, b, c, v);
    }
  }

  lemma BadEnd(w: World, b: seq<Action>, c: nat, v: nat) returns (acts: seq<Action>)
    requires 0 < c < v && Raised(Start(), w, 0, c) && Fresh(w, c)
    requires Possible(b) && After(b) == LateEnd(w, c, v)
    ensures Possible(acts) && !Linearizable(After(acts).ops, "k") && OneOdd(After(acts).ops, c, v)
  {
    var d := Raise(b, c + 1, v - c);
    var u := After(d);
    assert Raised(LateEnd(w, c, v), u, c + 1, v - c);
    RunInv(d);
    LateStillThere(w, u, c, v);
    var u1: World;
    acts, u1 := LateAndGet(d, u, c, v);
    AfterGet(w, u, u1, After(acts), c, v);
    StoryNever(After(acts).ops, c, v);
  }

  lemma LateAndGet(d: seq<Action>, u: World, c: nat, v: nat) returns (acts: seq<Action>, u1: World)
    requires Possible(d) && u == After(d) && Enabled(u, Execute(c, 0)) && v + 1 !in u.ops
    ensures Possible(acts) && u1 == Step(u, Execute(c, 0)) && After(acts) == CallEnd(u1, v + 1, GetReq("k"))
  {
    Extend(d, Execute(c, 0));
    u1 := Step(u, Execute(c, 0));
    acts := CallDone(d + [Execute(c, 0)], v + 1, GetReq("k"));
  }

  lemma StoryNever(ops: map<nat, Op>, c: nat, v: nat)
    requires Story(ops, c, v)
    ensures !Linearizable(ops, "k")
  {
    forall order ensures !Linearizes(ops, "k", order) {
      StoryNotLinearizable(ops, c, v, order);
    }
  }

  lemma LateStillThere(w: World, u: World, c: nat, v: nat)
    requires c < v && Raised(Start(), w, 0, c) && Fresh(w, c) && Raised(LateEnd(w, c, v), u, c + 1, v - c)
    ensures Enabled(u, Execute(c, 0)) && v + 1 !in u.ops
  {
    var m := LateEnd(w, c, v);
    assert c in m.ops;
    forall i | 0 <= i < |u.execs| && u.execs[i].id == c ensures u.execs[i].attempt == 1 {
      if i < |m.execs| { assert u.execs[i] == m.execs[i]; }
    }
  }

  // A version v named when the key is at version c is safe if every run in which all
  // other calls are modest is linearizable on every key.
  ghost predicate Safe(c: nat, v: nat) {
    forall acts, key :: Possible(acts) && OnlyOdd(After(acts).ops, c, v) ==> Linearizable(After(acts).ops, key)
  }

  // Puts are safe exactly when the version they name is one the key has had.
  lemma SafeExactly(c: nat, v: nat)
    ensures Safe(c, v) <==> v <= c
  {
    if v <= c {
      forall acts, key | Possible(acts) && OnlyOdd(After(acts).ops, c, v) ensures Linearizable(After(acts).ops, key) {
        RunInv(acts);
        ModestLinearizable(After(acts), key);
      }
    } else {
      var acts := BadRun(c, v);
      assert !Linearizable(After(acts).ops, "k");
    }
  }
}
