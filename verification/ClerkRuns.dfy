// The repository's sequential specification of one key, and every run of retrying
// clerks against the versioned store: each turn of a clerk's loop sends one request,
// which the network may drop, delay past the end of the call, or let the server execute
// once, and whose reply it may lose.
module ClerkRuns {
  import opened Options
  import opened Kv

  // ---------- models1/kv.go ----------

  datatype KvState = KvState(value: string, version: nat)

  const INIT := KvState("", 0)

  // Whether the specification accepts an operation with this output, and the new state.
  function ModelStep(st: KvState, req: Request, out: Reply): (bool, KvState) {
    match req
    case GetReq(_) => (out.GetReply? && out.value == st.value, st)
    case PutReq(_, value, version) =>
      if st.version == version then (out == PutReply(OK) || out == PutReply(ErrMaybe), KvState(value, st.version + 1))
      else (out == PutReply(ErrVersion) || out == PutReply(ErrMaybe), st)
  }

  // ---------- clerks ----------

  // What Clerk.Put makes of a reply: ErrVersion on a resend might be the echo of an
  // earlier attempt that succeeded.
  function Answer(firstCall: bool, reply: Reply): Reply {
    if reply == PutReply(ErrVersion) && !firstCall then PutReply(ErrMaybe) else reply
  }

  // The end of a call: when, on which execution's reply, and with what result.
  datatype Return = Return(at: nat, exec: nat, result: Reply)

  // One call. since is the version its key was at when it began, sent the attempts so far.
  datatype Op = Op(req: Request, invoked: nat, since: nat, sent: nat, waiting: bool, returned: Option<Return>)

  // One execution of an attempt at the server.
  datatype Exec = Exec(id: nat, attempt: nat, req: Request, reply: Reply, at: nat)

  datatype World = World(table: Table, ops: map<nat, Op>, execs: seq<Exec>, now: nat)

  datatype Action =
    | Invoke(id: nat, req: Request)
    | Send(id: nat)
    | Execute(id: nat, attempt: nat)
    | Lost(id: nat)
    | Respond(id: nat, exec: nat)

  function Start(): World {
    World(map[], map[], [], 0)
  }

  predicate Executed(w: World, id: nat, attempt: nat) {
    exists i :: 0 <= i < |w.execs| && w.execs[i].id == id && w.execs[i].attempt == attempt
  }

  predicate Enabled(w: World, a: Action) {
    match a
    case Invoke(id, req) => id !in w.ops
    case Send(id) => id in w.ops && !w.ops[id].waiting && w.ops[id].returned.None?
    case Execute(id, attempt) => id in w.ops && attempt < w.ops[id].sent && !Executed(w, id, attempt)
    case Lost(id) => id in w.ops && w.ops[id].waiting
    case Respond(id, i) =>
      && id in w.ops && w.ops[id].waiting && i < |w.execs|
      && w.execs[i].id == id && w.execs[i].attempt + 1 == w.ops[id].sent
  }

  function Step(w: World, a: Action): World
    requires Enabled(w, a)
  {
    var v := w.(now := w.now + 1);
    match a
    case Invoke(id, req) =>
      v.(ops := w.ops[id := Op(req, w.now, VersionOf(w.table, req.key), 0, false, None)])
    case Send(id) =>
      var o := w.ops[id];
      v.(ops := w.ops[id := o.(sent := o.sent + 1, waiting := true)])
    case Execute(id, attempt) =>
      var (t, reply) := DoOp(w.table, w.ops[id].req);
      v.(table := t, execs := w.execs + [Exec(id, attempt, w.ops[id].req, reply, w.now)])
    case Lost(id) =>
      v.(ops := w.ops[id := w.ops[id].(waiting := false)])
    case Respond(id, i) =>
      var o := w.ops[id];
      var result := Answer(o.sent == 1, w.execs[i].reply);
      v.(ops := w.ops[id := o.(waiting := false, returned := Some(Return(w.now, i, result)))])
  }

  predicate Possible(acts: seq<Action>)
    decreases |acts|, 0
  {
    acts == [] ||
    (Possible(acts[..|acts| - 1]) && Enabled(After(acts[..|acts| - 1]), acts[|acts| - 1]))
  }

  // The world after a run.
  function After(acts: seq<Action>): World
    requires Possible(acts)
    decreases |acts|, 1
  {
    if acts == [] then Start() else Step(After(acts[..|acts| - 1]), acts[|acts| - 1])
  }

  // ---------- invariant ----------

  // The table after the first n executions.
  function TableAt(execs: seq<Exec>, n: nat): Table
    requires n <= |execs|
  {
    if n == 0 then map[] else DoOp(TableAt(execs, n - 1), execs[n - 1].req).0
  }

  function VersionAt(execs: seq<Exec>, n: nat, key: string): nat
    requires n <= |execs|
  {
    VersionOf(TableAt(execs, n), key)
  }

  ghost predicate ExecOk(w: World, i: nat)
    requires i < |w.execs|
  {
    var e := w.execs[i];
    && e.id in w.ops && e.req == w.ops[e.id].req && e.attempt < w.ops[e.id].sent
    && e.reply == DoOp(TableAt(w.execs, i), e.req).1
    && w.ops[e.id].invoked < e.at < w.now
    && w.ops[e.id].since <= VersionAt(w.execs, i, e.req.key)
  }

  ghost predicate OpOk(w: World, o: Op, id: nat) {
    && o.since <= VersionOf(w.table, o.req.key)
    && o.invoked < w.now
    && (o.waiting ==> o.sent > 0 && o.returned.None?)
    && (o.returned.Some? ==>
          var r := o.returned.value;
          && r.exec < |w.execs| && w.execs[r.exec].id == id && w.execs[r.exec].attempt + 1 == o.sent
          && w.execs[r.exec].at < r.at < w.now
          && r.result == Answer(o.sent == 1, w.execs[r.exec].reply))
  }

  ghost predicate Ordered(execs: seq<Exec>) {
    forall i, j :: 0 <= i < j < |execs| ==>
      execs[i].at < execs[j].at && (execs[i].id != execs[j].id || execs[i].attempt != execs[j].attempt)
  }

  ghost predicate Inv(w: World) {
    && w.table == TableAt(w.execs, |w.execs|)
    && Versioned(w.table)
    && Ordered(w.execs)
    && (forall i: nat :: i < |w.execs| ==> ExecOk(w, i))
    && (forall id :: id in w.ops ==> OpOk(w, w.ops[id], id))
  }

  lemma {:induction false} TableGrows(execs: seq<Exec>, e: Exec, n: nat)
    requires n <= |execs|
    ensures TableAt(execs + [e], n) == TableAt(execs, n)
  {
    if n > 0 { TableGrows(execs, e, n - 1); }
  }

  // Versions never go down, and no stored row has version 0.
  lemma {:induction false} VersionsRise(execs: seq<Exec>, i: nat, j: nat, key: string)
    requires i <= j <= |execs|
    ensures VersionAt(execs, i, key) <= VersionAt(execs, j, key)
    ensures Versioned(TableAt(execs, j))
    decreases j
  {
    if i < j {
      VersionsRise(execs, i, j - 1, key);
    } else if j > 0 {
      VersionsRise(execs, j - 1, j - 1, key);
    }
  }

  lemma ExecuteInv(w: World, id: nat, attempt: nat)
    requires Inv(w) && Enabled(w, Execute(id, attempt))
    ensures Inv(Step(w, Execute(id, attempt)))
  {
    var v := Step(w, Execute(id, attempt));
    var e := v.execs[|w.execs|];
    forall i: nat | i <= |w.execs| ensures TableAt(v.execs, i) == TableAt(w.execs, i) {
      TableGrows(w.execs, e, i);
    }
    forall i: nat | i < |v.execs| ensures ExecOk(v, i) {
      if i < |w.execs| { assert ExecOk(w, i); }
    }
    forall j | j in v.ops ensures OpOk(v, v.ops[j], j) {
      assert OpOk(w, w.ops[j], j);
      assert VersionOf(w.table, w.ops[j].req.key) <= VersionOf(v.table, w.ops[j].req.key);
    }
    forall i | 0 <= i < |w.execs| ensures w.execs[i].at < e.at {
      assert ExecOk(w, i);
    }
  }

  lemma StepInv(w: World, a: Action)
    requires Inv(w) && Enabled(w, a)
    ensures Inv(Step(w, a))
  {
    if a.Execute? {
      ExecuteInv(w, a.id, a.attempt);
    } else {
      var v := Step(w, a);
      forall i: nat | i < |v.execs| ensures ExecOk(v, i) {
        assert ExecOk(w, i);
      }
      if a.Respond? { assert ExecOk(w, a.exec); }
      forall id | id in v.ops ensures OpOk(v, v.ops[id], id) {
        if id in w.ops { assert OpOk(w, w.ops[id], id); }
      }
    }
  }

  lemma {:induction false} RunInv(acts: seq<Action>)
    requires Possible(acts)
    ensures Inv(After(acts))
    decreases |acts|
  {
    if acts != [] {
      RunInv(acts[..|acts| - 1]);
      StepInv(After(acts[..|acts| - 1]), acts[|acts| - 1]);
    }
  }
}
