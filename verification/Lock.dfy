// The lock built on the versioned store: any number of clients run Acquire and Release
// over retrying clerks, next to any other traffic on other keys.
module Lock {
  import opened Options
  import opened Kv
  import opened ClerkRuns
  import opened Linearizability

  // Where a client is. Each name but Idle and Held is a call of the clerk it waits for.
  datatype Pc =
    | Idle
    | AcqGet(op: nat) | AcqPut(op: nat) | AcqCheck(op: nat)
    | Held
    | RelGet(op: nat) | RelPut(op: nat) | RelCheck(op: nat)

  datatype Locks = Locks(w: World, pcs: seq<Pc>)

  // The lock's key and the clients' owner ids.
  datatype Setup = Setup(key: string, ids: seq<string>)

  // Owner ids are fresh uuids: not empty, and no two the same.
  ghost predicate SetupOk(u: Setup) {
    && (forall c :: 0 <= c < |u.ids| ==> u.ids[c] != "")
    && (forall c, d :: 0 <= c < d < |u.ids| ==> u.ids[c] != u.ids[d])
  }

  datatype Move =
    | Net(a: Action)
    | Acquire(c: nat, op: nat)
    | Release(c: nat, op: nat)
    | Proceed(c: nat, op: nat)

  // What Acquire and Release do next with the answer to the call they wait for; op is the
  // next call's id, if they make one.
  function Next(u: Setup, me: string, pc: Pc, r: Reply, op: nat): (Pc, Option<Request>) {
    match pc
    case AcqGet(_) =>
      if r.err == OK && ValueIn(r) == me then (Held, None)
      else if r.err != ErrNoKey && ValueIn(r) != "" then (AcqGet(op), Some(GetReq(u.key)))
      else (AcqPut(op), Some(PutReq(u.key, me, VersionIn(r))))
    case AcqPut(_) =>
      if r.err == OK then (Held, None)
      else if r.err == ErrMaybe then (AcqCheck(op), Some(GetReq(u.key)))
      else (AcqGet(op), Some(GetReq(u.key)))
    case AcqCheck(_) =>
      if r.err == OK && ValueIn(r) == me then (Held, None) else (AcqGet(op), Some(GetReq(u.key)))
    case RelGet(_) =>
      if r.err != OK || ValueIn(r) != me then (Idle, None)
      else (RelPut(op), Some(PutReq(u.key, "", VersionIn(r))))
    case RelPut(_) =>
      if r.err == OK then (Idle, None)
      else if r.err == ErrMaybe then (RelCheck(op), Some(GetReq(u.key)))
      else (RelGet(op), Some(GetReq(u.key)))
    case RelCheck(_) =>
      if r.err != OK || ValueIn(r) != me then (Idle, None) else (RelGet(op), Some(GetReq(u.key)))
    case _ => (pc, None)
  }

  function ValueIn(r: Reply): string { if r.GetReply? then r.value else "" }
  function VersionIn(r: Reply): nat { if r.GetReply? then r.version else 0 }

  predicate Waits(pc: Pc) { !pc.Idle? && !pc.Held? }

  predicate CanMove(u: Setup, s: Locks, m: Move) {
    match m
    case Net(a) => Enabled(s.w, a) && (a.Invoke? ==> a.req.key != u.key)
    case Acquire(c, op) => c < |s.pcs| && !Waits(s.pcs[c]) && op !in s.w.ops
    case Release(c, op) => c < |s.pcs| && !Waits(s.pcs[c]) && op !in s.w.ops
    case Proceed(c, op) =>
      && c < |s.pcs| && Waits(s.pcs[c]) && op !in s.w.ops
      && s.pcs[c].op in s.w.ops && s.w.ops[s.pcs[c].op].returned.Some?
  }

  function Moved(u: Setup, s: Locks, m: Move): Locks
    requires CanMove(u, s, m) && |s.pcs| == |u.ids|
  {
    match m
    case Net(a) => s.(w := Step(s.w, a))
    case Acquire(c, op) => Locks(Step(s.w, Invoke(op, GetReq(u.key))), s.pcs[c := AcqGet(op)])
    case Release(c, op) => Locks(Step(s.w, Invoke(op, GetReq(u.key))), s.pcs[c := RelGet(op)])
    case Proceed(c, op) =>
      var (pc, req) := Next(u, u.ids[c], s.pcs[c], s.w.ops[s.pcs[c].op].returned.value.result, op);
      Locks(if req.Some? then Step(s.w, Invoke(op, req.value)) else s.w, s.pcs[c := pc])
  }

  function Begin(u: Setup): Locks {
    Locks(Start(), seq(|u.ids|, _ => Idle))
  }

  predicate CanRun(u: Setup, moves: seq<Move>)
    decreases |moves|, 0
  {
    moves == [] ||
    (CanRun(u, moves[..|moves| - 1]) && CanMove(u, Run(u, moves[..|moves| - 1]), moves[|moves| - 1]))
  }

  function Run(u: Setup, moves: seq<Move>): (s: Locks)
    requires CanRun(u, moves)
    ensures |s.pcs| == |u.ids|
    decreases |moves|, 1
  {
    if moves == [] then Begin(u) else Moved(u, Run(u, moves[..|moves| - 1]), moves[|moves| - 1])
  }

  // ---------- the values the key has had ----------

  // The value the key had at each version, in order: none at first.
  function Past(execs: seq<Exec>, n: nat, key: string): seq<string>
    requires n <= |execs|
  {
    [""] + Values(execs, n, key)
  }

  function Value(t: Table, key: string): string {
    if key in t then t[key].value else ""
  }

  lemma PastIsHistory(w: World, n: nat, key: string)
    requires Inv(w) && n <= |w.execs|
    ensures var p := Past(w.execs, n, key);
      |p| == VersionAt(w.execs, n, key) + 1 && p[|p| - 1] == Value(TableAt(w.execs, n), key)
  {
    ValuesHold(w, n, key);
  }

  lemma {:induction false} PastGrows(execs: seq<Exec>, i: nat, n: nat, key: string)
    requires i <= n <= |execs|
    ensures Past(execs, i, key) <= Past(execs, n, key)
    decreases n
  {
    if i < n { PastGrows(execs, i, n - 1, key); }
  }

  lemma {:induction false} ValuesSame(execs: seq<Exec>, e: Exec, n: nat, key: string)
    requires n <= |execs|
    ensures Values(execs + [e], n, key) == Values(execs, n, key)
  {
    if n > 0 { ValuesSame(execs, e, n - 1, key); }
  }

  function Now(w: World, key: string): seq<string> {
    Past(w.execs, |w.execs|, key)
  }

  // ---------- invariant ----------

  ghost predicate Mine(u: Setup, w: World, c: nat)
    requires c < |u.ids|
  {
    Value(w.table, u.key) == u.ids[c]
  }

  ghost predicate Ran(w: World, id: nat) {
    exists i: nat :: i < |w.execs| && w.execs[i].id == id
  }

  ghost predicate Took(w: World, id: nat) {
    exists i: nat :: AppliedBy(w, id, i)
  }

  // A Get whose executions have all told truly whether the lock is the client's, and at
  // what version.
  ghost predicate Sees(u: Setup, w: World, c: nat, id: nat)
    requires c < |u.ids|
  {
    && id in w.ops && w.ops[id].req == GetReq(u.key)
    && forall i: nat :: i < |w.execs| && w.execs[i].id == id ==> 
        && (ValueIn(w.execs[i].reply) == u.ids[c] <==> Mine(u, w, c))
        && (Mine(u, w, c) ==> VersionIn(w.execs[i].reply) == VersionOf(w.table, u.key))
  }

  ghost predicate PutAt(u: Setup, w: World, id: nat, value: string, found: string) {
    && id in w.ops && w.ops[id].req.PutReq? && w.ops[id].req.key == u.key && w.ops[id].req.value == value
    && w.ops[id].req.version < |Now(w, u.key)| && Now(w, u.key)[w.ops[id].req.version] == found
  }

  ghost predicate ClientOk(u: Setup, w: World, c: nat, pc: Pc)
    requires c < |u.ids|
  {
    match pc
    case Idle => !Mine(u, w, c)
    case Held => Mine(u, w, c)
    case AcqGet(id) => Sees(u, w, c, id)
    case AcqCheck(id) => Sees(u, w, c, id)
    case RelGet(id) => Sees(u, w, c, id)
    case RelCheck(id) => Sees(u, w, c, id) && !Mine(u, w, c)
    case AcqPut(id) => PutAt(u, w, id, u.ids[c], "") && (Took(w, id) ==> Mine(u, w, c))
    case RelPut(id) =>
      && PutAt(u, w, id, "", u.ids[c])
      && (if Ran(w, id) then Took(w, id) && !Mine(u, w, c)
          else Mine(u, w, c) && w.ops[id].req.version == VersionOf(w.table, u.key))
  }

  // Every unfinished put on the key is the call some client waits for.
  ghost predicate PutsOk(u: Setup, s: Locks) {
    forall id :: id in s.w.ops && s.w.ops[id].req.PutReq? && s.w.ops[id].req.key == u.key ==>
      Modest(s.w.ops[id]) && (s.w.ops[id].returned.None? ==> Awaited(s, id))
  }

  ghost predicate Awaited(s: Locks, id: nat) {
    exists c: nat :: c < |s.pcs| && (s.pcs[c] == AcqPut(id) || s.pcs[c] == RelPut(id))
  }

  ghost predicate Apart(s: Locks) {
    forall c, d :: 0 <= c < d < |s.pcs| && Waits(s.pcs[c]) && Waits(s.pcs[d]) ==> s.pcs[c].op != s.pcs[d].op
  }

  ghost predicate LockInv(u: Setup, s: Locks) {
    && Inv(s.w) && |s.pcs| == |u.ids|
    && Apart(s)
    && PutsOk(u, s)
    && (forall c: nat :: c < |s.pcs| ==> ClientOk(u, s.w, c, s.pcs[c]))
  }

  // ---------- executions ----------

  // The facts of the key after one more execution.
  lemma NowAfter(w: World, id: nat, attempt: nat, key: string)
    requires Inv(w) && Enabled(w, Execute(id, attempt))
    ensures var v := Step(w, Execute(id, attempt)); var e := v.execs[|w.execs|];
      && Now(v, key) == Now(w, key) + (if e.req.PutReq? && e.req.key == key && e.reply == PutReply(OK) then [e.req.value] else [])
      && |Now(w, key)| == VersionOf(w.table, key) + 1
      && Now(w, key)[VersionOf(w.table, key)] == Value(w.table, key)
      && (e.req.PutReq? && e.req.key == key && e.reply == PutReply(OK) ==>
            VersionOf(w.table, key) == e.req.version && VersionOf(v.table, key) == e.req.version + 1 && Value(v.table, key) == e.req.value)
      && (!(e.req.PutReq? && e.req.key == key && e.reply == PutReply(OK)) ==>
            VersionOf(v.table, key) == VersionOf(w.table, key) && Value(v.table, key) == Value(w.table, key))
  {
    var v := Step(w, Execute(id, attempt));
    ValuesSame(w.execs, v.execs[|w.execs|], |w.execs|, key);
    PastIsHistory(w, |w.execs|, key);
    var req := w.ops[id].req;
    if req.PutReq? { PutExact(w.table, req.key, req.value, req.version); }
  }

  // Only a put some client waits for can still be applied.
  lemma AppliedIsAwaited(u: Setup, s: Locks, id: nat, attempt: nat)
    requires LockInv(u, s) && Enabled(s.w, Execute(id, attempt))
    requires s.w.ops[id].req.PutReq? && s.w.ops[id].req.key == u.key
    requires DoOp(s.w.table, s.w.ops[id].req).1 == PutReply(OK)
    ensures Awaited(s, id)
  {
    var o := s.w.ops[id];
    PutExact(s.w.table, o.req.key, o.req.value, o.req.version);
    if o.returned.Some? { FinishedIsOver(s.w, id); }
  }

  ghost predicate Steady(u: Setup, w: World, v: World) {
    Value(v.table, u.key) == Value(w.table, u.key) && VersionOf(v.table, u.key) == VersionOf(w.table, u.key)
  }

  // The waiting client a takes the free lock, or frees the one it has.
  ghost predicate Passes(u: Setup, s: Locks, v: World, a: nat, id: nat)
    requires |s.pcs| == |u.ids|
  {
    && a < |s.pcs|
    && (|| (s.pcs[a] == AcqPut(id) && Value(s.w.table, u.key) == "" && Value(v.table, u.key) == u.ids[a])
        || (s.pcs[a] == RelPut(id) && Value(s.w.table, u.key) == u.ids[a] && Value(v.table, u.key) == ""))
  }

  lemma ExecuteValue(u: Setup, s: Locks, id: nat, attempt: nat)
    requires LockInv(u, s) && Enabled(s.w, Execute(id, attempt))
    ensures var v := Step(s.w, Execute(id, attempt)); var e := v.execs[|s.w.execs|];
      if e.req.PutReq? && e.req.key == u.key && e.reply == PutReply(OK) then exists a: nat :: Passes(u, s, v, a, id)
      else Steady(u, s.w, v)
  {
    var v := Step(s.w, Execute(id, attempt));
    var e := v.execs[|s.w.execs|];
    NowAfter(s.w, id, attempt, u.key);
    if e.req.PutReq? && e.req.key == u.key && e.reply == PutReply(OK) {
      AppliedIsAwaited(u, s, id, attempt);
      var a: nat :| a < |s.pcs| && (s.pcs[a] == AcqPut(id) || s.pcs[a] == RelPut(id));
      assert ClientOk(u, s.w, a, s.pcs[a]);
      assert Passes(u, s, v, a, id);
    }
  }

  // Another client's step changes nothing about whether the lock is mine.
  lemma MineKept(u: Setup, s: Locks, id: nat, attempt: nat, c: nat)
    requires SetupOk(u) && LockInv(u, s) && Enabled(s.w, Execute(id, attempt))
    requires c < |s.pcs| && s.pcs[c] != AcqPut(id) && s.pcs[c] != RelPut(id)
    ensures var v := Step(s.w, Execute(id, attempt));
      && (Mine(u, v, c) <==> Mine(u, s.w, c))
      && (Mine(u, s.w, c) ==> Steady(u, s.w, v))
  {
    ExecuteValue(u, s, id, attempt);
    var v := Step(s.w, Execute(id, attempt));
    if !Steady(u, s.w, v) {
      var a: nat :| Passes(u, s, v, a, id);
      assert u.ids[a] != u.ids[c];
    }
  }

  lemma ExecuteSees(u: Setup, s: Locks, id: nat, attempt: nat, c: nat)
    requires SetupOk(u) && LockInv(u, s) && Enabled(s.w, Execute(id, attempt)) && c < |s.pcs|
    requires !s.pcs[c].AcqPut? && !s.pcs[c].RelPut?
    ensures ClientOk(u, Step(s.w, Execute(id, attempt)), c, s.pcs[c])
  {
    assert ClientOk(u, s.w, c, s.pcs[c]);
    MineKept(u, s, id, attempt, c);
  }

  lemma TookKept(w: World, id: nat, attempt: nat, k: nat)
    requires Enabled(w, Execute(id, attempt))
    ensures var v := Step(w, Execute(id, attempt)); var e := v.execs[|w.execs|];
      && (Took(v, k) <==> Took(w, k) || (k == id && e.req.PutReq? && e.reply == PutReply(OK)))
      && (Ran(v, k) <==> Ran(w, k) || k == id)
  {
    var v := Step(w, Execute(id, attempt));
    if i: nat :| AppliedBy(w, k, i) { assert AppliedBy(v, k, i); }
    if i: nat :| AppliedBy(v, k, i) { assert i < |w.execs| ==> AppliedBy(w, k, i); }
    if i: nat :| i < |w.execs| && w.execs[i].id == k { assert v.execs[i].id == k; }
    if i: nat :| i < |v.execs| && v.execs[i].id == k { assert i < |w.execs| ==> w.execs[i].id == k; }
    assert v.execs[|w.execs|].id == id;
    assert v.execs[|w.execs|].req.PutReq? && v.execs[|w.execs|].reply == PutReply(OK) ==> AppliedBy(v, id, |w.execs|);
  }

  lemma ExecuteAcqPut(u: Setup, s: Locks, id: nat, attempt: nat, c: nat)
    requires SetupOk(u) && LockInv(u, s) && Enabled(s.w, Execute(id, attempt)) && c < |s.pcs| && s.pcs[c].AcqPut?
    ensures ClientOk(u, Step(s.w, Execute(id, attempt)), c, s.pcs[c])
  {
    var k := s.pcs[c].op;
    assert ClientOk(u, s.w, c, s.pcs[c]);
    NowAfter(s.w, id, attempt, u.key);
    TookKept(s.w, id, attempt, k);
    if k != id { MineKept(u, s, id, attempt, c); }
  }

  lemma ExecuteRelPut(u: Setup, s: Locks, id: nat, attempt: nat, c: nat)
    requires SetupOk(u) && LockInv(u, s) && Enabled(s.w, Execute(id, attempt)) && c < |s.pcs| && s.pcs[c].RelPut?
    ensures ClientOk(u, Step(s.w, Execute(id, attempt)), c, s.pcs[c])
  {
    var k := s.pcs[c].op;
    assert ClientOk(u, s.w, c, s.pcs[c]);
    NowAfter(s.w, id, attempt, u.key);
    TookKept(s.w, id, attempt, k);
    if k != id {
      MineKept(u, s, id, attempt, c);
    } else {
      var req := s.w.ops[id].req;
      PutExact(s.w.table, req.key, req.value, req.version);
    }
  }

  lemma ExecuteLock(u: Setup, s: Locks, id: nat, attempt: nat)
    requires SetupOk(u) && LockInv(u, s) && Enabled(s.w, Execute(id, attempt))
    ensures LockInv(u, Moved(u, s, Net(Execute(id, attempt))))
  {
    ExecuteInv(s.w, id, attempt);
    var t := Moved(u, s, Net(Execute(id, attempt)));
    forall c: nat | c < |t.pcs| ensures ClientOk(u, t.w, c, t.pcs[c]) {
      if s.pcs[c].AcqPut? {
        ExecuteAcqPut(u, s, id, attempt, c);
      } else if s.pcs[c].RelPut? {
        ExecuteRelPut(u, s, id, attempt, c);
      } else {
        ExecuteSees(u, s, id, attempt, c);
      }
    }
    forall k | k in t.w.ops && t.w.ops[k].req.PutReq? && t.w.ops[k].req.key == u.key && t.w.ops[k].returned.None?
      ensures Awaited(t, k)
    {
      assert Awaited(s, k);
    }
  }

  // ---------- the other steps ----------

  // A step that executes nothing tells no client anything but replies.
  lemma NetClient(u: Setup, w: World, a: Action, c: nat, pc: Pc)
    requires Enabled(w, a) && !a.Execute? && c < |u.ids| && ClientOk(u, w, c, pc) && (a.Invoke? ==> a.req.key != u.key)
    ensures ClientOk(u, Step(w, a), c, pc)
  {
    if Waits(pc) { SameRuns(w, Step(w, a), pc.op); }
  }

  lemma NetLock(u: Setup, s: Locks, a: Action)
    requires LockInv(u, s) && CanMove(u, s, Net(a)) && !a.Execute?
    ensures LockInv(u, Moved(u, s, Net(a)))
  {
    StepInv(s.w, a);
    var t := Moved(u, s, Net(a));
    forall c: nat | c < |t.pcs| ensures ClientOk(u, t.w, c, t.pcs[c]) {
      NetClient(u, s.w, a, c, s.pcs[c]);
    }
    forall k | k in t.w.ops && t.w.ops[k].req.PutReq? && t.w.ops[k].req.key == u.key
      ensures Modest(t.w.ops[k]) && (t.w.ops[k].returned.None? ==> Awaited(t, k))
    {
      assert k in s.w.ops;
      if t.w.ops[k].returned.None? {
        assert Awaited(s, k);
      }
    }
  }

  lemma SameRuns(w: World, v: World, id: nat)
    requires v.execs == w.execs
    ensures (Ran(v, id) <==> Ran(w, id)) && (Took(v, id) <==> Took(w, id))
  {
    if i: nat :| AppliedBy(w, id, i) { assert AppliedBy(v, id, i); }
    if i: nat :| AppliedBy(v, id, i) { assert AppliedBy(w, id, i); }
  }

  lemma NotRun(w: World, op: nat)
    requires Inv(w) && op !in w.ops
    ensures !Ran(w, op) && !Took(w, op)
  {
    forall i: nat | i < |w.execs| ensures w.execs[i].id != op { assert ExecOk(w, i); }
  }

  // Client c, not waiting for an unfinished put, begins a call.
  lemma CallLock(u: Setup, s: Locks, c: nat, op: nat, req: Request, pc: Pc)
    requires LockInv(u, s) && c < |s.pcs| && op !in s.w.ops
    requires Waits(s.pcs[c]) ==> s.pcs[c].op in s.w.ops && s.w.ops[s.pcs[c].op].returned.Some?
    requires Waits(pc) && pc.op == op && req.key == u.key
    requires req.PutReq? ==> (pc.AcqPut? || pc.RelPut?) && req.version <= VersionOf(s.w.table, u.key)
    requires ClientOk(u, Step(s.w, Invoke(op, req)), c, pc)
    ensures LockInv(u, Locks(Step(s.w, Invoke(op, req)), s.pcs[c := pc]))
  {
    StepInv(s.w, Invoke(op, req));
    var t := Locks(Step(s.w, Invoke(op, req)), s.pcs[c := pc]);
    forall d: nat | d < |t.pcs| ensures ClientOk(u, t.w, d, t.pcs[d]) {
      assert ClientOk(u, s.w, d, s.pcs[d]);
      if Waits(s.pcs[d]) { SameRuns(s.w, t.w, s.pcs[d].op); }
    }
    forall d: nat | d < |s.pcs| && Waits(s.pcs[d]) ensures s.pcs[d].op != op {
      assert ClientOk(u, s.w, d, s.pcs[d]);
    }
    forall k | k in t.w.ops && t.w.ops[k].req.PutReq? && t.w.ops[k].req.key == u.key
      ensures Modest(t.w.ops[k]) && (t.w.ops[k].returned.None? ==> Awaited(t, k))
    {
      AwaitedStill(s, t, c, k, op);
    }
  }

  lemma AwaitedStill(s: Locks, t: Locks, c: nat, k: nat, op: nat)
    requires c < |s.pcs| && |t.pcs| == |s.pcs| && t.pcs == s.pcs[c := t.pcs[c]]
    requires Waits(s.pcs[c]) ==> s.pcs[c].op in s.w.ops && s.w.ops[s.pcs[c].op].returned.Some?
    ensures k in s.w.ops && s.w.ops[k].returned.None? && Awaited(s, k) ==> Awaited(t, k)
    ensures t.pcs[c] == AcqPut(op) || t.pcs[c] == RelPut(op) ==> Awaited(t, op)
  {
    if k in s.w.ops && s.w.ops[k].returned.None? && Awaited(s, k) {
      var d: nat :| d < |s.pcs| && (s.pcs[d] == AcqPut(k) || s.pcs[d] == RelPut(k));
      assert t.pcs[d] == s.pcs[d];
    }
  }

  // Client c, not waiting for an unfinished put, returns.
  lemma RestLock(u: Setup, s: Locks, c: nat, pc: Pc)
    requires LockInv(u, s) && c < |s.pcs| && !Waits(pc)
    requires Waits(s.pcs[c]) ==> s.pcs[c].op in s.w.ops && s.w.ops[s.pcs[c].op].returned.Some?
    requires ClientOk(u, s.w, c, pc)
    ensures LockInv(u, s.(pcs := s.pcs[c := pc]))
  {
    var t := s.(pcs := s.pcs[c := pc]);
    forall k | k in t.w.ops && t.w.ops[k].req.PutReq? && t.w.ops[k].req.key == u.key && t.w.ops[k].returned.None?
      ensures Awaited(t, k)
    {
      AwaitedStill(s, t, c, k, 0);
    }
  }

  // A finished Get of the key found the value of the version it names.
  lemma GetAnswer(u: Setup, w: World, c: nat, id: nat)
    requires Inv(w) && c < |u.ids| && Sees(u, w, c, id) && w.ops[id].returned.Some?
    ensures var r := w.ops[id].returned.value.result;
      && r.GetReply? && (r.err == OK || (r.err == ErrNoKey && r.value == ""))
      && (r.value == u.ids[c] <==> Mine(u, w, c))
      && (Mine(u, w, c) ==> r.version == VersionOf(w.table, u.key))
      && r.version <= VersionOf(w.table, u.key)
      && r.version < |Now(w, u.key)| && Now(w, u.key)[r.version] == r.value
  {
    assert OpOk(w, w.ops[id], id);
    var p := w.ops[id].returned.value.exec;
    assert ExecOk(w, p);
    PastIsHistory(w, p, u.key);
    PastGrows(w.execs, p, |w.execs|, u.key);
    VersionsRise(w.execs, p, |w.execs|, u.key);
    PastIsHistory(w, |w.execs|, u.key);
  }

  // A put the lock made is over when it returns; a release's has then been applied.
  lemma PutAnswer(u: Setup, s: Locks, c: nat)
    requires LockInv(u, s) && c < |s.pcs| && (s.pcs[c].AcqPut? || s.pcs[c].RelPut?)
    requires s.pcs[c].op in s.w.ops && s.w.ops[s.pcs[c].op].returned.Some?
    ensures var r := s.w.ops[s.pcs[c].op].returned.value.result;
      && (s.pcs[c].AcqPut? && r == PutReply(OK) ==> Mine(u, s.w, c))
      && (s.pcs[c].RelPut? ==> !Mine(u, s.w, c) && r in {PutReply(OK), PutReply(ErrMaybe)})
      && r in {PutReply(OK), PutReply(ErrMaybe), PutReply(ErrVersion)}
  {
    var id := s.pcs[c].op;
    assert ClientOk(u, s.w, c, s.pcs[c]);
    assert OpOk(s.w, s.w.ops[id], id);
    ResultTellsEffect(s.w, id);
    FinishedIsOver(s.w, id);
    var p := s.w.ops[id].returned.value.exec;
    assert s.w.execs[p].id == id;
    if s.w.ops[id].returned.value.result == PutReply(OK) {
      var i: nat :| AppliedBy(s.w, id, i);
    }
  }

  // The two puts: on a lock that was found free, and on one that is still the client's.
  lemma AcquirePut(u: Setup, s: Locks, c: nat, op: nat, version: nat)
    requires LockInv(u, s) && c < |s.pcs| && op !in s.w.ops
    requires Waits(s.pcs[c]) && s.pcs[c].op in s.w.ops && s.w.ops[s.pcs[c].op].returned.Some?
    requires version <= VersionOf(s.w.table, u.key)
    requires version < |Now(s.w, u.key)| && Now(s.w, u.key)[version] == ""
    ensures LockInv(u, Locks(Step(s.w, Invoke(op, PutReq(u.key, u.ids[c], version))), s.pcs[c := AcqPut(op)]))
  {
    NotRun(s.w, op);
    SameRuns(s.w, Step(s.w, Invoke(op, PutReq(u.key, u.ids[c], version))), op);
    CallLock(u, s, c, op, PutReq(u.key, u.ids[c], version), AcqPut(op));
  }

  lemma ReleasePut(u: Setup, s: Locks, c: nat, op: nat, version: nat)
    requires LockInv(u, s) && c < |s.pcs| && op !in s.w.ops
    requires Waits(s.pcs[c]) && s.pcs[c].op in s.w.ops && s.w.ops[s.pcs[c].op].returned.Some?
    requires version == VersionOf(s.w.table, u.key) && Mine(u, s.w, c)
    ensures LockInv(u, Locks(Step(s.w, Invoke(op, PutReq(u.key, "", version))), s.pcs[c := RelPut(op)]))
  {
    NotRun(s.w, op);
    PastIsHistory(s.w, |s.w.execs|, u.key);
    SameRuns(s.w, Step(s.w, Invoke(op, PutReq(u.key, "", version))), op);
    CallLock(u, s, c, op, PutReq(u.key, "", version), RelPut(op));
  }

  lemma AskAgain(u: Setup, s: Locks, c: nat, op: nat, pc: Pc)
    requires LockInv(u, s) && c < |s.pcs| && op !in s.w.ops
    requires Waits(s.pcs[c]) ==> s.pcs[c].op in s.w.ops && s.w.ops[s.pcs[c].op].returned.Some?
    requires pc == AcqGet(op) || pc == AcqCheck(op) || pc == RelGet(op) || (pc == RelCheck(op) && !Mine(u, s.w, c))
    ensures LockInv(u, Locks(Step(s.w, Invoke(op, GetReq(u.key))), s.pcs[c := pc]))
  {
    NotRun(s.w, op);
    assert forall i: nat :: i < |s.w.execs| ==> s.w.execs[i].id != op;
    CallLock(u, s, c, op, GetReq(u.key), pc);
  }

  lemma ProceedGet(u: Setup, s: Locks, c: nat, op: nat)
    requires SetupOk(u) && LockInv(u, s) && CanMove(u, s, Proceed(c, op)) && !s.pcs[c].AcqPut? && !s.pcs[c].RelPut?
    ensures LockInv(u, Moved(u, s, Proceed(c, op)))
  {
    var pc := s.pcs[c];
    assert ClientOk(u, s.w, c, pc);
    GetAnswer(u, s.w, c, pc.op);
    var r := s.w.ops[pc.op].returned.value.result;
    var (to, req) := Next(u, u.ids[c], pc, r, op);
    if req.None? {
      RestLock(u, s, c, to);
    } else if to.AcqPut? {
      AcquirePut(u, s, c, op, r.version);
    } else if to.RelPut? {
      ReleasePut(u, s, c, op, r.version);
    } else {
      AskAgain(u, s, c, op, to);
    }
  }

  lemma ProceedPut(u: Setup, s: Locks, c: nat, op: nat)
    requires SetupOk(u) && LockInv(u, s) && CanMove(u, s, Proceed(c, op)) && (s.pcs[c].AcqPut? || s.pcs[c].RelPut?)
    ensures LockInv(u, Moved(u, s, Proceed(c, op)))
  {
    var pc := s.pcs[c];
    PutAnswer(u, s, c);
    var r := s.w.ops[pc.op].returned.value.result;
    var (to, req) := Next(u, u.ids[c], pc, r, op);
    if req.None? {
      RestLock(u, s, c, to);
    } else {
      AskAgain(u, s, c, op, to);
    }
  }

  lemma MoveLock(u: Setup, s: Locks, m: Move)
    requires SetupOk(u) && LockInv(u, s) && CanMove(u, s, m)
    ensures LockInv(u, Moved(u, s, m))
  {
    match m
    case Net(a) =>
      if a.Execute? { ExecuteLock(u, s, a.id, a.attempt); } else { NetLock(u, s, a); }
    case Acquire(c, op) => AskAgain(u, s, c, op, AcqGet(op));
    case Release(c, op) => AskAgain(u, s, c, op, RelGet(op));
    case Proceed(c, op) =>
      if s.pcs[c].AcqPut? || s.pcs[c].RelPut? { ProceedPut(u, s, c, op); } else { ProceedGet(u, s, c, op); }
  }

  lemma {:induction false} LockRunInv(u: Setup, moves: seq<Move>)
    requires SetupOk(u) && CanRun(u, moves)
    ensures LockInv(u, Run(u, moves))
    decreases |moves|
  {
    if moves == [] {
      var s := Begin(u);
      forall c: nat | c < |s.pcs| ensures ClientOk(u, s.w, c, s.pcs[c]) {
      }
    } else {
      LockRunInv(u, moves[..|moves| - 1]);
      MoveLock(u, Run(u, moves[..|moves| - 1]), moves[|moves| - 1]);
    }
  }

  // ---------- what the lock guarantees ----------

  // In every run at most one client is between Acquire's return and its Release, and all
  // that time the stored value is its id; a client that has returned from Release no
  // longer has its id stored.
  lemma MutualExclusion(u: Setup, moves: seq<Move>, c: nat, d: nat)
    requires SetupOk(u) && CanRun(u, moves) && c < |u.ids| && d < |u.ids|
    ensures var s := Run(u, moves);
      && (s.pcs[c] == Held ==> Value(s.w.table, u.key) == u.ids[c])
      && (s.pcs[c] == Held && s.pcs[d] == Held ==> c == d)
      && (s.pcs[c] == Idle ==> Value(s.w.table, u.key) != u.ids[c])
  {
    LockRunInv(u, moves);
    var s := Run(u, moves);
    assert ClientOk(u, s.w, c, s.pcs[c]);
    assert ClientOk(u, s.w, d, s.pcs[d]);
  }

  // No leftover: an attempt of a put that has returned changes nothing if it arrives later.
  lemma NoLeftover(u: Setup, moves: seq<Move>, id: nat, attempt: nat)
    requires SetupOk(u) && CanRun(u, moves)
    requires var s := Run(u, moves);
      && CanMove(u, s, Net(Execute(id, attempt)))
      && s.w.ops[id].req.PutReq? && s.w.ops[id].req.key == u.key && s.w.ops[id].returned.Some?
    ensures Moved(u, Run(u, moves), Net(Execute(id, attempt))).w.table == Run(u, moves).w.table
  {
    LockRunInv(u, moves);
    var s := Run(u, moves);
    FinishedIsOver(s.w, id);
    var req := s.w.ops[id].req;
    PutExact(s.w.table, req.key, req.value, req.version);
  }

  // A Release that found the lock its client's frees it with one put: that put is never
  // answered with ErrVersion, and the check after ErrMaybe always finds it gone.
  lemma ReleaseOnePut(u: Setup, moves: seq<Move>, c: nat, op: nat)
    requires SetupOk(u) && CanRun(u, moves) && CanMove(u, Run(u, moves), Proceed(c, op))
    ensures var s := Run(u, moves); var t := Moved(u, s, Proceed(c, op));
      && (s.pcs[c].RelPut? ==> t.pcs[c] == Idle || t.pcs[c] == RelCheck(op))
      && (s.pcs[c].RelCheck? ==> t.pcs[c] == Idle)
  {
    LockRunInv(u, moves);
    var s := Run(u, moves);
    assert ClientOk(u, s.w, c, s.pcs[c]);
    if s.pcs[c].RelPut? {
      PutAnswer(u, s, c);
    } else if s.pcs[c].RelCheck? {
      GetAnswer(u, s.w, c, s.pcs[c].op);
    }
  }
}
