// That the lock can be taken and given back: exactly when a client's own calls bring it
// from Acquire to holding the lock, and that they always bring it out of Release.
module LockProgress {
  import opened Options
  import opened Kv
  import opened ClerkRuns
  import opened Linearizability
  import opened Lock

  // ---------- one client's own moves ----------

  // A step of the call client c waits for, or c going on with its answer.
  predicate Own(s: Locks, c: nat, m: Move) {
    match m
    case Net(a) => !a.Invoke? && c < |s.pcs| && Waits(s.pcs[c]) && a.id == s.pcs[c].op
    case Proceed(d, _) => d == c
    case _ => false
  }

  // Run `to` is run `from` and then moves of client c only.
  ghost predicate Goes(u: Setup, c: nat, from: seq<Move>, to: seq<Move>)
    decreases |to|
  {
    && CanRun(u, to)
    && (from == to ||
        (to != [] && Goes(u, c, from, to[..|to| - 1]) && Own(Run(u, to[..|to| - 1]), c, to[|to| - 1])))
  }

  lemma {:induction false} GoesOn(u: Setup, c: nat, a: seq<Move>, b: seq<Move>, d: seq<Move>)
    requires Goes(u, c, a, b) && Goes(u, c, b, d)
    ensures Goes(u, c, a, d)
    decreases |d|
  {
    if b != d { GoesOn(u, c, a, b, d[..|d| - 1]); }
  }

  lemma More(u: Setup, c: nat, from: seq<Move>, to: seq<Move>, m: Move)
    requires Goes(u, c, from, to) && CanMove(u, Run(u, to), m) && Own(Run(u, to), c, m)
    ensures Goes(u, c, from, to + [m]) && Run(u, to + [m]) == Moved(u, Run(u, to), m)
  {
    assert (to + [m])[..|to|] == to;
  }

  lemma FreshOp(keys: set<nat>) returns (op: nat)
    ensures op !in keys
  {
    op := Above(keys);
  }

  lemma {:induction false} Above(keys: set<nat>) returns (op: nat)
    ensures forall k :: k in keys ==> k < op
    decreases |keys|
  {
    if keys == {} {
      op := 0;
    } else {
      var k :| k in keys;
      var rest := Above(keys - {k});
      op := if k < rest then rest else k + 1;
      forall j | j in keys ensures j < op { assert j == k || j in keys - {k}; }
    }
  }

  // ---------- a call comes to its end ----------

  // The call with id has been answered by an attempt that was executed at the end of w, the
  // first or a later one.
  ghost predicate Answered(w: World, v: World, id: nat)
    requires id in w.ops
  {
    && v.table == DoOp(w.table, w.ops[id].req).0
    && id in v.ops && v.ops[id].req == w.ops[id].req && v.ops[id].returned.Some?
    && v.ops[id].returned.value.result == Answer(w.ops[id].sent == 0, DoOp(w.table, w.ops[id].req).1)
  }

  lemma NotTried(w: World, id: nat)
    requires Inv(w) && id in w.ops
    ensures !Executed(w, id, w.ops[id].sent)
  {
    forall i: nat | i < |w.execs| && w.execs[i].id == id ensures w.execs[i].attempt < w.ops[id].sent {
      assert ExecOk(w, i);
    }
  }

  // One more attempt, executed and answered.
  lemma Attempt(w: World, id: nat)
    requires Inv(w) && id in w.ops && !w.ops[id].waiting && w.ops[id].returned.None?
    ensures Enabled(w, Send(id))
    ensures var x := Step(w, Send(id)); Enabled(x, Execute(id, w.ops[id].sent))
    ensures var x := Step(w, Send(id)); var y := Step(x, Execute(id, w.ops[id].sent));
      Enabled(y, Respond(id, |w.execs|)) && Answered(w, Step(y, Respond(id, |w.execs|)), id)
  {
    NotTried(w, id);
    var x := Step(w, Send(id));
    assert forall i :: 0 <= i < |x.execs| ==> x.execs[i] == w.execs[i];
  }

  lemma Net1(u: Setup, moves: seq<Move>, c: nat, a: Action) returns (done: seq<Move>)
    requires CanRun(u, moves) && c < |u.ids| && Waits(Run(u, moves).pcs[c]) && !a.Invoke? && a.id == Run(u, moves).pcs[c].op
    requires Enabled(Run(u, moves).w, a)
    ensures Goes(u, c, moves, done) && Run(u, done) == Locks(Step(Run(u, moves).w, a), Run(u, moves).pcs)
  {
    More(u, c, moves, moves, Net(a));
    done := moves + [Net(a)];
  }

  lemma FinishIdle(u: Setup, moves: seq<Move>, c: nat, id: nat) returns (done: seq<Move>)
    requires SetupOk(u) && CanRun(u, moves) && c < |u.ids| && Waits(Run(u, moves).pcs[c]) && Run(u, moves).pcs[c].op == id
    requires var w := Run(u, moves).w; id in w.ops && !w.ops[id].waiting && w.ops[id].returned.None?
    ensures Goes(u, c, moves, done) && Run(u, done).pcs == Run(u, moves).pcs && Answered(Run(u, moves).w, Run(u, done).w, id)
  {
    LockRunInv(u, moves);
    var w := Run(u, moves).w;
    Attempt(w, id);
    var x := Net1(u, moves, c, Send(id));
    var y := Net1(u, x, c, Execute(id, w.ops[id].sent));
    var z := Net1(u, y, c, Respond(id, |w.execs|));
    GoesOn(u, c, moves, x, y);
    GoesOn(u, c, moves, y, z);
    done := z;
  }

  // The call that c waits for was answered already, or is now.
  ghost predicate Finished(u: Setup, c: nat, moves: seq<Move>, done: seq<Move>)
    requires CanRun(u, moves) && c < |u.ids| && Waits(Run(u, moves).pcs[c])
  {
    && Goes(u, c, moves, done) && Run(u, done).pcs == Run(u, moves).pcs
    && var id := Run(u, moves).pcs[c].op;
    && id in Run(u, moves).w.ops && id in Run(u, done).w.ops && Run(u, done).w.ops[id].returned.Some?
    && (if Run(u, moves).w.ops[id].returned.Some? then done == moves else Answered(Run(u, moves).w, Run(u, done).w, id))
  }

  lemma WaitsForOp(u: Setup, moves: seq<Move>, c: nat)
    requires SetupOk(u) && CanRun(u, moves) && c < |u.ids| && Waits(Run(u, moves).pcs[c])
    ensures Run(u, moves).pcs[c].op in Run(u, moves).w.ops
  {
    LockRunInv(u, moves);
    assert ClientOk(u, Run(u, moves).w, c, Run(u, moves).pcs[c]);
  }

  lemma Finish(u: Setup, moves: seq<Move>, c: nat) returns (done: seq<Move>)
    requires SetupOk(u) && CanRun(u, moves) && c < |u.ids| && Waits(Run(u, moves).pcs[c])
    ensures Finished(u, c, moves, done)
  {
    WaitsForOp(u, moves, c);
    var w := Run(u, moves).w;
    var id := Run(u, moves).pcs[c].op;
    if w.ops[id].returned.Some? {
      done := moves;
    } else if !w.ops[id].waiting {
      done := FinishIdle(u, moves, c, id);
    } else {
      LockRunInv(u, moves);
      assert OpOk(w, w.ops[id], id);
      var lost := Net1(u, moves, c, Lost(id));
      done := FinishIdle(u, lost, c, id);
      GoesOn(u, c, moves, lost, done);
    }
  }

  // c goes on with the answer.
  lemma Turn(u: Setup, moves: seq<Move>, c: nat) returns (done: seq<Move>, op: nat)
    requires CanRun(u, moves) && c < |u.ids| && Waits(Run(u, moves).pcs[c])
    requires var s := Run(u, moves); s.pcs[c].op in s.w.ops && s.w.ops[s.pcs[c].op].returned.Some?
    ensures Goes(u, c, moves, done)
    ensures var s := Run(u, moves); op !in s.w.ops && CanMove(u, s, Proceed(c, op)) && Run(u, done) == Moved(u, s, Proceed(c, op))
  {
    op := FreshOp(Run(u, moves).w.ops.Keys);
    More(u, c, moves, moves, Proceed(c, op));
    done := moves + [Proceed(c, op)];
  }

  // ---------- taking a free lock ----------

  predicate InAcquire(pc: Pc) { pc.AcqGet? || pc.AcqPut? || pc.AcqCheck? }

  predicate InRelease(pc: Pc) { pc.RelGet? || pc.RelPut? || pc.RelCheck? }

  // The lock is free, or client c's already.
  predicate Takable(u: Setup, s: Locks, c: nat) requires c < |u.ids| {
    Value(s.w.table, u.key) == "" || Value(s.w.table, u.key) == u.ids[c]
  }

  // c has just asked, and not been answered.
  predicate Asking(s: Locks, c: nat) {
    c < |s.pcs| && s.pcs[c].AcqGet? && s.pcs[c].op in s.w.ops && s.w.ops[s.pcs[c].op].returned.None?
  }

  // A finished Get of Acquire that found the lock free is followed by a Put of the client's
  // id at the version that the Get returned.
  lemma FreeThenPut(u: Setup, moves: seq<Move>, c: nat, op: nat)
    requires SetupOk(u) && CanRun(u, moves) && CanMove(u, Run(u, moves), Proceed(c, op)) && Run(u, moves).pcs[c].AcqGet?
    requires var s := Run(u, moves); ValueIn(s.w.ops[s.pcs[c].op].returned.value.result) == ""
    ensures var s := Run(u, moves); var t := Moved(u, s, Proceed(c, op));
      && t.pcs[c] == AcqPut(op) && op in t.w.ops
      && t.w.ops[op].req == PutReq(u.key, u.ids[c], VersionIn(s.w.ops[s.pcs[c].op].returned.value.result))
  {
  }

  // The Put of c's id at the current version, sent for the first time, takes the lock.
  lemma PutTakes(u: Setup, moves: seq<Move>, c: nat) returns (done: seq<Move>)
    requires SetupOk(u) && CanRun(u, moves) && c < |u.ids| && Run(u, moves).pcs[c].AcqPut?
    requires var s := Run(u, moves); var id := s.pcs[c].op;
      && id in s.w.ops && s.w.ops[id].sent == 0 && s.w.ops[id].returned.None?
      && s.w.ops[id].req == PutReq(u.key, u.ids[c], VersionOf(s.w.table, u.key))
    ensures Goes(u, c, moves, done) && Run(u, done).pcs[c] == Held
  {
    LockRunInv(u, moves);
    var w := Run(u, moves).w;
    PutExact(w.table, u.key, u.ids[c], VersionOf(w.table, u.key));
    var a := Finish(u, moves, c);
    var op;
    done, op := Turn(u, a, c);
    GoesOn(u, c, moves, a, done);
  }

  // From an unanswered Get on a free lock, or on one that is c's.
  lemma GetTakes(u: Setup, moves: seq<Move>, c: nat) returns (done: seq<Move>)
    requires SetupOk(u) && CanRun(u, moves) && c < |u.ids| && Asking(Run(u, moves), c) && Takable(u, Run(u, moves), c)
    ensures Goes(u, c, moves, done) && Run(u, done).pcs[c] == Held
  {
    LockRunInv(u, moves);
    var s := Run(u, moves);
    assert ClientOk(u, s.w, c, s.pcs[c]);
    var a := Finish(u, moves, c);
    var b, op := Turn(u, a, c);
    GoesOn(u, c, moves, a, b);
    if Value(s.w.table, u.key) == u.ids[c] {
      done := b;
    } else {
      FreeThenPut(u, a, c, op);
      done := PutTakes(u, b, c);
      GoesOn(u, c, moves, b, done);
    }
  }

  // Whatever c waits for, it is answered and c asks again, or has the lock.
  ghost predicate Settles(u: Setup, c: nat, from: seq<Move>, to: seq<Move>)
    requires c < |u.ids|
  {
    && Goes(u, c, from, to) && Takable(u, Run(u, to), c)
    && (Run(u, to).pcs[c] == Held || Asking(Run(u, to), c))
  }

  // Going on changes the lock for nobody, and leads where the code goes next.
  lemma TurnLeads(u: Setup, s: Locks, c: nat, op: nat)
    requires |s.pcs| == |u.ids| && CanMove(u, s, Proceed(c, op)) && InAcquire(s.pcs[c])
    ensures var t := Moved(u, s, Proceed(c, op));
      && t.w.table == s.w.table
      && (t.pcs[c] == Held || Asking(t, c) || (s.pcs[c].AcqPut? && t.pcs[c] == AcqCheck(op)) || (s.pcs[c].AcqGet? && t.pcs[c] == AcqPut(op)))
  {
  }

  lemma CheckSettles(u: Setup, moves: seq<Move>, c: nat) returns (done: seq<Move>)
    requires SetupOk(u) && CanRun(u, moves) && c < |u.ids| && Run(u, moves).pcs[c].AcqCheck? && Takable(u, Run(u, moves), c)
    ensures Settles(u, c, moves, done)
  {
    var a := Finish(u, moves, c);
    FinishTakable(u, moves, a, c);
    var op;
    done, op := Turn(u, a, c);
    TurnLeads(u, Run(u, a), c, op);
    GoesOn(u, c, moves, a, done);
  }

  lemma FinishTakable(u: Setup, moves: seq<Move>, a: seq<Move>, c: nat)
    requires SetupOk(u) && CanRun(u, moves) && c < |u.ids| && InAcquire(Run(u, moves).pcs[c]) && Takable(u, Run(u, moves), c)
    requires Finished(u, c, moves, a)
    ensures Takable(u, Run(u, a), c)
  {
    LockRunInv(u, moves);
    var s := Run(u, moves);
    assert ClientOk(u, s.w, c, s.pcs[c]);
    if s.pcs[c].AcqPut? { PutKeepsTakable(u, s.w.table, c, s.w.ops[s.pcs[c].op].req); }
  }

  lemma PutTurn(u: Setup, moves: seq<Move>, c: nat) returns (done: seq<Move>)
    requires SetupOk(u) && CanRun(u, moves) && c < |u.ids| && Run(u, moves).pcs[c].AcqPut? && Takable(u, Run(u, moves), c)
    ensures Goes(u, c, moves, done) && Takable(u, Run(u, done), c)
    ensures var t := Run(u, done); t.pcs[c] == Held || Asking(t, c) || t.pcs[c].AcqCheck?
  {
    var a := Finish(u, moves, c);
    FinishTakable(u, moves, a, c);
    var op;
    done, op := Turn(u, a, c);
    TurnLeads(u, Run(u, a), c, op);
    GoesOn(u, c, moves, a, done);
  }

  lemma PutSettles(u: Setup, moves: seq<Move>, c: nat) returns (done: seq<Move>)
    requires SetupOk(u) && CanRun(u, moves) && c < |u.ids| && Run(u, moves).pcs[c].AcqPut? && Takable(u, Run(u, moves), c)
    ensures Settles(u, c, moves, done)
  {
    done := PutTurn(u, moves, c);
    if Run(u, done).pcs[c].AcqCheck? {
      var b := done;
      done := CheckSettles(u, b, c);
      GoesOn(u, c, moves, b, done);
    }
  }

  lemma PutKeepsTakable(u: Setup, t: Table, c: nat, req: Request)
    requires c < |u.ids| && req.PutReq? && req.key == u.key && req.value == u.ids[c]
    ensures Value(DoOp(t, req).0, u.key) == Value(t, u.key) || Value(DoOp(t, req).0, u.key) == u.ids[c]
  {
  }

  lemma GetSettles(u: Setup, moves: seq<Move>, c: nat) returns (done: seq<Move>)
    requires SetupOk(u) && CanRun(u, moves) && c < |u.ids| && Run(u, moves).pcs[c].AcqGet? && Takable(u, Run(u, moves), c)
    ensures Settles(u, c, moves, done)
  {
    WaitsForOp(u, moves, c);
    if Asking(Run(u, moves), c) {
      done := moves;
    } else {
      var b, op := Turn(u, moves, c);
      if Run(u, b).pcs[c].AcqPut? {
        done := PutSettles(u, b, c);
        GoesOn(u, c, moves, b, done);
      } else {
        done := b;
      }
    }
  }

  // A client in Acquire, wherever it is in it, gets a lock that is free, or its own, by its
  // own calls.
  lemma AcquireTakes(u: Setup, moves: seq<Move>, c: nat) returns (done: seq<Move>)
    requires SetupOk(u) && CanRun(u, moves) && c < |u.ids| && InAcquire(Run(u, moves).pcs[c]) && Takable(u, Run(u, moves), c)
    ensures Goes(u, c, moves, done) && Run(u, done).pcs[c] == Held
  {
    var a;
    match Run(u, moves).pcs[c] {
      case AcqGet(_) => a := GetSettles(u, moves, c);
      case AcqPut(_) => a := PutSettles(u, moves, c);
      case AcqCheck(_) => a := CheckSettles(u, moves, c);
    }
    if Run(u, a).pcs[c] == Held {
      done := a;
    } else {
      done := GetTakes(u, a, c);
      GoesOn(u, c, moves, a, done);
    }
  }

  // ---------- and no other lock ----------

  // An own step of a client in Acquire leaves a lock that is another's as it is.
  lemma OwnKeeps(u: Setup, moves: seq<Move>, c: nat, m: Move)
    requires SetupOk(u) && CanRun(u, moves) && c < |u.ids| && CanMove(u, Run(u, moves), m) && Own(Run(u, moves), c, m)
    requires InAcquire(Run(u, moves).pcs[c]) && !Takable(u, Run(u, moves), c)
    ensures var t := Moved(u, Run(u, moves), m); InAcquire(t.pcs[c]) && !Takable(u, t, c)
  {
    LockRunInv(u, moves);
    var s := Run(u, moves);
    MoveLock(u, s, m);
    assert ClientOk(u, Moved(u, s, m).w, c, Moved(u, s, m).pcs[c]);
    if m.Net? && m.a.Execute? {
      ExecuteValue(u, s, m.a.id, m.a.attempt);
    }
  }

  lemma {:induction false} GoesKeeps(u: Setup, c: nat, from: seq<Move>, to: seq<Move>)
    requires SetupOk(u) && CanRun(u, from) && c < |u.ids| && Goes(u, c, from, to)
    requires InAcquire(Run(u, from).pcs[c]) && !Takable(u, Run(u, from), c)
    ensures InAcquire(Run(u, to).pcs[c]) && !Takable(u, Run(u, to), c)
    decreases |to|
  {
    if from != to {
      GoesKeeps(u, c, from, to[..|to| - 1]);
      OwnKeeps(u, to[..|to| - 1], c, to[|to| - 1]);
    }
  }

  // Exactly when: from any moment of any run, a client in Acquire can get the lock by its own
  // calls if and only if the lock is free or stored under its id.
  lemma AcquireExactly(u: Setup, moves: seq<Move>, c: nat)
    requires SetupOk(u) && CanRun(u, moves) && c < |u.ids| && InAcquire(Run(u, moves).pcs[c])
    ensures (exists done :: Goes(u, c, moves, done) && Run(u, done).pcs[c] == Held) <==> Takable(u, Run(u, moves), c)
  {
    if Takable(u, Run(u, moves), c) {
      var done := AcquireTakes(u, moves, c);
    } else if done :| Goes(u, c, moves, done) && Run(u, done).pcs[c] == Held {
      GoesKeeps(u, c, moves, done);
    }
  }

  // ---------- giving it back ----------

  lemma CheckReleases(u: Setup, moves: seq<Move>, c: nat) returns (done: seq<Move>)
    requires SetupOk(u) && CanRun(u, moves) && c < |u.ids| && Run(u, moves).pcs[c].RelCheck?
    ensures Goes(u, c, moves, done) && Run(u, done).pcs[c] == Idle
  {
    var a := Finish(u, moves, c);
    var op;
    done, op := Turn(u, a, c);
    ReleaseOnePut(u, a, c, op);
    GoesOn(u, c, moves, a, done);
  }

  lemma PutReleases(u: Setup, moves: seq<Move>, c: nat) returns (done: seq<Move>)
    requires SetupOk(u) && CanRun(u, moves) && c < |u.ids| && Run(u, moves).pcs[c].RelPut?
    ensures Goes(u, c, moves, done) && Run(u, done).pcs[c] == Idle
  {
    var a := Finish(u, moves, c);
    var b, op := Turn(u, a, c);
    ReleaseOnePut(u, a, c, op);
    GoesOn(u, c, moves, a, b);
    if Run(u, b).pcs[c] == Idle {
      done := b;
    } else {
      done := CheckReleases(u, b, c);
      GoesOn(u, c, moves, b, done);
    }
  }

  lemma GetReleases(u: Setup, moves: seq<Move>, c: nat) returns (done: seq<Move>)
    requires SetupOk(u) && CanRun(u, moves) && c < |u.ids| && Run(u, moves).pcs[c].RelGet?
    ensures Goes(u, c, moves, done) && Run(u, done).pcs[c] == Idle
  {
    var a := Finish(u, moves, c);
    var b, op := Turn(u, a, c);
    GoesOn(u, c, moves, a, b);
    if Run(u, b).pcs[c] == Idle {
      done := b;
    } else {
      done := PutReleases(u, b, c);
      GoesOn(u, c, moves, b, done);
    }
  }

  // A client in Release, wherever it is in it and whatever else is going on, returns by its own calls.
  lemma ReleaseEnds(u: Setup, moves: seq<Move>, c: nat) returns (done: seq<Move>)
    requires SetupOk(u) && CanRun(u, moves) && c < |u.ids| && InRelease(Run(u, moves).pcs[c])
    ensures Goes(u, c, moves, done) && Run(u, done).pcs[c] == Idle && Value(Run(u, done).w.table, u.key) != u.ids[c]
  {
    match Run(u, moves).pcs[c] {
      case RelGet(_) => done := GetReleases(u, moves, c);
      case RelPut(_) => done := PutReleases(u, moves, c);
      case RelCheck(_) => done := CheckReleases(u, moves, c);
    }
    MutualExclusion(u, done, c, c);
  }
}
