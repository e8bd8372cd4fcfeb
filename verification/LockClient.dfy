// Acquire and Release as the code has them: loops over the clerk's answers, which here
// are a script. They make the calls that the client steps of the lock's runs make.
module LockClient {
  import opened Options
  import opened Kv
  import opened Lock

  // Where a client that waits at pc gets to with these answers, and the requests it makes
  // on the way.
  function Follow(u: Setup, me: string, pc: Pc, answers: seq<Reply>): (Pc, seq<Request>)
    decreases |answers|
  {
    if !Waits(pc) || answers == [] then (pc, [])
    else
      var (to, req) := Next(u, me, pc, answers[0], 0);
      var (end, more) := Follow(u, me, to, answers[1..]);
      (end, (if req.Some? then [req.value] else []) + more)
  }

  // From answer i on, at pc, after the requests made so far.
  ghost predicate Reached(u: Setup, me: string, pc: Pc, answers: seq<Reply>, i: nat, at: Pc, asked: seq<Request>) {
    i <= |answers| &&
    Follow(u, me, pc, answers) == (Follow(u, me, at, answers[i..]).0, asked + Follow(u, me, at, answers[i..]).1)
  }

  lemma Began(u: Setup, me: string, pc: Pc, answers: seq<Reply>)
    ensures Reached(u, me, pc, answers, 0, pc, [])
  {
    assert answers[0..] == answers;
    assert [] + Follow(u, me, pc, answers).1 == Follow(u, me, pc, answers).1;
  }

  lemma Turn(u: Setup, me: string, pc: Pc, answers: seq<Reply>, i: nat, at: Pc, asked: seq<Request>)
    requires Reached(u, me, pc, answers, i, at, asked) && i < |answers| && Waits(at)
    ensures var (to, req) := Next(u, me, at, answers[i], 0);
      Reached(u, me, pc, answers, i + 1, to, asked + (if req.Some? then [req.value] else []))
  {
    var (to, req) := Next(u, me, at, answers[i], 0);
    var more := Follow(u, me, to, answers[i + 1..]).1;
    assert answers[i..][1..] == answers[i + 1..];
    var made := if req.Some? then [req.value] else [];
    assert asked + (made + more) == asked + made + more;
  }

  lemma Ended(u: Setup, me: string, pc: Pc, answers: seq<Reply>, i: nat, at: Pc, asked: seq<Request>)
    requires Reached(u, me, pc, answers, i, at, asked) && (i == |answers| || !Waits(at))
    ensures Follow(u, me, pc, answers) == (at, asked)
  {
    assert asked + [] == asked;
  }

  // On a lock found free the client puts its id at the version it was told, and returns when
  // that is done; on one found its own it returns at once; otherwise it asks again.
  lemma AcquireAsks(u: Setup, me: string, got: Reply, rest: seq<Reply>)
    requires me != "" && got.GetReply? && (got.err == OK || (got.err == ErrNoKey && got.value == ""))
    ensures got.value == "" ==> Follow(u, me, AcqGet(0), [got, PutReply(OK)] + rest) == (Held, [PutReq(u.key, me, got.version)])
    ensures got.value == me ==> Follow(u, me, AcqGet(0), [got] + rest) == (Held, [])
    ensures got.value != "" && got.value != me ==>
      Follow(u, me, AcqGet(0), [got] + rest) == (Follow(u, me, AcqGet(0), rest).0, [GetReq(u.key)] + Follow(u, me, AcqGet(0), rest).1)
  {
    FollowOn(u, me, AcqGet(0), got, [PutReply(OK)] + rest);
    FollowOn(u, me, AcqPut(0), PutReply(OK), rest);
    assert [got, PutReply(OK)] + rest == [got] + ([PutReply(OK)] + rest);
    FollowOn(u, me, AcqGet(0), got, rest);
    if got.value == "" {
      assert Follow(u, me, AcqPut(0), [PutReply(OK)] + rest) == (Held, []);
      assert [PutReq(u.key, me, got.version)] + [] == [PutReq(u.key, me, got.version)];
    }
  }

  lemma FollowOn(u: Setup, me: string, pc: Pc, r: Reply, rest: seq<Reply>)
    requires Waits(pc)
    ensures var (to, req) := Next(u, me, pc, r, 0);
      Follow(u, me, pc, [r] + rest) == (Follow(u, me, to, rest).0, (if req.Some? then [req.value] else []) + Follow(u, me, to, rest).1)
  {
    var all := [r] + rest;
    assert all[0] == r;
    assert all[1..] == rest;
  }

  class LockHandle {
    const key: string
    const id: string

    constructor (key: string, id: string)
      ensures this.key == key && this.id == id
    {
      this.key, this.id := key, id;
    }

    // The first request is always a Get; the answers decide the others.
    method Acquire(u: Setup, answers: seq<Reply>) returns (pc: Pc, asked: seq<Request>)
      requires u.key == key
      ensures (pc, asked) == Follow(u, id, AcqGet(0), answers)
    {
      asked := [];
      var i := 0;
      Began(u, id, AcqGet(0), answers);
      while i < |answers|
        invariant Reached(u, id, AcqGet(0), answers, i, AcqGet(0), asked)
        decreases |answers| - i
      {
        Turn(u, id, AcqGet(0), answers, i, AcqGet(0), asked);
        var r := answers[i];
        i := i + 1;
        if r.err == OK && ValueIn(r) == id {
          pc := Held;
          assert asked + [] == asked;
          Ended(u, id, AcqGet(0), answers, i, pc, asked);
          return;
        }
        if r.err != ErrNoKey && ValueIn(r) != "" {
          asked := asked + [GetReq(key)];
          continue;
        }
        asked := asked + [PutReq(key, id, VersionIn(r))];
        if i == |answers| {
          pc := AcqPut(0);
          Ended(u, id, AcqGet(0), answers, i, pc, asked);
          return;
        }
        Turn(u, id, AcqGet(0), answers, i, AcqPut(0), asked);
        var p := answers[i];
        i := i + 1;
        if p.err == OK {
          pc := Held;
          assert asked + [] == asked;
          Ended(u, id, AcqGet(0), answers, i, pc, asked);
          return;
        }
        asked := asked + [GetReq(key)];
        if p.err == ErrMaybe {
          if i == |answers| {
            pc := AcqCheck(0);
            Ended(u, id, AcqGet(0), answers, i, pc, asked);
            return;
          }
          Turn(u, id, AcqGet(0), answers, i, AcqCheck(0), asked);
          var v := answers[i];
          i := i + 1;
          if v.err == OK && ValueIn(v) == id {
            pc := Held;
            assert asked + [] == asked;
            Ended(u, id, AcqGet(0), answers, i, pc, asked);
            return;
          }
          asked := asked + [GetReq(key)];
        }
      }
      pc := AcqGet(0);
      Ended(u, id, AcqGet(0), answers, i, pc, asked);
    }

    method Release(u: Setup, answers: seq<Reply>) returns (pc: Pc, asked: seq<Request>)
      requires u.key == key
      ensures (pc, asked) == Follow(u, id, RelGet(0), answers)
    {
      asked := [];
      var i := 0;
      Began(u, id, RelGet(0), answers);
      while i < |answers|
        invariant Reached(u, id, RelGet(0), answers, i, RelGet(0), asked)
        decreases |answers| - i
      {
        Turn(u, id, RelGet(0), answers, i, RelGet(0), asked);
        var r := answers[i];
        i := i + 1;
        if r.err != OK || ValueIn(r) != id {
          pc := Idle;
          assert asked + [] == asked;
          Ended(u, id, RelGet(0), answers, i, pc, asked);
          return;
        }
        asked := asked + [PutReq(key, "", VersionIn(r))];
        if i == |answers| {
          pc := RelPut(0);
          Ended(u, id, RelGet(0), answers, i, pc, asked);
          return;
        }
        Turn(u, id, RelGet(0), answers, i, RelPut(0), asked);
        var p := answers[i];
        i := i + 1;
        if p.err == OK {
          pc := Idle;
          assert asked + [] == asked;
          Ended(u, id, RelGet(0), answers, i, pc, asked);
          return;
        }
        asked := asked + [GetReq(key)];
        if p.err == ErrMaybe {
          if i == |answers| {
            pc := RelCheck(0);
            Ended(u, id, RelGet(0), answers, i, pc, asked);
            return;
          }
          Turn(u, id, RelGet(0), answers, i, RelCheck(0), asked);
          var v := answers[i];
          i := i + 1;
          if v.err != OK || ValueIn(v) != id {
            pc := Idle;
            assert asked + [] == asked;
            Ended(u, id, RelGet(0), answers, i, pc, asked);
            return;
          }
          asked := asked + [GetReq(key)];
        }
      }
      pc := RelGet(0);
      Ended(u, id, RelGet(0), answers, i, pc, asked);
    }
  }
}
