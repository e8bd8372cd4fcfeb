// The crawler with a shared map under a mutex and one wait group per call, in any
// interleaving of its goroutines.
module MutexCrawler {
  import opened Pages

  // Where a call of ConcurrentMutex is: before testAndSet, before Fetch returns, starting a
  // goroutine for each of the rest of the links and then waiting for all, or returned.
  datatype Phase = Enter | Fetching | Spawning(rest: seq<string>) | Done

  // left is the counter of the call's wait group; parent the call whose group it is in, -1
  // for the first call.
  datatype Call = Call(url: string, parent: int, phase: Phase, left: int)

  datatype State = State(fetched: set<string>, calls: seq<Call>, log: seq<string>)

  datatype Action = TestAndSet(c: nat) | Fetch(c: nat) | Spawn(c: nat) | Return(c: nat)

  function Start(url: string): State {
    State({}, [Call(url, -1, Enter, 0)], [])
  }

  predicate Enabled(s: State, a: Action) {
    a.c < |s.calls| &&
    var k := s.calls[a.c];
    match a
    case TestAndSet(_) => k.phase == Enter
    case Fetch(_) => k.phase == Fetching
    case Spawn(_) => k.phase.Spawning? && k.phase.rest != []
    case Return(_) => k.phase == Spawning([]) && k.left == 0
  }

  // The call returns, and is counted off its parent's wait group.
  function Ended(calls: seq<Call>, c: nat): seq<Call>
    requires c < |calls|
  {
    var k := calls[c];
    var done := calls[c := k.(phase := Done)];
    if 0 <= k.parent < c then done[k.parent := done[k.parent].(left := done[k.parent].left - 1)] else done
  }

  function Step(web: Web, s: State, a: Action): State
    requires Enabled(s, a)
  {
    var c := a.c;
    var k := s.calls[c];
    match a
    case TestAndSet(_) =>
      if k.url in s.fetched then s.(calls := Ended(s.calls, c))
      else s.(fetched := s.fetched + {k.url}, calls := s.calls[c := k.(phase := Fetching)])
    case Fetch(_) =>
      var t := s.(log := s.log + [k.url]);
      if k.url in web then t.(calls := s.calls[c := k.(phase := Spawning(web[k.url]))])
      else t.(calls := Ended(s.calls, c))
    case Spawn(_) =>
      var rest := k.phase.rest;
      s.(calls := s.calls[c := k.(phase := Spawning(rest[1..]), left := k.left + 1)] + [Call(rest[0], c, Enter, 0)])
    case Return(_) => s.(calls := Ended(s.calls, c))
  }

  predicate CanRun(web: Web, url: string, acts: seq<Action>)
    decreases |acts|, 0
  {
    acts == [] || (CanRun(web, url, acts[..|acts| - 1]) && Enabled(Run(web, url, acts[..|acts| - 1]), acts[|acts| - 1]))
  }

  function Run(web: Web, url: string, acts: seq<Action>): State
    requires CanRun(web, url, acts)
    decreases |acts|, 1
  {
    if acts == [] then Start(url) else Step(web, Run(web, url, acts[..|acts| - 1]), acts[|acts| - 1])
  }

  // ---------- wait groups ----------

  // The calls of p's wait group that have not returned.
  function Running(calls: seq<Call>, p: int): nat {
    if calls == [] then 0
    else
      var k := calls[|calls| - 1];
      Running(calls[..|calls| - 1], p) + (if k.parent == p && k.phase != Done then 1 else 0)
  }

  lemma {:induction false} RunningUpdate(calls: seq<Call>, c: nat, k: Call, p: int)
    requires c < |calls|
    ensures Running(calls[c := k], p) == Running(calls, p)
      - (if calls[c].parent == p && calls[c].phase != Done then 1 else 0) + (if k.parent == p && k.phase != Done then 1 else 0)
  {
    var n := |calls| - 1;
    if c == n {
      assert calls[c := k][..n] == calls[..n];
    } else {
      assert calls[c := k][..n] == calls[..n][c := k];
      RunningUpdate(calls[..n], c, k, p);
    }
  }

  lemma RunningAppend(calls: seq<Call>, k: Call, p: int)
    ensures Running(calls + [k], p) == Running(calls, p) + (if k.parent == p && k.phase != Done then 1 else 0)
  {
    assert (calls + [k])[..|calls|] == calls;
  }

  lemma {:induction false} SomeRunning(calls: seq<Call>, c: nat)
    requires c < |calls| && calls[c].phase != Done
    ensures Running(calls, calls[c].parent) > 0
  {
    if c < |calls| - 1 { SomeRunning(calls[..|calls| - 1], c); }
  }

  // Every wait group counts its calls that have not returned, and a call that has not
  // begun to wait, or has returned, has none.
  ghost predicate GroupsOk(calls: seq<Call>) {
    && |calls| > 0 && calls[0].parent == -1
    && (forall c :: 0 < c < |calls| ==> 0 <= calls[c].parent < c)
    && (forall c :: 0 <= c < |calls| ==> calls[c].left == Running(calls, c))
    && (forall c :: 0 <= c < |calls| && !calls[c].phase.Spawning? ==> calls[c].left == 0)
  }

  lemma EndedOk(calls: seq<Call>, c: nat)
    requires GroupsOk(calls) && c < |calls| && calls[c].phase != Done && calls[c].left == 0
    ensures GroupsOk(Ended(calls, c)) && |Ended(calls, c)| == |calls|
    ensures forall d :: 0 <= d < |calls| ==>
      Ended(calls, c)[d].url == calls[d].url && Ended(calls, c)[d].phase == (if d == c then Done else calls[d].phase)
  {
    var k := calls[c];
    var done := calls[c := k.(phase := Done)];
    var all := Ended(calls, c);
    forall d | 0 <= d < |all| ensures all[d].left == Running(all, d) {
      RunningUpdate(calls, c, k.(phase := Done), d);
      if k.parent >= 0 { RunningUpdate(done, k.parent, all[k.parent], d); }
    }
    if k.parent >= 0 { SomeRunning(calls, c); }
  }

  // The first call has returned only when every call has.
  lemma {:induction false} AllReturned(calls: seq<Call>, c: nat)
    requires GroupsOk(calls) && calls[0].phase == Done && c < |calls|
    ensures calls[c].phase == Done
    decreases c
  {
    if calls[c].phase != Done {
      SomeRunning(calls, c);
      AllReturned(calls, calls[c].parent);
    }
  }

  // ---------- invariant ----------

  ghost predicate Coming(s: State, u: string) {
    || u in s.fetched
    || exists c :: 0 <= c < |s.calls| && Brings(s.calls[c], u)
  }

  ghost predicate Brings(k: Call, u: string) {
    (k.phase == Enter && k.url == u) || (k.phase.Spawning? && u in k.phase.rest)
  }

  ghost predicate InFetch(s: State, u: string) {
    exists c :: 0 <= c < |s.calls| && s.calls[c].phase == Fetching && s.calls[c].url == u
  }

  ghost predicate Inv(web: Web, url: string, s: State) {
    && GroupsOk(s.calls)
    && Coming(s, url)
    && (forall u :: Coming(s, u) ==> Reachable(web, url, u))
    && (forall u :: u in s.fetched <==> u in s.log || InFetch(s, u))
    && (forall u :: u in s.log ==> !InFetch(s, u))
    && NoRepeats(s.log)
    && (forall c, d :: 0 <= c < d < |s.calls| && s.calls[c].phase == Fetching && s.calls[d].phase == Fetching ==>
          s.calls[c].url != s.calls[d].url)
    && (forall u, v :: u in s.log && v in Links(web, u) ==> Coming(s, v))
  }

  // The calls but c bring and fetch what they did.
  ghost predicate SameBut(x: seq<Call>, y: seq<Call>, c: nat) {
    && c < |x| <= |y|
    && forall d :: 0 <= d < |x| && d != c ==> y[d].url == x[d].url && y[d].phase == x[d].phase
  }

  lemma ComingBut(s: State, t: State, c: nat, u: string)
    requires SameBut(s.calls, t.calls, c) && |t.calls| == |s.calls| && s.fetched <= t.fetched <= s.fetched + {s.calls[c].url}
    ensures Coming(t, u) ==> Coming(s, u) || Brings(t.calls[c], u) || (u == s.calls[c].url && u in t.fetched)
    ensures Coming(s, u) ==> Coming(t, u) || Brings(s.calls[c], u)
    ensures Brings(t.calls[c], u) ==> Coming(t, u)
  {
    if d :| 0 <= d < |s.calls| && Brings(s.calls[d], u) { assert d != c ==> Brings(t.calls[d], u); }
    if d :| 0 <= d < |t.calls| && Brings(t.calls[d], u) { assert d != c ==> Brings(s.calls[d], u); }
  }

  lemma InFetchBut(s: State, t: State, c: nat, u: string)
    requires SameBut(s.calls, t.calls, c) && |t.calls| == |s.calls|
    ensures InFetch(t, u) ==> InFetch(s, u) || (t.calls[c].phase == Fetching && t.calls[c].url == u)
    ensures InFetch(s, u) ==> InFetch(t, u) || (s.calls[c].phase == Fetching && s.calls[c].url == u)
    ensures t.calls[c].phase == Fetching && t.calls[c].url == u ==> InFetch(t, u)
  {
    if d :| 0 <= d < |s.calls| && s.calls[d].phase == Fetching && s.calls[d].url == u { assert d != c ==> t.calls[d].phase == Fetching; }
    if d :| 0 <= d < |t.calls| && t.calls[d].phase == Fetching && t.calls[d].url == u { assert d != c ==> s.calls[d].phase == Fetching; }
  }

  lemma TestInv(web: Web, url: string, s: State, c: nat)
    requires Inv(web, url, s) && Enabled(s, TestAndSet(c))
    ensures Inv(web, url, Step(web, s, TestAndSet(c)))
  {
    var t := Step(web, s, TestAndSet(c));
    var u := s.calls[c].url;
    if u in s.fetched {
      EndedOk(s.calls, c);
    } else {
      SamePhaseGroups(s.calls, c, Fetching);
    }
    assert Brings(s.calls[c], u);
    assert Coming(s, u);
    forall v ensures Coming(t, v) <==> Coming(s, v) { ComingBut(s, t, c, v); }
    forall v ensures InFetch(t, v) <==> InFetch(s, v) || (v == u && u !in s.fetched) { InFetchBut(s, t, c, v); }
    forall d | 0 <= d < |s.calls| && s.calls[d].phase == Fetching ensures s.calls[d].url in s.fetched {
      assert InFetch(s, s.calls[d].url);
    }
  }

  // A phase change that is not a return leaves the wait groups alone.
  lemma SamePhaseGroups(calls: seq<Call>, c: nat, phase: Phase)
    requires GroupsOk(calls) && c < |calls| && calls[c].phase != Done && phase != Done
    requires phase.Spawning? || calls[c].left == 0
    ensures GroupsOk(calls[c := calls[c].(phase := phase)])
  {
    var all := calls[c := calls[c].(phase := phase)];
    forall d | 0 <= d < |all| ensures all[d].left == Running(all, d) {
      RunningUpdate(calls, c, all[c], d);
    }
  }

  lemma FetchInv(web: Web, url: string, s: State, c: nat)
    requires Inv(web, url, s) && Enabled(s, Fetch(c))
    ensures Inv(web, url, Step(web, s, Fetch(c)))
  {
    var t := Step(web, s, Fetch(c));
    var u := s.calls[c].url;
    if u in web { SamePhaseGroups(s.calls, c, Spawning(web[u])); } else { EndedOk(s.calls, c); }
    assert InFetch(s, u);
    forall v ensures Coming(t, v) <==> Coming(s, v) || v in Links(web, u) { ComingBut(s, t, c, v); }
    forall v ensures InFetch(t, v) <==> InFetch(s, v) && v != u {
      InFetchBut(s, t, c, v);
      if InFetch(t, v) && v == u { OnlyFetch(s, t, c); }
    }
    forall v | Coming(t, v) ensures Reachable(web, url, v) {
      if v in Links(web, u) {
        assert Coming(s, u);
        LinkReachable(web, url, u, v);
      }
    }
  }

  lemma OnlyFetch(s: State, t: State, c: nat)
    requires SameBut(s.calls, t.calls, c) && |t.calls| == |s.calls| && s.calls[c].phase == Fetching && t.calls[c].phase != Fetching
    requires forall c, d :: 0 <= c < d < |s.calls| && s.calls[c].phase == Fetching && s.calls[d].phase == Fetching ==>
      s.calls[c].url != s.calls[d].url
    ensures !InFetch(t, s.calls[c].url)
  {
    forall d | 0 <= d < |t.calls| && t.calls[d].phase == Fetching ensures t.calls[d].url != s.calls[c].url {
      assert s.calls[d].phase == Fetching;
      if d < c { assert s.calls[d].url != s.calls[c].url; }
    }
  }

  lemma SpawnRunning(calls: seq<Call>, c: nat, k: Call, kid: Call, d: nat)
    requires GroupsOk(calls) && c < |calls| && k.parent == calls[c].parent && k.left == calls[c].left + 1
    requires k.phase != Done && calls[c].phase != Done && kid.parent == c && kid.phase != Done && kid.left == 0
    requires d <= |calls|
    ensures var now := calls[c := k] + [kid]; now[d].left == Running(now, d)
  {
    RunningUpdate(calls, c, k, d);
    RunningAppend(calls[c := k], kid, d);
    if d == |calls| { NoneYet(calls, d); }
  }

  lemma SpawnGroups(s: State, t: State, c: nat)
    requires GroupsOk(s.calls) && Enabled(s, Spawn(c)) && t == Step(map[], s, Spawn(c))
    ensures GroupsOk(t.calls)
  {
    var k := s.calls[c].(phase := Spawning(s.calls[c].phase.rest[1..]), left := s.calls[c].left + 1);
    var kid := Call(s.calls[c].phase.rest[0], c, Enter, 0);
    forall d | 0 <= d < |t.calls| ensures t.calls[d].left == Running(t.calls, d) {
      SpawnRunning(s.calls, c, k, kid, d);
    }
  }

  lemma {:induction false} NoneYet(calls: seq<Call>, p: int)
    requires forall c :: 0 <= c < |calls| ==> calls[c].parent != p
    ensures Running(calls, p) == 0
  {
    if calls != [] { NoneYet(calls[..|calls| - 1], p); }
  }

  lemma SpawnFetch(s: State, t: State, c: nat, v: string)
    requires Enabled(s, Spawn(c)) && t == Step(map[], s, Spawn(c))
    ensures InFetch(t, v) <==> InFetch(s, v)
  {
    if d :| 0 <= d < |s.calls| && s.calls[d].phase == Fetching && s.calls[d].url == v { assert t.calls[d].phase == Fetching; }
    if d :| 0 <= d < |t.calls| && t.calls[d].phase == Fetching && t.calls[d].url == v { assert s.calls[d].phase == Fetching; }
  }

  lemma SpawnInv(web: Web, url: string, s: State, c: nat)
    requires Inv(web, url, s) && Enabled(s, Spawn(c))
    ensures Inv(web, url, Step(web, s, Spawn(c)))
  {
    var t := Step(web, s, Spawn(c));
    var rest := s.calls[c].phase.rest;
    assert rest == [rest[0]] + rest[1..];
    SpawnGroups(s, t, c);
    forall v ensures Coming(t, v) <==> Coming(s, v) { SpawnComing(s, t, c, v); }
    forall v ensures InFetch(t, v) <==> InFetch(s, v) { SpawnFetch(s, t, c, v); }
  }

  lemma SpawnComing(s: State, t: State, c: nat, v: string)
    requires Enabled(s, Spawn(c)) && t == Step(map[], s, Spawn(c))
    ensures Coming(t, v) <==> Coming(s, v)
  {
    var rest := s.calls[c].phase.rest;
    assert rest == [rest[0]] + rest[1..];
    if d :| 0 <= d < |s.calls| && Brings(s.calls[d], v) {
      if d != c {
        assert Brings(t.calls[d], v);
      } else {
        assert Brings(t.calls[if v == rest[0] then |s.calls| else c], v);
      }
    }
    if d :| 0 <= d < |t.calls| && Brings(t.calls[d], v) {
      assert Brings(s.calls[if d == |s.calls| then c else d], v);
    }
  }

  lemma ReturnInv(web: Web, url: string, s: State, c: nat)
    requires Inv(web, url, s) && Enabled(s, Return(c))
    ensures Inv(web, url, Step(web, s, Return(c)))
  {
    var t := Step(web, s, Return(c));
    EndedOk(s.calls, c);
    forall v ensures Coming(t, v) <==> Coming(s, v) { ComingBut(s, t, c, v); }
    forall v ensures InFetch(t, v) <==> InFetch(s, v) { InFetchBut(s, t, c, v); }
  }

  lemma {:induction false} RunInv(web: Web, url: string, acts: seq<Action>)
    requires CanRun(web, url, acts)
    ensures Inv(web, url, Run(web, url, acts))
    decreases |acts|
  {
    if acts == [] {
      StartReachable(web, url);
      var s := Start(url);
      assert Brings(s.calls[0], url);
      assert forall u :: Coming(s, u) <==> u == url;
      assert s.calls[..0] == [];
    } else {
      var s, a := Run(web, url, acts[..|acts| - 1]), acts[|acts| - 1];
      RunInv(web, url, acts[..|acts| - 1]);
      match a
      case TestAndSet(c) => TestInv(web, url, s, c);
      case Fetch(c) => FetchInv(web, url, s, c);
      case Spawn(c) => SpawnInv(web, url, s, c);
      case Return(c) => ReturnInv(web, url, s, c);
    }
  }

  // In every interleaving no page is fetched twice, or without being reachable; and when
  // the first call returns every call has, and every reachable page has been fetched.
  lemma FetchesReachableOnce(web: Web, url: string, acts: seq<Action>)
    requires CanRun(web, url, acts)
    ensures var s := Run(web, url, acts);
      && NoRepeats(s.log)
      && (forall u :: u in s.log ==> Reachable(web, url, u))
      && |s.calls| > 0
      && (s.calls[0].phase == Done ==>
            && (forall c :: 0 <= c < |s.calls| ==> s.calls[c].phase == Done)
            && IsReach(web, url, s.fetched) && forall u :: u in s.log <==> u in s.fetched)
  {
    RunInv(web, url, acts);
    var s := Run(web, url, acts);
    assert forall u :: u in s.fetched ==> Coming(s, u);
    if s.calls[0].phase == Done {
      forall c | 0 <= c < |s.calls| ensures s.calls[c].phase == Done { AllReturned(s.calls, c); }
      assert forall u :: !InFetch(s, u);
      assert forall u :: Coming(s, u) ==> u in s.fetched;
      forall u, v | u in s.fetched && v in Links(web, u) ensures v in s.fetched {
        assert u in s.log;
        assert Coming(s, v);
      }
      ClosedIsReach(web, url, s.fetched);
    }
  }

  lemma {:induction false} NoneRunning(calls: seq<Call>, p: nat)
    requires forall c :: 0 <= c < |calls| && calls[c].parent == p ==> calls[c].phase == Done
    ensures Running(calls, p) == 0
  {
    if calls != [] { NoneRunning(calls[..|calls| - 1], p); }
  }

  // The last call that has not returned.
  lemma {:induction false} LastActive(calls: seq<Call>, n: nat) returns (c: nat)
    requires n <= |calls| && exists d :: 0 <= d < n && calls[d].phase != Done
    ensures c < n && calls[c].phase != Done && forall d :: c < d < n ==> calls[d].phase == Done
  {
    if calls[n - 1].phase != Done {
      c := n - 1;
    } else {
      c := LastActive(calls, n - 1);
    }
  }

  // No deadlock: until the first call returns, the last call still active can take a step.
  lemma NeverStuck(web: Web, url: string, acts: seq<Action>) returns (a: Action)
    requires CanRun(web, url, acts) && |Run(web, url, acts).calls| > 0 && Run(web, url, acts).calls[0].phase != Done
    ensures Enabled(Run(web, url, acts), a)
  {
    RunInv(web, url, acts);
    var calls := Run(web, url, acts).calls;
    var c := LastActive(calls, |calls|);
    NoneRunning(calls, c);
    match calls[c].phase
    case Enter => a := TestAndSet(c);
    case Fetching => a := Fetch(c);
    case Spawning(rest) => a := if rest != [] then Spawn(c) else Return(c);
  }
}
