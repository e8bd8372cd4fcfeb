// The controller's ChangeConfigTo as the code has it: one thread that makes its calls one
// after the other, with anything the others do in between.
module ShardCtrler {
  import opened Options
  import opened Kv
  import opened ShardGroup
  import opened ShardSystem
  import opened ShardProof
  import opened ShardTheorems
  import opened ShardRemains

  // ---------- no early delete ----------

  // While a configuration is claimed and not published, no group has deleted a shard for it.
  ghost predicate NotDeleted(w: World)
    requires ChainOk(w) && WellSized(w)
  {
    forall g, s {:trigger w.groups[g].nums[s]} :: g in w.groups && 0 <= s < |w.home| ==>
      w.groups[g].nums[s] <= Newest(w) && (w.groups[g].nums[s] == w.cfg.num + 1 ==> w.groups[g].status[s] != Absent)
  }

  ghost predicate Sound(h: Hash, w: World) {
    Inv(h, w) && NotDeleted(w) && NoRemains(h, w)
  }

  lemma NumsBelow(h: Hash, w: World, g: Gid, s: nat)
    requires Inv(h, w) && g in w.groups && s < |w.home|
    ensures w.groups[g].nums[s] <= Newest(w)
  {
    assert HomeOk(h, w, s);
    assert g != w.home[s].gid ==> OtherOk(h, w, s, g);
  }

  lemma OnGroupNotDeleted(h: Hash, w: World, m: Msg, g: Gid, s: nat)
    requires Sound(h, w) && m in w.net && (m.FreezeMsg? || m.InstallMsg? || m.DeleteMsg?) && m.g in w.groups && m.s < |w.home|
    requires Inv(h, OnGroup(h, w, m)) && g in w.groups && s < |w.home|
    ensures var v := OnGroup(h, w, m);
      v.groups[g].nums[s] == w.cfg.num + 1 ==> v.groups[g].status[s] != Absent
  {
    LookMsg(h, w, m);
  }

  lemma SoundStep(h: Hash, w: World, a: Action)
    requires Sound(h, w)
    ensures Sound(h, Step(h, w, a)) && Onward(h, w, Step(h, w, a)) && Later(w, Step(h, w, a))
  {
    StepInv(h, w, a);
    RemainsStep(h, w, a);
    var v := Step(h, w, a);
    forall g, s: nat | g in v.groups && s < |v.home|
      ensures v.groups[g].nums[s] <= Newest(v) && (v.groups[g].nums[s] == v.cfg.num + 1 ==> v.groups[g].status[s] != Absent)
    {
      NumsBelow(h, v, g, s);
      StepNotDeleted(h, w, a, g, s);
    }
  }

  lemma StepNotDeleted(h: Hash, w: World, a: Action, g: Gid, s: nat)
    requires Sound(h, w) && Inv(h, Step(h, w, a)) && g in Step(h, w, a).groups && s < |w.home|
    ensures var v := Step(h, w, a); v.groups[g].nums[s] == v.cfg.num + 1 ==> v.groups[g].status[s] != Absent
  {
    StepTouches(h, w, a);
    NumsBelow(h, w, g, s);
    if a.Deliver? {
      if a.m in w.net && (a.m.FreezeMsg? || a.m.InstallMsg? || a.m.DeleteMsg?) && a.m.g in w.groups && a.m.s < |w.home| {
        OnGroupNotDeleted(h, w, a.m, g, s);
      }
    } else if !a.ClientPut? && a.c < |w.ctls| {
      ControllerKeepsCfg(w, a);
    }
  }

  lemma {:induction false} ExecSound(u: Setup, acts: seq<Action>)
    requires HashOk(u.h, u.shards)
    ensures Sound(u.h, Exec(u, acts))
    decreases |acts|
  {
    ExecInv(u, acts);
    if acts != [] {
      ExecSound(u, acts[..|acts| - 1]);
      SoundStep(u.h, Exec(u, acts[..|acts| - 1]), acts[|acts| - 1]);
    }
  }

  // ---------- what happens between two steps ----------

  // A step of someone else: another controller, a client, a register or a group.
  predicate Other(a: Action, c: nat) {
    a.Deliver? || a.ClientPut? || a.c != c
  }

  ghost predicate Others(acts: seq<Action>, c: nat) {
    forall i :: 0 <= i < |acts| ==> Other(acts[i], c)
  }

  // A controller's step is about itself and the network.
  lemma ControllerTouches(w: World, a: Action)
    requires !a.Deliver? && !a.ClientPut? && a.c < |w.ctls|
    ensures var v := OnController(w, a);
      && v.groups == w.groups && w.net <= v.net && |v.ctls| == |w.ctls|
      && forall c :: 0 <= c < |w.ctls| && c != a.c ==> v.ctls[c] == w.ctls[c]
  {
  }

  lemma OnGroupTouches(h: Hash, w: World, m: Msg)
    requires WellSized(w) && (m.FreezeMsg? || m.InstallMsg? || m.DeleteMsg?) && m.g in w.groups && m.s < |w.home|
    ensures var v := OnGroup(h, w, m); v.ctls == w.ctls && w.net <= v.net && v.groups.Keys == w.groups.Keys
  {
  }

  // Nothing is taken back, and a controller changes by its own steps only.
  lemma StepTouches(h: Hash, w: World, a: Action)
    requires HashOk(h, |w.home|) && WellSized(w)
    ensures var v := Step(h, w, a);
      && |v.ctls| == |w.ctls| && w.net <= v.net && v.groups.Keys == w.groups.Keys
      && forall c :: 0 <= c < |w.ctls| && Other(a, c) ==> v.ctls[c] == w.ctls[c]
  {
    if a.Deliver? {
      if (a.m.FreezeMsg? || a.m.InstallMsg? || a.m.DeleteMsg?) && a.m.g in w.groups && a.m.s < |w.home| {
        OnGroupTouches(h, w, a.m);
      }
    } else if !a.ClientPut? && a.c < |w.ctls| {
      ControllerTouches(w, a);
    }
  }

  // v is w or a later state.
  ghost predicate Later(w: World, v: World) {
    |v.home| == |w.home| && w.chain <= v.chain && w.cfg.num <= v.cfg.num
  }

  // to is claimed and not yet published.
  ghost predicate Pending(w: World, to: Config) {
    ChainOk(w) && Newest(w) == w.cfg.num + 1 && w.chain[Newest(w) - 1] == to
  }

  // The group of shard s has servers.
  predicate Served(w: World, cfg: Config, s: nat) {
    s < |cfg.owner| && cfg.owner[s] in cfg.groups && cfg.owner[s] in w.groups
  }

  // While a configuration is pending, the old group of a shard it moves always answers a
  // Freeze, whatever an earlier controller has already done for it.
  lemma FreezeAnswers(h: Hash, w: World, to: Config, s: nat)
    requires Sound(h, w) && s < |w.home|
    ensures Pending(w, to) && Moved(w.cfg, to, s) && w.cfg.owner[s] in w.groups ==>
      FreezeOp(h, w.groups[w.cfg.owner[s]], s, to.num).1.err == OK
  {
    if Pending(w, to) && Moved(w.cfg, to, s) && w.cfg.owner[s] in w.groups {
      assert HomeOk(h, w, s);
      var g := w.cfg.owner[s];
      assert MovedAt(w.chain, Newest(w), s);
      assert g != w.home[s].gid ==> OtherOk(h, w, s, g);
      assert w.groups[g].nums[s] == w.cfg.num + 1 ==> w.groups[g].status[s] != Absent;
    }
  }

  // And its new group an Install.
  lemma InstallAnswers(h: Hash, w: World, to: Config, s: nat, rows: Table)
    requires Sound(h, w) && s < |w.home|
    ensures Pending(w, to) && Moved(w.cfg, to, s) && to.owner[s] in w.groups ==>
      InstallOp(w.groups[to.owner[s]], s, rows, to.num).1 == OK
  {
    if Pending(w, to) && Moved(w.cfg, to, s) && to.owner[s] in w.groups {
      assert HomeOk(h, w, s);
      var g := to.owner[s];
      assert MovedAt(w.chain, Newest(w), s);
      assert g != w.home[s].gid ==> OtherOk(h, w, s, g);
    }
  }

  // What one controller's calls reach, and what the others do in the meantime: script[i]
  // after its i-th step.
  class Caller {
    const h: Hash
    const c: nat
    const script: seq<seq<Action>>
    var w: World
    var i: nat

    constructor (h: Hash, c: nat, w: World, script: seq<seq<Action>>)
      ensures this.h == h && this.c == c && this.w == w && this.script == script && i == 0
    {
      this.h, this.c, this.w, this.script, i := h, c, w, script, 0;
    }

    ghost predicate Valid()
      reads this
    {
      Sound(h, w) && c < |w.ctls| && forall k :: 0 <= k < |script| ==> Others(script[k], c)
    }

    // Whatever the others do before the controller goes on.
    method Pause()
      requires Valid()
      modifies this
      ensures Valid() && Later(old(w), w)
      ensures script == [] ==> w == old(w)
      ensures |w.ctls| == |old(w).ctls| && w.ctls[c] == old(w).ctls[c]
      ensures old(w).net <= w.net && w.groups.Keys == old(w).groups.Keys
    {
      if i < |script| {
        ghost var first := w;
        var turn := script[i];
        var k := 0;
        while k < |turn|
          invariant 0 <= k <= |turn| && Valid() && Later(first, w)
          invariant i == old(i) && |w.ctls| == |first.ctls| && w.ctls[c] == first.ctls[c]
          invariant first.net <= w.net && w.groups.Keys == first.groups.Keys
        {
          SoundStep(h, w, turn[k]);
          StepTouches(h, w, turn[k]);
          w := Step(h, w, turn[k]);
          k := k + 1;
        }
        i := i + 1;
      }
    }

    // One step of the controller, then whatever the others do. Left alone, it is just the step.
    method Do(a: Action)
      requires Valid() && !a.Deliver? && !a.ClientPut? ==> a.c == c
      requires Valid()
      modifies this
      ensures Valid() && Later(old(w), w)
      ensures script == [] ==> w == Step(h, old(w), a)
      ensures |Step(h, old(w), a).ctls| == |w.ctls| == |old(w).ctls| && w.ctls[c] == Step(h, old(w), a).ctls[c]
      ensures Later(Step(h, old(w), a), w) && Step(h, old(w), a).net <= w.net && w.groups.Keys == old(w).groups.Keys
    {
      SoundStep(h, w, a);
      StepTouches(h, w, a);
      w := Step(h, w, a);
      Pause();
    }

    ghost predicate MovingShard(s: nat)
      reads this
    {
      Valid() && w.ctls[c].Moving? && s < |w.home| && Moved(w.ctls[c].from, w.ctls[c].to, s)
    }

    // One rpc of the group's clerk: the request goes out, the group executes it, and its
    // reply comes back.
    method SendFreezeRpc(s: nat)
      requires MovingShard(s) && w.ctls[c].from.owner[s] in w.ctls[c].from.groups
      modifies this
      ensures MovingShard(s) && Later(old(w), w) && w.groups.Keys == old(w).groups.Keys && w.ctls[c] == old(w).ctls[c]
      ensures FreezeMsg(w.ctls[c].from.owner[s], s, w.ctls[c].to.num) in w.net
      ensures script == [] ==> SameConfigs(old(w), w)
    {
      SendFreezeDoes(h, w, c, s);
      Do(SendFreeze(c, s));
    }

    method RunFreeze(s: nat, g: Gid, num: nat) returns (rep: FreezeReply)
      requires MovingShard(s) && FreezeMsg(g, s, num) in w.net && g in w.groups
      modifies this
      ensures MovingShard(s) && Later(old(w), w) && w.groups.Keys == old(w).groups.Keys && w.ctls[c] == old(w).ctls[c]
      ensures rep == FreezeOp(h, old(w).groups[g], s, num).1
      ensures rep.err == OK ==> FreezeRep(g, s, num, rep.rows) in w.net
      ensures script == [] ==> SameConfigs(old(w), w)
    {
      rep := FreezeOp(h, w.groups[g], s, num).1;
      FreezeDoes(h, w, g, s, num);
      Do(Deliver(FreezeMsg(g, s, num)));
    }

    method TakeFreeze(s: nat, rows: Table)
      requires MovingShard(s) && FreezeRep(w.ctls[c].from.owner[s], s, w.ctls[c].to.num, rows) in w.net
      modifies this
      ensures MovingShard(s) && Later(old(w), w) && w.groups.Keys == old(w).groups.Keys
      ensures w.ctls[c] == old(w).ctls[c].(frozen := old(w).ctls[c].frozen[s := rows])
      ensures script == [] ==> SameConfigs(old(w), w)
    {
      GotFreezeDoes(h, w, c, s, rows);
      Do(GotFreeze(c, s, rows));
    }

    // The old group's answer to a Freeze; None if it has no servers or refuses.
    method AskFreeze(s: nat) returns (rows: Option<Table>)
      requires MovingShard(s)
      modifies this
      ensures MovingShard(s) && Later(old(w), w) && w.groups.Keys == old(w).groups.Keys && w.ctls[c] == old(w).ctls[c]
      ensures rows.Some? ==> FreezeRep(w.ctls[c].from.owner[s], s, w.ctls[c].to.num, rows.value) in w.net
      ensures Quiet(old(w), w.ctls[c]) && Served(old(w), old(w).cfg, s) ==> rows.Some?
      ensures script == [] ==> SameConfigs(old(w), w)
    {
      var k := w.ctls[c];
      var g := k.from.owner[s];
      if g !in k.from.groups || g !in w.groups {
        return None;
      }
      SendFreezeRpc(s);
      FreezeAnswers(h, w, k.to, s);
      var rep := RunFreeze(s, g, k.to.num);
      rows := if rep.err == OK then Some(rep.rows) else None;
    }

    // Freeze the shard at its old group.
    method FreezeShard(s: nat) returns (rows: Option<Table>)
      requires MovingShard(s)
      modifies this
      ensures MovingShard(s) && Later(old(w), w) && w.groups.Keys == old(w).groups.Keys
      ensures SameMove(old(w).ctls[c], w.ctls[c]) && (rows.Some? ==> s in w.ctls[c].frozen && w.ctls[c].frozen[s] == rows.value)
      ensures Quiet(old(w), w.ctls[c]) && Served(old(w), old(w).cfg, s) ==> rows.Some?
      ensures script == [] ==> SameConfigs(old(w), w)
    {
      rows := AskFreeze(s);
      if rows.Some? {
        TakeFreeze(s, rows.value);
      }
    }

    method SendInstallRpc(s: nat)
      requires MovingShard(s) && s in w.ctls[c].frozen && w.ctls[c].to.owner[s] in w.ctls[c].to.groups
      modifies this
      ensures MovingShard(s) && Later(old(w), w) && w.groups.Keys == old(w).groups.Keys && w.ctls[c] == old(w).ctls[c]
      ensures InstallMsg(w.ctls[c].to.owner[s], s, w.ctls[c].to.num, w.ctls[c].frozen[s]) in w.net
      ensures script == [] ==> SameConfigs(old(w), w)
    {
      SendInstallDoes(h, w, c, s);
      Do(SendInstall(c, s));
    }

    method RunInstall(s: nat, g: Gid, num: nat, rows: Table) returns (err: Err)
      requires MovingShard(s) && InstallMsg(g, s, num, rows) in w.net && g in w.groups
      modifies this
      ensures MovingShard(s) && Later(old(w), w) && w.groups.Keys == old(w).groups.Keys && w.ctls[c] == old(w).ctls[c]
      ensures err == InstallOp(old(w).groups[g], s, rows, num).1
      ensures err == OK ==> InstallRep(g, s, num) in w.net
      ensures script == [] ==> SameConfigs(old(w), w)
    {
      err := InstallOp(w.groups[g], s, rows, num).1;
      InstallDoes(h, w, g, s, num, rows);
      Do(Deliver(InstallMsg(g, s, num, rows)));
    }

    method TakeInstall(s: nat)
      requires MovingShard(s) && InstallRep(w.ctls[c].to.owner[s], s, w.ctls[c].to.num) in w.net
      modifies this
      ensures MovingShard(s) && Later(old(w), w) && w.groups.Keys == old(w).groups.Keys
      ensures w.ctls[c] == old(w).ctls[c].(done := old(w).ctls[c].done + {s})
      ensures script == [] ==> SameConfigs(old(w), w)
    {
      GotInstallDoes(h, w, c, s);
      Do(GotInstall(c, s));
    }

    // Whether the new group accepted an Install.
    method AskInstall(s: nat) returns (ok: bool)
      requires MovingShard(s) && s in w.ctls[c].frozen
      modifies this
      ensures MovingShard(s) && Later(old(w), w) && w.groups.Keys == old(w).groups.Keys && w.ctls[c] == old(w).ctls[c]
      ensures ok ==> InstallRep(w.ctls[c].to.owner[s], s, w.ctls[c].to.num) in w.net
      ensures Quiet(old(w), w.ctls[c]) && Served(old(w), w.ctls[c].to, s) ==> ok
      ensures script == [] ==> SameConfigs(old(w), w)
    {
      var k := w.ctls[c];
      var g, rows := k.to.owner[s], k.frozen[s];
      if g !in k.to.groups || g !in w.groups {
        return false;
      }
      SendInstallRpc(s);
      InstallAnswers(h, w, k.to, s, rows);
      var err := RunInstall(s, g, k.to.num, rows);
      ok := err == OK;
    }

    // Install it at its new group.
    method InstallShard(s: nat) returns (ok: bool)
      requires MovingShard(s) && s in w.ctls[c].frozen
      modifies this
      ensures MovingShard(s) && Later(old(w), w) && w.groups.Keys == old(w).groups.Keys
      ensures SameMove(old(w).ctls[c], w.ctls[c]) && (ok ==> s in w.ctls[c].done)
      ensures Quiet(old(w), w.ctls[c]) && Served(old(w), w.ctls[c].to, s) ==> ok
      ensures script == [] ==> SameConfigs(old(w), w)
    {
      ok := AskInstall(s);
      if ok {
        TakeInstall(s);
      }
    }

    // Nobody interferes, and the pending configuration is the one being moved to.
    ghost predicate Quiet(v: World, k: Ctl)
      reads this
    {
      script == [] && k.Moving? && Pending(v, k.to) && k.from == v.cfg
    }

    // Nobody interferes, and every group has servers.
    ghost predicate Easy(v: World, k: Ctl)
      reads this
    {
      Quiet(v, k) && AllServed(v, k)
    }

    lemma StillEasy(v: World, k: Ctl, v': World, k': Ctl)
      requires ChainOk(v) && ChainOk(v') && SameMove(k, k') && |v'.home| == |v.home| && v'.groups.Keys == v.groups.Keys
      requires SameConfigs(v, v')
      ensures Easy(v, k) ==> Easy(v', k')
    {
      StillServed(v, v', k, k');
    }

    // The next part of the goroutine for one shard: the Freeze, and after it the Install.
    method MoveShard(s: nat, frozen: bool) returns (ok: bool)
      requires MovingShard(s) && (frozen ==> s in w.ctls[c].frozen)
      modifies this
      ensures MovingShard(s) && Later(old(w), w) && w.groups.Keys == old(w).groups.Keys
      ensures SameMove(old(w).ctls[c], w.ctls[c]) && (ok ==> if frozen then s in w.ctls[c].done else s in w.ctls[c].frozen)
      ensures Easy(old(w), old(w).ctls[c]) ==> ok && SameConfigs(old(w), w) && Easy(w, w.ctls[c])
    {
      ghost var before := w;
      OneServed(w, w.ctls[c], s);
      if frozen {
        ok := InstallShard(s);
      } else {
        var rows := FreezeShard(s);
        ok := rows.Some?;
      }
      if SameConfigs(before, w) { StillEasy(before, before.ctls[c], w, w.ctls[c]); }
    }

    // Some goroutine goes on.
    method MoveNext(toFreeze: set<nat>, toInstall: set<nat>) returns (moved: bool, toFreeze': set<nat>, toInstall': set<nat>)
      requires Valid() && ToMove(w.ctls[c], |w.home|, toFreeze, toInstall) && toFreeze + toInstall != {}
      modifies this
      ensures Valid() && Later(old(w), w) && w.groups.Keys == old(w).groups.Keys && SameMove(old(w).ctls[c], w.ctls[c])
      ensures ToMove(w.ctls[c], |w.home|, toFreeze', toInstall') && 2 * |toFreeze'| + |toInstall'| < 2 * |toFreeze| + |toInstall|
      ensures moved && AllPlaced(old(w).ctls[c], |w.home|, toFreeze, toInstall) ==> AllPlaced(w.ctls[c], |w.home|, toFreeze', toInstall')
      ensures Easy(old(w), old(w).ctls[c]) ==> moved && SameConfigs(old(w), w) && Easy(w, w.ctls[c])
    {
      var s :| s in toFreeze + toInstall;
      ghost var before := w;
      moved := MoveShard(s, s in toInstall);
      NextToMove(before.ctls[c], w.ctls[c], |w.home|, toFreeze, toInstall, s, moved);
      if s in toInstall {
        toFreeze', toInstall' := toFreeze, toInstall - {s};
      } else {
        toFreeze', toInstall' := toFreeze - {s}, if moved then toInstall + {s} else toInstall;
      }
    }

    // All the goroutines, in any order and with the parts of one between those of others;
    // a failure does not stop the others.
    method MoveAll() returns (ok: bool)
      requires Valid() && w.ctls[c].Moving?
      modifies this
      ensures Valid() && Later(old(w), w) && w.groups.Keys == old(w).groups.Keys && SameMove(old(w).ctls[c], w.ctls[c])
      ensures ok ==> forall s :: 0 <= s < |w.home| && Moved(w.ctls[c].from, w.ctls[c].to, s) ==> s in w.ctls[c].done
      ensures Easy(old(w), old(w).ctls[c]) ==> ok && SameConfigs(old(w), w)
    {
      var failed := false;
      var toFreeze := set s: nat | s < |w.home| && Moved(w.ctls[c].from, w.ctls[c].to, s);
      var toInstall: set<nat> := {};
      while toFreeze + toInstall != {}
        invariant Valid() && ToMove(w.ctls[c], |w.home|, toFreeze, toInstall) && Later(old(w), w)
        invariant w.groups.Keys == old(w).groups.Keys && SameMove(old(w).ctls[c], w.ctls[c])
        invariant failed || AllPlaced(w.ctls[c], |w.home|, toFreeze, toInstall)
        invariant Easy(old(w), old(w).ctls[c]) ==> !failed && SameConfigs(old(w), w) && Easy(w, w.ctls[c])
        decreases 2 * |toFreeze| + |toInstall|
      {
        var moved;
        moved, toFreeze, toInstall := MoveNext(toFreeze, toInstall);
        if !moved {
          failed := true;
        }
      }
      ok := !failed;
    }

    // One Put of the new configuration under cfgName.
    method PutCfgRpc(to: Config, ver: nat)
      requires Valid() && w.ctls[c].Publishing? && w.ctls[c].to == to && w.ctls[c].ver == ver == w.ctls[c].from.num
      requires PutCfg(to, ver) in w.net
      modifies this
      ensures Valid() && Later(old(w), w) && w.groups.Keys == old(w).groups.Keys && w.ctls[c] == old(w).ctls[c]
      ensures w.cfg.num >= to.num
      ensures script == [] && Pending(old(w), to) ==> w.cfg == to && w.chain == old(w).chain && CfgOk(to, ver) in w.net
    {
      PublishDoes(h, w, c);
      Do(Deliver(PutCfg(to, ver)));
    }

    // What the reply, or the configuration read after an error, makes of it.
    method AfterPut(to: Config, ver: nat)
      requires Valid() && w.ctls[c].Publishing? && w.ctls[c].to == to && w.ctls[c].ver == ver && w.cfg.num >= to.num
      modifies this
      ensures Valid() && Later(old(w), w) && w.groups.Keys == old(w).groups.Keys
      ensures w.ctls[c] == Deleting(to, old(w).ctls[c].from) || w.ctls[c] == Idle
      ensures CfgOk(to, ver) in old(w).net ==> w.ctls[c].Deleting?
      ensures script == [] ==> SameConfigs(old(w), w)
    {
      if CfgOk(to, ver) in w.net {
        PublishOkDoes(h, w, c);
        Do(PublishOk(c));
      } else {
        RecheckDoes(h, w, c);
        Do(PublishRecheck(c));
      }
    }

    // Publish, against the version read first and, if that fails, against the one read then,
    // until this or a newer configuration is published. True if it is this one.
    method Publish() returns (ok: bool)
      requires Valid() && w.ctls[c].Publishing? && PutCfg(w.ctls[c].to, w.ctls[c].ver) in w.net && w.ctls[c].ver == w.ctls[c].from.num
      modifies this
      ensures Valid() && Later(old(w), w) && w.groups.Keys == old(w).groups.Keys && w.cfg.num >= old(w).ctls[c].to.num
      ensures w.ctls[c] == if ok then Deleting(old(w).ctls[c].to, old(w).ctls[c].from) else Idle
      ensures script == [] && Pending(old(w), old(w).ctls[c].to) ==> ok && w.cfg == old(w).ctls[c].to && w.chain == old(w).chain
    {
      ghost var k := w.ctls[c];
      while w.ctls[c].Publishing?
        invariant Valid() && Later(old(w), w) && w.groups.Keys == old(w).groups.Keys
        invariant w.ctls[c].Publishing? ==> w == old(w)
        invariant !w.ctls[c].Publishing? ==> w.ctls[c] == Deleting(k.to, k.from) || w.ctls[c] == Idle
        invariant !w.ctls[c].Publishing? ==> w.cfg.num >= k.to.num
        invariant !w.ctls[c].Publishing? && script == [] && Pending(old(w), k.to) ==>
          w.ctls[c].Deleting? && w.cfg == k.to && w.chain == old(w).chain
        decreases if w.ctls[c].Publishing? then 1 else 0
      {
        var to, ver := w.ctls[c].to, w.ctls[c].ver;
        PutCfgRpc(to, ver);
        AfterPut(to, ver);
      }
      ok := w.ctls[c].Deleting?;
    }

    // Read the current configuration, and give up if it is as new.
    method ReadCur(to: Config)
      requires Valid() && w.ctls[c].Idle? && MayBegin(w, to)
      modifies this
      ensures Valid() && Later(old(w), w) && w.groups.Keys == old(w).groups.Keys
      ensures w.ctls[c].Idle? || (w.ctls[c].HaveOld? && w.ctls[c].to == to)
      ensures script == [] ==> SameData(old(w), w) && w.cfgVer == old(w).cfgVer
      ensures script == [] ==> w.ctls[c] == if to.num <= old(w).cfg.num then Idle else HaveOld(to, old(w).cfg, old(w).cfgVer)
    {
      BeginDoes(h, w, c, to);
      Do(Begin(c, to));
      ReadCfgDoes(h, w, c);
      Do(ReadCfg(c));
    }

    // And read the next one, and give up if it is newer and another.
    method ReadBoth(to: Config)
      requires Valid() && w.ctls[c].Idle? && MayBegin(w, to)
      modifies this
      ensures Valid() && Later(old(w), w) && w.groups.Keys == old(w).groups.Keys
      ensures var k := w.ctls[c];
        || k.Idle?
        || (k.Moving? && k.to == to)
        || (k.Claiming? && k.to == to && PutNext(to, k.nver) in w.net)
      ensures script == [] ==> SameConfigs(old(w), w) && w.nextVer == old(w).nextVer && After2(old(w), w.ctls[c], to)
    {
      ReadCur(to);
      if w.ctls[c].HaveOld? {
        ReadNextDoes(h, w, c);
        Do(ReadNext(c));
      }
    }

    // Put the configuration under nextName at the version read, or find it there.
    method PutNextRpc(to: Config)
      requires Valid() && w.ctls[c].Claiming? && w.ctls[c].to == to && PutNext(to, w.ctls[c].nver) in w.net
      modifies this
      ensures Valid() && Later(old(w), w) && w.groups.Keys == old(w).groups.Keys
      ensures w.ctls[c].Idle? || (w.ctls[c].Moving? && w.ctls[c].to == to)
      ensures script == [] ==> w.cfg == old(w).cfg
      ensures script == [] && old(w).ctls[c].nver == old(w).nextVer ==>
        w.ctls[c].Moving? && w.ctls[c].from == old(w).ctls[c].from && w.chain == old(w).chain + [to]
    {
      var nver := w.ctls[c].nver;
      ClaimDoes(h, w, c);
      Do(Deliver(PutNext(to, nver)));
      if NextOk(to, nver) in w.net {
        ClaimOkDoes(h, w, c);
        Do(ClaimOk(c));
      } else {
        ClaimRecheckDoes(h, w, c);
        Do(ClaimRecheck(c));
      }
    }

    // Claim the number, unless it is claimed for this configuration already.
    method Claim(to: Config) returns (ok: bool)
      requires Valid() && w.ctls[c].Idle? && MayBegin(w, to)
      modifies this
      ensures Valid() && Later(old(w), w) && w.groups.Keys == old(w).groups.Keys
      ensures if ok then w.ctls[c].Moving? && w.ctls[c].to == to else w.ctls[c] == Idle
      ensures script == [] && to.num <= old(w).cfg.num ==> !ok && SameConfigs(old(w), w)
      ensures script == [] && Ready(old(w), to) ==> ok && Pending(w, to) && w.cfg == old(w).cfg && w.ctls[c].from == old(w).cfg
    {
      ReadBoth(to);
      if w.ctls[c].Claiming? {
        PutNextRpc(to);
      }
      ok := w.ctls[c].Moving?;
    }

    // All shards are in: the configuration can be published.
    method FinishMoves()
      requires Valid() && w.ctls[c].Moving?
      requires forall s :: 0 <= s < |w.home| && Moved(w.ctls[c].from, w.ctls[c].to, s) ==> s in w.ctls[c].done
      modifies this
      ensures Valid() && Later(old(w), w) && w.groups.Keys == old(w).groups.Keys
      ensures var k := old(w).ctls[c]; w.ctls[c] == Publishing(k.to, k.from, k.ver) && k.ver == k.from.num && PutCfg(k.to, k.ver) in w.net
      ensures script == [] ==> SameConfigs(old(w), w)
    {
      AllMovedDoes(h, w, c);
      Do(AllMoved(c));
    }

    // Delete the moved shards at their old groups; what they answer does not matter. Left
    // alone, with nothing newer claimed, none of these groups keeps a row of them.
    method DeleteAll()
      requires Valid() && w.ctls[c].Deleting?
      modifies this
      ensures Valid() && Later(old(w), w) && w.groups.Keys == old(w).groups.Keys && w.ctls[c] == old(w).ctls[c]
      ensures script == [] ==> SameConfigs(old(w), w)
      ensures script == [] && Newest(old(w)) == old(w).ctls[c].to.num ==> Emptied(h, w, w.ctls[c].from, w.ctls[c].to, |w.home|)
    {
      var k := w.ctls[c];
      var s := 0;
      var n := |w.home|;
      while s < n
        invariant 0 <= s <= n == |w.home| && Valid() && Later(old(w), w)
        invariant w.groups.Keys == old(w).groups.Keys && w.ctls[c] == k
        invariant script == [] ==> SameConfigs(old(w), w)
        invariant script == [] && Newest(old(w)) == k.to.num ==> Emptied(h, w, k.from, k.to, s)
      {
        if Moved(k.from, k.to, s) && k.from.owner[s] in k.from.groups {
          DeleteRpc(s);
        }
        s := s + 1;
      }
    }

    method DeleteRpc(s: nat)
      requires Valid() && w.ctls[c].Deleting? && s < |w.home| && Moved(w.ctls[c].from, w.ctls[c].to, s)
      requires w.ctls[c].from.owner[s] in w.ctls[c].from.groups
      modifies this
      ensures Valid() && Later(old(w), w) && w.groups.Keys == old(w).groups.Keys && w.ctls[c] == old(w).ctls[c]
      ensures script == [] ==> SameConfigs(old(w), w)
      ensures var g := w.ctls[c].from.owner[s]; script == [] && Newest(old(w)) == w.ctls[c].to.num && g in w.groups ==> GoneAt(h, w, g, s)
      ensures script == [] ==> StillGone(h, old(w), w)
    {
      var g, num := w.ctls[c].from.owner[s], w.ctls[c].to.num;
      SendDeleteDoes(h, w, c, s);
      Do(SendDelete(c, s));
      DeleteDoes(h, w, g, s, num);
      DeleteEmpties(h, w, g, s, num);
      Do(Deliver(DeleteMsg(g, s, num)));
    }

    // The end of the call.
    method Return()
      requires Valid()
      modifies this
      ensures Valid() && Later(old(w), w) && w.groups.Keys == old(w).groups.Keys && w.ctls[c] == Idle
      ensures script == [] ==> SameConfigs(old(w), w) && w.groups == old(w).groups
    {
      StopDoes(h, w, c);
      Do(Stop(c));
    }

    // Everything after the moves.
    method PublishAndDelete() returns (done: bool)
      requires Valid() && w.ctls[c].Moving?
      requires forall s :: 0 <= s < |w.home| && Moved(w.ctls[c].from, w.ctls[c].to, s) ==> s in w.ctls[c].done
      modifies this
      ensures Valid() && Later(old(w), w) && w.groups.Keys == old(w).groups.Keys
      ensures w.cfg.num >= old(w).ctls[c].to.num
      ensures script == [] && Pending(old(w), old(w).ctls[c].to) ==>
        && done && w.cfg == old(w).ctls[c].to && w.chain == old(w).chain
        && Emptied(h, w, old(w).ctls[c].from, old(w).ctls[c].to, |w.home|)
    {
      FinishMoves();
      done := Publish();
      if done {
        DeleteAll();
      }
    }

    // Everything after the claim.
    method Migrate() returns (done: bool)
      requires Valid() && w.ctls[c].Moving?
      modifies this
      ensures Valid() && Later(old(w), w) && w.groups.Keys == old(w).groups.Keys && w.ctls[c] == Idle
      ensures done ==> w.cfg.num >= old(w).ctls[c].to.num
      ensures Quiet(old(w), old(w).ctls[c]) && AllServed(old(w), old(w).ctls[c]) ==>
        && done && w.cfg == old(w).ctls[c].to && w.chain == old(w).chain
        && Emptied(h, w, old(w).ctls[c].from, old(w).ctls[c].to, |w.home|)
    {
      done := false;
      var ok := MoveAll();
      if ok {
        done := PublishAndDelete();
      }
      Return();
    }

    // Change the configuration to one that was read back from nextName or made from the
    // current one. Whatever the others do it keeps the invariant, and if it says so the
    // configuration, or a newer one, is published. Left alone, with groups that have
    // servers, it succeeds: also if an earlier controller crashed anywhere on the way to
    // the same configuration. Then every shard is served by the group it names, and no
    // group that gave one up keeps a row of it.
    method ChangeConfigTo(to: Config) returns (done: bool)
      requires Valid() && w.ctls[c].Idle? && MayBegin(w, to)
      modifies this
      ensures Valid() && Later(old(w), w) && w.groups.Keys == old(w).groups.Keys && w.ctls[c] == Idle
      ensures done ==> w.cfg.num >= to.num
      ensures script == [] && to.num <= old(w).cfg.num ==> !done && SameConfigs(old(w), w)
      ensures script == [] && Ready(old(w), to) && GroupsThere(old(w), to) ==>
        && done && w.cfg == to && Newest(w) == to.num && (forall s: nat :: s < |w.home| ==> Serves(w, to.owner[s], s))
        && Emptied(h, w, old(w).cfg, to, |w.home|)
    {
      done := false;
      var ok := Claim(to);
      if ok {
        ServedStill(old(w), w, w.ctls[c]);
        done := Migrate();
      }
      EndServing(h, w, to);
    }

    // Recovery: read the next configuration, then, after whatever the others did, the
    // current one, and finish the change if it was claimed and not published.
    method InitController() returns (done: bool)
      requires Valid() && w.ctls[c].Idle?
      modifies this
      ensures Valid() && Later(old(w), w) && w.ctls[c] == Idle
      ensures done ==> old(w).cfg.num < Newest(old(w)) <= w.cfg.num
      ensures script == [] && Newest(old(w)) == old(w).cfg.num ==> !done && w == old(w)
      ensures script == [] && Newest(old(w)) > old(w).cfg.num && GroupsThere(old(w), old(w).chain[Newest(old(w)) - 1]) ==>
        done && w.cfg == old(w).chain[Newest(old(w)) - 1] && Newest(w) == w.cfg.num
        && (forall s: nat :: s < |w.home| ==> s < |w.cfg.owner| && Serves(w, w.cfg.owner[s], s))
        && Emptied(h, w, old(w).cfg, w.cfg, |w.home|)
    {
      if w.next.None? {
        return false;
      }
      var next := w.next.value;
      Pause();
      var cur := w.cfg;
      if next.num <= cur.num {
        return false;
      }
      Pause();
      done := ChangeConfigTo(next);
    }
  }

  // The shards whose goroutines have their Freeze, or their Install, still to do.
  ghost predicate ToMove(k: Ctl, shards: nat, toFreeze: set<nat>, toInstall: set<nat>) {
    && k.Moving? && toFreeze !! toInstall
    && (forall s :: s in toFreeze || s in toInstall ==> s < shards && Moved(k.from, k.to, s))
    && (forall s :: s in toInstall ==> s in k.frozen)
  }

  // Every shard that moves is there, or has arrived.
  ghost predicate AllPlaced(k: Ctl, shards: nat, toFreeze: set<nat>, toInstall: set<nat>)
    requires k.Moving?
  {
    forall s: nat {:trigger Moved(k.from, k.to, s)} :: s < shards && Moved(k.from, k.to, s) ==> s in toFreeze || s in toInstall || s in k.done
  }

  lemma NextToMove(k: Ctl, k': Ctl, shards: nat, toFreeze: set<nat>, toInstall: set<nat>, s: nat, moved: bool)
    requires ToMove(k, shards, toFreeze, toInstall) && SameMove(k, k') && (s in toFreeze || s in toInstall)
    requires moved ==> if s in toInstall then s in k'.done else s in k'.frozen
    ensures s in toInstall ==>
      && ToMove(k', shards, toFreeze, toInstall - {s}) && |toInstall - {s}| < |toInstall|
      && (moved && AllPlaced(k, shards, toFreeze, toInstall) ==> AllPlaced(k', shards, toFreeze, toInstall - {s}))
    ensures s in toFreeze ==>
      var next := if moved then toInstall + {s} else toInstall;
      && ToMove(k', shards, toFreeze - {s}, next) && |toFreeze - {s}| < |toFreeze| && |next| <= |toInstall| + 1
      && (moved && AllPlaced(k, shards, toFreeze, toInstall) ==> AllPlaced(k', shards, toFreeze - {s}, next))
  {
  }

  lemma OneServed(w: World, k: Ctl, s: nat)
    requires k.Moving? && s < |w.home| && Moved(k.from, k.to, s)
    ensures AllServed(w, k) ==> Served(w, k.from, s) && Served(w, k.to, s)
  {
  }

  lemma StillServed(v: World, w: World, k: Ctl, k': Ctl)
    requires w.groups.Keys == v.groups.Keys && |w.home| == |v.home| && SameMove(k, k')
    ensures AllServed(v, k) <==> AllServed(w, k')
  {
    forall s: nat, cfg: Config ensures Served(v, cfg, s) <==> Served(w, cfg, s) {}
  }

  lemma ServedStill(v: World, w: World, k: Ctl)
    requires w.groups.Keys == v.groups.Keys && |w.home| == |v.home| && k.Moving?
    ensures GroupsThere(v, k.to) && k.from == v.cfg ==> AllServed(w, k)
  {
    if GroupsThere(v, k.to) && k.from == v.cfg {
      forall s: nat | s < |w.home| && Moved(k.from, k.to, s) ensures Served(w, k.from, s) && Served(w, k.to, s) {
        assert Served(v, v.cfg, s) && Served(v, k.to, s);
      }
    }
  }

  lemma StopDoes(h: Hash, w: World, c: nat)
    requires Inv(h, w) && c < |w.ctls|
    ensures var v := Step(h, w, Stop(c)); SameData(w, v) && |v.ctls| == |w.ctls| && v.ctls[c] == Idle
  {
  }

  lemma EndServing(h: Hash, w: World, to: Config)
    requires Inv(h, w)
    ensures w.cfg == to && Newest(w) == to.num ==> forall s: nat :: s < |w.home| ==> s < |to.owner| && Serves(w, to.owner[s], s)
  {
    if w.cfg == to && Newest(w) == to.num { AllServing(h, w, to); }
  }

  // Every shard's group, before and after, has servers.
  ghost predicate GroupsThere(w: World, to: Config) {
    forall s: nat :: s < |w.home| ==> Served(w, w.cfg, s) && Served(w, to, s)
  }

  // With nothing pending every shard is served by the group the configuration names.
  lemma AllServing(h: Hash, w: World, to: Config)
    requires Inv(h, w) && w.cfg == to && Newest(w) == to.num
    ensures forall s: nat :: s < |w.home| ==> s < |to.owner| && Serves(w, to.owner[s], s)
  {
    forall s: nat | s < |w.home| ensures Serves(w, to.owner[s], s) {
      assert HomeOk(h, w, s);
      assert Owner(w.chain, w.cfg.num, s) == to.owner[s];
    }
  }

  lemma AllMovedDoes(h: Hash, w: World, c: nat)
    requires Inv(h, w) && c < |w.ctls| && w.ctls[c].Moving?
    requires forall s :: 0 <= s < |w.home| && Moved(w.ctls[c].from, w.ctls[c].to, s) ==> s in w.ctls[c].done
    ensures var k := w.ctls[c]; var v := Step(h, w, AllMoved(c));
      && SameData(w, v) && |v.ctls| == |w.ctls| && v.ctls[c] == Publishing(k.to, k.from, k.ver)
      && k.ver == k.from.num && PutCfg(k.to, k.ver) in v.net
  {
    LookCtl(h, w, c);
  }

  lemma SendDeleteDoes(h: Hash, w: World, c: nat, s: nat)
    requires Inv(h, w) && c < |w.ctls| && w.ctls[c].Deleting? && Moved(w.ctls[c].from, w.ctls[c].to, s)
    requires w.ctls[c].from.owner[s] in w.ctls[c].from.groups
    ensures var k := w.ctls[c]; var v := Step(h, w, SendDelete(c, s));
      SameData(w, v) && |v.ctls| == |w.ctls| && v.ctls[c] == k && DeleteMsg(k.from.owner[s], s, k.to.num) in v.net
  {
  }

  lemma DeleteDoes(h: Hash, w: World, g: Gid, s: nat, num: nat)
    requires Inv(h, w) && DeleteMsg(g, s, num) in w.net
    ensures var v := Step(h, w, Deliver(DeleteMsg(g, s, num))); SameConfigs(w, v) && v.ctls == w.ctls
  {
  }

  // ---------- what Delete leaves ----------

  ghost predicate GoneAt(h: Hash, w: World, g: Gid, s: nat) {
    g in w.groups && s < |w.groups[g].status| && Gone(h, w.groups[g], s)
  }

  ghost predicate StillGone(h: Hash, w: World, v: World) {
    forall g, s: nat {:trigger GoneAt(h, v, g, s)} :: GoneAt(h, w, g, s) ==> GoneAt(h, v, g, s)
  }

  // The first n shards that to takes from groups of from are gone from these.
  ghost predicate Emptied(h: Hash, w: World, from: Config, to: Config, n: nat) {
    forall s: nat {:trigger Moved(from, to, s)} ::
      s < n && Moved(from, to, s) && from.owner[s] in from.groups && from.owner[s] in w.groups ==> GoneAt(h, w, from.owner[s], s)
  }

  lemma DeleteEmpties(h: Hash, w: World, g: Gid, s: nat, num: nat)
    requires Sound(h, w) && DeleteMsg(g, s, num) in w.net && s < |w.home|
    ensures var v := Step(h, w, Deliver(DeleteMsg(g, s, num)));
      StillGone(h, w, v) && (g in w.groups && Newest(w) == num ==> GoneAt(h, v, g, s))
  {
    var v := Step(h, w, Deliver(DeleteMsg(g, s, num)));
    if g in w.groups {
      DeleteAnswers(h, w, g, s, num);
      NumsBelow(h, w, g, s);
      forall i, x: nat | GoneAt(h, w, i, x) ensures GoneAt(h, v, i, x) { GoneStays(h, w, g, s, num, i, x); }
    }
  }

  // to may be claimed, or is.
  ghost predicate Ready(w: World, to: Config) {
    ChainOk(w) && to.num == w.cfg.num + 1 && (Newest(w) == w.cfg.num || Pending(w, to))
  }

  // Where reading both registers takes a controller that is left alone.
  ghost predicate After2(w: World, k: Ctl, to: Config) {
    if to.num <= w.cfg.num then k.Idle?
    else if Ready(w, to) then
      if Newest(w) == w.cfg.num then k.Claiming? && k.nver == w.nextVer && k.from == w.cfg else k.Moving? && k.from == w.cfg
    else k.Idle?
  }

  lemma BeginDoes(h: Hash, w: World, c: nat, to: Config)
    requires Inv(h, w) && c < |w.ctls| && MayBegin(w, to)
    ensures var v := Step(h, w, Begin(c, to)); SameData(w, v) && |v.ctls| == |w.ctls| && v.ctls[c] == Began(to)
  {
  }

  lemma ReadCfgDoes(h: Hash, w: World, c: nat)
    requires Inv(h, w) && c < |w.ctls| && w.ctls[c].Began?
    ensures var to := w.ctls[c].to; var v := Step(h, w, ReadCfg(c));
      SameData(w, v) && |v.ctls| == |w.ctls| && v.ctls[c] == if to.num <= w.cfg.num then Idle else HaveOld(to, w.cfg, w.cfgVer)
  {
  }

  lemma ReadNextDoes(h: Hash, w: World, c: nat)
    requires Inv(h, w) && c < |w.ctls| && w.ctls[c].HaveOld?
    ensures var k := w.ctls[c]; var v := Step(h, w, ReadNext(c));
      && SameData(w, v) && |v.ctls| == |w.ctls|
      && (Newest(w) > k.from.num && w.next == Some(k.to) ==> v.ctls[c] == Moving(k.to, k.from, k.ver, map[], {}))
      && (Newest(w) > k.from.num && w.next != Some(k.to) ==> v.ctls[c] == Idle)
      && (Newest(w) <= k.from.num ==> v.ctls[c] == Claiming(k.to, k.from, k.ver, w.nextVer) && PutNext(k.to, w.nextVer) in v.net)
  {
    LookCtl(h, w, c);
  }

  lemma ClaimDoes(h: Hash, w: World, c: nat)
    requires Inv(h, w) && c < |w.ctls| && w.ctls[c].Claiming? && PutNext(w.ctls[c].to, w.ctls[c].nver) in w.net
    ensures var k := w.ctls[c]; var v := Step(h, w, Deliver(PutNext(k.to, k.nver)));
      && v.cfg == w.cfg && v.ctls == w.ctls
      && (k.nver == w.nextVer ==> v.chain == w.chain + [k.to] && NextOk(k.to, k.nver) in v.net)
  {
  }

  lemma ClaimOkDoes(h: Hash, w: World, c: nat)
    requires Inv(h, w) && c < |w.ctls| && w.ctls[c].Claiming? && NextOk(w.ctls[c].to, w.ctls[c].nver) in w.net
    ensures var k := w.ctls[c]; var v := Step(h, w, ClaimOk(c));
      SameData(w, v) && |v.ctls| == |w.ctls| && v.ctls[c] == Moving(k.to, k.from, k.ver, map[], {})
  {
  }

  lemma ClaimRecheckDoes(h: Hash, w: World, c: nat)
    requires Inv(h, w) && c < |w.ctls| && w.ctls[c].Claiming?
    ensures var k := w.ctls[c]; var v := Step(h, w, ClaimRecheck(c));
      SameData(w, v) && |v.ctls| == |w.ctls| && v.ctls[c] == if w.next == Some(k.to) then Moving(k.to, k.from, k.ver, map[], {}) else Idle
  {
  }

  // Every moved shard's old and new group have servers.
  ghost predicate AllServed(w: World, k: Ctl)
    requires k.Moving?
  {
    forall s: nat :: s < |w.home| && Moved(k.from, k.to, s) ==> Served(w, k.from, s) && Served(w, k.to, s)
  }

  lemma PublishDoes(h: Hash, w: World, c: nat)
    requires Inv(h, w) && c < |w.ctls| && w.ctls[c].Publishing? && PutCfg(w.ctls[c].to, w.ctls[c].ver) in w.net
    requires w.ctls[c].ver == w.ctls[c].from.num
    ensures var k := w.ctls[c]; var v := Step(h, w, Deliver(PutCfg(k.to, k.ver)));
      && v.chain == w.chain && v.ctls == w.ctls && v.cfg.num >= k.to.num
      && (Pending(w, k.to) ==> v.cfg == k.to && CfgOk(k.to, k.ver) in v.net)
  {
    LookCtl(h, w, c);
    LookMsg(h, w, PutCfg(w.ctls[c].to, w.ctls[c].ver));
  }

  lemma PublishOkDoes(h: Hash, w: World, c: nat)
    requires Inv(h, w) && c < |w.ctls| && w.ctls[c].Publishing? && CfgOk(w.ctls[c].to, w.ctls[c].ver) in w.net
    ensures var k := w.ctls[c]; var v := Step(h, w, PublishOk(c));
      SameData(w, v) && |v.ctls| == |w.ctls| && v.ctls[c] == Deleting(k.to, k.from)
  {
  }

  lemma RecheckDoes(h: Hash, w: World, c: nat)
    requires Inv(h, w) && c < |w.ctls| && w.ctls[c].Publishing? && w.cfg.num >= w.ctls[c].to.num
    ensures var k := w.ctls[c]; var v := Step(h, w, PublishRecheck(c));
      SameData(w, v) && |v.ctls| == |w.ctls| && v.ctls[c] == if w.cfg.num == k.to.num then Deleting(k.to, k.from) else Idle
  {
  }

  // The same migration, nothing of it undone.
  ghost predicate SameMove(k: Ctl, k': Ctl) {
    && k.Moving? && k'.Moving? && k'.to == k.to && k'.from == k.from && k'.ver == k.ver && k.frozen.Keys <= k'.frozen.Keys && k.done <= k'.done
  }

  ghost predicate SameConfigs(w: World, v: World) {
    v.cfg == w.cfg && v.chain == w.chain && v.cfgVer == w.cfgVer
  }

  lemma SendFreezeDoes(h: Hash, w: World, c: nat, s: nat)
    requires Inv(h, w) && c < |w.ctls| && w.ctls[c].Moving? && Moved(w.ctls[c].from, w.ctls[c].to, s)
    requires w.ctls[c].from.owner[s] in w.ctls[c].from.groups
    ensures var k := w.ctls[c]; var v := Step(h, w, SendFreeze(c, s));
      && SameData(w, v) && v.cfgVer == w.cfgVer && |v.ctls| == |w.ctls| && v.ctls[c] == k && FreezeMsg(k.from.owner[s], s, k.to.num) in v.net
  {
  }

  lemma FreezeDoes(h: Hash, w: World, g: Gid, s: nat, num: nat)
    requires Inv(h, w) && FreezeMsg(g, s, num) in w.net && g in w.groups && s < |w.home|
    ensures var v := Step(h, w, Deliver(FreezeMsg(g, s, num))); var rep := FreezeOp(h, w.groups[g], s, num).1;
      && SameConfigs(w, v) && v.ctls == w.ctls && (rep.err == OK ==> FreezeRep(g, s, num, rep.rows) in v.net)
  {
  }

  lemma GotFreezeDoes(h: Hash, w: World, c: nat, s: nat, rows: Table)
    requires Inv(h, w) && c < |w.ctls| && w.ctls[c].Moving? && Moved(w.ctls[c].from, w.ctls[c].to, s)
    requires FreezeRep(w.ctls[c].from.owner[s], s, w.ctls[c].to.num, rows) in w.net
    ensures var k := w.ctls[c]; var v := Step(h, w, GotFreeze(c, s, rows));
      SameData(w, v) && v.cfgVer == w.cfgVer && |v.ctls| == |w.ctls| && v.ctls[c] == k.(frozen := k.frozen[s := rows])
  {
  }

  lemma SendInstallDoes(h: Hash, w: World, c: nat, s: nat)
    requires Inv(h, w) && c < |w.ctls| && w.ctls[c].Moving? && Moved(w.ctls[c].from, w.ctls[c].to, s)
    requires s in w.ctls[c].frozen && w.ctls[c].to.owner[s] in w.ctls[c].to.groups
    ensures var k := w.ctls[c]; var v := Step(h, w, SendInstall(c, s));
      && SameData(w, v) && v.cfgVer == w.cfgVer && |v.ctls| == |w.ctls| && v.ctls[c] == k && InstallMsg(k.to.owner[s], s, k.to.num, k.frozen[s]) in v.net
  {
  }

  lemma InstallDoes(h: Hash, w: World, g: Gid, s: nat, num: nat, rows: Table)
    requires Inv(h, w) && InstallMsg(g, s, num, rows) in w.net && g in w.groups && s < |w.home|
    ensures var v := Step(h, w, Deliver(InstallMsg(g, s, num, rows)));
      && SameConfigs(w, v) && v.ctls == w.ctls && (InstallOp(w.groups[g], s, rows, num).1 == OK ==> InstallRep(g, s, num) in v.net)
  {
  }

  lemma GotInstallDoes(h: Hash, w: World, c: nat, s: nat)
    requires Inv(h, w) && c < |w.ctls| && w.ctls[c].Moving? && Moved(w.ctls[c].from, w.ctls[c].to, s)
    requires InstallRep(w.ctls[c].to.owner[s], s, w.ctls[c].to.num) in w.net
    ensures var k := w.ctls[c]; var v := Step(h, w, GotInstall(c, s));
      SameData(w, v) && v.cfgVer == w.cfgVer && |v.ctls| == |w.ctls| && v.ctls[c] == k.(done := k.done + {s})
  {
  }
}
