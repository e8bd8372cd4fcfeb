// What every run of the sharded store guarantees.
module ShardTheorems {
  import opened Options
  import opened Kv
  import opened ShardGroup
  import opened ShardSystem
  import opened ShardProof

  // ---------- runs ----------

  lemma InitInv(h: Hash, gids: set<Gid>, shards: nat, controllers: nat)
    requires HashOk(h, shards)
    ensures Inv(h, Init(gids, shards, controllers))
  {
    var w := Init(gids, shards, controllers);
    forall s: nat | s < |w.home| ensures HomeOk(h, w, s) {
      forall g | g in w.groups && g != w.home[s].gid ensures OtherOk(h, w, s, g) {
      }
    }
  }

  lemma RegisterInv(h: Hash, w: World, m: Msg)
    requires Inv(h, w) && m in w.net && (m.PutNext? || m.PutCfg?)
    ensures Inv(h, OnRegister(w, m)) && Onward(h, w, OnRegister(w, m))
  {
    OnwardSame(h, w, w);
    match m
    case PutNext(cfg, ver) => if ver == w.nextVer { ClaimInv(h, w, cfg, ver); }
    case PutCfg(cfg, ver) => if ver == w.cfgVer { PublishInv(h, w, cfg, ver); }
  }

  lemma GroupInv(h: Hash, w: World, m: Msg)
    requires Inv(h, w) && m in w.net && (m.FreezeMsg? || m.InstallMsg? || m.DeleteMsg?) && m.g in w.groups && m.s < |w.home|
    ensures Inv(h, OnGroup(h, w, m)) && Onward(h, w, OnGroup(h, w, m))
  {
    match m
    case FreezeMsg(g, s, k) => FreezeInv(h, w, g, s, k);
    case InstallMsg(g, s, k, rows) =>
      if k <= w.home[s].num { InstallLateInv(h, w, g, s, k, rows); } else { InstallNewInv(h, w, g, s, k, rows); }
    case DeleteMsg(g, s, k) => DeleteInv(h, w, g, s, k);
  }

  lemma DeliverInv(h: Hash, w: World, m: Msg)
    requires Inv(h, w)
    ensures Inv(h, Step(h, w, Deliver(m))) && Onward(h, w, Step(h, w, Deliver(m)))
  {
    if m in w.net && (m.PutNext? || m.PutCfg?) {
      RegisterInv(h, w, m);
    } else if m in w.net && (m.FreezeMsg? || m.InstallMsg? || m.DeleteMsg?) && m.g in w.groups && m.s < |w.home| {
      GroupInv(h, w, m);
    } else {
      assert Step(h, w, Deliver(m)) == w;
      OnwardSame(h, w, w);
    }
  }

  // What a step does to the invariant, and to the home of every shard unless it is a client's Put.
  lemma StepInv(h: Hash, w: World, a: Action)
    requires Inv(h, w)
    ensures Inv(h, Step(h, w, a)) && Onward(h, w, Step(h, w, a))
  {
    if a.Deliver? {
      DeliverInv(h, w, a.m);
    } else if a.ClientPut? && a.g in w.groups {
      ClientPutInv(h, w, a.g, a.key, a.value, a.version);
    } else if !a.ClientPut? && a.c < |w.ctls| {
      ControllerInv(h, w, a);
    } else {
      assert Step(h, w, a) == w;
      OnwardSame(h, w, w);
    }
  }

  // How a store is set up.
  datatype Setup = Setup(h: Hash, gids: set<Gid>, shards: nat, controllers: nat)

  lemma GroupSized(h: Hash, w: World, m: Msg)
    requires WellSized(w) && (m.FreezeMsg? || m.InstallMsg? || m.DeleteMsg?) && m.g in w.groups && m.s < |w.home|
    ensures WellSized(OnGroup(h, w, m)) && |OnGroup(h, w, m).home| == |w.home| && OnGroup(h, w, m).groups.Keys == w.groups.Keys
  {
  }

  lemma ControllerSized(w: World, a: Action)
    requires a.Deliver? || a.ClientPut? || a.c < |w.ctls|
    ensures OnController(w, a).home == w.home && OnController(w, a).groups == w.groups
  {
  }

  lemma StepSized(h: Hash, w: World, a: Action)
    requires HashOk(h, |w.home|) && WellSized(w)
    ensures WellSized(Step(h, w, a)) && |Step(h, w, a).home| == |w.home|
  {
    if a.Deliver? {
      if (a.m.FreezeMsg? || a.m.InstallMsg? || a.m.DeleteMsg?) && a.m.g in w.groups && a.m.s < |w.home| {
        GroupSized(h, w, a.m);
      }
    } else if !a.ClientPut? && a.c < |w.ctls| {
      ControllerSized(w, a);
    }
  }

  // The store after the given actions.
  ghost function Exec(u: Setup, acts: seq<Action>): (w: World)
    requires HashOk(u.h, u.shards)
    ensures WellSized(w) && |w.home| == u.shards
  {
    if acts == [] then Init(u.gids, u.shards, u.controllers)
    else
      var w := Exec(u, acts[..|acts| - 1]);
      StepSized(u.h, w, acts[|acts| - 1]);
      Step(u.h, w, acts[|acts| - 1])
  }

  lemma {:induction false} ExecInv(u: Setup, acts: seq<Action>)
    requires HashOk(u.h, u.shards)
    ensures Inv(u.h, Exec(u, acts))
    decreases |acts|
  {
    if acts == [] {
      InitInv(u.h, u.gids, u.shards, u.controllers);
    } else {
      ExecInv(u, acts[..|acts| - 1]);
      StepInv(u.h, Exec(u, acts[..|acts| - 1]), acts[|acts| - 1]);
    }
  }

  lemma ExecSnoc(u: Setup, acts: seq<Action>, a: Action)
    requires HashOk(u.h, u.shards)
    ensures Exec(u, acts + [a]) == Step(u.h, Exec(u, acts), a)
  {
    assert (acts + [a])[..|acts|] == acts;
  }

  // ---------- one owner ----------

  predicate Serves(w: World, g: Gid, s: nat) {
    g in w.groups && s < |w.groups[g].status| && w.groups[g].status[s] == Serving
  }

  // At most one group serves a shard; if none does, the group its rows are at is
  // frozen for the newest configuration, which is claimed and not yet published.
  lemma SingleOwner(u: Setup, acts: seq<Action>, s: nat, g1: Gid, g2: Gid)
    requires HashOk(u.h, u.shards) && s < u.shards
    ensures var w := Exec(u, acts);
      && (Serves(w, g1, s) && Serves(w, g2, s) ==> g1 == g2)
      && w.home[s].gid in w.groups
      && (Serves(w, w.home[s].gid, s) ||
            (!Serves(w, g1, s) && w.groups[w.home[s].gid].status[s] == Frozen
             && w.groups[w.home[s].gid].nums[s] == Newest(w) == w.cfg.num + 1))
  {
    var w := Exec(u, acts);
    ExecInv(u, acts);
    assert HomeOk(u.h, w, s);
    assert g1 in w.groups && g1 != w.home[s].gid ==> OtherOk(u.h, w, s, g1);
    assert g2 in w.groups && g2 != w.home[s].gid ==> OtherOk(u.h, w, s, g2);
  }

  // No step lowers a group's number for a shard.
  lemma NumbersGrow(h: Hash, w: World, a: Action, g: Gid, s: nat)
    requires HashOk(h, |w.home|) && WellSized(w) && g in w.groups && s < |w.home|
    ensures g in Step(h, w, a).groups && |Step(h, w, a).groups[g].nums| == |w.home|
    ensures Step(h, w, a).groups[g].nums[s] >= w.groups[g].nums[s]
  {
    if a.Deliver? {
      if (a.m.FreezeMsg? || a.m.InstallMsg? || a.m.DeleteMsg?) && a.m.g in w.groups && a.m.s < |w.home| {
        GroupNumbersGrow(h, w, a.m, g, s);
      }
    } else if !a.ClientPut? && a.c < |w.ctls| {
      ControllerSized(w, a);
    }
  }

  lemma GroupNumbersGrow(h: Hash, w: World, m: Msg, g: Gid, s: nat)
    requires WellSized(w) && (m.FreezeMsg? || m.InstallMsg? || m.DeleteMsg?) && m.g in w.groups && m.s < |w.home|
    requires g in w.groups && s < |w.home|
    ensures g in OnGroup(h, w, m).groups && |OnGroup(h, w, m).groups[g].nums| == |w.home|
    ensures OnGroup(h, w, m).groups[g].nums[s] >= w.groups[g].nums[s]
  {
  }

  // ---------- fencing ----------

  ghost predicate ShardSame(h: Hash, g: Group, g': Group, s: nat)
    requires s < |g.status| == |g.nums| && s < |g'.status| == |g'.nums|
  {
    g'.status[s] == g.status[s] && g'.nums[s] == g.nums[s] && Part(h, g'.table, s) == Part(h, g.table, s)
  }

  // A late Freeze, Install or Delete: one of a migration that is already published.
  predicate Late(w: World, m: Msg) {
    (m.FreezeMsg? || m.InstallMsg? || m.DeleteMsg?) && m.num <= w.cfg.num
  }

  lemma LateAtHome(h: Hash, w: World, m: Msg)
    requires Inv(h, w) && m in w.net && Late(w, m) && m.s < |w.home| && m.g == w.home[m.s].gid && m.g in w.groups
    ensures OnGroup(h, w, m).groups == w.groups
  {
    LookMsg(h, w, m);
    assert HomeOk(h, w, m.s);
    PastMoves(h, w, m.num, m.s);
  }

  lemma OtherShards(h: Hash, w: World, m: Msg, g: Gid, s: nat)
    requires WellSized(w) && (m.FreezeMsg? || m.DeleteMsg?) && m.g in w.groups && m.s < |w.home|
    requires g in w.groups && s < |w.home| && (g != m.g || s != m.s)
    ensures g in OnGroup(h, w, m).groups && WellSized(OnGroup(h, w, m))
    ensures ShardSame(h, w.groups[g], OnGroup(h, w, m).groups[g], s)
  {
    GroupSized(h, w, m);
    OpOnlyShard(h, w.groups[m.g], m.s, m.num, map[]);
  }

  lemma FencedGroup(h: Hash, w: World, m: Msg, s: nat)
    requires Inv(h, w) && m in w.net && Late(w, m) && s < |w.home| && m.g in w.groups && m.s < |w.home|
    ensures WellSized(OnGroup(h, w, m)) && OnGroup(h, w, m).home == w.home
    ensures w.home[s].gid in w.groups && w.home[s].gid in OnGroup(h, w, m).groups
    ensures ShardSame(h, w.groups[w.home[s].gid], OnGroup(h, w, m).groups[w.home[s].gid], s)
  {
    GroupSized(h, w, m);
    LateElsewhere(h, w, m);
    assert HomeOk(h, w, s);
    if m.g == w.home[m.s].gid {
      LateAtHome(h, w, m);
    } else if !m.InstallMsg? {
      OtherShards(h, w, m, w.home[s].gid, s);
    }
  }

  // Such a message changes nothing about any shard at the group that serves it, or
  // that is frozen as the source of a newer migration, whatever number it was
  // acquired under.
  lemma Fenced(h: Hash, w: World, m: Msg, s: nat)
    requires Inv(h, w) && m in w.net && Late(w, m) && s < |w.home|
    ensures w.home[s].gid in w.groups && w.home[s].gid in Step(h, w, Deliver(m)).groups
    ensures WellSized(Step(h, w, Deliver(m)))
    ensures ShardSame(h, w.groups[w.home[s].gid], Step(h, w, Deliver(m)).groups[w.home[s].gid], s)
    ensures Step(h, w, Deliver(m)).home == w.home
  {
    if m.g in w.groups && m.s < |w.home| {
      FencedGroup(h, w, m, s);
    } else {
      assert HomeOk(h, w, s);
      assert Step(h, w, Deliver(m)) == w;
    }
  }

  lemma LateElsewhere(h: Hash, w: World, m: Msg)
    requires Inv(h, w) && m in w.net && Late(w, m) && m.s < |w.home| && m.g in w.groups
    ensures m.InstallMsg? ==> OnGroup(h, w, m).groups == w.groups && OnGroup(h, w, m).home == w.home
    ensures OnGroup(h, w, m).home == w.home
  {
    LookMsg(h, w, m);
    assert HomeOk(h, w, m.s);
    PastMoves(h, w, m.num, m.s);
    if m.InstallMsg? { InstallStale(h, w, m.g, m.s, m.num); }
  }

  // ---------- one chain of configurations ----------

  // The published configuration stays, or becomes the next of the chain.
  lemma CfgAdvances(h: Hash, w: World, a: Action)
    requires Inv(h, w)
    ensures var v := Step(h, w, a);
      || v.cfg == w.cfg
      || (v.cfg.num == w.cfg.num + 1 && |w.chain| == v.cfg.num && v.cfg == w.chain[w.cfg.num])
  {
    StepInv(h, w, a);
    if a.Deliver? && a.m in w.net && a.m.PutCfg? && a.m.ver == w.cfgVer {
      LookMsg(h, w, a.m);
    } else if !a.Deliver? && !a.ClientPut? && a.c < |w.ctls| {
      ControllerKeepsCfg(w, a);
    }
  }

  lemma ControllerKeepsCfg(w: World, a: Action)
    requires !a.Deliver? && !a.ClientPut? && a.c < |w.ctls|
    ensures SameData(w, OnController(w, a))
  {
  }

  // A controller that has passed the claim.
  predicate Claimed(k: Ctl) {
    k.Moving? || k.Publishing? || k.Deleting?
  }

  ghost predicate Grown(w: World, v: World) {
    w.chain <= v.chain && w.cfg.num <= v.cfg.num
  }

  lemma GrownOn(w: World, v: World, x: World)
    requires Grown(w, v) && Grown(v, x)
    ensures Grown(w, x)
  {
  }

  lemma StepGrows(u: Setup, acts: seq<Action>, a: Action)
    requires HashOk(u.h, u.shards)
    ensures Grown(Exec(u, acts), Exec(u, acts + [a]))
  {
    ExecSnoc(u, acts, a);
    ExecInv(u, acts);
    StepInv(u.h, Exec(u, acts), a);
  }

  lemma {:induction false} ChainGrows(u: Setup, acts: seq<Action>, more: seq<Action>)
    requires HashOk(u.h, u.shards)
    ensures Grown(Exec(u, acts), Exec(u, acts + more))
    decreases |more|
  {
    if more == [] {
      assert acts + more == acts;
    } else {
      var rest, a := more[..|more| - 1], more[|more| - 1];
      ChainGrows(u, acts, rest);
      StepGrows(u, acts + rest, a);
      assert acts + more == acts + rest + [a];
      GrownOn(Exec(u, acts), Exec(u, acts + rest), Exec(u, acts + rest + [a]));
    }
  }

  // Two controllers that pass the claim for the same number, at any two moments, hold
  // the same target and take the sources from the same base configuration.
  lemma SameClaim(u: Setup, acts: seq<Action>, more: seq<Action>, c: nat, d: nat, x: Ctl, y: Ctl)
    requires HashOk(u.h, u.shards)
    requires c < |Exec(u, acts).ctls| && x == Exec(u, acts).ctls[c] && Claimed(x)
    requires d < |Exec(u, acts + more).ctls| && y == Exec(u, acts + more).ctls[d] && Claimed(y)
    requires x.to.num == y.to.num
    ensures x.to == y.to && x.from == y.from && x.from.num + 1 == x.to.num
  {
    ChainGrows(u, acts, more);
    ClaimedAt(u, acts, c);
    ClaimedAt(u, acts + more, d);
    SameOnChain(x, y, Exec(u, acts).chain, Exec(u, acts + more).chain);
  }

  lemma SameOnChain(x: Ctl, y: Ctl, chain: seq<Config>, longer: seq<Config>)
    requires Claimed(x) && Claimed(y) && OnChain(x, chain) && OnChain(y, longer) && chain <= longer && x.to.num == y.to.num
    ensures x.to == y.to && x.from == y.from && x.from.num + 1 == x.to.num
  {
  }

  // What a controller past the claim holds is read off the chain.
  ghost predicate OnChain(k: Ctl, chain: seq<Config>)
    requires Claimed(k)
  {
    && 1 <= k.from.num < |chain| && k.to.num == k.from.num + 1
    && k.from == chain[k.from.num - 1] && k.to == chain[k.from.num]
  }

  lemma ClaimedIn(h: Hash, w: World, c: nat)
    requires ChainOk(w) && WellSized(w) && CtlsOk(h, w) && c < |w.ctls| && Claimed(w.ctls[c])
    ensures OnChain(w.ctls[c], w.chain)
  {
    assert CtlOk(h, w, w.ctls[c]);
  }

  lemma ClaimedAt(u: Setup, acts: seq<Action>, c: nat)
    requires HashOk(u.h, u.shards) && c < |Exec(u, acts).ctls| && Claimed(Exec(u, acts).ctls[c])
    ensures OnChain(Exec(u, acts).ctls[c], Exec(u, acts).chain)
  {
    ExecInv(u, acts);
    ClaimedIn(u.h, Exec(u, acts), c);
  }

  // A configuration that is claimed and unpublished stays the only one that can be published next.
  lemma ClaimIsNext(u: Setup, acts: seq<Action>, cfg: Config, ver: nat)
    requires HashOk(u.h, u.shards) && PutCfg(cfg, ver) in Exec(u, acts).net && ver == Exec(u, acts).cfgVer
    ensures Exec(u, acts).next == Some(cfg) && cfg.num == Exec(u, acts).cfg.num + 1
  {
    ExecInv(u, acts);
    LookMsg(u.h, Exec(u, acts), PutCfg(cfg, ver));
    NextClaimed(u.h, Exec(u, acts), cfg, ver);
  }

  lemma NextClaimed(h: Hash, w: World, cfg: Config, ver: nat)
    requires ChainOk(w) && WellSized(w) && MsgOk(h, w, PutCfg(cfg, ver)) && ver == w.cfgVer
    ensures w.next == Some(cfg) && cfg.num == w.cfg.num + 1
  {
  }

  // ---------- one map ----------

  function AllKeys(w: World): set<string> {
    set g, k | g in w.groups && k in w.groups[g].table :: k
  }

  ghost predicate HomesThere(h: Hash, w: World) {
    HashOk(h, |w.home|) && forall s :: 0 <= s < |w.home| ==> w.home[s].gid in w.groups
  }

  // The one key/value map the sharded store stands for.
  ghost function Abs(h: Hash, w: World): Table
    requires HomesThere(h, w)
  {
    map k | k in AllKeys(w) && k in w.groups[w.home[h(k)].gid].table :: w.groups[w.home[h(k)].gid].table[k]
  }

  lemma There(h: Hash, w: World)
    requires Inv(h, w)
    ensures HomesThere(h, w)
  {
    forall s: nat | s < |w.home| ensures w.home[s].gid in w.groups {
      assert HomeOk(h, w, s);
    }
  }

  lemma AbsAt(h: Hash, w: World, k: string)
    requires HomesThere(h, w)
    ensures k in Abs(h, w) <==> k in w.groups[w.home[h(k)].gid].table
    ensures k in Abs(h, w) ==> Abs(h, w)[k] == w.groups[w.home[h(k)].gid].table[k]
    ensures k in Abs(h, w) <==> k in HomeRows(h, w, h(k))
    ensures k in Abs(h, w) ==> Abs(h, w)[k] == HomeRows(h, w, h(k))[k]
  {
  }

  lemma AbsSame(h: Hash, w: World, v: World)
    requires HomesThere(h, w) && HomesThere(h, v) && |w.home| == |v.home|
    requires forall s {:trigger HomeRows(h, v, s)} :: 0 <= s < |w.home| ==> HomeRows(h, v, s) == HomeRows(h, w, s)
    ensures Abs(h, v) == Abs(h, w)
  {
    forall k: string ensures k in Abs(h, v) <==> k in Abs(h, w) {
      AbsAt(h, w, k);
      AbsAt(h, v, k);
    }
    forall k: string | k in Abs(h, w) ensures Abs(h, v)[k] == Abs(h, w)[k] {
      AbsAt(h, w, k);
      AbsAt(h, v, k);
    }
  }

  lemma KeptAbs(h: Hash, w: World, v: World)
    requires Inv(h, w) && Inv(h, v) && HomesKept(h, w, v)
    ensures HomesThere(h, w) && HomesThere(h, v) && Abs(h, v) == Abs(h, w)
  {
    There(h, w);
    There(h, v);
    forall s: nat | s < |w.home| ensures HomeRows(h, v, s) == HomeRows(h, w, s) {
      assert HomeOk(h, w, s);
    }
    AbsSame(h, w, v);
  }

  lemma DataAbs(h: Hash, w: World, v: World)
    requires HomesThere(h, w) && v.groups == w.groups && v.home == w.home
    ensures HomesThere(h, v) && Abs(h, v) == Abs(h, w)
  {
  }

  // No step of a controller, a register or a migration changes the map: not one that
  // is late, repeated, or of a controller that crashed half way.
  lemma MigrationKeepsMap(h: Hash, w: World, a: Action)
    requires Inv(h, w) && !a.ClientPut?
    ensures HomesThere(h, w) && HomesThere(h, Step(h, w, a)) && Abs(h, Step(h, w, a)) == Abs(h, w)
  {
    There(h, w);
    var v := Step(h, w, a);
    if a.Deliver? {
      if a.m in w.net && (a.m.FreezeMsg? || a.m.InstallMsg? || a.m.DeleteMsg?) && a.m.g in w.groups && a.m.s < |w.home| {
        GroupStepKept(h, w, a.m);
        KeptAbs(h, w, v);
      } else {
        DataAbs(h, w, v);
      }
    } else {
      if a.c < |w.ctls| { ControllerKeepsCfg(w, a); }
      DataAbs(h, w, v);
    }
  }

  lemma GroupStepKept(h: Hash, w: World, m: Msg)
    requires Inv(h, w) && m in w.net && (m.FreezeMsg? || m.InstallMsg? || m.DeleteMsg?) && m.g in w.groups && m.s < |w.home|
    ensures Inv(h, OnGroup(h, w, m)) && HomesKept(h, w, OnGroup(h, w, m))
  {
    match m
    case FreezeMsg(g, s, k) => FreezeInv(h, w, g, s, k);
    case InstallMsg(g, s, k, rows) =>
      if k <= w.home[s].num { InstallLateInv(h, w, g, s, k, rows); } else { InstallNewInv(h, w, g, s, k, rows); }
    case DeleteMsg(g, s, k) => DeleteInv(h, w, g, s, k);
  }

  lemma ServingIsHome(h: Hash, w: World, g: Gid, s: nat)
    requires Inv(h, w) && g in w.groups && s < |w.home| && w.groups[g].status[s] == Serving
    ensures g == w.home[s].gid
  {
    assert HomeOk(h, w, s);
    assert g != w.home[s].gid ==> OtherOk(h, w, s, g);
  }

  // A group that answers a Put at all answers as the one map would, and has the
  // effect a Put on the one map has; a group that refuses changes nothing.
  lemma PutRefines(h: Hash, w: World, g: Gid, key: string, value: string, version: nat)
    requires Inv(h, w) && g in w.groups
    ensures var v := Step(h, w, ClientPut(g, key, value, version)); var err := PutOp(h, w.groups[g], key, value, version).1;
      && HomesThere(h, w) && HomesThere(h, v)
      && (err == ErrWrongGroup ==> Abs(h, v) == Abs(h, w))
      && (err != ErrWrongGroup ==> (Abs(h, v), err) == Kv.Put(Abs(h, w), key, value, version))
  {
    There(h, w);
    var v := Step(h, w, ClientPut(g, key, value, version));
    assert HomesThere(h, v);
    var s := h(key);
    if w.groups[g].status[s] == Serving {
      ServingIsHome(h, w, g, s);
      PutOnHome(h, w, v, g, key, value, version);
    } else {
      assert v.groups == w.groups;
      DataAbs(h, w, v);
    }
  }

  lemma PutOnHome(h: Hash, w: World, v: World, g: Gid, key: string, value: string, version: nat)
    requires HomesThere(h, w) && HomesThere(h, v) && g in w.groups && g == w.home[h(key)].gid
    requires v == w.(groups := w.groups[g := w.groups[g].(table := Kv.Put(w.groups[g].table, key, value, version).0)])
    ensures Kv.Put(w.groups[g].table, key, value, version).1 == Kv.Put(Abs(h, w), key, value, version).1
    ensures Abs(h, v) == Kv.Put(Abs(h, w), key, value, version).0
  {
    AbsAt(h, w, key);
    forall k: string
      ensures k in Abs(h, v) <==> k in Kv.Put(Abs(h, w), key, value, version).0
      ensures k in Abs(h, v) ==> Abs(h, v)[k] == Kv.Put(Abs(h, w), key, value, version).0[k]
    {
      PutAt(h, w, v, g, key, value, version, k);
    }
    SameTable(Abs(h, v), Kv.Put(Abs(h, w), key, value, version).0);
  }

  lemma SameTable(x: Table, y: Table)
    requires forall k: string :: (k in x <==> k in y) && (k in x ==> x[k] == y[k])
    ensures x == y
  {
  }

  lemma PutAt(h: Hash, w: World, v: World, g: Gid, key: string, value: string, version: nat, k: string)
    requires HomesThere(h, w) && HomesThere(h, v) && g in w.groups && g == w.home[h(key)].gid
    requires v == w.(groups := w.groups[g := w.groups[g].(table := Kv.Put(w.groups[g].table, key, value, version).0)])
    ensures var t := Kv.Put(Abs(h, w), key, value, version).0;
      (k in Abs(h, v) <==> k in t) && (k in t ==> Abs(h, v)[k] == t[k])
  {
    AbsAt(h, w, key);
    AbsAt(h, w, k);
    AbsAt(h, v, k);
  }

  // A Get that is answered is answered from the one map.
  lemma GetRefines(h: Hash, w: World, g: Gid, key: string)
    requires Inv(h, w) && g in w.groups
    ensures HomesThere(h, w)
    ensures var r := GetOp(h, w.groups[g], key); r.err != ErrWrongGroup ==> r == Kv.Get(Abs(h, w), key)
  {
    There(h, w);
    AbsAt(h, w, key);
    if w.groups[g].status[h(key)] == Serving { ServingIsHome(h, w, g, h(key)); }
  }

  // The Puts of a run that some group acknowledged with OK, in order.
  ghost function Acknowledged(u: Setup, acts: seq<Action>): seq<Request>
    requires HashOk(u.h, u.shards)
  {
    if acts == [] then []
    else
      var before := acts[..|acts| - 1];
      Acknowledged(u, before) + AckedPut(u.h, Exec(u, before), acts[|acts| - 1])
  }

  function ReplayPuts(puts: seq<Request>): Table {
    if puts == [] then map[] else DoOp(ReplayPuts(puts[..|puts| - 1]), puts[|puts| - 1]).0
  }

  // Refinement of a single map: after any run, with any number of controllers
  // crashing, stalling and resuming, the store stands for exactly the acknowledged
  // Puts applied one after the other. None is lost, undone or duplicated.
  lemma {:induction false} OneMap(u: Setup, acts: seq<Action>)
    requires HashOk(u.h, u.shards)
    ensures HomesThere(u.h, Exec(u, acts)) && Abs(u.h, Exec(u, acts)) == ReplayPuts(Acknowledged(u, acts))
    decreases |acts|
  {
    ExecInv(u, acts);
    There(u.h, Exec(u, acts));
    if acts == [] {
      assert AllKeys(Exec(u, acts)) == {};
    } else {
      var last := |acts| - 1;
      OneMap(u, acts[..last]);
      ExecInv(u, acts[..last]);
      AbsStep(u.h, Exec(u, acts[..last]), acts[last]);
      ReplaySnoc(Acknowledged(u, acts[..last]), acts[last]);
    }
  }

  // The acknowledged Put a step performs, if any.
  function AckedPut(h: Hash, w: World, a: Action): seq<Request>
    requires HashOk(h, |w.home|) && WellSized(w)
  {
    if a.ClientPut? && a.g in w.groups && PutOp(h, w.groups[a.g], a.key, a.value, a.version).1 == OK
    then [PutReq(a.key, a.value, a.version)] else []
  }

  lemma ReplaySnoc(puts: seq<Request>, a: Action)
    ensures ReplayPuts(puts + []) == ReplayPuts(puts)
    ensures a.ClientPut? ==> ReplayPuts(puts + [PutReq(a.key, a.value, a.version)]) == Kv.Put(ReplayPuts(puts), a.key, a.value, a.version).0
  {
    assert puts + [] == puts;
    if a.ClientPut? {
      assert (puts + [PutReq(a.key, a.value, a.version)])[..|puts|] == puts;
    }
  }

  lemma OnlyOkPuts(t: Table, t': Table, err: Err, key: string, value: string, version: nat)
    requires err == ErrWrongGroup ==> t' == t
    requires err != ErrWrongGroup ==> (t', err) == Kv.Put(t, key, value, version)
    ensures t' == if err == OK then Kv.Put(t, key, value, version).0 else t
  {
  }

  lemma AbsStep(h: Hash, w: World, a: Action)
    requires Inv(h, w)
    ensures HomesThere(h, w) && HomesThere(h, Step(h, w, a))
    ensures Abs(h, Step(h, w, a)) ==
      if AckedPut(h, w, a) == [] then Abs(h, w) else Kv.Put(Abs(h, w), a.key, a.value, a.version).0
  {
    There(h, w);
    if a.ClientPut? {
      if a.g in w.groups {
        PutRefines(h, w, a.g, a.key, a.value, a.version);
        OnlyOkPuts(Abs(h, w), Abs(h, Step(h, w, a)), PutOp(h, w.groups[a.g], a.key, a.value, a.version).1, a.key, a.value, a.version);
      }
    } else {
      MigrationKeepsMap(h, w, a);
    }
  }
}
