// Shard migration: the groups, the two configuration registers of the controller's
// key/value server, any number of controllers, and a network that keeps every message
// deliverable for ever.
module ShardSystem {
  import opened Options
  import opened Kv
  import opened ShardGroup

  type Gid = nat

  // A configuration: its number, the group of every shard, and the groups that have servers.
  datatype Config = Config(num: nat, owner: seq<Gid>, groups: set<Gid>)

  // Where one run of ChangeConfigTo(new) stands. old is the configuration it read
  // from cfgName and ver the version of cfgName it will publish against.
  datatype Ctl =
    | Idle
    | Began(to: Config)
    | HaveOld(to: Config, from: Config, ver: nat)
    | Claiming(to: Config, from: Config, ver: nat, nver: nat)
    | Moving(to: Config, from: Config, ver: nat, frozen: map<nat, Table>, done: set<nat>)
    | Publishing(to: Config, from: Config, ver: nat)
    | Deleting(to: Config, from: Config)

  datatype Msg =
    | PutNext(cfg: Config, ver: nat)
    | NextOk(cfg: Config, ver: nat)
    | PutCfg(cfg: Config, ver: nat)
    | CfgOk(cfg: Config, ver: nat)
    | FreezeMsg(g: Gid, s: nat, num: nat)
    | FreezeRep(g: Gid, s: nat, num: nat, rows: Table)
    | InstallMsg(g: Gid, s: nat, num: nat, rows: Table)
    | InstallRep(g: Gid, s: nat, num: nat)
    | DeleteMsg(g: Gid, s: nat, num: nat)

  // Which group's rows count for a shard, and under which number it serves them.
  datatype Home = Home(gid: Gid, num: nat)

  datatype World = World(
    groups: map<Gid, Group>,
    cfg: Config, cfgVer: nat,              // cfgName
    next: Option<Config>, nextVer: nat,    // nextName; version 0 while the key is missing
    ctls: seq<Ctl>,
    net: set<Msg>,
    chain: seq<Config>,                    // history: every configuration ever claimed
    home: seq<Home>)                       // history: where every shard's rows are

  datatype Action =
    | Begin(c: nat, to: Config)          // someone calls ChangeConfigTo(new)
    | Stop(c: nat)                         // a controller crashes, or gives up after an error
    | ReadCfg(c: nat)
    | ReadNext(c: nat)
    | ClaimOk(c: nat)
    | ClaimRecheck(c: nat)
    | SendFreeze(c: nat, s: nat)
    | GotFreeze(c: nat, s: nat, rows: Table)
    | SendInstall(c: nat, s: nat)
    | GotInstall(c: nat, s: nat)
    | AllMoved(c: nat)
    | PublishOk(c: nat)
    | PublishRecheck(c: nat)
    | SendDelete(c: nat, s: nat)
    | Deliver(m: Msg)                      // a register or a group executes a request
    | ClientPut(g: Gid, key: string, value: string, version: nat)

  const GID1: Gid := 1

  // The first configuration: everything at group 1. Groups that join later are there
  // from the start, owning nothing.
  function Init(gids: set<Gid>, shards: nat, controllers: nat): World {
    var first := Config(1, seq(shards, _ => GID1), {GID1});
    World(map g | g in gids + {GID1} :: NewGroup(g == GID1, shards),
          first, 1, None, 0, seq(controllers, _ => Idle), {}, [first], seq(shards, _ => Home(GID1, 0)))
  }

  predicate Moved(from: Config, to: Config, s: nat) {
    s < |from.owner| && s < |to.owner| && from.owner[s] != to.owner[s]
  }

  function SetCtl(w: World, c: nat, k: Ctl, out: set<Msg>): World
    requires c < |w.ctls|
  {
    w.(ctls := w.ctls[c := k], net := w.net + out)
  }

  // ChangeConfigTo is sound for a configuration that was read back from nextName or
  // built from a configuration read from cfgName with the number one higher. Either
  // way the number is at most one above what cfgName holds by now.
  predicate MayBegin(w: World, to: Config) {
    to.num <= w.cfg.num + 1 && |to.owner| == |w.home|
  }

  function OnRegister(w: World, m: Msg): World {
    match m
    case PutNext(cfg, ver) =>
      if ver == w.nextVer then
        w.(next := Some(cfg), nextVer := ver + 1, chain := w.chain + [cfg], net := w.net + {NextOk(cfg, ver)})
      else w
    case PutCfg(cfg, ver) =>
      if ver == w.cfgVer then w.(cfg := cfg, cfgVer := ver + 1, net := w.net + {CfgOk(cfg, ver)}) else w
    case _ => w
  }

  function OnGroup(h: Hash, w: World, m: Msg): World
    requires m.FreezeMsg? || m.InstallMsg? || m.DeleteMsg?
    requires m.g in w.groups && m.s < |w.groups[m.g].status| == |w.groups[m.g].nums|
  {
    var g := w.groups[m.g];
    match m
    case FreezeMsg(i, s, num) =>
      var (g', rep) := FreezeOp(h, g, s, num);
      w.(groups := w.groups[i := g'], net := if rep.err == OK then w.net + {FreezeRep(i, s, num, rep.rows)} else w.net)
    case InstallMsg(i, s, num, rows) =>
      var (g', err) := InstallOp(g, s, rows, num);
      w.(groups := w.groups[i := g'], net := if err == OK then w.net + {InstallRep(i, s, num)} else w.net,
         home := if s < |w.home| && g.nums[s] < num then w.home[s := Home(i, num)] else w.home)
    case DeleteMsg(i, s, num) =>
      w.(groups := w.groups[i := DeleteOp(h, g, s, num).0])
  }

  function OnController(w: World, a: Action): World
    requires a.Deliver? || a.ClientPut? || a.c < |w.ctls|
  {
    match a
    case Begin(c, to) => if MayBegin(w, to) then SetCtl(w, c, Began(to), {}) else w
    case Stop(c) => SetCtl(w, c, Idle, {})
    case ReadCfg(c) =>
      var k := w.ctls[c];
      if !k.Began? then w
      else if k.to.num <= w.cfg.num then SetCtl(w, c, Idle, {})
      else SetCtl(w, c, HaveOld(k.to, w.cfg, w.cfgVer), {})
    case ReadNext(c) =>
      var k := w.ctls[c];
      if !k.HaveOld? then w
      else if w.next.Some? && w.next.value.num > k.from.num then
        if w.next.value != k.to then SetCtl(w, c, Idle, {}) else SetCtl(w, c, Moving(k.to, k.from, k.ver, map[], {}), {})
      else SetCtl(w, c, Claiming(k.to, k.from, k.ver, w.nextVer), {PutNext(k.to, w.nextVer)})
    case ClaimOk(c) =>
      var k := w.ctls[c];
      if k.Claiming? && NextOk(k.to, k.nver) in w.net then SetCtl(w, c, Moving(k.to, k.from, k.ver, map[], {}), {}) else w
    case ClaimRecheck(c) =>
      var k := w.ctls[c];
      if !k.Claiming? then w
      else if w.next == Some(k.to) then SetCtl(w, c, Moving(k.to, k.from, k.ver, map[], {}), {})
      else SetCtl(w, c, Idle, {})
    case SendFreeze(c, s) =>
      var k := w.ctls[c];
      if k.Moving? && Moved(k.from, k.to, s) && k.from.owner[s] in k.from.groups
      then SetCtl(w, c, k, {FreezeMsg(k.from.owner[s], s, k.to.num)}) else w
    case GotFreeze(c, s, rows) =>
      var k := w.ctls[c];
      if k.Moving? && Moved(k.from, k.to, s) && FreezeRep(k.from.owner[s], s, k.to.num, rows) in w.net
      then SetCtl(w, c, k.(frozen := k.frozen[s := rows]), {}) else w
    case SendInstall(c, s) =>
      var k := w.ctls[c];
      if k.Moving? && Moved(k.from, k.to, s) && s in k.frozen && k.to.owner[s] in k.to.groups
      then SetCtl(w, c, k, {InstallMsg(k.to.owner[s], s, k.to.num, k.frozen[s])}) else w
    case GotInstall(c, s) =>
      var k := w.ctls[c];
      if k.Moving? && Moved(k.from, k.to, s) && InstallRep(k.to.owner[s], s, k.to.num) in w.net
      then SetCtl(w, c, k.(done := k.done + {s}), {}) else w
    case AllMoved(c) =>
      var k := w.ctls[c];
      if k.Moving? && (forall s :: 0 <= s < |w.home| && Moved(k.from, k.to, s) ==> s in k.done)
      then SetCtl(w, c, Publishing(k.to, k.from, k.ver), {PutCfg(k.to, k.ver)}) else w
    case PublishOk(c) =>
      var k := w.ctls[c];
      if k.Publishing? && CfgOk(k.to, k.ver) in w.net then SetCtl(w, c, Deleting(k.to, k.from), {}) else w
    case PublishRecheck(c) =>
      var k := w.ctls[c];
      if !k.Publishing? then w
      else if w.cfg.num > k.to.num then SetCtl(w, c, Idle, {})
      else if w.cfg.num == k.to.num then SetCtl(w, c, Deleting(k.to, k.from), {})
      else SetCtl(w, c, Publishing(k.to, k.from, w.cfgVer), {PutCfg(k.to, w.cfgVer)})
    case SendDelete(c, s) =>
      var k := w.ctls[c];
      if k.Deleting? && Moved(k.from, k.to, s) && k.from.owner[s] in k.from.groups
      then SetCtl(w, c, k, {DeleteMsg(k.from.owner[s], s, k.to.num)}) else w
    case _ => w
  }

  predicate WellSized(w: World) {
    forall g :: g in w.groups ==> |w.groups[g].status| == |w.groups[g].nums| == |w.home|
  }

  // One step; an action that is not possible changes nothing.
  function Step(h: Hash, w: World, a: Action): World
    requires HashOk(h, |w.home|) && WellSized(w)
  {
    match a
    case Deliver(m) =>
      if m !in w.net then w
      else if m.PutNext? || m.PutCfg? then OnRegister(w, m)
      else if (m.FreezeMsg? || m.InstallMsg? || m.DeleteMsg?) && m.g in w.groups && m.s < |w.home| then OnGroup(h, w, m)
      else w
    case ClientPut(g, key, value, version) =>
      if g in w.groups then w.(groups := w.groups[g := PutOp(h, w.groups[g], key, value, version).0]) else w
    case _ => if a.c < |w.ctls| then OnController(w, a) else w
  }
}
