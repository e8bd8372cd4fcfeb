// The invariant of shard migration, kept by every step.
module ShardProof {
  import opened Options
  import opened Kv
  import opened ShardGroup
  import opened ShardSystem

  // ---------- vocabulary ----------

  // The number of the newest claimed configuration.
  function Newest(w: World): nat {
    |w.chain|
  }

  // The owner of shard s in configuration number k.
  function Owner(chain: seq<Config>, k: int, s: nat): Gid
    requires 1 <= k <= |chain| && s < |chain[k - 1].owner|
  {
    chain[k - 1].owner[s]
  }

  // Configuration k gives shard s to another group than configuration k - 1.
  predicate MovedAt(chain: seq<Config>, k: nat, s: nat) {
    2 <= k <= |chain| && Moved(chain[k - 2], chain[k - 1], s)
  }

  ghost predicate ChainOk(w: World) {
    && |w.chain| > 0
    && (forall i :: 0 <= i < |w.chain| ==> w.chain[i].num == i + 1 && |w.chain[i].owner| == |w.home|)
    && 1 <= w.cfg.num <= Newest(w) <= w.cfg.num + 1
    && w.cfg == w.chain[w.cfg.num - 1] && w.cfgVer == w.cfg.num
    && w.nextVer == Newest(w) - 1
    && w.next == (if Newest(w) == 1 then None else Some(w.chain[Newest(w) - 1]))
  }

  // The rows of shard s at its home group.
  function HomeRows(h: Hash, w: World, s: nat): Table
    requires s < |w.home| && w.home[s].gid in w.groups
  {
    Part(h, w.groups[w.home[s].gid].table, s)
  }

  ghost predicate HomeServes(w: World, s: nat)
    requires WellSized(w) && s < |w.home| && w.home[s].gid in w.groups
  {
    var g := w.groups[w.home[s].gid];
    g.status[s] == Serving && g.nums[s] == w.home[s].num
  }

  // The home group is frozen for the newest configuration, which is claimed but not published.
  ghost predicate HomeFrozen(w: World, s: nat)
    requires ChainOk(w) && WellSized(w) && s < |w.home| && w.home[s].gid in w.groups
  {
    var g := w.groups[w.home[s].gid];
    && g.status[s] == Frozen && g.nums[s] == Newest(w)
    && w.home[s].num < Newest(w) == w.cfg.num + 1
    && MovedAt(w.chain, Newest(w), s) && Owner(w.chain, Newest(w) - 1, s) == w.home[s].gid
  }

  // The home group is the owner by every published configuration since it took over,
  // or it has just taken over for the configuration about to be published.
  ghost predicate HomeOwns(w: World, s: nat)
    requires ChainOk(w) && s < |w.home|
  {
    var x := w.home[s];
    || (x.num <= w.cfg.num && forall j :: 1 <= j <= w.cfg.num && x.num <= j ==> Owner(w.chain, j, s) == x.gid)
    || (x.num == Newest(w) == w.cfg.num + 1 && MovedAt(w.chain, x.num, s) && Owner(w.chain, x.num, s) == x.gid)
  }

  ghost predicate OtherOk(h: Hash, w: World, s: nat, g: Gid)
    requires WellSized(w) && s < |w.home| && g in w.groups && w.home[s].gid in w.groups
  {
    && w.groups[g].status[s] != Serving && w.groups[g].nums[s] <= w.home[s].num
    && forall k :: k in w.groups[g].table && h(k) == s ==> k in w.groups[w.home[s].gid].table
  }

  // A group that a past migration of s ended at has seen that migration's number.
  ghost predicate Reached(w: World, k: nat, s: nat)
    requires ChainOk(w) && WellSized(w) && MovedAt(w.chain, k, s)
  {
    Owner(w.chain, k, s) in w.groups && w.groups[Owner(w.chain, k, s)].nums[s] >= k
  }

  ghost predicate HomeOk(h: Hash, w: World, s: nat)
    requires ChainOk(w) && WellSized(w) && s < |w.home|
  {
    && w.home[s].gid in w.groups
    && (HomeServes(w, s) || HomeFrozen(w, s))
    && HomeOwns(w, s)
    && (forall g {:trigger OtherOk(h, w, s, g)} :: g in w.groups && g != w.home[s].gid ==> OtherOk(h, w, s, g))
    && (forall k: nat {:trigger MovedAt(w.chain, k, s)} :: MovedAt(w.chain, k, s) && k <= w.home[s].num ==> Reached(w, k, s))
  }

  // rows were read from the frozen source of migration k of shard s; if the migration
  // has not reached its target, the source still holds exactly these rows.
  ghost predicate RowsOk(h: Hash, w: World, s: nat, k: nat, rows: Table)
    requires ChainOk(w) && WellSized(w) && s < |w.home|
  {
    w.home[s].num < k ==> w.home[s].gid in w.groups && HomeFrozen(w, s) && k == Newest(w) && rows == HomeRows(h, w, s)
  }

  ghost predicate AllIn(w: World, k: nat)
    requires ChainOk(w)
  {
    forall s: nat {:trigger MovedAt(w.chain, k, s)} :: MovedAt(w.chain, k, s) ==> w.home[s].num >= k
  }

  // old and new are neighbours in the chain.
  ghost predicate Migrates(w: World, from: Config, to: Config)
    requires ChainOk(w)
  {
    1 <= from.num < Newest(w) && from == w.chain[from.num - 1] && to == w.chain[from.num]
  }

  ghost predicate CtlOk(h: Hash, w: World, k: Ctl)
    requires ChainOk(w) && WellSized(w)
  {
    match k
    case Idle => true
    case Began(n) => n.num <= w.cfg.num + 1 && |n.owner| == |w.home|
    case HaveOld(n, o, ver) =>
      && |n.owner| == |w.home| && n.num == o.num + 1
      && ver == o.num && 1 <= o.num <= w.cfg.num && o == w.chain[o.num - 1]
    case Claiming(n, o, ver, nver) =>
      && |n.owner| == |w.home| && n.num == o.num + 1
      && ver == o.num && 1 <= o.num <= w.cfg.num && o == w.chain[o.num - 1]
    case Moving(n, o, ver, frozen, done) =>
      && Migrates(w, o, n) && ver == o.num
      && (forall s: nat {:trigger s in frozen} :: s in frozen ==> MovedAt(w.chain, n.num, s) && RowsOk(h, w, s, n.num, frozen[s]))
      && (forall s: nat {:trigger s in done} :: s in done ==> s < |w.home| && w.home[s].num >= n.num)
    case Publishing(n, o, ver) => Migrates(w, o, n) && AllIn(w, n.num)
    case Deleting(n, o) => Migrates(w, o, n) && n.num <= w.cfg.num
  }

  ghost predicate MsgOk(h: Hash, w: World, m: Msg)
    requires ChainOk(w) && WellSized(w)
  {
    match m
    case PutNext(x, ver) =>
      |x.owner| == |w.home| && ver < Newest(w) && (ver == Newest(w) - 1 ==> x.num == Newest(w) + 1 && w.cfg.num == Newest(w))
    case NextOk(x, ver) => ver + 1 < Newest(w) && x == w.chain[ver + 1]
    case PutCfg(x, ver) => 2 <= x.num <= Newest(w) && x == w.chain[x.num - 1] && ver == x.num - 1 && AllIn(w, x.num)
    case CfgOk(x, ver) => x.num <= w.cfg.num
    case FreezeMsg(g, s, k) => MovedAt(w.chain, k, s) && g == Owner(w.chain, k - 1, s)
    case FreezeRep(g, s, k, rows) => MovedAt(w.chain, k, s) && RowsOk(h, w, s, k, rows)
    case InstallMsg(g, s, k, rows) => MovedAt(w.chain, k, s) && g == Owner(w.chain, k, s) && RowsOk(h, w, s, k, rows)
    case InstallRep(g, s, k) => s < |w.home| && w.home[s].num >= k
    case DeleteMsg(g, s, k) => MovedAt(w.chain, k, s) && g == Owner(w.chain, k - 1, s) && k <= w.cfg.num
  }

  ghost predicate HomesOk(h: Hash, w: World)
    requires ChainOk(w) && WellSized(w)
  {
    forall s: nat {:trigger HomeOk(h, w, s)} :: s < |w.home| ==> HomeOk(h, w, s)
  }

  ghost predicate CtlsOk(h: Hash, w: World)
    requires ChainOk(w) && WellSized(w)
  {
    forall c: nat {:trigger CtlOk(h, w, w.ctls[c])} :: c < |w.ctls| ==> CtlOk(h, w, w.ctls[c])
  }

  ghost predicate NetOk(h: Hash, w: World)
    requires ChainOk(w) && WellSized(w)
  {
    forall m {:trigger MsgOk(h, w, m)} :: m in w.net ==> MsgOk(h, w, m)
  }

  ghost predicate Inv(h: Hash, w: World) {
    HashOk(h, |w.home|) && WellSized(w) && ChainOk(w) && HomesOk(h, w) && CtlsOk(h, w) && NetOk(h, w)
  }

  // ---------- what later states keep ----------

  ghost predicate Onward(h: Hash, w: World, v: World) {
    && ChainOk(w) && WellSized(w) && ChainOk(v) && WellSized(v)
    && |v.home| == |w.home| && w.chain <= v.chain && w.cfg.num <= v.cfg.num
    && (forall s :: 0 <= s < |w.home| ==> w.home[s].num <= v.home[s].num)
    && (forall s: nat {:trigger HomeFrozen(w, s)} :: s < |w.home| && w.home[s].gid in w.groups && HomeFrozen(w, s) && v.home[s].num < Newest(w) ==>
          v.home[s].gid in v.groups && HomeFrozen(v, s) && Newest(v) == Newest(w) && HomeRows(h, v, s) == HomeRows(h, w, s))
  }

  lemma MovedSame(h: Hash, w: World, v: World, k: nat, s: nat)
    requires Onward(h, w, v) && k <= Newest(w)
    ensures MovedAt(v.chain, k, s) <==> MovedAt(w.chain, k, s)
    ensures MovedAt(w.chain, k, s) ==> Owner(v.chain, k, s) == Owner(w.chain, k, s) && Owner(v.chain, k - 1, s) == Owner(w.chain, k - 1, s)
  {
  }

  lemma RowsStable(h: Hash, w: World, v: World, s: nat, k: nat, rows: Table)
    requires Onward(h, w, v) && s < |w.home| && RowsOk(h, w, s, k, rows)
    ensures RowsOk(h, v, s, k, rows)
  {
  }

  lemma AllInStable(h: Hash, w: World, v: World, k: nat)
    requires Onward(h, w, v) && AllIn(w, k) && k <= Newest(w)
    ensures AllIn(v, k)
  {
    forall s: nat | MovedAt(v.chain, k, s) ensures v.home[s].num >= k {
      MovedSame(h, w, v, k, s);
    }
  }

  lemma MsgStable(h: Hash, w: World, v: World, m: Msg)
    requires Onward(h, w, v) && MsgOk(h, w, m)
    ensures MsgOk(h, v, m)
  {
    match m
    case PutCfg(x, ver) => AllInStable(h, w, v, x.num);
    case FreezeRep(g, s, k, rows) => RowsStable(h, w, v, s, k, rows);
    case InstallMsg(g, s, k, rows) => RowsStable(h, w, v, s, k, rows);
    case _ =>
  }

  lemma CtlStable(h: Hash, w: World, v: World, k: Ctl)
    requires Onward(h, w, v) && CtlOk(h, w, k)
    ensures CtlOk(h, v, k)
  {
    match k
    case Moving(n, o, ver, frozen, done) =>
      forall s: nat | s in frozen ensures MovedAt(v.chain, n.num, s) && RowsOk(h, v, s, n.num, frozen[s]) {
        RowsStable(h, w, v, s, n.num, frozen[s]);
      }
    case Publishing(n, o, ver) => AllInStable(h, w, v, n.num);
    case _ =>
  }

  // ---------- controllers and registers ----------

  // Only controllers and messages change.
  ghost predicate SameData(w: World, v: World) {
    v == w.(ctls := v.ctls, net := v.net)
  }

  lemma OnwardSame(h: Hash, w: World, v: World)
    requires ChainOk(w) && WellSized(w) && SameData(w, v)
    ensures Onward(h, w, v)
  {
  }

  lemma HomeSame(h: Hash, w: World, v: World, s: nat)
    requires ChainOk(w) && WellSized(w) && SameData(w, v) && s < |w.home| && HomeOk(h, w, s)
    ensures ChainOk(v) && WellSized(v) && HomeOk(h, v, s)
  {
    forall g | g in v.groups && g != v.home[s].gid ensures OtherOk(h, v, s, g) {
      assert OtherOk(h, w, s, g);
    }
    forall k: nat | MovedAt(v.chain, k, s) && k <= v.home[s].num ensures Reached(v, k, s) {
      assert MovedAt(w.chain, k, s);
    }
  }

  // Old messages and controllers stay fine in a later world.
  lemma CarryNet(h: Hash, w: World, v: World, out: set<Msg>)
    requires Onward(h, w, v) && NetOk(h, w) && v.net == w.net + out
    requires forall m :: m in out ==> MsgOk(h, v, m)
    ensures NetOk(h, v)
  {
    forall m | m in v.net ensures MsgOk(h, v, m) {
      if m in w.net {
        assert MsgOk(h, w, m);
        MsgStable(h, w, v, m);
      }
    }
  }

  lemma CarryCtls(h: Hash, w: World, v: World)
    requires Onward(h, w, v) && CtlsOk(h, w) && v.ctls == w.ctls
    ensures CtlsOk(h, v)
  {
    forall c: nat | c < |v.ctls| ensures CtlOk(h, v, v.ctls[c]) {
      assert CtlOk(h, w, w.ctls[c]);
      CtlStable(h, w, v, w.ctls[c]);
    }
  }

  // A controller moves to state k and sends the messages out.
  lemma SetCtlInv(h: Hash, w: World, c: nat, k: Ctl, out: set<Msg>)
    requires Inv(h, w) && c < |w.ctls| && CtlOk(h, w, k) && forall m :: m in out ==> MsgOk(h, w, m)
    ensures Inv(h, SetCtl(w, c, k, out)) && Onward(h, w, SetCtl(w, c, k, out))
  {
    var v := SetCtl(w, c, k, out);
    OnwardSame(h, w, v);
    forall s: nat | s < |v.home| ensures HomeOk(h, v, s) {
      assert HomeOk(h, w, s);
      HomeSame(h, w, v, s);
    }
    forall m | m in out ensures MsgOk(h, v, m) {
      MsgStable(h, w, v, m);
    }
    CarryNet(h, w, v, out);
    forall d: nat | d < |v.ctls| ensures CtlOk(h, v, v.ctls[d]) {
      if d == c {
        CtlStable(h, w, v, k);
      } else {
        assert CtlOk(h, w, w.ctls[d]);
        CtlStable(h, w, v, w.ctls[d]);
      }
    }
  }

  lemma ControllerStart(h: Hash, w: World, a: Action)
    requires Inv(h, w) && (a.Begin? || a.Stop? || a.ReadCfg?) && a.c < |w.ctls|
    ensures Inv(h, OnController(w, a)) && Onward(h, w, OnController(w, a))
  {
    OnwardSame(h, w, w);
    var c := a.c;
    assert CtlOk(h, w, w.ctls[c]);
    match a
    case Begin(_, to) => if MayBegin(w, to) { SetCtlInv(h, w, c, Began(to), {}); }
    case Stop(_) => SetCtlInv(h, w, c, Idle, {});
    case ReadCfg(_) =>
      var k := w.ctls[c];
      if k.Began? {
        SetCtlInv(h, w, c, Idle, {});
        if k.to.num > w.cfg.num { SetCtlInv(h, w, c, HaveOld(k.to, w.cfg, w.cfgVer), {}); }
      }
  }

  lemma ToMoving(h: Hash, w: World, c: nat, n: Config, o: Config)
    requires Inv(h, w) && c < |w.ctls| && Migrates(w, o, n)
    ensures var k := Moving(n, o, o.num, map[], {});
      Inv(h, SetCtl(w, c, k, {})) && Onward(h, w, SetCtl(w, c, k, {}))
  {
    SetCtlInv(h, w, c, Moving(n, o, o.num, map[], {}), {});
  }

  // A claim that found nothing newer than the configuration it read can only be for
  // the number right after the newest, and that one is published.
  lemma ClaimGuard(w: World, o: Config, n: Config)
    requires ChainOk(w) && 1 <= o.num <= w.cfg.num && n.num == o.num + 1 && |n.owner| == |w.home|
    requires !(w.next.Some? && w.next.value.num > o.num)
    ensures n.num == Newest(w) + 1 && w.cfg.num == Newest(w)
  {
  }

  lemma ReadNextInv(h: Hash, w: World, c: nat)
    requires Inv(h, w) && c < |w.ctls|
    ensures Inv(h, OnController(w, ReadNext(c))) && Onward(h, w, OnController(w, ReadNext(c)))
  {
    OnwardSame(h, w, w);
    var k := w.ctls[c];
    assert CtlOk(h, w, k);
    if k.HaveOld? {
      if w.next.Some? && w.next.value.num > k.from.num {
        SetCtlInv(h, w, c, Idle, {});
        if w.next.value == k.to { ToMoving(h, w, c, k.to, k.from); }
      } else {
        ClaimGuard(w, k.from, k.to);
        SetCtlInv(h, w, c, Claiming(k.to, k.from, k.ver, w.nextVer), {PutNext(k.to, w.nextVer)});
      }
    }
  }

  // What is known of one controller and of one message, without the whole invariant.
  lemma LookCtl(h: Hash, w: World, c: nat)
    requires Inv(h, w) && c < |w.ctls|
    ensures CtlOk(h, w, w.ctls[c]) && Onward(h, w, w)
  {
    OnwardSame(h, w, w);
    assert CtlOk(h, w, w.ctls[c]);
  }

  lemma LookMsg(h: Hash, w: World, m: Msg)
    requires Inv(h, w) && m in w.net
    ensures MsgOk(h, w, m)
  {
    assert MsgOk(h, w, m);
  }

  lemma ClaimOkInv(h: Hash, w: World, c: nat)
    requires Inv(h, w) && c < |w.ctls|
    ensures Inv(h, OnController(w, ClaimOk(c))) && Onward(h, w, OnController(w, ClaimOk(c)))
  {
    var k := w.ctls[c];
    LookCtl(h, w, c);
    if k.Claiming? && NextOk(k.to, k.nver) in w.net {
      LookMsg(h, w, NextOk(k.to, k.nver));
      ToMoving(h, w, c, k.to, k.from);
    }
  }

  lemma ClaimRecheckInv(h: Hash, w: World, c: nat)
    requires Inv(h, w) && c < |w.ctls|
    ensures Inv(h, OnController(w, ClaimRecheck(c))) && Onward(h, w, OnController(w, ClaimRecheck(c)))
  {
    var k := w.ctls[c];
    LookCtl(h, w, c);
    if k.Claiming? {
      if w.next == Some(k.to) {
        ToMoving(h, w, c, k.to, k.from);
      } else {
        SetCtlInv(h, w, c, Idle, {});
      }
    }
  }

  lemma SendFreezeInv(h: Hash, w: World, c: nat, s: nat)
    requires Inv(h, w) && c < |w.ctls|
    ensures var v := OnController(w, SendFreeze(c, s)); Inv(h, v) && Onward(h, w, v)
  {
    OnwardSame(h, w, w);
    var k := w.ctls[c];
    assert CtlOk(h, w, k);
    if k.Moving? && Moved(k.from, k.to, s) {
      assert MovedAt(w.chain, k.to.num, s);
      SetCtlInv(h, w, c, k, {FreezeMsg(k.from.owner[s], s, k.to.num)});
    }
  }

  lemma FrozenCtl(h: Hash, w: World, k: Ctl, s: nat, rows: Table)
    requires ChainOk(w) && WellSized(w) && CtlOk(h, w, k) && k.Moving? && MovedAt(w.chain, k.to.num, s) && RowsOk(h, w, s, k.to.num, rows)
    ensures CtlOk(h, w, k.(frozen := k.frozen[s := rows]))
  {
  }

  lemma GotFreezeInv(h: Hash, w: World, c: nat, s: nat, rows: Table)
    requires Inv(h, w) && c < |w.ctls|
    ensures var v := OnController(w, GotFreeze(c, s, rows)); Inv(h, v) && Onward(h, w, v)
  {
    OnwardSame(h, w, w);
    var k := w.ctls[c];
    LookCtl(h, w, c);
    if k.Moving? && Moved(k.from, k.to, s) && FreezeRep(k.from.owner[s], s, k.to.num, rows) in w.net {
      LookMsg(h, w, FreezeRep(k.from.owner[s], s, k.to.num, rows));
      FrozenCtl(h, w, k, s, rows);
      SetCtlInv(h, w, c, k.(frozen := k.frozen[s := rows]), {});
    }
  }

  lemma SendInstallInv(h: Hash, w: World, c: nat, s: nat)
    requires Inv(h, w) && c < |w.ctls|
    ensures Inv(h, OnController(w, SendInstall(c, s))) && Onward(h, w, OnController(w, SendInstall(c, s)))
  {
    OnwardSame(h, w, w);
    var k := w.ctls[c];
    LookCtl(h, w, c);
    if k.Moving? && Moved(k.from, k.to, s) && s in k.frozen {
      assert MovedAt(w.chain, k.to.num, s);
      SetCtlInv(h, w, c, k, {InstallMsg(k.to.owner[s], s, k.to.num, k.frozen[s])});
    }
  }

  lemma GotInstallInv(h: Hash, w: World, c: nat, s: nat)
    requires Inv(h, w) && c < |w.ctls|
    ensures Inv(h, OnController(w, GotInstall(c, s))) && Onward(h, w, OnController(w, GotInstall(c, s)))
  {
    OnwardSame(h, w, w);
    var k := w.ctls[c];
    LookCtl(h, w, c);
    if k.Moving? && Moved(k.from, k.to, s) {
      assert MovedAt(w.chain, k.to.num, s);
      var m := InstallRep(k.to.owner[s], s, k.to.num);
      if m in w.net {
        LookMsg(h, w, m);
        SetCtlInv(h, w, c, k.(done := k.done + {s}), {});
      }
    }
  }

  lemma AllMovedGuard(w: World, n: Config, o: Config, done: set<nat>)
    requires ChainOk(w) && Migrates(w, o, n)
    requires forall s :: 0 <= s < |w.home| && Moved(o, n, s) ==> s in done
    requires forall s: nat {:trigger s in done} :: s in done ==> s < |w.home| && w.home[s].num >= n.num
    ensures AllIn(w, n.num)
  {
  }

  lemma AllMovedInv(h: Hash, w: World, c: nat)
    requires Inv(h, w) && c < |w.ctls|
    ensures Inv(h, OnController(w, AllMoved(c))) && Onward(h, w, OnController(w, AllMoved(c)))
  {
    var k := w.ctls[c];
    LookCtl(h, w, c);
    if k.Moving? && (forall s :: 0 <= s < |w.home| && Moved(k.from, k.to, s) ==> s in k.done) {
      AllMovedGuard(w, k.to, k.from, k.done);
      SetCtlInv(h, w, c, Publishing(k.to, k.from, k.ver), {PutCfg(k.to, k.ver)});
    }
  }

  lemma PublishOkInv(h: Hash, w: World, c: nat)
    requires Inv(h, w) && c < |w.ctls|
    ensures Inv(h, OnController(w, PublishOk(c))) && Onward(h, w, OnController(w, PublishOk(c)))
  {
    var k := w.ctls[c];
    LookCtl(h, w, c);
    if k.Publishing? && CfgOk(k.to, k.ver) in w.net {
      LookMsg(h, w, CfgOk(k.to, k.ver));
      SetCtlInv(h, w, c, Deleting(k.to, k.from), {});
    }
  }

  lemma PublishRecheckInv(h: Hash, w: World, c: nat)
    requires Inv(h, w) && c < |w.ctls|
    ensures Inv(h, OnController(w, PublishRecheck(c))) && Onward(h, w, OnController(w, PublishRecheck(c)))
  {
    var k := w.ctls[c];
    LookCtl(h, w, c);
    if k.Publishing? {
      if w.cfg.num > k.to.num {
        SetCtlInv(h, w, c, Idle, {});
      } else if w.cfg.num == k.to.num {
        SetCtlInv(h, w, c, Deleting(k.to, k.from), {});
      } else {
        SetCtlInv(h, w, c, Publishing(k.to, k.from, w.cfgVer), {PutCfg(k.to, w.cfgVer)});
      }
    }
  }

  lemma SendDeleteInv(h: Hash, w: World, c: nat, s: nat)
    requires Inv(h, w) && c < |w.ctls|
    ensures Inv(h, OnController(w, SendDelete(c, s))) && Onward(h, w, OnController(w, SendDelete(c, s)))
  {
    var k := w.ctls[c];
    LookCtl(h, w, c);
    if k.Deleting? && Moved(k.from, k.to, s) {
      assert MovedAt(w.chain, k.to.num, s);
      SetCtlInv(h, w, c, k, {DeleteMsg(k.from.owner[s], s, k.to.num)});
    }
  }

  lemma ControllerInv(h: Hash, w: World, a: Action)
    requires Inv(h, w) && !a.Deliver? && !a.ClientPut? && a.c < |w.ctls|
    ensures Inv(h, OnController(w, a)) && Onward(h, w, OnController(w, a))
  {
    match a
    case Begin(_, _) => ControllerStart(h, w, a);
    case Stop(_) => ControllerStart(h, w, a);
    case ReadCfg(_) => ControllerStart(h, w, a);
    case ReadNext(c) => ReadNextInv(h, w, c);
    case ClaimOk(c) => ClaimOkInv(h, w, c);
    case ClaimRecheck(c) => ClaimRecheckInv(h, w, c);
    case SendFreeze(c, s) => SendFreezeInv(h, w, c, s);
    case GotFreeze(c, s, rows) => GotFreezeInv(h, w, c, s, rows);
    case SendInstall(c, s) => SendInstallInv(h, w, c, s);
    case GotInstall(c, s) => GotInstallInv(h, w, c, s);
    case AllMoved(c) => AllMovedInv(h, w, c);
    case PublishOk(c) => PublishOkInv(h, w, c);
    case PublishRecheck(c) => PublishRecheckInv(h, w, c);
    case SendDelete(c, s) => SendDeleteInv(h, w, c, s);
  }

  // ---------- the registers ----------

  // Every migration below the published number has already reached its target.
  lemma PastMoves(h: Hash, w: World, k: nat, s: nat)
    requires ChainOk(w) && WellSized(w) && s < |w.home| && HomeOk(h, w, s) && MovedAt(w.chain, k, s)
    ensures k <= w.home[s].num || (k == Newest(w) == w.cfg.num + 1 && Owner(w.chain, k - 1, s) == w.home[s].gid)
  {
    // two neighbouring instances of "the home group is the owner" rule the rest out
    var before, after := Owner(w.chain, k - 1, s), Owner(w.chain, k, s);
  }

  lemma ClaimHome(h: Hash, w: World, v: World, s: nat, cfg: Config)
    requires ChainOk(w) && WellSized(w) && s < |w.home| && HomeOk(h, w, s)
    requires cfg.num == Newest(w) + 1 && w.cfg.num == Newest(w) && |cfg.owner| == |w.home|
    requires v == w.(chain := w.chain + [cfg], next := Some(cfg), nextVer := w.nextVer + 1, net := v.net)
    ensures ChainOk(v) && WellSized(v) && HomeOk(h, v, s)
  {
    assert HomeServes(w, s);
    forall g | g in v.groups && g != v.home[s].gid ensures OtherOk(h, v, s, g) {
      assert OtherOk(h, w, s, g);
    }
    forall k: nat | MovedAt(v.chain, k, s) && k <= v.home[s].num ensures Reached(v, k, s) {
      assert MovedAt(w.chain, k, s) && Reached(w, k, s);
    }
    assert HomeOwns(v, s) by {
      forall j | 1 <= j <= v.cfg.num && v.home[s].num <= j ensures Owner(v.chain, j, s) == v.home[s].gid {
        assert Owner(w.chain, j, s) == w.home[s].gid;
      }
    }
  }

  lemma ClaimInv(h: Hash, w: World, cfg: Config, ver: nat)
    requires Inv(h, w) && PutNext(cfg, ver) in w.net && ver == w.nextVer
    ensures Inv(h, OnRegister(w, PutNext(cfg, ver))) && Onward(h, w, OnRegister(w, PutNext(cfg, ver)))
  {
    var v := OnRegister(w, PutNext(cfg, ver));
    LookMsg(h, w, PutNext(cfg, ver));
    forall s: nat | s < |v.home| ensures HomeOk(h, w, s) && HomeOk(h, v, s) {
      assert HomeOk(h, w, s);
      ClaimHome(h, w, v, s, cfg);
    }
    CarryNet(h, w, v, {NextOk(cfg, ver)});
    CarryCtls(h, w, v);
  }

  lemma PublishHome(h: Hash, w: World, v: World, s: nat)
    requires ChainOk(w) && WellSized(w) && s < |w.home| && HomeOk(h, w, s)
    requires Newest(w) == w.cfg.num + 1 && AllIn(w, Newest(w))
    requires v == w.(cfg := w.chain[Newest(w) - 1], cfgVer := w.cfgVer + 1, net := v.net)
    ensures ChainOk(v) && WellSized(v) && HomeServes(w, s) && HomeOk(h, v, s)
  {
    var n := Newest(w);
    assert MovedAt(w.chain, n, s) ==> w.home[s].num >= n;
    assert HomeServes(w, s);
    forall g | g in v.groups && g != v.home[s].gid ensures OtherOk(h, v, s, g) {
      assert OtherOk(h, w, s, g);
    }
    forall k: nat | MovedAt(v.chain, k, s) && k <= v.home[s].num ensures Reached(v, k, s) {
      assert MovedAt(w.chain, k, s) && Reached(w, k, s);
    }
    assert HomeOwns(v, s) by {
      forall j | 1 <= j <= v.cfg.num && v.home[s].num <= j ensures Owner(v.chain, j, s) == v.home[s].gid {
        if j == n {
          assert Owner(w.chain, n, s) == Owner(w.chain, n - 1, s) || MovedAt(w.chain, n, s);
          assert w.home[s].num <= n - 1 ==> Owner(w.chain, n - 1, s) == w.home[s].gid;
        } else {
          assert Owner(w.chain, j, s) == w.home[s].gid;
        }
      }
    }
  }

  lemma PublishInv(h: Hash, w: World, cfg: Config, ver: nat)
    requires Inv(h, w) && PutCfg(cfg, ver) in w.net && ver == w.cfgVer
    ensures Inv(h, OnRegister(w, PutCfg(cfg, ver))) && Onward(h, w, OnRegister(w, PutCfg(cfg, ver)))
    ensures cfg.num == w.cfg.num + 1
  {
    var v := OnRegister(w, PutCfg(cfg, ver));
    LookMsg(h, w, PutCfg(cfg, ver));
    forall s: nat | s < |v.home| ensures HomeOk(h, w, s) && HomeServes(w, s) && HomeOk(h, v, s) {
      assert HomeOk(h, w, s);
      PublishHome(h, w, v, s);
    }
    CarryNet(h, w, v, {CfgOk(cfg, ver)});
    CarryCtls(h, w, v);
  }

  // ---------- the groups ----------

  // g' differs from g at most in shard s.
  ghost predicate OnlyShard(h: Hash, g: Group, g': Group, s: nat) {
    && |g'.status| == |g.status| == |g.nums| == |g'.nums|
    && (forall x :: 0 <= x < |g.nums| && x != s ==> g'.status[x] == g.status[x] && g'.nums[x] == g.nums[x])
    && (forall k :: k in g.table && h(k) != s ==> k in g'.table && g'.table[k] == g.table[k])
    && (forall k :: k in g'.table && h(k) != s ==> k in g.table)
  }

  // Group i becomes g'.
  ghost predicate OneGroup(w: World, v: World, i: Gid, g': Group) {
    i in w.groups && v == w.(groups := w.groups[i := g'], net := v.net, home := v.home) && |v.home| == |w.home|
  }

  // What a change of group i may do to shard x when x stays where it is: serve it no more
  // than before if it is another group's, lose none of its keys if it is the home.
  ghost predicate Spares(h: Hash, g: Group, g': Group, atHome: bool, num: nat, x: nat) {
    && x < |g.nums| == |g'.nums| == |g.status| == |g'.status| && g.nums[x] <= g'.nums[x]
    && (if atHome then forall k :: k in g.table && h(k) == x ==> k in g'.table
        else
          && g'.status[x] != Serving && g'.nums[x] <= num
          && forall k :: k in g'.table && h(k) == x ==> k in g.table)
  }

  lemma HomeStill(h: Hash, w: World, v: World, i: Gid, g': Group, x: nat)
    requires ChainOk(w) && WellSized(w) && OneGroup(w, v, i, g') && x < |w.home| && v.home[x] == w.home[x] && HomeOk(h, w, x)
    requires Spares(h, w.groups[i], g', i == w.home[x].gid, w.home[x].num, x)
    requires ChainOk(v) && WellSized(v) && (HomeServes(v, x) || HomeFrozen(v, x))
    ensures HomeOk(h, v, x)
  {
    forall j | j in v.groups && j != v.home[x].gid ensures OtherOk(h, v, x, j) {
      assert OtherOk(h, w, x, j);
    }
    forall k: nat | MovedAt(v.chain, k, x) && k <= v.home[x].num ensures Reached(v, k, x) {
      assert Reached(w, k, x);
    }
    assert HomeOwns(v, x);
  }

  lemma OtherShardSame(h: Hash, g: Group, g': Group, s: nat, x: nat, atHome: bool, num: nat)
    requires OnlyShard(h, g, g', s) && x < |g.nums| && x != s && (atHome || (g.status[x] != Serving && g.nums[x] <= num))
    ensures Spares(h, g, g', atHome, num, x) && Part(h, g'.table, x) == Part(h, g.table, x)
  {
  }

  lemma OtherShardHome(h: Hash, w: World, v: World, i: Gid, g': Group, s: nat, x: nat)
    requires ChainOk(w) && WellSized(w) && OneGroup(w, v, i, g') && OnlyShard(h, w.groups[i], g', s)
    requires x < |w.home| && x != s && v.home[x] == w.home[x] && HomeOk(h, w, x)
    ensures ChainOk(v) && WellSized(v) && HomeOk(h, v, x)
    ensures HomeFrozen(w, x) ==> HomeFrozen(v, x)
    ensures HomeRows(h, v, x) == HomeRows(h, w, x)
  {
    assert i != w.home[x].gid ==> OtherOk(h, w, x, i);
    OtherShardSame(h, w.groups[i], g', s, x, i == w.home[x].gid, w.home[x].num);
    HomeStill(h, w, v, i, g', x);
  }

  // A freeze either is refused, or repeats an earlier one, or freezes the home group
  // for the newest configuration, or touches a group that is not the home.
  lemma FreezeHome(h: Hash, w: World, v: World, i: Gid, s: nat, k: nat)
    requires HashOk(h, |w.home|) && ChainOk(w) && WellSized(w) && s < |w.home| && HomeOk(h, w, s)
    requires MovedAt(w.chain, k, s) && i == Owner(w.chain, k - 1, s) && i in w.groups
    requires OneGroup(w, v, i, FreezeOp(h, w.groups[i], s, k).0) && v.home == w.home
    ensures ChainOk(v) && WellSized(v) && HomeOk(h, v, s) && HomeRows(h, v, s) == HomeRows(h, w, s)
    ensures HomeFrozen(w, s) ==> HomeFrozen(v, s)
    ensures FreezeOp(h, w.groups[i], s, k).1.err == OK ==> RowsOk(h, v, s, k, FreezeOp(h, w.groups[i], s, k).1.rows)
  {
    PastMoves(h, w, k, s);
    assert i != w.home[s].gid ==> OtherOk(h, w, s, i);
    HomeStill(h, w, v, i, FreezeOp(h, w.groups[i], s, k).0, s);
  }

  lemma DeleteHome(h: Hash, w: World, v: World, i: Gid, s: nat, k: nat)
    requires HashOk(h, |w.home|) && ChainOk(w) && WellSized(w) && s < |w.home| && HomeOk(h, w, s)
    requires MovedAt(w.chain, k, s) && k <= w.cfg.num && i == Owner(w.chain, k - 1, s) && i in w.groups
    requires OneGroup(w, v, i, DeleteOp(h, w.groups[i], s, k).0) && v.home == w.home
    ensures ChainOk(v) && WellSized(v) && HomeOk(h, v, s) && HomeRows(h, v, s) == HomeRows(h, w, s)
    ensures HomeFrozen(w, s) ==> HomeFrozen(v, s)
    ensures i == w.home[s].gid ==> v.groups[i] == w.groups[i]
  {
    PastMoves(h, w, k, s);
    assert i != w.home[s].gid ==> OtherOk(h, w, s, i);
    HomeStill(h, w, v, i, DeleteOp(h, w.groups[i], s, k).0, s);
  }

  // An install either is refused or repeated, or it brings the frozen rows to their new home.
  lemma InstallStale(h: Hash, w: World, i: Gid, s: nat, k: nat)
    requires ChainOk(w) && WellSized(w) && s < |w.home| && HomeOk(h, w, s)
    requires MovedAt(w.chain, k, s) && i == Owner(w.chain, k, s) && k <= w.home[s].num
    ensures i in w.groups && w.groups[i].nums[s] >= k
  {
    assert Reached(w, k, s);
  }

  lemma InstallFresh(h: Hash, w: World, i: Gid, s: nat, k: nat, rows: Table)
    requires ChainOk(w) && WellSized(w) && s < |w.home| && HomeOk(h, w, s)
    requires MovedAt(w.chain, k, s) && i == Owner(w.chain, k, s) && RowsOk(h, w, s, k, rows) && i in w.groups
    requires k > w.home[s].num
    ensures k == Newest(w) == w.cfg.num + 1 && HomeFrozen(w, s) && i != w.home[s].gid
    ensures rows == HomeRows(h, w, s) && w.groups[i].nums[s] < k
    ensures Part(h, w.groups[i].table + rows, s) == rows
  {
    assert OtherOk(h, w, s, i);
  }

  lemma InstallHome(h: Hash, w: World, v: World, i: Gid, s: nat, k: nat, rows: Table)
    requires ChainOk(w) && WellSized(w) && s < |w.home| && HomeOk(h, w, s)
    requires MovedAt(w.chain, k, s) && i == Owner(w.chain, k, s) && RowsOk(h, w, s, k, rows) && i in w.groups
    requires k > w.home[s].num
    requires OneGroup(w, v, i, InstallOp(w.groups[i], s, rows, k).0) && v.home == w.home[s := Home(i, k)]
    ensures ChainOk(v) && WellSized(v) && HomeOk(h, v, s) && HomeRows(h, v, s) == HomeRows(h, w, s)
  {
    InstallFresh(h, w, i, s, k, rows);
    assert HomeServes(v, s);
    forall j | j in v.groups && j != i ensures OtherOk(h, v, s, j) {
      if j != w.home[s].gid { assert OtherOk(h, w, s, j); }
    }
    forall j: nat | MovedAt(v.chain, j, s) && j <= k ensures Reached(v, j, s) {
      if j < k {
        PastMoves(h, w, j, s);
        assert Reached(w, j, s);
      }
    }
    assert HomeOwns(v, s);
  }

  lemma OpOnlyShard(h: Hash, g: Group, s: nat, k: nat, rows: Table)
    requires s < |g.status| == |g.nums|
    ensures OnlyShard(h, g, FreezeOp(h, g, s, k).0, s)
    ensures OnlyShard(h, g, DeleteOp(h, g, s, k).0, s)
    ensures (forall key :: key in rows ==> h(key) == s) ==> OnlyShard(h, g, InstallOp(g, s, rows, k).0, s)
  {
  }

  // All homes are fine in the world v, and a home that is frozen stays so, with its
  // rows, unless its shard has moved on.
  ghost predicate HomesKept(h: Hash, w: World, v: World)
    requires ChainOk(w) && WellSized(w) && ChainOk(v) && WellSized(v) && HomesOk(h, w)
  {
    |v.home| == |w.home| &&
    forall s: nat {:trigger HomeOk(h, w, s)} :: s < |w.home| ==>
      && HomeOk(h, w, s) && HomeOk(h, v, s) && HomeRows(h, v, s) == HomeRows(h, w, s)
      && w.home[s].num <= v.home[s].num
      && (HomeFrozen(w, s) && v.home[s].num < Newest(w) ==> v.home[s] == w.home[s] && HomeFrozen(v, s))
  }

  lemma KeptOnward(h: Hash, w: World, v: World)
    requires ChainOk(w) && WellSized(w) && ChainOk(v) && WellSized(v) && HomesOk(h, w) && HomesKept(h, w, v)
    requires v.chain == w.chain && v.cfg == w.cfg
    ensures Onward(h, w, v) && HomesOk(h, v)
  {
    forall s: nat | s < |v.home| ensures HomeOk(h, v, s) && w.home[s].num <= v.home[s].num {
      assert HomeOk(h, w, s);
    }
    forall s: nat | s < |w.home| && w.home[s].gid in w.groups && HomeFrozen(w, s) && v.home[s].num < Newest(w)
      ensures v.home[s].gid in v.groups && HomeFrozen(v, s) && Newest(v) == Newest(w) && HomeRows(h, v, s) == HomeRows(h, w, s)
    {
      assert HomeOk(h, w, s);
    }
  }

  lemma GroupStepInv(h: Hash, w: World, v: World, out: set<Msg>)
    requires Inv(h, w) && ChainOk(v) && WellSized(v) && HomesKept(h, w, v)
    requires v == w.(groups := v.groups, home := v.home, net := w.net + out)
    requires forall m :: m in out ==> MsgOk(h, v, m)
    ensures Inv(h, v) && Onward(h, w, v)
  {
    KeptOnward(h, w, v);
    CarryNet(h, w, v, out);
    CarryCtls(h, w, v);
  }

  lemma FreezeInv(h: Hash, w: World, i: Gid, s: nat, k: nat)
    requires Inv(h, w) && FreezeMsg(i, s, k) in w.net && i in w.groups && s < |w.home|
    ensures var v := OnGroup(h, w, FreezeMsg(i, s, k));
      Inv(h, v) && Onward(h, w, v) && HomesKept(h, w, v)
  {
    var v := OnGroup(h, w, FreezeMsg(i, s, k));
    var (g', rep) := FreezeOp(h, w.groups[i], s, k);
    LookMsg(h, w, FreezeMsg(i, s, k));
    OpOnlyShard(h, w.groups[i], s, k, map[]);
    assert HomeOk(h, w, s);
    FreezeHome(h, w, v, i, s, k);
    FreezeKept(h, w, v, i, g', s);
    var out := if rep.err == OK then {FreezeRep(i, s, k, rep.rows)} else {};
    assert v.net == w.net + out;
    GroupStepInv(h, w, v, out);
  }

  // A step of group i on shard s that leaves the home of s where it is.
  lemma FreezeKept(h: Hash, w: World, v: World, i: Gid, g': Group, s: nat)
    requires DataOk(h, w) && OneGroup(w, v, i, g') && OnlyShard(h, w.groups[i], g', s) && v.home == w.home && s < |w.home|
    requires ChainOk(v) && WellSized(v) && HomeOk(h, w, s) && HomeOk(h, v, s) && HomeRows(h, v, s) == HomeRows(h, w, s)
    requires HomeFrozen(w, s) ==> HomeFrozen(v, s)
    ensures HomesKept(h, w, v)
  {
    forall x: nat | x < |w.home|
      ensures HomeOk(h, w, x) && HomeOk(h, v, x) && HomeRows(h, v, x) == HomeRows(h, w, x)
      ensures HomeFrozen(w, x) ==> HomeFrozen(v, x)
    {
      assert HomeOk(h, w, x);
      if x != s { OtherShardHome(h, w, v, i, g', s, x); }
    }
  }

  ghost predicate DataOk(h: Hash, w: World) {
    ChainOk(w) && WellSized(w) && HomesOk(h, w)
  }

  lemma DeleteInv(h: Hash, w: World, i: Gid, s: nat, k: nat)
    requires Inv(h, w) && DeleteMsg(i, s, k) in w.net && i in w.groups && s < |w.home|
    ensures var v := OnGroup(h, w, DeleteMsg(i, s, k));
      Inv(h, v) && Onward(h, w, v) && HomesKept(h, w, v)
  {
    var v := OnGroup(h, w, DeleteMsg(i, s, k));
    LookMsg(h, w, DeleteMsg(i, s, k));
    OpOnlyShard(h, w.groups[i], s, k, map[]);
    assert HomeOk(h, w, s);
    DeleteHome(h, w, v, i, s, k);
    FreezeKept(h, w, v, i, DeleteOp(h, w.groups[i], s, k).0, s);
    assert v.net == w.net + {};
    GroupStepInv(h, w, v, {});
  }

  lemma StaleKept(h: Hash, w: World, v: World)
    requires ChainOk(w) && WellSized(w) && HomesOk(h, w) && v == w.(net := v.net)
    ensures HomesOk(h, v) && HomesKept(h, w, v)
  {
    forall x: nat | x < |w.home|
      ensures HomeOk(h, w, x) && HomeOk(h, v, x) && HomeRows(h, v, x) == HomeRows(h, w, x)
      ensures HomeFrozen(w, x) ==> HomeFrozen(v, x)
    {
      assert HomeOk(h, w, x);
      HomeSame(h, w, v, x);
    }
  }

  // An install of a number the home has reached: nothing changes, and an OK answer is true.
  lemma InstallLateInv(h: Hash, w: World, i: Gid, s: nat, k: nat, rows: Table)
    requires Inv(h, w) && InstallMsg(i, s, k, rows) in w.net && i in w.groups && s < |w.home| && k <= w.home[s].num
    ensures var v := OnGroup(h, w, InstallMsg(i, s, k, rows));
      Inv(h, v) && Onward(h, w, v) && HomesKept(h, w, v)
  {
    var v := OnGroup(h, w, InstallMsg(i, s, k, rows));
    LookMsg(h, w, InstallMsg(i, s, k, rows));
    assert HomeOk(h, w, s);
    InstallStale(h, w, i, s, k);
    assert v.groups == w.groups;
    var out := if InstallOp(w.groups[i], s, rows, k).1 == OK then {InstallRep(i, s, k)} else {};
    assert v == w.(net := w.net + out);
    StaleKept(h, w, v);
    GroupStepInv(h, w, v, out);
  }

  lemma InstallNewInv(h: Hash, w: World, i: Gid, s: nat, k: nat, rows: Table)
    requires Inv(h, w) && InstallMsg(i, s, k, rows) in w.net && i in w.groups && s < |w.home| && k > w.home[s].num
    ensures var v := OnGroup(h, w, InstallMsg(i, s, k, rows));
      Inv(h, v) && Onward(h, w, v) && HomesKept(h, w, v)
  {
    var v := OnGroup(h, w, InstallMsg(i, s, k, rows));
    LookMsg(h, w, InstallMsg(i, s, k, rows));
    assert HomeOk(h, w, s);
    InstallFresh(h, w, i, s, k, rows);
    OpOnlyShard(h, w.groups[i], s, k, rows);
    InstallHome(h, w, v, i, s, k, rows);
    InstallKept(h, w, v, i, s, k, rows);
    GroupStepInv(h, w, v, {InstallRep(i, s, k)});
  }

  lemma InstallKept(h: Hash, w: World, v: World, i: Gid, s: nat, k: nat, rows: Table)
    requires DataOk(h, w) && s < |w.home| && i in w.groups && ChainOk(v) && WellSized(v)
    requires OneGroup(w, v, i, InstallOp(w.groups[i], s, rows, k).0) && v.home == w.home[s := Home(i, k)]
    requires OnlyShard(h, w.groups[i], InstallOp(w.groups[i], s, rows, k).0, s)
    requires HomeOk(h, w, s) && HomeOk(h, v, s) && HomeRows(h, v, s) == HomeRows(h, w, s) && k == Newest(w) > w.home[s].num
    ensures HomesKept(h, w, v)
  {
    forall x: nat | x < |w.home|
      ensures HomeOk(h, w, x) && HomeOk(h, v, x) && HomeRows(h, v, x) == HomeRows(h, w, x)
      ensures w.home[x].num <= v.home[x].num
      ensures HomeFrozen(w, x) && v.home[x].num < Newest(w) ==> v.home[x] == w.home[x] && HomeFrozen(v, x)
    {
      assert HomeOk(h, w, x);
      if x != s { OtherShardHome(h, w, v, i, InstallOp(w.groups[i], s, rows, k).0, s, x); }
    }
  }

  // ---------- clients ----------

  lemma PutKeepsKeys(t: Table, key: string, value: string, version: nat)
    ensures forall k :: k in t ==> k in Kv.Put(t, key, value, version).0
    ensures forall k :: k in Kv.Put(t, key, value, version).0 && k != key ==> k in t && Kv.Put(t, key, value, version).0[k] == t[k]
  {
  }

  lemma ClientPutSpares(h: Hash, g: Group, key: string, value: string, version: nat, x: nat, atHome: bool, num: nat)
    requires x < |g.nums| == |g.status| && h(key) < |g.nums| && (atHome || (g.status[x] != Serving && g.nums[x] <= num))
    ensures var g' := PutOp(h, g, key, value, version).0;
      && Spares(h, g, g', atHome, num, x) && g'.status == g.status && g'.nums == g.nums
      && (g.status[x] != Serving ==> Part(h, g'.table, x) == Part(h, g.table, x))
  {
    PutKeepsKeys(g.table, key, value, version);
  }

  lemma ClientPutHome(h: Hash, w: World, i: Gid, key: string, value: string, version: nat, x: nat)
    requires HashOk(h, |w.home|) && ChainOk(w) && WellSized(w) && x < |w.home| && HomeOk(h, w, x) && i in w.groups
    ensures var v := w.(groups := w.groups[i := PutOp(h, w.groups[i], key, value, version).0]);
      && ChainOk(v) && WellSized(v) && HomeOk(h, v, x)
      && (HomeFrozen(w, x) ==> HomeFrozen(v, x) && HomeRows(h, v, x) == HomeRows(h, w, x))
  {
    var g' := PutOp(h, w.groups[i], key, value, version).0;
    assert i != w.home[x].gid ==> OtherOk(h, w, x, i);
    ClientPutSpares(h, w.groups[i], key, value, version, x, i == w.home[x].gid, w.home[x].num);
    HomeStill(h, w, w.(groups := w.groups[i := g']), i, g', x);
  }

  lemma ClientPutInv(h: Hash, w: World, i: Gid, key: string, value: string, version: nat)
    requires Inv(h, w) && i in w.groups
    ensures var v := w.(groups := w.groups[i := PutOp(h, w.groups[i], key, value, version).0]);
      Inv(h, v) && Onward(h, w, v)
  {
    var v := w.(groups := w.groups[i := PutOp(h, w.groups[i], key, value, version).0]);
    forall x: nat | x < |w.home|
      ensures HomeOk(h, w, x) && HomeOk(h, v, x)
      ensures HomeFrozen(w, x) ==> HomeFrozen(v, x) && HomeRows(h, v, x) == HomeRows(h, w, x)
    {
      assert HomeOk(h, w, x);
      ClientPutHome(h, w, i, key, value, version, x);
    }
    assert Onward(h, w, v) && HomesOk(h, v);
    assert v.net == w.net + {};
    CarryNet(h, w, v, {});
    CarryCtls(h, w, v);
  }
}
