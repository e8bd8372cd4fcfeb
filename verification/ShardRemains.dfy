// What is left of a shard where it no longer is: nothing, once its Delete has been answered.
module ShardRemains {
  import opened Options
  import opened Kv
  import opened ShardGroup
  import opened ShardSystem
  import opened ShardProof
  import opened ShardTheorems

  // A group that does not have a shard has no row of it.
  ghost predicate NoRemains(h: Hash, w: World)
    requires WellSized(w)
  {
    forall g, s: nat {:trigger CleanAt(h, w, g, s)} :: g in w.groups && s < |w.home| ==> CleanAt(h, w, g, s)
  }

  ghost predicate CleanAt(h: Hash, w: World, g: Gid, s: nat)
    requires WellSized(w) && g in w.groups && s < |w.home|
  {
    Clean(h, w.groups[g], s)
  }

  ghost predicate Clean(h: Hash, g: Group, s: nat)
    requires s < |g.status|
  {
    g.status[s] == Absent ==> Part(h, g.table, s) == map[]
  }

  // ---------- every step ----------

  lemma SameShardClean(h: Hash, g: Group, g': Group, s: nat, x: nat)
    requires OnlyShard(h, g, g', s) && x < |g.nums| && x != s && Clean(h, g, x)
    ensures Clean(h, g', x)
  {
    assert Part(h, g'.table, x) == Part(h, g.table, x);
  }

  lemma DeleteClean(h: Hash, g: Group, s: nat, num: nat)
    requires s < |g.status| == |g.nums| && Clean(h, g, s)
    ensures Clean(h, DeleteOp(h, g, s, num).0, s)
  {
    assert Part(h, Without(h, g.table, s), s) == map[];
  }

  // An Install that does anything brings rows of its own shard only.
  lemma InstallOnly(h: Hash, w: World, m: Msg)
    requires Inv(h, w) && m in w.net && m.InstallMsg? && m.g in w.groups && m.s < |w.home|
    ensures OnlyShard(h, w.groups[m.g], OnGroup(h, w, m).groups[m.g], m.s)
  {
    LookMsg(h, w, m);
    assert HomeOk(h, w, m.s);
    if m.num <= w.home[m.s].num {
      InstallStale(h, w, m.g, m.s, m.num);
    } else {
      InstallFresh(h, w, m.g, m.s, m.num, m.rows);
      OpOnlyShard(h, w.groups[m.g], m.s, m.num, m.rows);
    }
  }

  lemma GroupClean(h: Hash, w: World, m: Msg, x: nat)
    requires Inv(h, w) && m in w.net && (m.FreezeMsg? || m.InstallMsg? || m.DeleteMsg?) && m.g in w.groups && m.s < |w.home|
    requires x < |w.home| && Clean(h, w.groups[m.g], x)
    ensures WellSized(OnGroup(h, w, m)) && Clean(h, OnGroup(h, w, m).groups[m.g], x)
  {
    GroupSized(h, w, m);
    var g := w.groups[m.g];
    if x == m.s {
      DeleteClean(h, g, x, m.num);
    } else {
      OpOnlyShard(h, g, m.s, m.num, map[]);
      if m.InstallMsg? { InstallOnly(h, w, m); }
      SameShardClean(h, g, OnGroup(h, w, m).groups[m.g], m.s, x);
    }
  }

  lemma PutClean(h: Hash, g: Group, key: string, value: string, version: nat, x: nat)
    requires x < |g.status| == |g.nums| && h(key) < |g.nums| && Clean(h, g, x)
    ensures Clean(h, PutOp(h, g, key, value, version).0, x)
  {
    ClientPutSpares(h, g, key, value, version, x, true, 0);
  }

  lemma RemainsStep(h: Hash, w: World, a: Action)
    requires Inv(h, w) && NoRemains(h, w)
    ensures WellSized(Step(h, w, a)) && NoRemains(h, Step(h, w, a))
  {
    var v := Step(h, w, a);
    StepSized(h, w, a);
    forall g, x: nat | g in v.groups && x < |v.home| ensures CleanAt(h, v, g, x) {
      CleanStep(h, w, a, g, x);
    }
  }

  lemma CleanStep(h: Hash, w: World, a: Action, g: Gid, x: nat)
    requires Inv(h, w) && NoRemains(h, w) && WellSized(Step(h, w, a)) && g in Step(h, w, a).groups && x < |w.home|
    ensures Clean(h, Step(h, w, a).groups[g], x)
  {
    if a.Deliver? {
      if a.m in w.net && (a.m.FreezeMsg? || a.m.InstallMsg? || a.m.DeleteMsg?) && a.m.g in w.groups && a.m.s < |w.home| {
        GroupSized(h, w, a.m);
        assert CleanAt(h, w, g, x);
        if g == a.m.g { GroupClean(h, w, a.m, x); }
      } else {
        assert CleanAt(h, w, g, x);
      }
    } else if a.ClientPut? {
      assert CleanAt(h, w, g, x);
      if g == a.g { PutClean(h, w.groups[g], a.key, a.value, a.version, x); }
    } else {
      if a.c < |w.ctls| { ControllerSized(w, a); }
      assert CleanAt(h, w, g, x);
    }
  }

  // In every run.
  lemma {:induction false} ExecRemains(u: Setup, acts: seq<Action>)
    requires HashOk(u.h, u.shards)
    ensures NoRemains(u.h, Exec(u, acts))
    decreases |acts|
  {
    if acts != [] {
      var before := acts[..|acts| - 1];
      ExecRemains(u, before);
      ExecInv(u, before);
      RemainsStep(u.h, Exec(u, before), acts[|acts| - 1]);
    }
  }

  // ---------- a Delete ----------

  // The shard is gone from the group.
  ghost predicate Gone(h: Hash, g: Group, s: nat)
    requires s < |g.status|
  {
    g.status[s] == Absent && Part(h, g.table, s) == map[]
  }

  // A Delete that any controller has sent, of whatever age, clears the shard and is answered
  // OK, unless the group has meanwhile seen a later number: then it is refused.
  lemma DeleteAnswers(h: Hash, w: World, g: Gid, s: nat, k: nat)
    requires Inv(h, w) && NoRemains(h, w) && DeleteMsg(g, s, k) in w.net && g in w.groups && s < |w.home|
    ensures var (g', err) := DeleteOp(h, w.groups[g], s, k);
      if w.groups[g].nums[s] <= k then err == OK && s < |g'.status| && Gone(h, g', s) && g'.nums[s] == k
      else err == ErrStaleNum && g' == w.groups[g]
  {
    LookMsg(h, w, DeleteMsg(g, s, k));
    assert HomeOk(h, w, s);
    assert CleanAt(h, w, g, s);
    if w.groups[g].nums[s] <= k && w.groups[g].status[s] == Serving {
      assert g != w.home[s].gid ==> OtherOk(h, w, s, g);
    }
    assert Part(h, Without(h, w.groups[g].table, s), s) == map[];
  }

  // What is gone stays so while others are deleted.
  lemma GoneStays(h: Hash, w: World, g: Gid, s: nat, k: nat, i: Gid, x: nat)
    requires WellSized(w) && DeleteMsg(g, s, k) in w.net && g in w.groups && s < |w.home|
    requires i in w.groups && x < |w.home| && Gone(h, w.groups[i], x)
    ensures var v := OnGroup(h, w, DeleteMsg(g, s, k)); i in v.groups && |v.groups[i].status| == |w.home| && Gone(h, v.groups[i], x)
  {
    GroupSized(h, w, DeleteMsg(g, s, k));
    if i == g {
      OpOnlyShard(h, w.groups[g], s, k, map[]);
      if x == s {
        DeleteClean(h, w.groups[g], s, k);
      } else {
        SameShardClean(h, w.groups[g], DeleteOp(h, w.groups[g], s, k).0, s, x);
      }
    }
  }
}
