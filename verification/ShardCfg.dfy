// A shard configuration as the code has it: an object whose shard array, group map and
// number are changed in place by Join, Leave and Rebalance.
module ShardCfg {
  import opened Balance

  // ---------- groups in order ----------

  lemma SomeGid(keys: set<Gid>)
    requires keys != {}
    ensures exists k :: k in keys
  {
    if forall k :: k !in keys {
      var none: set<Gid> := {};
      var same := keys == none;
    }
  }

  ghost function Largest(keys: set<Gid>): (m: Gid)
    requires keys != {}
    ensures m in keys && forall k :: k in keys ==> k <= m
  {
    SomeGid(keys);
    var k :| k in keys;
    var rest := keys - {k};
    assert keys == rest + {k};
    if rest == {} then k
    else
      var m := Largest(rest);
      if k > m then k else m
  }

  ghost predicate InOrder(gs: seq<Gid>, keys: set<Gid>) {
    Ascending(gs) && forall g :: g in gs <==> g in keys
  }

  ghost function Gids(keys: set<Gid>): (gs: seq<Gid>)
    ensures InOrder(gs, keys)
    ensures keys != {} ==> gs != []
  {
    if keys == {} then []
    else
      var m := Largest(keys);
      var rest := Gids(keys - {m});
      assert forall i :: 0 <= i < |rest| ==> rest[i] in rest;
      rest + [m]
  }

  lemma {:induction false} InOrderUnique(gs: seq<Gid>, hs: seq<Gid>, keys: set<Gid>)
    requires InOrder(gs, keys) && InOrder(hs, keys)
    ensures gs == hs
  {
    assert gs != [] ==> gs[0] in gs && gs[0] in hs;
    assert hs != [] ==> hs[0] in hs && hs[0] in gs;
    if gs != [] && hs != [] {
      var g, h := gs[|gs| - 1], hs[|hs| - 1];
      assert g in gs && h in hs;
      assert g in hs && h in gs;
      assert g == h;
      LastOut(gs, keys);
      LastOut(hs, keys);
      InOrderUnique(gs[..|gs| - 1], hs[..|hs| - 1], keys - {g});
    }
  }

  lemma LastOut(gs: seq<Gid>, keys: set<Gid>)
    requires InOrder(gs, keys) && gs != []
    ensures InOrder(gs[..|gs| - 1], keys - {gs[|gs| - 1]})
  {
    var n := |gs| - 1;
    assert gs == gs[..n] + [gs[n]];
    forall g ensures g in gs[..n] <==> g in keys - {gs[n]} {
      if g in gs[..n] {
        assert g in gs;
      } else if g in keys {
        assert g in gs;
      }
    }
  }

  // ---------- what Rebalance computes ----------

  // Shards 0 .. i-1 that were on no member group go one by one to the least loaded.
  function Fill(gs: seq<Gid>, a: seq<Gid>, i: nat): (b: seq<Gid>)
    requires gs != [] && i <= |a|
    ensures |b| == |a|
    ensures forall k :: i <= k < |a| ==> b[k] == a[k]
  {
    if i == 0 then a
    else
      var b := Fill(gs, a, i - 1);
      if b[i - 1] in gs then b else b[i - 1 := Least(gs, b)]
  }

  // Members keep their shards, and every shard handled so far is on a member.
  lemma {:induction false} FillKeeps(gs: seq<Gid>, a: seq<Gid>, i: nat, k: nat)
    requires gs != [] && Ascending(gs) && i <= |a| && k < |a|
    ensures a[k] in gs ==> Fill(gs, a, i)[k] == a[k]
    ensures k < i ==> Fill(gs, a, i)[k] in gs
  {
    if i > 0 {
      FillKeeps(gs, a, i - 1, k);
      MostIs(gs, Fill(gs, a, i - 1));
    }
  }

  // Each of them goes in its turn to a group that is then least loaded, and stays there.
  lemma PlacedOnLeast(gs: seq<Gid>, a: seq<Gid>, k: nat)
    requires gs != [] && Ascending(gs) && k < |a| && a[k] !in gs
    ensures IsLeast(gs, Fill(gs, a, k), Fill(gs, a, |a|)[k])
  {
    MostIs(gs, Fill(gs, a, k));
    FillStays(gs, a, k, |a|);
  }

  lemma {:induction false} FillStays(gs: seq<Gid>, a: seq<Gid>, k: nat, i: nat)
    requires gs != [] && Ascending(gs) && k < i <= |a| && a[k] !in gs
    ensures Fill(gs, a, i)[k] == Least(gs, Fill(gs, a, k))
    decreases i
  {
    if k < i - 1 {
      FillStays(gs, a, k, i - 1);
    }
  }

  // b is a with each shard of no member put, in its turn, on a group that is then least loaded.
  ghost predicate WellPlaced(gs: seq<Gid>, a: seq<Gid>, b: seq<Gid>)
    requires gs != [] && |a| == |b|
  {
    forall k :: 0 <= k < |a| ==> if a[k] in gs then b[k] == a[k] else IsLeast(gs, b[..k] + a[k..], b[k])
  }

  lemma {:induction false} FillSplit(gs: seq<Gid>, a: seq<Gid>, k: nat, i: nat)
    requires gs != [] && Ascending(gs) && k <= i <= |a|
    ensures Fill(gs, a, k) == Fill(gs, a, i)[..k] + a[k..]
    decreases i
  {
    if k < i { FillSplit(gs, a, k, i - 1); }
  }

  lemma FillPlaces(gs: seq<Gid>, a: seq<Gid>)
    requires gs != [] && Ascending(gs)
    ensures WellPlaced(gs, a, Fill(gs, a, |a|))
  {
    var b := Fill(gs, a, |a|);
    forall k | 0 <= k < |a| ensures if a[k] in gs then b[k] == a[k] else IsLeast(gs, b[..k] + a[k..], b[k]) {
      FillKeeps(gs, a, |a|, k);
      FillSplit(gs, a, k, |a|);
      if a[k] !in gs { PlacedOnLeast(gs, a, k); }
    }
  }

  ghost function Rebalanced(keys: set<Gid>, a: seq<Gid>): (b: seq<Gid>)
    ensures |b| == |a|
  {
    if keys == {} then seq(|a|, _ => 0)
    else
      var gs := Gids(keys);
      var b := Fill(gs, a, |a|);
      FillMembers(gs, a);
      Even(gs, b)
  }

  lemma FillMembers(gs: seq<Gid>, a: seq<Gid>)
    requires gs != [] && Ascending(gs)
    ensures OnMembers(gs, Fill(gs, a, |a|))
  {
    forall k | 0 <= k < |a| ensures Fill(gs, a, |a|)[k] in gs { FillKeeps(gs, a, |a|, k); }
  }

  // Rebalance leaves every shard on a member group and the loads even; with no groups it
  // unassigns all. Once unassigned shards are placed it moves the fewest shards that any
  // even assignment needs, so none twice.
  lemma RebalancedBest(keys: set<Gid>, a: seq<Gid>)
    ensures keys == {} ==> forall i :: 0 <= i < |a| ==> Rebalanced(keys, a)[i] == 0
    ensures keys != {} ==>
      var gs := Gids(keys); var b := Fill(gs, a, |a|);
      && Balanced(gs, Rebalanced(keys, a))
      && (forall k :: 0 <= k < |a| && a[k] in keys ==> b[k] == a[k])
      && Differ(b, Rebalanced(keys, a)) == Needed(gs, b)
      && (forall t :: |t| == |a| && Balanced(gs, t) ==> Differ(b, t) >= Needed(gs, b))
  {
    if keys != {} {
      var gs := Gids(keys);
      FillMembers(gs, a);
      EvenBest(gs, Fill(gs, a, |a|));
      forall k | 0 <= k < |a| && a[k] in keys ensures Fill(gs, a, |a|)[k] == a[k] { FillKeeps(gs, a, |a|, k); }
    }
  }

  lemma {:induction false} FillNothing(gs: seq<Gid>, b: seq<Gid>, i: nat)
    requires gs != [] && OnMembers(gs, b) && i <= |b|
    ensures Fill(gs, b, i) == b
  {
    if i > 0 { FillNothing(gs, b, i - 1); }
  }

  lemma EvenNothing(gs: seq<Gid>, b: seq<Gid>)
    requires gs != [] && Ascending(gs) && Balanced(gs, b)
    ensures Even(gs, b) == b
  {
    MostIs(gs, b);
  }

  // A balanced assignment stays as it is.
  lemma RebalancedTwice(keys: set<Gid>, a: seq<Gid>)
    ensures Rebalanced(keys, Rebalanced(keys, a)) == Rebalanced(keys, a)
  {
    if keys != {} {
      RebalancedBest(keys, a);
      FillNothing(Gids(keys), Rebalanced(keys, a), |a|);
      EvenNothing(Gids(keys), Rebalanced(keys, a));
    }
  }

  // What Join and Leave come to; Fatal ends the process.
  datatype Outcome = Done | Refused | Fatal

  function Lookup(counts: map<Gid, nat>, g: Gid): nat {
    if g in counts then counts[g] else 0
  }

  function Among(servers: map<Gid, seq<string>>, some: set<Gid>): map<Gid, seq<string>> {
    map g | g in servers && g in some :: servers[g]
  }

  lemma LessToDo(all: set<Gid>, todo: set<Gid>, some: set<Gid>, gid: Gid)
    requires gid in todo && gid in some && todo == all - (some - {gid})
    ensures todo - {gid} == all - some && |todo - {gid}| < |todo|
  {
  }

  // Some of the groups have joined.
  ghost predicate Joined(before: map<Gid, seq<string>>, servers: map<Gid, seq<string>>, some: set<Gid>, after: map<Gid, seq<string>>) {
    some <= servers.Keys && after == before + Among(servers, some)
  }

  // And all of them could.
  ghost predicate Joining(before: map<Gid, seq<string>>, servers: map<Gid, seq<string>>, some: set<Gid>, after: map<Gid, seq<string>>) {
    Joined(before, servers, some, after) && CanJoin(before, Among(servers, some))
  }

  lemma NoneJoined(before: map<Gid, seq<string>>, servers: map<Gid, seq<string>>)
    ensures Joining(before, servers, {}, before)
  {
  }

  lemma AllJoined(before: map<Gid, seq<string>>, servers: map<Gid, seq<string>>, some: set<Gid>, after: map<Gid, seq<string>>)
    requires Joining(before, servers, some, after) && servers.Keys - some == {}
    ensures CanJoin(before, servers) && after == before + servers
  {
    assert forall g :: g in servers ==> g in servers.Keys - some || g in some;
    assert Among(servers, some) == servers;
  }

  lemma JoinOne(before: map<Gid, seq<string>>, servers: map<Gid, seq<string>>, some: set<Gid>, after: map<Gid, seq<string>>, gid: Gid)
    requires Joined(before, servers, some, after) && CanJoin(before, Among(servers, some))
    requires gid in servers && gid !in after && forall x :: x in after ==> !Meet(after[x], servers[gid])
    ensures Joined(before, servers, some + {gid}, after[gid := servers[gid]])
    ensures CanJoin(before, Among(servers, some + {gid}))
  {
    var more := Among(servers, some + {gid});
    assert more == Among(servers, some)[gid := servers[gid]];
    forall x, g | x in more && g in more && x != g ensures !Meet(more[x], more[g]) {
      if x == gid || g == gid {
        var other := if x == gid then g else x;
        assert other in after && after[other] == servers[other];
        assert !Meet(after[other], servers[gid]);
      }
    }
  }

  lemma JoinStops(before: map<Gid, seq<string>>, servers: map<Gid, seq<string>>, some: set<Gid>, after: map<Gid, seq<string>>, gid: Gid)
    requires Joined(before, servers, some, after) && gid in servers && gid !in some
    ensures gid in after ==> !(before.Keys !! servers.Keys)
    ensures (exists x :: x in after && Meet(after[x], servers[gid])) ==> !CanJoin(before, servers)
  {
    assert gid in after ==> gid in before;
    if x :| x in after && Meet(after[x], servers[gid]) {
      assert x in some ==> after[x] == servers[x];
    }
  }

  // The first k ids are groups, and no two the same.
  ghost predicate AllLeave(keys: set<Gid>, gids: seq<Gid>, k: nat)
    requires k <= |gids|
  {
    forall i :: 0 <= i < k ==> gids[i] in keys && gids[i] !in gids[..i]
  }

  // The first k groups have left, and the next cannot.
  ghost predicate StopsAt(before: map<Gid, seq<string>>, gids: seq<Gid>, k: nat, after: map<Gid, seq<string>>) {
    && k < |gids| && AllLeave(before.Keys, gids, k) && !AllLeave(before.Keys, gids, k + 1)
    && after == before - (set g | g in gids[..k])
  }

  lemma FirstIs(a: seq<Gid>, m: Gid, s: nat)
    requires s < |a| && a[s] == m && s <= First(a, m)
    ensures s == First(a, m)
  {
    var before := a[..First(a, m)];
    assert forall k :: 0 <= k < |before| ==> before[k] in before;
  }

  // The servers have one in common.
  predicate Meet(xs: seq<string>, ys: seq<string>) {
    exists i, j :: 0 <= i < |xs| && 0 <= j < |ys| && xs[i] == ys[j]
  }

  // The new groups can join: no id is taken, and no server is in two groups.
  ghost predicate CanJoin(groups: map<Gid, seq<string>>, servers: map<Gid, seq<string>>) {
    && groups.Keys !! servers.Keys
    && (forall x, g {:trigger Meet(groups[x], servers[g])} :: x in groups && g in servers ==> !Meet(groups[x], servers[g]))
    && (forall x, g {:trigger Meet(servers[x], servers[g])} :: x in servers && g in servers && x != g ==> !Meet(servers[x], servers[g]))
  }

  class ShardConfig {
    var num: int
    const shards: array<Gid>
    var groups: map<Gid, seq<string>>

    constructor (n: nat)
      ensures num == 0 && groups == map[] && fresh(shards) && shards[..] == seq(n, _ => 0)
    {
      num, groups := 0, map[];
      shards := new Gid[n](_ => 0);
    }

    // The keys of the group map, in whatever order the map gives them, then sorted.
    method SortedGids() returns (gs: seq<Gid>)
      ensures gs == Gids(groups.Keys)
    {
      gs := [];
      var todo := groups.Keys;
      while todo != {}
        invariant todo <= groups.Keys && InOrder(gs, groups.Keys - todo)
        decreases |todo|
      {
        SomeGid(todo);
        var k :| k in todo;
        todo := todo - {k};
        gs := Insert(gs, k, groups.Keys - todo - {k});
        assert groups.Keys - todo - {k} + {k} == groups.Keys - todo;
      }
      assert groups.Keys - todo == groups.Keys;
      InOrderUnique(gs, Gids(groups.Keys), groups.Keys);
    }

    static method Insert(gs: seq<Gid>, k: Gid, ghost keys: set<Gid>) returns (hs: seq<Gid>)
      requires InOrder(gs, keys) && k !in keys
      ensures InOrder(hs, keys + {k})
    {
      var i := 0;
      while i < |gs| && gs[i] < k
        invariant 0 <= i <= |gs| && forall j :: 0 <= j < i ==> gs[j] < k
      {
        i := i + 1;
      }
      assert i < |gs| ==> gs[i] in gs;
      assert gs == gs[..i] + gs[i..];
      hs := gs[..i] + [k] + gs[i..];
    }

    method Tally() returns (counts: map<Gid, nat>)
      ensures forall g :: Lookup(counts, g) == Count(shards[..], g)
    {
      counts := map[];
      var k := 0;
      while k < shards.Length
        invariant 0 <= k <= shards.Length
        invariant forall g :: Lookup(counts, g) == Count(shards[..k], g)
      {
        assert shards[..k + 1][..k] == shards[..k];
        counts := counts[shards[k] := Lookup(counts, shards[k]) + 1];
        k := k + 1;
      }
      assert shards[..k] == shards[..];
    }

    // The most and the least loaded of the groups in order; -1 and 257 if there is none.
    static method Scan(gs: seq<Gid>, counts: map<Gid, nat>, ghost a: seq<Gid>) returns (mg: Gid, mn: int, lg: Gid, ln: int)
      requires |a| < 257 && forall g :: Lookup(counts, g) == Count(a, g)
      ensures gs == [] ==> mg == lg == mn == -1 && ln == 257
      ensures gs != [] ==> mg == Most(gs, a) && mn == Count(a, mg) && lg == Least(gs, a) && ln == Count(a, lg)
    {
      mn, mg, ln, lg := -1, -1, 257, -1;
      var i := 0;
      while i < |gs|
        invariant 0 <= i <= |gs|
        invariant i == 0 ==> mg == lg == mn == -1 && ln == 257
        invariant i > 0 ==> mg == Most(gs[..i], a) && mn == Count(a, mg)
        invariant i > 0 ==> lg == Least(gs[..i], a) && ln == Count(a, lg)
      {
        var g := gs[i];
        assert gs[..i + 1][..i] == gs[..i];
        CountIn(a, g);
        if Lookup(counts, g) < ln {
          ln := Lookup(counts, g);
          lg := g;
        }
        if Lookup(counts, g) > mn {
          mn := Lookup(counts, g);
          mg := g;
        }
        i := i + 1;
      }
      assert gs[..i] == gs;
    }

    method Analyze() returns (mg: Gid, mn: int, lg: Gid, ln: int)
      requires shards.Length < 257
      ensures groups.Keys == {} ==> mg == lg == mn == -1 && ln == 257
      ensures groups.Keys != {} ==>
        var gs := Gids(groups.Keys);
        && mg == Most(gs, shards[..]) && mn == Count(shards[..], mg)
        && lg == Least(gs, shards[..]) && ln == Count(shards[..], lg)
    {
      var counts := Tally();
      var gs := SortedGids();
      assert gs != [] ==> gs[0] in gs;
      mg, mn, lg, ln := Scan(gs, counts, shards[..]);
    }

    // The loops over the shards range over a copy of the array that Go makes; they only
    // ever change the shard they are at, so they may as well read the array itself.
    method Unassign()
      modifies shards
      ensures shards[..] == seq(shards.Length, _ => 0)
    {
      var s := 0;
      while s < shards.Length
        invariant 0 <= s <= shards.Length && forall k :: 0 <= k < s ==> shards[k] == 0
      {
        shards[s] := 0;
        s := s + 1;
      }
    }

    // Assign all unassigned shards.
    method Place()
      requires shards.Length < 257 && groups.Keys != {}
      modifies shards
      ensures shards[..] == Fill(Gids(groups.Keys), old(shards[..]), shards.Length)
      ensures WellPlaced(Gids(groups.Keys), old(shards[..]), shards[..])
    {
      FillPlaces(Gids(groups.Keys), shards[..]);
      var s := 0;
      while s < shards.Length
        invariant 0 <= s <= shards.Length && shards[..] == Fill(Gids(groups.Keys), old(shards[..]), s)
      {
        if shards[s] !in groups {
          var _, _, lg, _ := Analyze();
          shards[s] := lg;
        }
        s := s + 1;
      }
    }

    // Move shards from the most to the least heavily loaded group.
    method Level()
      requires shards.Length < 257 && groups.Keys != {} && OnMembers(Gids(groups.Keys), shards[..])
      modifies shards
      ensures shards[..] == Even(Gids(groups.Keys), old(shards[..]))
    {
      ghost var gs := Gids(groups.Keys);
      var mg, mn, lg, ln := Analyze();
      while mn >= ln + 2
        invariant OnMembers(gs, shards[..]) && Even(gs, shards[..]) == Even(gs, old(shards[..]))
        invariant mg == Most(gs, shards[..]) && mn == Count(shards[..], mg)
        invariant lg == Least(gs, shards[..]) && ln == Count(shards[..], lg)
        decreases Needed(gs, shards[..])
      {
        ShiftNeeded(gs, shards[..]);
        ShiftCounts(gs, shards[..], mg);
        MoveOne(mg, lg);
        mg, mn, lg, ln := Analyze();
      }
    }

    method Rebalance()
      requires shards.Length < 257
      modifies shards
      ensures shards[..] == Rebalanced(groups.Keys, old(shards[..]))
    {
      assert |groups| == |groups.Keys|;
      if |groups| < 1 {
        Unassign();
        return;
      }
      FillMembers(Gids(groups.Keys), shards[..]);
      Place();
      Level();
    }

    // The inner loop: the first shard of mg goes to lg.
    method MoveOne(mg: Gid, lg: Gid)
      requires mg in shards[..]
      modifies shards
      ensures shards[..] == old(shards[..])[First(old(shards[..]), mg) := lg]
    {
      ghost var a := shards[..];
      var s := 0;
      while s < shards.Length
        invariant 0 <= s <= First(a, mg) && shards[..] == a
      {
        if shards[s] == mg {
          FirstIs(a, mg, s);
          shards[s] := lg;
          return;
        }
        s := s + 1;
      }
    }

    // Whether one of the groups has one of the servers.
    method SharesServer(servers: seq<string>) returns (b: bool)
      ensures b <==> exists x :: x in groups && Meet(groups[x], servers)
    {
      var todo := groups.Keys;
      while todo != {}
        invariant todo <= groups.Keys
        invariant forall x :: x in groups && x !in todo ==> !Meet(groups[x], servers)
        decreases |todo|
      {
        SomeGid(todo);
        var x :| x in todo;
        if Meet(groups[x], servers) {
          return true;
        }
        todo := todo - {x};
      }
      b := false;
    }

    // One group joins, unless its id or a server of its is taken.
    method AddGroup(gid: Gid, servers: map<Gid, seq<string>>, ghost before: map<Gid, seq<string>>, ghost some: set<Gid>)
        returns (r: Outcome)
      requires Joining(before, servers, some, groups) && gid in servers && gid !in some
      modifies this`groups
      ensures r == Done ==> Joining(before, servers, some + {gid}, groups)
      ensures r != Done ==> groups == old(groups) && !CanJoin(before, servers)
      ensures r == Refused ==> !(before.Keys !! servers.Keys)
    {
      JoinStops(before, servers, some, groups, gid);
      if gid in groups {
        return Refused;
      }
      var clash := SharesServer(servers[gid]);
      if clash {
        return Fatal;
      }
      JoinOne(before, servers, some, groups, gid);
      groups := groups[gid := servers[gid]];
      r := Done;
    }

    // One of those still to join does, if it may.
    method AddOne(todo: set<Gid>, servers: map<Gid, seq<string>>, ghost before: map<Gid, seq<string>>, ghost some: set<Gid>)
        returns (r: Outcome, rest: set<Gid>, ghost more: set<Gid>)
      requires Joining(before, servers, some, groups) && todo == servers.Keys - some && todo != {}
      modifies this`groups
      ensures r == Done ==> Joining(before, servers, more, groups) && rest == servers.Keys - more && |rest| < |todo|
      ensures r != Done ==> groups == old(groups) && !CanJoin(before, servers)
      ensures r == Refused ==> !(before.Keys !! servers.Keys)
    {
      SomeGid(todo);
      var gid :| gid in todo;
      r := AddGroup(gid, servers, before, some);
      more := some + {gid};
      LessToDo(servers.Keys, todo, more, gid);
      rest := todo - {gid};
    }

    // All of them, in any order; some is what could be added.
    method AddGroups(servers: map<Gid, seq<string>>) returns (r: Outcome, ghost some: set<Gid>)
      modifies this`groups
      ensures r == Done <==> CanJoin(old(groups), servers)
      ensures r == Done ==> groups == old(groups) + servers
      ensures r == Refused ==> !(old(groups).Keys !! servers.Keys)
      ensures Joined(old(groups), servers, some, groups)
    {
      ghost var before := groups;
      NoneJoined(before, servers);
      var todo := servers.Keys;
      some := {};
      while todo != {}
        invariant todo == servers.Keys - some && Joining(before, servers, some, groups)
        decreases |todo|
      {
        ghost var more;
        r, todo, more := AddOne(todo, servers, before, some);
        if r != Done {
          return;
        }
        some := more;
      }
      AllJoined(before, servers, some, groups);
      r := Done;
    }

    // The first id already taken ends it at once, with what had joined before left in; a
    // server in two groups ends the process.
    method Join(servers: map<Gid, seq<string>>) returns (r: Outcome, ghost some: set<Gid>)
      modifies this
      ensures r == Done <==> servers.Keys != {} && CanJoin(old(groups), servers)
      ensures r == Done ==> groups == old(groups) + servers && num == old(num) + 1
      ensures r != Done ==> num == old(num)
      ensures r == Refused ==> !(old(groups).Keys !! servers.Keys)
      ensures Joined(old(groups), servers, some, groups)
    {
      r, some := AddGroups(servers);
      if r != Done {
        return;
      }
      if servers.Keys == {} {
        r := Fatal;
        return;
      }
      num := num + 1;
    }

    // Groups leave one by one, in the order given. The first that is not there, or no more,
    // ends it at once, with those before it gone.
    method Leave(gids: seq<Gid>) returns (r: Outcome)
      modifies this
      ensures r == Done ==> gids != [] && num == old(num) + 1 && AllLeave(old(groups).Keys, gids, |gids|)
      ensures r == Done ==> groups == old(groups) - (set g | g in gids)
      ensures r != Done ==> num == old(num)
      ensures r == Refused <==> !AllLeave(old(groups).Keys, gids, |gids|)
      ensures r == Refused ==> exists k: nat :: StopsAt(old(groups), gids, k, groups)
      ensures r == Fatal <==> gids == []
    {
      var k := 0;
      while k < |gids|
        invariant 0 <= k <= |gids| && num == old(num)
        invariant AllLeave(old(groups).Keys, gids, k)
        invariant groups == old(groups) - (set g | g in gids[..k])
      {
        if gids[k] !in groups {
          assert StopsAt(old(groups), gids, k, groups);
          return Refused;
        }
        groups := groups - {gids[k]};
        assert gids[..k + 1] == gids[..k] + [gids[k]];
        k := k + 1;
      }
      assert gids[..k] == gids;
      if gids == [] {
        return Fatal;
      }
      num := num + 1;
      r := Done;
    }

    method JoinBalance(servers: map<Gid, seq<string>>) returns (r: Outcome)
      requires shards.Length < 257
      modifies this, shards
      ensures r == Done <==> servers.Keys != {} && CanJoin(old(groups), servers)
      ensures r == Done ==> groups == old(groups) + servers && num == old(num) + 1
      ensures r == Done ==> shards[..] == Rebalanced(groups.Keys, old(shards[..])) && Balanced(Gids(groups.Keys), shards[..])
      ensures r != Done ==> num == old(num) && shards[..] == old(shards[..])
    {
      ghost var some;
      r, some := Join(servers);
      if r != Done {
        return;
      }
      RebalancedBest(groups.Keys, shards[..]);
      Rebalance();
    }

    method LeaveBalance(gids: seq<Gid>) returns (r: Outcome)
      requires shards.Length < 257
      modifies this, shards
      ensures r == Done <==> gids != [] && AllLeave(old(groups).Keys, gids, |gids|)
      ensures r == Done ==> groups == old(groups) - (set g | g in gids) && num == old(num) + 1
      ensures r == Done ==> shards[..] == Rebalanced(groups.Keys, old(shards[..]))
      ensures r == Done && groups.Keys != {} ==> Balanced(Gids(groups.Keys), shards[..])
      ensures r != Done ==> num == old(num) && shards[..] == old(shards[..])
    {
      r := Leave(gids);
      if r != Done {
        return;
      }
      RebalancedBest(groups.Keys, shards[..]);
      Rebalance();
    }
  }
}
