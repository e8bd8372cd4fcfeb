// What Rebalance does to the assignment it is given: shards without a group go where there
// is most room and stay there, and of the others no more move than any even assignment
// must move.
module ShardPlacing {
  import opened Balance
  import opened ShardCfg

  // ---------- what moves, told from the two assignments alone ----------

  // The shards that a has on a group of gs and t has elsewhere.
  function Moves(gs: seq<Gid>, a: seq<Gid>, t: seq<Gid>): nat
    requires |a| == |t|
  {
    if a == [] then 0
    else
      var n := |a| - 1;
      Moves(gs, a[..n], t[..n]) + (if a[n] in gs && a[n] != t[n] then 1 else 0)
  }

  // What the loads of a force: all above the share plus one must go, and of the groups
  // above the share only as many as the remainder may keep one more.
  function MustMove(gs: seq<Gid>, a: seq<Gid>): int
    requires gs != []
  {
    var q := |a| / |gs|;
    Max(Sum(gs, Excess(a, q)), Sum(gs, Excess(a, q - 1)) - |a| % |gs|)
  }

  function Max(x: int, y: int): int { if x > y then x else y }

  lemma {:induction false} MovesNone(gs: seq<Gid>, a: seq<Gid>, t: seq<Gid>, k: nat)
    requires |a| == |t| && k < |a| && Moves(gs, a, t) == 0 && a[k] in gs
    ensures t[k] == a[k]
  {
    var n := |a| - 1;
    if k < n { MovesNone(gs, a[..n], t[..n], k); }
  }

  // ---------- the fewest ----------

  // Every group keeps no more than its load in t.
  lemma {:induction false} LossesMove(gs: seq<Gid>, a: seq<Gid>, t: seq<Gid>)
    requires Ascending(gs) && OnMembers(gs, t) && |a| == |t|
    ensures Sum(gs, Losses(a, t)) <= Moves(gs, a, t)
  {
    if a == [] {
      SumConst(gs, 0);
      SumSame(gs, Losses(a, t), _ => 0);
    } else {
      var n := |a| - 1;
      LossesMove(gs, a[..n], t[..n]);
      if a[n] == t[n] {
        SumSame(gs, Losses(a, t), Losses(a[..n], t[..n]));
      } else if a[n] in gs {
        SumChangeTwo(gs, Losses(a[..n], t[..n]), Losses(a, t), a[n], t[n]);
      } else {
        SumBelow(gs, Losses(a, t), Losses(a[..n], t[..n]));
      }
    }
  }

  lemma {:induction false} SumPlus(gs: seq<Gid>, f: Gid -> int, h: Gid -> int, k: Gid -> int)
    requires forall g :: g in gs ==> k(g) == f(g) + h(g)
    ensures Sum(gs, k) == Sum(gs, f) + Sum(gs, h)
  {
    if gs != [] {
      var n := |gs| - 1;
      var x := gs[n];
      assert x in gs && k(x) == f(x) + h(x);
      SumPlus(gs[..n], f, h, k);
    }
  }

  function Above(t: seq<Gid>, q: int): Gid -> int { g => Count(t, g) - q }

  // What the loads have above the share, all together.
  lemma AboveShare(gs: seq<Gid>, t: seq<Gid>)
    requires gs != [] && Ascending(gs) && OnMembers(gs, t)
    ensures Sum(gs, Above(t, |t| / |gs|)) == |t| % |gs|
  {
    var q := |t| / |gs|;
    LoadsTotal(gs, t);
    SumConst(gs, q);
    SumPlus(gs, Above(t, q), _ => q, Load(t));
    Divides(|t|, |gs|);
  }

  lemma Divides(n: nat, m: nat)
    requires m > 0
    ensures n == m * (n / m) + n % m
  {
  }

  // What a group keeps beside its share in t is part of the remainder.
  function Kept(a: seq<Gid>, t: seq<Gid>, q: int): Gid -> int { g => Losses(a, t)(g) + Above(t, q)(g) }

  lemma MoveAtLeast(gs: seq<Gid>, a: seq<Gid>, t: seq<Gid>)
    requires gs != [] && Ascending(gs) && |a| == |t| && Balanced(gs, t)
    ensures Moves(gs, a, t) >= MustMove(gs, a)
  {
    var q := |a| / |gs|;
    forall g | g in gs ensures q <= Count(t, g) <= q + 1 { BalancedLoads(gs, t, g); }
    LossesMove(gs, a, t);
    SumBelow(gs, Excess(a, q), Losses(a, t));
    AboveShare(gs, t);
    SumPlus(gs, Losses(a, t), Above(t, q), Kept(a, t, q));
    SumBelow(gs, Excess(a, q - 1), Kept(a, t, q));
  }

  // ---------- where the shards without a group go ----------

  // The loads of members are no more than all shards, and less if one is on none.
  lemma {:induction false} LoadsAtMost(gs: seq<Gid>, a: seq<Gid>)
    requires Ascending(gs)
    ensures Sum(gs, Load(a)) <= |a|
    ensures (exists k :: 0 <= k < |a| && a[k] !in gs) ==> Sum(gs, Load(a)) < |a|
  {
    if a == [] {
      SumConst(gs, 0);
      SumSame(gs, Load(a), _ => 0);
    } else {
      var n := |a| - 1;
      LoadsAtMost(gs, a[..n]);
      if a[n] in gs {
        SumChange(gs, Load(a[..n]), Load(a), a[n]);
        if k :| 0 <= k < |a| && a[k] !in gs { assert a[..n][k] !in gs; }
      } else {
        SumSame(gs, Load(a[..n]), Load(a));
      }
    }
  }

  // While a shard is on no group the least loaded group has at most the share.
  lemma RoomLeft(gs: seq<Gid>, a: seq<Gid>, k: nat)
    requires gs != [] && Ascending(gs) && k < |a| && a[k] !in gs
    ensures Count(a, Least(gs, a)) <= |a| / |gs|
  {
    var q := |a| / |gs|;
    MostIs(gs, a);
    if Count(a, Least(gs, a)) > q {
      LoadsAtMost(gs, a);
      SumConst(gs, q + 1);
      SumBelow(gs, _ => q + 1, Load(a));
      ShareBounds(|a|, |gs|);
    }
  }

  // A group that could take a shard by being the least loaded.
  ghost predicate Roomy(gs: seq<Gid>, a: seq<Gid>, g: Gid)
    requires gs != []
  {
    var q := |a| / |gs|;
    g in gs && (Count(a, g) <= q || (Count(a, g) == q + 1 && forall h :: h in gs ==> Count(a, h) >= q))
  }

  lemma PlaceRoomy(gs: seq<Gid>, b: seq<Gid>, i: nat, g: Gid)
    requires gs != [] && Ascending(gs) && i < |b| && b[i] !in gs && (Roomy(gs, b, g) || g == Least(gs, b))
    ensures Roomy(gs, b[i := Least(gs, b)], g)
  {
    var l := Least(gs, b);
    RoomLeft(gs, b, i);
    MostIs(gs, b);
    forall h ensures Count(b[i := l], h) == Count(b, h) - (if b[i] == h then 1 else 0) + (if l == h then 1 else 0) {
      CountUpdate(b, i, l, h);
    }
  }

  lemma {:induction false} FillRoomy(gs: seq<Gid>, a: seq<Gid>, i: nat, k: nat)
    requires gs != [] && Ascending(gs) && k < i <= |a| && a[k] !in gs
    ensures Roomy(gs, Fill(gs, a, i), Fill(gs, a, i)[k])
  {
    var b := Fill(gs, a, i - 1);
    if k < i - 1 { FillRoomy(gs, a, i - 1, k); }
    if b[i - 1] !in gs { PlaceRoomy(gs, b, i - 1, if k < i - 1 then b[k] else Least(gs, b)); }
  }

  lemma RoomyKeeps(gs: seq<Gid>, b: seq<Gid>, g: Gid)
    requires gs != [] && Ascending(gs) && Roomy(gs, b, g)
    ensures Keeps(gs, b, g)
  {
    MostIs(gs, b);
    NoneOver(gs, b);
  }

  // ---------- the even loads, and who has moved ----------

  // The shards that a had on no group are where b put them, on groups that give none.
  ghost predicate Resting(gs: seq<Gid>, a: seq<Gid>, b: seq<Gid>, c: seq<Gid>)
    requires gs != [] && |a| == |b| == |c|
  {
    forall k :: 0 <= k < |a| && a[k] !in gs ==> c[k] == b[k] && Keeps(gs, c, c[k])
  }

  lemma ShiftResting(gs: seq<Gid>, a: seq<Gid>, b: seq<Gid>, c: seq<Gid>)
    requires gs != [] && Ascending(gs) && OnMembers(gs, c) && Uneven(gs, c) && |a| == |b| == |c| && Resting(gs, a, b, c)
    ensures Most(gs, c) in c && Resting(gs, a, b, Shifted(gs, c))
  {
    MostGives(gs, c);
    ShiftCounts(gs, c, 0);
    forall k | 0 <= k < |a| && a[k] !in gs ensures Shifted(gs, c)[k] == b[k] && Keeps(gs, Shifted(gs, c), b[k]) {
      KeepsOn(gs, c, c[k]);
    }
  }

  lemma {:induction false} EvenResting(gs: seq<Gid>, a: seq<Gid>, b: seq<Gid>, c: seq<Gid>)
    requires gs != [] && Ascending(gs) && OnMembers(gs, c) && |a| == |b| == |c| && Resting(gs, a, b, c)
    ensures Resting(gs, a, b, Even(gs, c))
    decreases Needed(gs, c)
  {
    if Uneven(gs, c) {
      ShiftNeeded(gs, c);
      ShiftCounts(gs, c, 0);
      ShiftResting(gs, a, b, c);
      EvenResting(gs, a, b, Shifted(gs, c));
    }
  }

  // All that differs between b and t are shards that a had on members.
  lemma {:induction false} MovesDiffer(gs: seq<Gid>, a: seq<Gid>, b: seq<Gid>, t: seq<Gid>)
    requires |a| == |b| == |t|
    requires forall k :: 0 <= k < |a| ==> if a[k] in gs then b[k] == a[k] else b[k] == t[k]
    ensures Moves(gs, a, t) == Differ(b, t)
  {
    if a != [] {
      var n := |a| - 1;
      MovesDiffer(gs, a[..n], b[..n], t[..n]);
    }
  }

  lemma {:induction false} SameCount(a: seq<Gid>, b: seq<Gid>, g: Gid)
    requires |a| == |b| && forall k :: 0 <= k < |a| ==> (a[k] == g <==> b[k] == g)
    ensures Count(a, g) == Count(b, g)
  {
    if a != [] { SameCount(a[..|a| - 1], b[..|b| - 1], g); }
  }

  // b is a with the shards of no member put on groups with room.
  ghost predicate Completes(gs: seq<Gid>, a: seq<Gid>, b: seq<Gid>)
    requires gs != []
  {
    |a| == |b| && OnMembers(gs, b) &&
    forall k :: 0 <= k < |a| ==> if a[k] in gs then b[k] == a[k] else Keeps(gs, b, b[k])
  }

  // A group with more than its share and one, or with more than its share while others
  // have less, has got none of them.
  lemma NoneTaken(gs: seq<Gid>, a: seq<Gid>, b: seq<Gid>, g: Gid)
    requires gs != [] && Completes(gs, a, b) && g in gs
    requires !Keeps(gs, b, g)
    ensures Count(b, g) == Count(a, g)
  {
    SameCount(a, b, g);
  }

  // Filling adds nothing to what must move.
  lemma NeededIsMust(gs: seq<Gid>, a: seq<Gid>, b: seq<Gid>)
    requires gs != [] && Ascending(gs) && Completes(gs, a, b)
    ensures Needed(gs, b) <= MustMove(gs, a)
  {
    var q := |a| / |gs|;
    forall g | g in gs ensures Excess(b, q)(g) <= Excess(a, q)(g) {
      if Count(b, g) > q + 1 { NoneTaken(gs, a, b, g); }
    }
    SumBelow(gs, Excess(b, q), Excess(a, q));
    if Under(gs, b) > 0 {
      forall g | g in gs ensures Excess(b, q - 1)(g) <= Excess(a, q - 1)(g) {
        if Count(b, g) > q { NoneTaken(gs, a, b, g); }
      }
      SumBelow(gs, Excess(b, q - 1), Excess(a, q - 1));
      AboveShare(gs, b);
      SumPlus(gs, Above(b, q), Shortfall(b, q), Excess(b, q - 1));
    } else {
      NoneOver(gs, a);
    }
  }

  // Rebalance leaves a shard of a member where it is unless some shard must go: it moves
  // exactly as many as the old loads force, and no even assignment moves fewer. The
  // shards of no member it puts where they stay.
  lemma RebalancedFewest(keys: set<Gid>, a: seq<Gid>)
    requires keys != {}
    ensures var gs := Gids(keys); var b := Rebalanced(keys, a);
      && Balanced(gs, b) && Moves(gs, a, b) == MustMove(gs, a)
      && forall t :: |t| == |a| && Balanced(gs, t) ==> Moves(gs, a, t) >= Moves(gs, a, b)
  {
    var gs := Gids(keys);
    var b := Fill(gs, a, |a|);
    FillMembers(gs, a);
    forall k | 0 <= k < |a| ensures if a[k] in gs then b[k] == a[k] else Keeps(gs, b, b[k]) {
      FillKeeps(gs, a, |a|, k);
      if a[k] !in gs {
        FillRoomy(gs, a, |a|, k);
        RoomyKeeps(gs, b, b[k]);
      }
    }
    EvenBest(gs, b);
    EvenResting(gs, a, b, b);
    MovesDiffer(gs, a, b, Even(gs, b));
    NeededIsMust(gs, a, b);
    forall t | |t| == |a| && Balanced(gs, t) ensures Moves(gs, a, t) >= MustMove(gs, a) { MoveAtLeast(gs, a, t); }
  }

  lemma {:induction false} MovesZero(gs: seq<Gid>, a: seq<Gid>, t: seq<Gid>)
    requires |a| == |t| && forall k :: 0 <= k < |a| && a[k] in gs ==> t[k] == a[k]
    ensures Moves(gs, a, t) == 0
  {
    if a != [] { MovesZero(gs, a[..|a| - 1], t[..|a| - 1]); }
  }

  // All shards of members stay exactly if the old loads force none of them out.
  lemma RebalancedStays(keys: set<Gid>, a: seq<Gid>)
    requires keys != {}
    ensures (forall k :: 0 <= k < |a| && a[k] in keys ==> Rebalanced(keys, a)[k] == a[k]) <==> MustMove(Gids(keys), a) == 0
  {
    var gs := Gids(keys);
    var b := Rebalanced(keys, a);
    RebalancedFewest(keys, a);
    if MustMove(gs, a) == 0 {
      forall k | 0 <= k < |a| && a[k] in keys ensures b[k] == a[k] { MovesNone(gs, a, b, k); }
    } else if forall k :: 0 <= k < |a| && a[k] in keys ==> b[k] == a[k] {
      MovesZero(gs, a, b);
    }
  }

  lemma NoneForced(gs: seq<Gid>, a: seq<Gid>)
    requires gs != [] && forall g :: g in gs ==> Count(a, g) <= |a| / |gs|
    ensures MustMove(gs, a) == 0
  {
    var q := |a| / |gs|;
    SumConst(gs, 0);
    SumSame(gs, Excess(a, q), _ => 0);
    SumSame(gs, Excess(a, q - 1), _ => 0);
  }

  // In particular when no member has more shards than its share.
  lemma RebalancedKeeps(keys: set<Gid>, a: seq<Gid>, k: nat)
    requires keys != {} && k < |a| && a[k] in keys
    requires forall g :: g in keys ==> Count(a, g) <= |a| / |Gids(keys)|
    ensures Rebalanced(keys, a)[k] == a[k]
  {
    NoneForced(Gids(keys), a);
    RebalancedStays(keys, a);
  }
}
