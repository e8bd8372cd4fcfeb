// Even assignments of shards to groups: how many shards must move, and how the
// repeated move from a most to a least loaded group gets there.
module Balance {

  type Gid = int

  function Count(a: seq<Gid>, g: Gid): nat {
    if a == [] then 0 else Count(a[..|a| - 1], g) + (if a[|a| - 1] == g then 1 else 0)
  }

  function Differ(a: seq<Gid>, b: seq<Gid>): nat
    requires |a| == |b|
  {
    if a == [] then 0 else Differ(a[..|a| - 1], b[..|b| - 1]) + (if a[|a| - 1] != b[|b| - 1] then 1 else 0)
  }

  function Sum(gs: seq<Gid>, f: Gid -> int): int {
    if gs == [] then 0 else Sum(gs[..|gs| - 1], f) + f(gs[|gs| - 1])
  }

  // The groups of a configuration in ascending order.
  ghost predicate Ascending(gs: seq<Gid>) {
    forall i, j :: 0 <= i < j < |gs| ==> gs[i] < gs[j]
  }

  ghost predicate OnMembers(gs: seq<Gid>, a: seq<Gid>) {
    forall i :: 0 <= i < |a| ==> a[i] in gs
  }

  // Every shard on a member group, and the groups' loads at most one apart.
  ghost predicate Balanced(gs: seq<Gid>, a: seq<Gid>) {
    && OnMembers(gs, a)
    && forall g, h :: g in gs && h in gs ==> Count(a, g) <= Count(a, h) + 1
  }

  // ---------- most and least loaded ----------

  // The most loaded group, the smallest such id.
  ghost predicate IsMost(gs: seq<Gid>, a: seq<Gid>, m: Gid) {
    m in gs && forall g :: g in gs ==> Count(a, g) < Count(a, m) || (Count(a, g) == Count(a, m) && m <= g)
  }

  ghost predicate IsLeast(gs: seq<Gid>, a: seq<Gid>, l: Gid) {
    l in gs && forall g :: g in gs ==> Count(a, g) > Count(a, l) || (Count(a, g) == Count(a, l) && l <= g)
  }

  function Most(gs: seq<Gid>, a: seq<Gid>): Gid
    requires gs != []
  {
    if |gs| == 1 then gs[0]
    else
      var m := Most(gs[..|gs| - 1], a);
      if Count(a, gs[|gs| - 1]) > Count(a, m) then gs[|gs| - 1] else m
  }

  function Least(gs: seq<Gid>, a: seq<Gid>): Gid
    requires gs != []
  {
    if |gs| == 1 then gs[0]
    else
      var l := Least(gs[..|gs| - 1], a);
      if Count(a, gs[|gs| - 1]) < Count(a, l) then gs[|gs| - 1] else l
  }

  lemma MostOn(gs: seq<Gid>, a: seq<Gid>, x: Gid, m: Gid)
    requires IsMost(gs, a, m) && forall g :: g in gs ==> g < x
    ensures IsMost(gs + [x], a, if Count(a, x) > Count(a, m) then x else m)
  {
  }

  lemma LeastOn(gs: seq<Gid>, a: seq<Gid>, x: Gid, l: Gid)
    requires IsLeast(gs, a, l) && forall g :: g in gs ==> g < x
    ensures IsLeast(gs + [x], a, if Count(a, x) < Count(a, l) then x else l)
  {
  }

  lemma {:induction false} MostIs(gs: seq<Gid>, a: seq<Gid>)
    requires gs != [] && Ascending(gs)
    ensures IsMost(gs, a, Most(gs, a)) && IsLeast(gs, a, Least(gs, a))
  {
    if |gs| > 1 {
      var rest, x := gs[..|gs| - 1], gs[|gs| - 1];
      MostIs(rest, a);
      MostOn(rest, a, x, Most(rest, a));
      LeastOn(rest, a, x, Least(rest, a));
      assert gs == rest + [x];
    }
  }

  // ---------- counting ----------

  lemma {:induction false} CountUpdate(a: seq<Gid>, i: nat, l: Gid, g: Gid)
    requires i < |a|
    ensures Count(a[i := l], g) == Count(a, g) - (if a[i] == g then 1 else 0) + (if l == g then 1 else 0)
  {
    var n := |a| - 1;
    if i == n {
      assert a[i := l][..n] == a[..n];
    } else {
      assert a[i := l][..n] == a[..n][i := l];
      CountUpdate(a[..n], i, l, g);
    }
  }

  lemma {:induction false} CountIn(a: seq<Gid>, g: Gid)
    ensures Count(a, g) > 0 <==> g in a
    ensures Count(a, g) <= |a|
  {
    if a != [] {
      CountIn(a[..|a| - 1], g);
      assert a == a[..|a| - 1] + [a[|a| - 1]];
    }
  }

  lemma {:induction false} DifferUpdate(s: seq<Gid>, a: seq<Gid>, i: nat, l: Gid)
    requires |s| == |a| && i < |a|
    ensures Differ(s, a[i := l]) == Differ(s, a) - (if s[i] != a[i] then 1 else 0) + (if s[i] != l then 1 else 0)
  {
    var n := |a| - 1;
    if i == n {
      assert a[i := l][..n] == a[..n];
    } else {
      assert a[i := l][..n] == a[..n][i := l];
      DifferUpdate(s[..n], a[..n], i, l);
    }
  }

  lemma {:induction false} DifferSelf(a: seq<Gid>)
    ensures Differ(a, a) == 0
  {
    if a != [] { DifferSelf(a[..|a| - 1]); }
  }

  // ---------- sums over the groups ----------

  lemma {:induction false} SumSame(gs: seq<Gid>, f: Gid -> int, h: Gid -> int)
    requires forall g :: g in gs ==> f(g) == h(g)
    ensures Sum(gs, f) == Sum(gs, h)
  {
    if gs != [] {
      var n := |gs| - 1;
      var x := gs[n];
      assert x in gs && f(x) == h(x);
      SumSame(gs[..n], f, h);
    }
  }

  // f and h differ at x only.
  lemma {:induction false} SumChange(gs: seq<Gid>, f: Gid -> int, h: Gid -> int, x: Gid)
    requires Ascending(gs) && x in gs
    requires forall g :: g in gs && g != x ==> f(g) == h(g)
    ensures Sum(gs, h) == Sum(gs, f) + h(x) - f(x)
  {
    var n := |gs| - 1;
    if gs[n] == x {
      SumSame(gs[..n], f, h);
    } else {
      assert gs == gs[..n] + [gs[n]];
      assert gs[n] in gs;
      SumChange(gs[..n], f, h, x);
    }
  }

  lemma SumChangeTwo(gs: seq<Gid>, f: Gid -> int, h: Gid -> int, x: Gid, y: Gid)
    requires Ascending(gs) && x in gs && y in gs && x != y
    requires forall g :: g in gs && g != x && g != y ==> f(g) == h(g)
    ensures Sum(gs, h) == Sum(gs, f) + h(x) - f(x) + h(y) - f(y)
  {
    var k := g => if g == x then h(x) else f(g);
    SumChange(gs, f, k, x);
    SumChange(gs, k, h, y);
  }

  lemma {:induction false} SumBelow(gs: seq<Gid>, f: Gid -> int, h: Gid -> int)
    requires forall g :: g in gs ==> f(g) <= h(g)
    ensures Sum(gs, f) <= Sum(gs, h)
    ensures (exists g :: g in gs && f(g) < h(g)) ==> Sum(gs, f) < Sum(gs, h)
  {
    if gs != [] {
      var n := |gs| - 1;
      assert gs == gs[..n] + [gs[n]];
      var x := gs[n];
      assert x in gs && f(x) <= h(x);
      SumBelow(gs[..n], f, h);
    }
  }

  lemma {:induction false} SumConst(gs: seq<Gid>, c: int)
    ensures Sum(gs, _ => c) == |gs| * c
  {
    if gs != [] { SumConst(gs[..|gs| - 1], c); }
  }

  function Load(a: seq<Gid>): Gid -> int { g => Count(a, g) }
  function Excess(a: seq<Gid>, q: int): Gid -> int { g => if Count(a, g) > q + 1 then Count(a, g) - (q + 1) else 0 }
  function Shortfall(a: seq<Gid>, q: int): Gid -> int { g => if Count(a, g) < q then q - Count(a, g) else 0 }

  // All loads together are all the shards.
  lemma {:induction false} LoadsTotal(gs: seq<Gid>, a: seq<Gid>)
    requires Ascending(gs) && OnMembers(gs, a)
    ensures Sum(gs, Load(a)) == |a|
  {
    if a == [] {
      SumConst(gs, 0);
      SumSame(gs, Load(a), _ => 0);
    } else {
      var n := |a| - 1;
      LoadsTotal(gs, a[..n]);
      SumChange(gs, Load(a[..n]), Load(a), a[n]);
    }
  }

  // ---------- the moves needed ----------

  function Share(gs: seq<Gid>, a: seq<Gid>): nat
    requires gs != []
  {
    |a| / |gs|
  }

  function Over(gs: seq<Gid>, a: seq<Gid>): int
    requires gs != []
  {
    Sum(gs, Excess(a, Share(gs, a)))
  }

  function Under(gs: seq<Gid>, a: seq<Gid>): int
    requires gs != []
  {
    Sum(gs, Shortfall(a, Share(gs, a)))
  }

  function Needed(gs: seq<Gid>, a: seq<Gid>): int
    requires gs != []
  {
    if Over(gs, a) > Under(gs, a) then Over(gs, a) else Under(gs, a)
  }

  lemma ShareBounds(n: nat, k: nat)
    requires k > 0
    ensures k * (n / k) <= n < k * (n / k + 1)
  {
    assert n == k * (n / k) + n % k;
    assert k * (n / k + 1) == k * (n / k) + k;
  }

  // If every load is above q, or none is, or some is below and none above, the total tells.
  lemma LoadsAbove(gs: seq<Gid>, a: seq<Gid>, q: int)
    requires Ascending(gs) && OnMembers(gs, a)
    requires forall g :: g in gs ==> Count(a, g) >= q
    ensures |a| >= |gs| * q
  {
    LoadsTotal(gs, a);
    SumConst(gs, q);
    SumBelow(gs, _ => q, Load(a));
  }

  lemma LoadsBelow(gs: seq<Gid>, a: seq<Gid>, q: int)
    requires Ascending(gs) && OnMembers(gs, a)
    requires forall g :: g in gs ==> Count(a, g) <= q
    ensures |a| <= |gs| * q
    ensures (exists g :: g in gs && Count(a, g) < q) ==> |a| < |gs| * q
  {
    LoadsTotal(gs, a);
    SumConst(gs, q);
    SumBelow(gs, Load(a), _ => q);
    if g :| g in gs && Count(a, g) < q { assert Load(a)(g) < q; }
  }

  // The least loaded group has at most the share; the most loaded has more, unless all
  // have exactly the share.
  lemma AroundShare(gs: seq<Gid>, a: seq<Gid>)
    requires gs != [] && Ascending(gs) && OnMembers(gs, a)
    ensures var q := Share(gs, a);
      && Count(a, Least(gs, a)) <= q
      && (Count(a, Most(gs, a)) > q || forall g :: g in gs ==> Count(a, g) == q)
  {
    var q := Share(gs, a);
    MostIs(gs, a);
    ShareBounds(|a|, |gs|);
    if Count(a, Least(gs, a)) > q {
      LoadsAbove(gs, a, q + 1);
    }
    if Count(a, Most(gs, a)) <= q {
      LoadsBelow(gs, a, q);
    }
  }

  // The first shard of group m.
  function First(a: seq<Gid>, m: Gid): (i: nat)
    requires m in a
    ensures i < |a| && a[i] == m && m !in a[..i]
  {
    if a[0] == m then 0 else 1 + First(a[1..], m)
  }

  ghost predicate Uneven(gs: seq<Gid>, a: seq<Gid>)
    requires gs != []
  {
    Count(a, Most(gs, a)) >= Count(a, Least(gs, a)) + 2
  }

  // One shard from the most to the least loaded group.
  function Shifted(gs: seq<Gid>, a: seq<Gid>): seq<Gid>
    requires gs != [] && Most(gs, a) in a
  {
    a[First(a, Most(gs, a)) := Least(gs, a)]
  }

  lemma ShiftCounts(gs: seq<Gid>, a: seq<Gid>, g: Gid)
    requires gs != [] && Ascending(gs) && OnMembers(gs, a) && Uneven(gs, a)
    ensures Most(gs, a) in a && |Shifted(gs, a)| == |a| && OnMembers(gs, Shifted(gs, a))
    ensures Most(gs, a) in gs && Least(gs, a) in gs && Most(gs, a) != Least(gs, a)
    ensures var m := Most(gs, a); var l := Least(gs, a);
      Count(Shifted(gs, a), g) == Count(a, g) - (if g == m then 1 else 0) + (if g == l then 1 else 0)
  {
    MostIs(gs, a);
    CountIn(a, Most(gs, a));
    CountUpdate(a, First(a, Most(gs, a)), Least(gs, a), g);
  }

  // Each move brings the number still needed down by exactly one.
  lemma ShiftNeeded(gs: seq<Gid>, a: seq<Gid>)
    requires gs != [] && Ascending(gs) && OnMembers(gs, a) && Uneven(gs, a)
    ensures Most(gs, a) in a && Needed(gs, Shifted(gs, a)) == Needed(gs, a) - 1 && Needed(gs, a) > 0
  {
    var q := Share(gs, a);
    var m, l := Most(gs, a), Least(gs, a);
    MostIs(gs, a);
    AroundShare(gs, a);
    ShiftCounts(gs, a, m);
    ShiftCounts(gs, a, l);
    var b := Shifted(gs, a);
    forall g ensures Count(b, g) == Count(a, g) - (if g == m then 1 else 0) + (if g == l then 1 else 0) {
      ShiftCounts(gs, a, g);
    }
    SumChangeTwo(gs, Excess(a, q), Excess(b, q), m, l);
    SumChangeTwo(gs, Shortfall(a, q), Shortfall(b, q), m, l);
    NoneOver(gs, a);
    NeededNat(gs, b);
  }

  // If the most loaded group is not over, nothing is; if the least is not under, nothing is.
  lemma NoneOver(gs: seq<Gid>, a: seq<Gid>)
    requires gs != [] && Ascending(gs)
    ensures Over(gs, a) >= 0 && Under(gs, a) >= 0
    ensures Count(a, Most(gs, a)) <= Share(gs, a) + 1 <==> Over(gs, a) == 0
    ensures Count(a, Least(gs, a)) >= Share(gs, a) <==> Under(gs, a) == 0
  {
    var q := Share(gs, a);
    MostIs(gs, a);
    SumConst(gs, 0);
    SumBelow(gs, _ => 0, Excess(a, q));
    SumBelow(gs, _ => 0, Shortfall(a, q));
    if Count(a, Most(gs, a)) <= q + 1 { SumBelow(gs, Excess(a, q), _ => 0); }
    if Count(a, Least(gs, a)) >= q { SumBelow(gs, Shortfall(a, q), _ => 0); }
  }

  lemma NeededNat(gs: seq<Gid>, a: seq<Gid>)
    requires gs != [] && Ascending(gs)
    ensures Needed(gs, a) >= 0
  {
    NoneOver(gs, a);
  }

  // ---------- balancing ----------

  // Shards moved one by one until the loads are even.
  ghost function Even(gs: seq<Gid>, a: seq<Gid>): (b: seq<Gid>)
    requires gs != [] && Ascending(gs) && OnMembers(gs, a)
    ensures |b| == |a|
    decreases Needed(gs, a)
  {
    if !Uneven(gs, a) then a
    else
      ShiftNeeded(gs, a);
      ShiftCounts(gs, a, 0);
      Even(gs, Shifted(gs, a))
  }

  lemma {:induction false} EvenIsBalanced(gs: seq<Gid>, a: seq<Gid>)
    requires gs != [] && Ascending(gs) && OnMembers(gs, a)
    ensures Balanced(gs, Even(gs, a))
    decreases Needed(gs, a)
  {
    if Uneven(gs, a) {
      ShiftNeeded(gs, a);
      ShiftCounts(gs, a, 0);
      EvenIsBalanced(gs, Shifted(gs, a));
    } else {
      MostIs(gs, a);
    }
  }

  // The moved shards are in groups that will not give one: such a group has at most one
  // over the share, and then no group is below the share any more.
  ghost predicate Settled(gs: seq<Gid>, s: seq<Gid>, a: seq<Gid>)
    requires gs != [] && |s| == |a|
  {
    forall i :: 0 <= i < |a| && a[i] != s[i] ==> Keeps(gs, a, a[i])
  }

  ghost predicate Keeps(gs: seq<Gid>, a: seq<Gid>, g: Gid)
    requires gs != []
  {
    Count(a, g) <= Share(gs, a) || (Count(a, g) == Share(gs, a) + 1 && Under(gs, a) == 0)
  }

  lemma MostGives(gs: seq<Gid>, a: seq<Gid>)
    requires gs != [] && Ascending(gs) && OnMembers(gs, a) && Uneven(gs, a)
    ensures !Keeps(gs, a, Most(gs, a))
  {
    MostIs(gs, a);
    AroundShare(gs, a);
    NoneOver(gs, a);
  }

  lemma KeepsOn(gs: seq<Gid>, a: seq<Gid>, g: Gid)
    requires gs != [] && Ascending(gs) && OnMembers(gs, a) && Uneven(gs, a)
    requires Keeps(gs, a, g) || g == Least(gs, a)
    ensures Most(gs, a) in a && Keeps(gs, Shifted(gs, a), g)
  {
    MostGives(gs, a);
    AroundShare(gs, a);
    NoneOver(gs, a);
    ShiftCounts(gs, a, g);
    if Count(a, Least(gs, a)) >= Share(gs, a) { ShiftUnder(gs, a); }
  }

  lemma ShiftSettled(gs: seq<Gid>, s: seq<Gid>, a: seq<Gid>)
    requires gs != [] && Ascending(gs) && OnMembers(gs, a) && Uneven(gs, a) && |s| == |a| && Settled(gs, s, a)
    ensures Most(gs, a) in a && Settled(gs, s, Shifted(gs, a)) && Differ(s, Shifted(gs, a)) == Differ(s, a) + 1
  {
    var m, l := Most(gs, a), Least(gs, a);
    MostGives(gs, a);
    ShiftCounts(gs, a, m);
    var b := Shifted(gs, a);
    var i := First(a, m);
    assert s[i] == a[i];
    DifferUpdate(s, a, i, l);
    forall k | 0 <= k < |b| && b[k] != s[k] ensures Keeps(gs, b, b[k]) {
      KeepsOn(gs, a, b[k]);
    }
  }

  // A move that fills a group past the share finds none below it.
  lemma ShiftUnder(gs: seq<Gid>, a: seq<Gid>)
    requires gs != [] && Ascending(gs) && OnMembers(gs, a) && Uneven(gs, a) && Count(a, Least(gs, a)) >= Share(gs, a)
    ensures Most(gs, a) in a && Under(gs, a) == 0 && Under(gs, Shifted(gs, a)) == 0
  {
    NoneOver(gs, a);
    ShiftCounts(gs, a, 0);
    MostIs(gs, a);
    var b := Shifted(gs, a);
    MostIs(gs, b);
    ShiftCounts(gs, a, Least(gs, b));
    NoneOver(gs, b);
  }

  // No shard moves twice: the number of shards that end up elsewhere is the number of
  // moves, which is the number needed.
  lemma {:induction false} EvenMoves(gs: seq<Gid>, s: seq<Gid>, a: seq<Gid>)
    requires gs != [] && Ascending(gs) && OnMembers(gs, a) && |s| == |a| && Settled(gs, s, a)
    ensures Differ(s, Even(gs, a)) == Differ(s, a) + Needed(gs, a)
    decreases Needed(gs, a)
  {
    if Uneven(gs, a) {
      ShiftNeeded(gs, a);
      ShiftCounts(gs, a, 0);
      ShiftSettled(gs, s, a);
      EvenMoves(gs, s, Shifted(gs, a));
    } else {
      MostIs(gs, a);
      AroundShare(gs, a);
      LeastNotUnder(gs, a);
      NoneOver(gs, a);
    }
  }

  lemma LeastNotUnder(gs: seq<Gid>, a: seq<Gid>)
    requires gs != [] && Ascending(gs) && OnMembers(gs, a) && !Uneven(gs, a)
    ensures Count(a, Least(gs, a)) == Share(gs, a) && Count(a, Most(gs, a)) <= Share(gs, a) + 1
  {
    var q := Share(gs, a);
    MostIs(gs, a);
    AroundShare(gs, a);
    ShareBounds(|a|, |gs|);
    if Count(a, Least(gs, a)) < q { LoadsBelow(gs, a, q); }
  }

  lemma BalancedLoads(gs: seq<Gid>, t: seq<Gid>, g: Gid)
    requires gs != [] && Ascending(gs) && Balanced(gs, t) && g in gs
    ensures Share(gs, t) <= Count(t, g) <= Share(gs, t) + 1
  {
    MostIs(gs, t);
    LeastNotUnder(gs, t);
  }

  // What group g loses from a to t, and gains.
  function Losses(a: seq<Gid>, t: seq<Gid>): Gid -> int {
    g => if Count(a, g) > Count(t, g) then Count(a, g) - Count(t, g) else 0
  }

  // Every shard that changes group is one lost somewhere.
  lemma {:induction false} LossesDiffer(gs: seq<Gid>, a: seq<Gid>, t: seq<Gid>)
    requires Ascending(gs) && OnMembers(gs, a) && OnMembers(gs, t) && |a| == |t|
    ensures Sum(gs, Losses(a, t)) <= Differ(a, t)
  {
    if a == [] {
      SumConst(gs, 0);
      SumSame(gs, Losses(a, t), _ => 0);
    } else {
      var n := |a| - 1;
      LossesDiffer(gs, a[..n], t[..n]);
      if a[n] == t[n] {
        SumSame(gs, Losses(a, t), Losses(a[..n], t[..n]));
      } else {
        SumChangeTwo(gs, Losses(a[..n], t[..n]), Losses(a, t), a[n], t[n]);
      }
    }
  }

  lemma {:induction false} DifferBack(a: seq<Gid>, t: seq<Gid>)
    requires |a| == |t|
    ensures Differ(a, t) == Differ(t, a)
  {
    if a != [] { DifferBack(a[..|a| - 1], t[..|a| - 1]); }
  }

  // No balanced assignment is closer.
  lemma Fewest(gs: seq<Gid>, a: seq<Gid>, t: seq<Gid>)
    requires gs != [] && Ascending(gs) && OnMembers(gs, a) && |a| == |t| && Balanced(gs, t)
    ensures Differ(a, t) >= Needed(gs, a)
  {
    var q := Share(gs, a);
    forall g | g in gs ensures q <= Count(t, g) <= q + 1 { BalancedLoads(gs, t, g); }
    SumBelow(gs, Excess(a, q), Losses(a, t));
    LossesDiffer(gs, a, t);
    SumBelow(gs, Shortfall(a, q), Losses(t, a));
    LossesDiffer(gs, t, a);
    DifferBack(a, t);
  }

  // Balancing keeps to member groups, evens the loads, and moves as few shards as any
  // balanced assignment must, max(total excess over the share plus one, total shortfall).
  lemma EvenBest(gs: seq<Gid>, a: seq<Gid>)
    requires gs != [] && Ascending(gs) && OnMembers(gs, a)
    ensures Balanced(gs, Even(gs, a))
    ensures Differ(a, Even(gs, a)) == Needed(gs, a)
    ensures forall t :: |t| == |a| && Balanced(gs, t) ==> Differ(a, t) >= Needed(gs, a)
  {
    EvenIsBalanced(gs, a);
    DifferSelf(a);
    EvenMoves(gs, a, a);
    forall t | |t| == |a| && Balanced(gs, t) ensures Differ(a, t) >= Needed(gs, a) {
      Fewest(gs, a, t);
    }
  }
}
