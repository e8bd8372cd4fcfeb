// One shard group: a key/value table, and for every shard a status and the number of
// the configuration that last changed it. A group is replicated by Raft; here it is
// the one atomic state machine that DoOp describes.
module ShardGroup {
  import opened Kv

  datatype Status = Absent | Serving | Frozen

  datatype Group = Group(table: Table, status: seq<Status>, nums: seq<nat>)

  // Which shard a key is in. The hash is a parameter: any function onto 0 .. shards-1.
  type Hash = string -> nat

  ghost predicate HashOk(h: Hash, shards: nat) {
    forall k: string :: h(k) < shards
  }

  ghost predicate GroupOk(g: Group, shards: nat) {
    |g.status| == |g.nums| == shards
  }

  // The group with id first owns every shard from the start, any other group none.
  function NewGroup(isFirst: bool, shards: nat): Group {
    Group(map[], seq(shards, _ => if isFirst then Serving else Absent), seq(shards, _ => 0))
  }

  // The part of a table that belongs to shard s.
  function Part(h: Hash, t: Table, s: nat): Table {
    map k | k in t && h(k) == s :: t[k]
  }

  function Without(h: Hash, t: Table, s: nat): Table {
    map k | k in t && h(k) != s :: t[k]
  }

  function SetShard(g: Group, s: nat, st: Status, num: nat): Group
    requires s < |g.status| == |g.nums|
  {
    g.(status := g.status[s := st], nums := g.nums[s := num])
  }

  function GetOp(h: Hash, g: Group, key: string): Reply
    requires h(key) < |g.status|
  {
    if g.status[h(key)] != Serving then GetReply("", 0, ErrWrongGroup) else Kv.Get(g.table, key)
  }

  function PutOp(h: Hash, g: Group, key: string, value: string, version: nat): (Group, Err)
    requires h(key) < |g.status|
  {
    if g.status[h(key)] != Serving then (g, ErrWrongGroup)
    else
      var (t, err) := Kv.Put(g.table, key, value, version);
      (g.(table := t), err)
  }

  datatype FreezeReply = FreezeReply(rows: Table, num: nat, err: Err)

  function FreezeOp(h: Hash, g: Group, s: nat, num: nat): (Group, FreezeReply)
    requires s < |g.status| == |g.nums|
  {
    if num < g.nums[s] || (num == g.nums[s] && g.status[s] != Frozen) then (g, FreezeReply(map[], g.nums[s], ErrStaleNum))
    else (SetShard(g, s, Frozen, num), FreezeReply(Part(h, g.table, s), g.nums[s], OK))
  }

  function InstallOp(g: Group, s: nat, rows: Table, num: nat): (Group, Err)
    requires s < |g.status| == |g.nums|
  {
    if g.nums[s] > num then (g, ErrStaleNum)
    else if g.nums[s] == num then (g, if g.status[s] != Serving then ErrStaleNum else OK)
    else (SetShard(g, s, Serving, num).(table := g.table + rows), OK)
  }

  function DeleteOp(h: Hash, g: Group, s: nat, num: nat): (Group, Err)
    requires s < |g.status| == |g.nums|
  {
    if num < g.nums[s] then (g, ErrStaleNum)
    else if num == g.nums[s] && g.status[s] == Absent then (g, OK)
    else if num == g.nums[s] && g.status[s] == Serving then (g, ErrStaleNum)
    else (SetShard(g, s, Absent, num).(table := Without(h, g.table, s)), OK)
  }
}
