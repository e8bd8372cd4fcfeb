// That the sharded store answers: exactly when a group does, and what a client of the group
// that the configuration names is told.
module ShardProgress {
  import opened Options
  import opened Kv
  import opened ShardGroup
  import opened ShardSystem
  import opened ShardProof
  import opened ShardTheorems
  import opened ShardCtrler

  // ---------- one group ----------

  // A group refuses the keys of the shards it does not serve, and no others.
  lemma RefusesExactly(h: Hash, g: Group, key: string, value: string, version: nat)
    requires h(key) < |g.status|
    ensures PutOp(h, g, key, value, version).1 == ErrWrongGroup <==> g.status[h(key)] != Serving
    ensures GetOp(h, g, key).err == ErrWrongGroup <==> g.status[h(key)] != Serving
  {
  }

  // ---------- the group that serves the key ----------

  // It performs a Put, and answers it, as the one map would.
  lemma ServedPut(h: Hash, w: World, g: Gid, key: string, value: string, version: nat)
    requires Inv(h, w) && Serves(w, g, h(key))
    ensures var v := Step(h, w, ClientPut(g, key, value, version));
      && HomesThere(h, w) && HomesThere(h, v)
      && (Abs(h, v), PutOp(h, w.groups[g], key, value, version).1) == Kv.Put(Abs(h, w), key, value, version)
  {
    RefusesExactly(h, w.groups[g], key, value, version);
    PutRefines(h, w, g, key, value, version);
  }

  lemma ServedGet(h: Hash, w: World, g: Gid, key: string)
    requires Inv(h, w) && Serves(w, g, h(key))
    ensures HomesThere(h, w) && GetOp(h, w.groups[g], key) == Kv.Get(Abs(h, w), key)
  {
    RefusesExactly(h, w.groups[g], key, "", 0);
    GetRefines(h, w, g, key);
  }

  // ---------- what the acknowledged Puts have made of a key ----------

  // The values that these Puts give the key, in order.
  function ValuesOf(puts: seq<Request>, key: string): seq<string> {
    if puts == [] then []
    else
      var p := puts[|puts| - 1];
      ValuesOf(puts[..|puts| - 1], key) + (if p.PutReq? && p.key == key then [p.value] else [])
  }

  lemma ValuesSnoc(puts: seq<Request>, p: Request, key: string)
    ensures ValuesOf(puts + [p], key) == ValuesOf(puts, key) + (if p.PutReq? && p.key == key then [p.value] else [])
  {
    assert (puts + [p])[..|puts|] == puts;
  }

  lemma PutHolds(t: Table, key: string, acked: seq<Request>, k: string, value: string, version: nat)
    requires Holds(t, key, ValuesOf(acked, key)) && Kv.Put(t, k, value, version).1 == OK
    ensures Holds(Kv.Put(t, k, value, version).0, key, ValuesOf(acked + [PutReq(k, value, version)], key))
  {
    ValuesSnoc(acked, PutReq(k, value, version), key);
    HoldsOn(t, key, ValuesOf(acked, key), k, value, version);
  }

  // An acknowledged Put is one that the one map takes.
  lemma AckedTakes(h: Hash, w: World, a: Action)
    requires Inv(h, w) && AckedPut(h, w, a) != []
    ensures HomesThere(h, w) && Kv.Put(Abs(h, w), a.key, a.value, a.version).1 == OK
    ensures AckedPut(h, w, a) == [PutReq(a.key, a.value, a.version)]
  {
    PutRefines(h, w, a.g, a.key, a.value, a.version);
  }

  lemma AckedHolds(h: Hash, w: World, a: Action, key: string, acked: seq<Request>)
    requires Inv(h, w) && HomesThere(h, w) && Holds(Abs(h, w), key, ValuesOf(acked, key))
    ensures HomesThere(h, Step(h, w, a)) && Holds(Abs(h, Step(h, w, a)), key, ValuesOf(acked + AckedPut(h, w, a), key))
  {
    AbsStep(h, w, a);
    if AckedPut(h, w, a) == [] {
      assert acked + [] == acked;
    } else {
      AckedTakes(h, w, a);
      PutHolds(Abs(h, w), key, acked, a.key, a.value, a.version);
    }
  }

  // In every run: the map has of every key the last value acknowledged, at the version that
  // counts them.
  lemma {:induction false} AcknowledgedHold(u: Setup, acts: seq<Action>, key: string)
    requires HashOk(u.h, u.shards)
    ensures HomesThere(u.h, Exec(u, acts)) && Holds(Abs(u.h, Exec(u, acts)), key, ValuesOf(Acknowledged(u, acts), key))
    decreases |acts|
  {
    if acts == [] {
      OneMap(u, acts);
    } else {
      var before, a := acts[..|acts| - 1], acts[|acts| - 1];
      AcknowledgedHold(u, before, key);
      ExecInv(u, before);
      AckedHolds(u.h, Exec(u, before), a, key, Acknowledged(u, before));
    }
  }

  // ---------- what a client is told ----------

  // In every run the group that serves a key answers a Get with the last value acknowledged,
  // and with ErrNoKey exactly if there is none.
  lemma ServedGetTells(u: Setup, acts: seq<Action>, g: Gid, key: string)
    requires HashOk(u.h, u.shards) && Serves(Exec(u, acts), g, u.h(key))
    ensures GetOp(u.h, Exec(u, acts).groups[g], key) == Latest(ValuesOf(Acknowledged(u, acts), key))
  {
    ExecInv(u, acts);
    AcknowledgedHold(u, acts, key);
    ServedGet(u.h, Exec(u, acts), g, key);
    HoldsTells(Abs(u.h, Exec(u, acts)), key, ValuesOf(Acknowledged(u, acts), key));
  }

  // And it acknowledges a Put exactly if it names the number of those acknowledged before.
  lemma ServedPutAcknowledged(u: Setup, acts: seq<Action>, g: Gid, key: string, value: string, version: nat)
    requires HashOk(u.h, u.shards) && Serves(Exec(u, acts), g, u.h(key))
    ensures var before := Acknowledged(u, acts);
      Acknowledged(u, acts + [ClientPut(g, key, value, version)])
        == if version == |ValuesOf(before, key)| then before + [PutReq(key, value, version)] else before
  {
    var w := Exec(u, acts);
    var before := Acknowledged(u, acts);
    ExecInv(u, acts);
    AcknowledgedHold(u, acts, key);
    ServedPut(u.h, w, g, key, value, version);
    AcceptsCurrent(Abs(u.h, w), key, value, version, ValuesOf(before, key));
    var more := acts + [ClientPut(g, key, value, version)];
    assert more[..|acts|] == acts;
    assert before + [] == before;
  }

  lemma AcceptsCurrent(t: Table, key: string, value: string, version: nat, values: seq<string>)
    requires Holds(t, key, values)
    ensures Kv.Put(t, key, value, version).1 == OK <==> version == |values|
  {
  }

  // With nothing pending the group that the configuration names for a key serves it: so a
  // client that asks it, and names what it was told, has its Put acknowledged.
  lemma NamedAccepts(u: Setup, acts: seq<Action>, key: string, value: string)
    requires HashOk(u.h, u.shards) && Newest(Exec(u, acts)) == Exec(u, acts).cfg.num
    ensures u.h(key) < |Exec(u, acts).cfg.owner|
    ensures var w := Exec(u, acts); var g := w.cfg.owner[u.h(key)]; Serves(w, g, u.h(key))
    ensures var w := Exec(u, acts); var g := w.cfg.owner[u.h(key)]; var got := GetOp(u.h, w.groups[g], key);
      && (got.err == OK || got.err == ErrNoKey)
      && Acknowledged(u, acts + [ClientPut(g, key, value, got.version)]) == Acknowledged(u, acts) + [PutReq(key, value, got.version)]
  {
    var w := Exec(u, acts);
    ExecInv(u, acts);
    AllServing(u.h, w, w.cfg);
    var g := w.cfg.owner[u.h(key)];
    ServedGetTells(u, acts, g, key);
    ServedPutAcknowledged(u, acts, g, key, value, GetOp(u.h, w.groups[g], key).version);
  }
}
