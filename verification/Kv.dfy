// The versioned key/value store: rpc types and the compare-and-swap both the
// single server (kvsrv1) and the replicated one (kvraft1) perform.
module Kv {

  datatype Err = OK | ErrNoKey | ErrVersion | ErrMaybe | ErrWrongLeader | ErrWrongGroup | ErrStaleNum

  datatype Row = Row(value: string, version: nat)

  type Table = map<string, Row>

  datatype Request = GetReq(key: string) | PutReq(key: string, value: string, version: nat)

  datatype Reply = GetReply(value: string, version: nat, err: Err) | PutReply(err: Err)

  // The value and version of an existing key; ErrNoKey otherwise.
  function Get(t: Table, key: string): Reply {
    if key in t then GetReply(t[key].value, t[key].version, OK) else GetReply("", 0, ErrNoKey)
  }

  // The version a key is at: a missing key counts as version 0.
  function VersionOf(t: Table, key: string): nat {
    if key in t then t[key].version else 0
  }

  // Install the value if the version matches.
  function Put(t: Table, key: string, value: string, version: nat): (Table, Err) {
    if key in t then
      if version == t[key].version then (t[key := Row(value, version + 1)], OK) else (t, ErrVersion)
    else
      if version != 0 then (t, ErrNoKey) else (t[key := Row(value, version + 1)], OK)
  }

  function DoOp(t: Table, req: Request): (Table, Reply) {
    match req
    case GetReq(key) => (t, Get(t, key))
    case PutReq(key, value, version) =>
      var (t', err) := Put(t, key, value, version);
      (t', PutReply(err))
  }

  // Stored versions are never 0, so version 0 always means "missing".
  ghost predicate Versioned(t: Table) {
    forall k :: k in t ==> t[k].version > 0
  }

  // A Put succeeds exactly when it names the current version; then the key moves
  // to the next version with the new value, and otherwise nothing changes.
  lemma PutExact(t: Table, key: string, value: string, version: nat)
    requires Versioned(t)
    ensures var (u, err) := Put(t, key, value, version);
      && Versioned(u)
      && (err == OK <==> version == VersionOf(t, key))
      && (err == OK ==> u == t[key := Row(value, VersionOf(t, key) + 1)])
      && (err != OK ==> u == t && (err == ErrNoKey <==> key !in t) && (err == ErrVersion <==> key in t))
  {
  }

  // ---------- what a Get tells ----------

  // The table has the last of the values that Puts have given a key, and as its version
  // how many there were.
  ghost predicate Holds(t: Table, key: string, values: seq<string>) {
    if values == [] then key !in t else key in t && t[key] == Row(values[|values| - 1], |values|)
  }

  // The answer to a Get of a key that Puts have given these values.
  function Latest(values: seq<string>): Reply {
    if values == [] then GetReply("", 0, ErrNoKey) else GetReply(values[|values| - 1], |values|, OK)
  }

  lemma HoldsTells(t: Table, key: string, values: seq<string>)
    requires Holds(t, key, values)
    ensures Get(t, key) == Latest(values) && VersionOf(t, key) == |values|
  {
  }

  lemma HoldsOn(t: Table, key: string, values: seq<string>, k: string, value: string, version: nat)
    requires Holds(t, key, values)
    ensures var (u, err) := Put(t, k, value, version);
      Holds(u, key, if err == OK && k == key then values + [value] else values)
  {
  }
}
