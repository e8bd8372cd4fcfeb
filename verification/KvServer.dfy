// The two unsharded key/value servers: the single one, and the service that is
// replicated through Raft together with the reader loop that feeds it.
module KvServer {
  import opened Kv
  import opened RaftLog

  class KVServer {
    var table: Table

    constructor ()
      ensures table == map[]
    {
      table := map[];
    }

    method Get(key: string) returns (r: Reply)
      ensures r == Kv.Get(table, key)
      ensures if key in table then r == GetReply(table[key].value, table[key].version, OK) else r == GetReply("", 0, ErrNoKey)
    {
      if key in table {
        r := GetReply(table[key].value, table[key].version, OK);
      } else {
        r := GetReply("", 0, ErrNoKey);
      }
    }

    method Put(key: string, value: string, version: nat) returns (err: Err)
      modifies this
      ensures (table, err) == Kv.Put(old(table), key, value, version)
    {
      if key in table {
        if version == table[key].version {
          table := table[key := Row(value, version + 1)];
          err := OK;
        } else {
          err := ErrVersion;
        }
      } else {
        if version != 0 {
          return ErrNoKey;
        }
        table := table[key := Row(value, version + 1)];
        err := OK;
      }
    }

    method DoOp(req: Request) returns (r: Reply)
      modifies this
      ensures (table, r) == Kv.DoOp(old(table), req)
    {
      match req
      case GetReq(key) => r := Get(key);
      case PutReq(key, value, version) =>
        var err := Put(key, value, version);
        r := PutReply(err);
    }

    method Snapshot() returns (data: Table)
      ensures data == table
    {
      data := table;
    }

    method Restore(data: Table)
      modifies this
      ensures table == data
    {
      table := data;
    }
  }

  // What raft hands up: a committed command, or a snapshot through an index.
  datatype ApplyMsg = CommandMsg(index: nat, cmd: Command) | SnapshotMsg(index: nat, data: Table)

  // The table after a stream of deliveries.
  function Fed(t: Table, msgs: seq<ApplyMsg>): Table {
    if msgs == [] then t
    else
      var before := Fed(t, msgs[..|msgs| - 1]);
      match msgs[|msgs| - 1]
      case CommandMsg(_, cmd) => ApplyCmd(before, cmd)
      case SnapshotMsg(_, data) => data
  }

  // The index a stream of deliveries ends at.
  function EndIndex(i: nat, msgs: seq<ApplyMsg>): nat {
    if msgs == [] then i else msgs[|msgs| - 1].index
  }

  // Deliveries as raft makes them from index i of log: the next command, or a
  // snapshot of some later point.
  ghost predicate Stream(log: Log, i: nat, msgs: seq<ApplyMsg>) {
    msgs == [] ||
    (var before := msgs[..|msgs| - 1];
     var last := msgs[|msgs| - 1];
     && Stream(log, i, before) && last.index < |log|
     && match last
        case CommandMsg(k, cmd) => k == EndIndex(i, before) + 1 && cmd == log[k].cmd
        case SnapshotMsg(k, data) => k > EndIndex(i, before) && data == Replay(log, k))
  }

  // However a replica got to an index, by commands or by snapshots, its table is the
  // replay of the log through that index.
  lemma {:induction false} FedIsReplay(log: Log, i: nat, msgs: seq<ApplyMsg>)
    requires i < |log| && Stream(log, i, msgs)
    ensures EndIndex(i, msgs) < |log| && Fed(Replay(log, i), msgs) == Replay(log, EndIndex(i, msgs))
    decreases |msgs|
  {
    if msgs != [] {
      FedIsReplay(log, i, msgs[..|msgs| - 1]);
    }
  }

  // What a waiter's channel gets: the reply of a command, or ErrWrongLeader.
  datatype OpReply = Done(rep: Reply) | WrongLeader

  predicate Mine(me: nat, cmd: Command) {
    cmd.Op? && cmd.me == me
  }

  // The replies the waiter at index i gets on server me while a stream is delivered.
  function Replies(me: nat, t: Table, msgs: seq<ApplyMsg>, i: nat): seq<OpReply> {
    if msgs == [] then []
    else
      var before := msgs[..|msgs| - 1];
      var last := msgs[|msgs| - 1];
      if last.CommandMsg? && last.index == i && Mine(me, last.cmd)
      then Replies(me, t, before, i) + [Done(DoOp(Fed(t, before), last.cmd.req).1)]
      else Replies(me, t, before, i)
  }

  lemma FedOn(t: Table, msgs: seq<ApplyMsg>, msg: ApplyMsg)
    ensures Fed(t, msgs + [msg]) == Fed(Fed(t, msgs), [msg])
  {
    assert (msgs + [msg])[..|msgs|] == msgs && [msg][..0] == [];
  }

  lemma RepliesOn(me: nat, t: Table, msgs: seq<ApplyMsg>, msg: ApplyMsg, i: nat)
    ensures Replies(me, t, msgs + [msg], i) == Replies(me, t, msgs, i) + Replies(me, Fed(t, msgs), [msg], i)
  {
    assert (msgs + [msg])[..|msgs|] == msgs && [msg][..0] == [];
  }

  // The waiters of before, each with the replies of a stream added.
  ghost predicate Told(me: nat, t: Table, msgs: seq<ApplyMsg>, before: map<nat, seq<OpReply>>, after: map<nat, seq<OpReply>>) {
    after.Keys == before.Keys && forall i :: i in after ==> after[i] == before[i] + Replies(me, t, msgs, i)
  }

  lemma ToldOn(me: nat, t: Table, msgs: seq<ApplyMsg>, msg: ApplyMsg, x: map<nat, seq<OpReply>>, y: map<nat, seq<OpReply>>, z: map<nat, seq<OpReply>>)
    requires Told(me, t, msgs, x, y) && Told(me, Fed(t, msgs), [msg], y, z)
    ensures Told(me, t, msgs + [msg], x, z)
  {
    forall i | i in z ensures z[i] == x[i] + Replies(me, t, msgs + [msg], i) {
      assert i in y;
      RepliesOn(me, t, msgs, msg, i);
      Grouped(x[i], Replies(me, t, msgs, i), Replies(me, Fed(t, msgs), [msg], i));
    }
  }

  lemma Grouped(x: seq<OpReply>, y: seq<OpReply>, z: seq<OpReply>)
    ensures (x + y) + z == x + (y + z)
  {
  }

  // The command at index i comes as itself, not inside a snapshot.
  predicate Comes(msgs: seq<ApplyMsg>, i: nat) {
    exists k :: 0 <= k < |msgs| && msgs[k].CommandMsg? && msgs[k].index == i
  }

  lemma {:induction false} StreamBounds(log: Log, i: nat, msgs: seq<ApplyMsg>, k: nat)
    requires i < |log| && Stream(log, i, msgs) && k < |msgs|
    ensures i < msgs[k].index <= EndIndex(i, msgs)
    decreases |msgs|
  {
    var before := msgs[..|msgs| - 1];
    if k < |before| {
      StreamBounds(log, i, before, k);
    }
    if before != [] {
      StreamBounds(log, i, before, |before| - 1);
    }
  }

  // Whatever mix of commands and snapshots a replica is given, the waiter at an index gets
  // at most one reply: that of the command the log has there, made on the replay of the log
  // before it. It gets one exactly if that command is this server's and did not come
  // inside a snapshot.
  lemma {:induction false} OneReply(me: nat, log: Log, i: nat, msgs: seq<ApplyMsg>, j: nat)
    requires i < |log| && Stream(log, i, msgs)
    ensures Comes(msgs, j) ==> 0 < j < |log|
    ensures Replies(me, Replay(log, i), msgs, j) ==
            if Comes(msgs, j) && Mine(me, log[j].cmd) then [Done(DoOp(Replay(log, j - 1), log[j].cmd.req).1)] else []
    decreases |msgs|
  {
    if msgs != [] {
      var before, last := msgs[..|msgs| - 1], msgs[|msgs| - 1];
      OneReply(me, log, i, before, j);
      FedIsReplay(log, i, before);
      if last.CommandMsg? && last.index == j {
        assert msgs[|msgs| - 1] == last;
        if k :| 0 <= k < |before| && before[k].CommandMsg? && before[k].index == j {
          StreamBounds(log, i, before, k);
        }
      } else if k :| 0 <= k < |msgs| && msgs[k].CommandMsg? && msgs[k].index == j {
        assert before[k].index == j;
      }
    }
  }

  class Rsm {
    const me: nat
    const sm: KVServer
    // index -> what has been put into the waiter's channel
    var waiting: map<nat, seq<OpReply>>

    constructor (me: nat, sm: KVServer)
      ensures this.me == me && this.sm == sm && waiting == map[]
    {
      this.me, this.sm, waiting := me, sm, map[];
    }

    // A waiter is answered by index and server: by the reply of whatever command was
    // committed at its index, if this server proposed that command.
    method Answer(index: nat, op: Command, r: Reply)
      modifies this
      ensures waiting.Keys == old(waiting).Keys
      ensures forall i :: i in waiting ==>
        waiting[i] == if i == index && Mine(me, op) then old(waiting)[i] + [Done(r)] else old(waiting)[i]
    {
      if index in waiting && op.Op? && op.me == me {
        waiting := waiting[index := waiting[index] + [Done(r)]];
      }
    }

    // The channel is closed: nobody will get another reply.
    method TurnAway()
      modifies this
      ensures waiting.Keys == old(waiting).Keys
      ensures forall i :: i in waiting ==> waiting[i] == old(waiting)[i] + [WrongLeader]
    {
      var rest := waiting.Keys;
      while rest != {}
        invariant rest <= waiting.Keys == old(waiting).Keys
        invariant forall i :: i in waiting ==> waiting[i] == if i in rest then old(waiting)[i] else old(waiting)[i] + [WrongLeader]
        decreases |rest|
      {
        var i :| i in rest;
        waiting := waiting[i := waiting[i] + [WrongLeader]];
        rest := rest - {i};
      }
    }

    // One turn of the reader loop.
    method Deliver(msg: ApplyMsg)
      modifies this, sm
      ensures sm.table == Fed(old(sm.table), [msg])
      ensures Told(me, old(sm.table), [msg], old(waiting), waiting)
    {
      assert [msg][..0] == [];
      match msg {
        case CommandMsg(index, cmd) =>
          if cmd.Op? {
            var r := sm.DoOp(cmd.req);
            Answer(index, cmd, r);
          }
        case SnapshotMsg(index, data) =>
          sm.Restore(data);
      }
    }

    // The reader loop over the deliveries there are, and the end of the channel.
    method Reader(msgs: seq<ApplyMsg>, closed: bool)
      modifies this, sm
      ensures sm.table == Fed(old(sm.table), msgs)
      ensures waiting.Keys == old(waiting).Keys
      ensures forall i :: i in waiting ==>
        waiting[i] == old(waiting)[i] + Replies(me, old(sm.table), msgs, i) + (if closed then [WrongLeader] else [])
    {
      ghost var start, at := waiting, sm.table;
      var k := 0;
      while k < |msgs|
        invariant 0 <= k <= |msgs|
        invariant sm.table == Fed(at, msgs[..k])
        invariant Told(me, at, msgs[..k], start, waiting)
      {
        ghost var before, was := waiting, sm.table;
        Deliver(msgs[k]);
        assert msgs[..k + 1] == msgs[..k] + [msgs[k]];
        FedOn(at, msgs[..k], msgs[k]);
        ToldOn(me, at, msgs[..k], msgs[k], start, before, waiting);
        k := k + 1;
      }
      assert msgs[..k] == msgs;
      if closed {
        TurnAway();
      }
    }
  }
}
