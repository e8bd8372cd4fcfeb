// Log entries, the relation "two logs agree up to an index", compaction of a
// log, replay of a log, and the loop of the AppendEntries handler as a function.
module RaftLog {
  import opened Kv

  // A log command is an rsm.Op; Nil is the nil command of a dummy entry.
  datatype Command = Nil | Op(me: nat, req: Request)

  datatype Entry = Entry(term: nat, cmd: Command)

  // log[0] of a server that has never been compacted.
  const DUMMY := Entry(0, Nil)

  type Log = seq<Entry>

  ghost predicate Agree(x: Log, y: Log, i: int) {
    0 <= i < |x| && i < |y| && forall j :: 0 <= j <= i ==> x[j] == y[j]
  }

  // log is what is left of full once everything through index inc has been cut
  // off: log[0] keeps the term of entry inc, log[k] is entry inc + k.
  ghost predicate Compacts(log: Log, inc: nat, full: Log) {
    && |log| > 0 && |full| == inc + |log|
    && log[0].term == full[inc].term
    && forall k :: 0 < k < |log| ==> log[k] == full[inc + k]
  }

  // ---------- the append loop ----------

  // Overwrite from position idx on: keep entries whose term matches, cut at the
  // first conflict, append what is missing.
  function Merge(log: Log, idx: nat, entries: seq<Entry>): Log
    requires idx <= |log|
    decreases |entries|
  {
    if entries == [] then log
    else if idx < |log| then
      if log[idx].term != entries[0].term then log[..idx] + entries
      else Merge(log, idx + 1, entries[1..])
    else log + entries
  }

  // Merging into a compacted log is merging into the full log.
  lemma {:induction false} MergeCompacts(log: Log, inc: nat, full: Log, idx: nat, entries: seq<Entry>)
    requires Compacts(log, inc, full) && 0 < idx <= |log|
    ensures Compacts(Merge(log, idx, entries), inc, Merge(full, inc + idx, entries))
    decreases |entries|
  {
    if entries == [] {
    } else if idx < |log| {
      if log[idx].term == entries[0].term {
        MergeCompacts(log, inc, full, idx + 1, entries[1..]);
      }
    }
  }

  // ---------- replay ----------

  function ApplyCmd(t: Table, c: Command): Table {
    match c
    case Nil => t
    case Op(_, req) => DoOp(t, req).0
  }

  // The table after commands 1 .. i of a log.
  function Replay(log: Log, i: nat): Table
    requires i < |log|
  {
    if i == 0 then map[] else ApplyCmd(Replay(log, i - 1), log[i].cmd)
  }

  lemma {:induction false} ReplayAgree(x: Log, y: Log, i: nat)
    requires Agree(x, y, i)
    ensures Replay(x, i) == Replay(y, i)
  {
    if i > 0 {
      ReplayAgree(x, y, i - 1);
    }
  }
}
