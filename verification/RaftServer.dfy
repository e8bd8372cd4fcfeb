// The Raft object of the code: fields updated in place by its handlers. Every
// handler is proved to do to the fields what RaftNode says.
module RaftServer {
  import opened Options
  import opened Quorums
  import opened Kv
  import opened RaftLog
  import opened RaftCore
  import opened RaftNode
  import opened RaftCommit

  class Raft {
    const me: nat
    var state: Role
    var currentTerm: nat
    var votedFor: int
    var log: seq<Entry>
    var lastIncludedIndex: nat
    var lastIncludeTerm: nat
    var commitIndex: nat
    var lastApplied: nat
    var nextIndex: array<int>
    var matchIndex: array<nat>
    var numGetVoted: nat        // of the election of currentTerm
    var waiting: set<nat>
    var raftstate: Option<Saved> // the persister
    var snapshot: Option<Table>

    ghost predicate Valid()
      reads this
    {
      && |log| > 0
      && nextIndex.Length == matchIndex.Length
      && nextIndex as object != matchIndex as object
    }

    // The abstract value of the object.
    ghost function View(): (n: Node)
      reads this, nextIndex, matchIndex
    {
      Node(state, currentTerm, votedFor, log, lastIncludedIndex, lastIncludeTerm, commitIndex, lastApplied,
           nextIndex[..], matchIndex[..], numGetVoted, waiting, raftstate, snapshot)
    }

    function LastLogIndex(): int
      reads this
    {
      lastIncludedIndex + |log| - 1
    }

    // Make, with the state a previous incarnation left on disk.
    constructor (peers: nat, me: nat, disk: Option<Saved>, snap: Option<Table>)
      requires disk.Some? ==> |disk.value.log| > 0
      ensures Valid() && fresh(nextIndex) && fresh(matchIndex) && this.me == me
      ensures View() == Restart(NewNode(peers).(saved := disk, snapshot := snap))
    {
      this.me := me;
      state, currentTerm, votedFor, log := Follower, 0, -1, [DUMMY];
      lastIncludedIndex, lastIncludeTerm, commitIndex, lastApplied := 0, 0, 0, 0;
      nextIndex := new int[peers](_ => 0);
      matchIndex := new nat[peers](_ => 0);
      numGetVoted, waiting, raftstate, snapshot := 0, {}, disk, snap;
      new;
      ReadPersist();
      assert nextIndex[..] == NewNode(peers).next;
      assert matchIndex[..] == NewNode(peers).matched;
    }

    method ReadPersist()
      requires |log| > 0 && (raftstate.Some? ==> |raftstate.value.log| > 0)
      modifies this
      ensures nextIndex == old(nextIndex) && matchIndex == old(matchIndex) && |log| > 0
      ensures raftstate == old(raftstate) && snapshot == old(snapshot) && state == old(state)
      ensures numGetVoted == old(numGetVoted) && waiting == old(waiting)
      ensures match raftstate
        case None => unchanged(this)
        case Some(s) =>
          && currentTerm == s.term && votedFor == s.voted && log == s.log && lastIncludedIndex == s.inc
          && lastIncludeTerm == s.incTerm && commitIndex == s.inc && lastApplied == s.inc
    {
      match raftstate
      case None =>
      case Some(s) =>
        currentTerm, votedFor, log := s.term, s.voted, s.log;
        lastIncludedIndex, lastIncludeTerm := s.inc, s.incTerm;
        commitIndex, lastApplied := s.inc, s.inc;
    }

    method Save()
      requires Valid()
      modifies this`raftstate
      ensures View() == Persist(old(View()))
    {
      raftstate := Some(Saved(currentTerm, votedFor, log, lastIncludedIndex, lastIncludeTerm));
    }

    method StepDown(term: nat)
      requires Valid()
      modifies this`state, this`currentTerm, this`votedFor
      ensures View() == Later(old(View()), term)
    {
      state, currentTerm, votedFor := Follower, term, -1;
    }

    method Stand()
      requires Valid()
      modifies this`state, this`currentTerm, this`votedFor, this`numGetVoted, this`waiting
      ensures View() == Standing(old(View()), me)
    {
      state, currentTerm, votedFor := Candidate, currentTerm + 1, me;
      numGetVoted, waiting := 1, Ids(nextIndex.Length) - {me};
    }

    // The ticker, when the election timer has run out.
    method ElectionTimeout()
      requires Valid()
      modifies this
      ensures Valid() && nextIndex == old(nextIndex) && matchIndex == old(matchIndex)
      ensures View() == Timeout(old(View()), me)
    {
      if state != Leader {
        Stand();
        Save();
      }
    }

    method RequestVote(args: VoteArgs) returns (reply: VoteReply)
      requires Valid()
      modifies this
      ensures Valid() && nextIndex == old(nextIndex) && matchIndex == old(matchIndex)
      ensures (View(), reply) == HandleVote(old(View()), args)
    {
      if args.term < currentTerm {
        reply := VoteReply(currentTerm, false);
        Save();
        return;
      }
      if args.term > currentTerm {
        StepDown(args.term);
      }
      reply := VoteReply(currentTerm, false);
      var lastTerm := log[|log| - 1].term;
      var logOk := args.lastTerm > lastTerm || (args.lastTerm == lastTerm && args.lastIndex >= LastLogIndex());
      if logOk && (votedFor == -1 || votedFor == args.cand) {
        votedFor := args.cand;
        reply := VoteReply(currentTerm, true);
      }
      Save();
    }

    // A vote reply comes back to the goroutine that asked `from` in term `term`.
    method OnVoteReply(from: nat, term: nat, reply: VoteReply)
      requires Valid()
      modifies this, nextIndex, matchIndex
      ensures Valid() && nextIndex == old(nextIndex) && matchIndex == old(matchIndex)
      ensures View() == HandleVoteReply(old(View()), from, term, reply)
    {
      if reply.term > currentTerm {
        StepDown(reply.term);
        Save();
        return;
      }
      if state != Candidate || currentTerm != term || from !in waiting {
        return;
      }
      waiting := waiting - {from};
      if reply.granted {
        numGetVoted := numGetVoted + 1;
        if numGetVoted > nextIndex.Length / 2 {
          state := Leader;
          ResetPeers();
          ghost var w := HandleVoteReply(old(View()), from, term, reply);
          assert nextIndex[..] == w.next && matchIndex[..] == w.matched;
        }
      }
    }

    // A new leader starts probing every peer from its own end.
    method ResetPeers()
      requires Valid()
      modifies nextIndex, matchIndex
      ensures forall k :: 0 <= k < nextIndex.Length ==> nextIndex[k] == LastLogIndex() + 1 && matchIndex[k] == 0
    {
      var j := 0;
      while j < nextIndex.Length
        invariant 0 <= j <= nextIndex.Length
        invariant forall k :: 0 <= k < j ==> nextIndex[k] == LastLogIndex() + 1 && matchIndex[k] == 0
      {
        nextIndex[j] := LastLogIndex() + 1;
        matchIndex[j] := 0;
        j := j + 1;
      }
    }

    method Start(cmd: Command) returns (index: int, term: int, isLeader: bool)
      requires Valid()
      modifies this
      ensures Valid() && nextIndex == old(nextIndex) && matchIndex == old(matchIndex)
      ensures (View(), (index, term, isLeader)) == RaftNode.Start(old(View()), cmd)
    {
      index, term, isLeader := -1, currentTerm, true;
      if state != Leader {
        isLeader := false;
      } else {
        log := log + [Entry(currentTerm, cmd)];
        index := LastLogIndex();
        Save();
      }
    }

    // The first index of the run of entries of term xTerm that ends at position si.
    method FirstOfTerm(si: nat, xTerm: nat) returns (j: int)
      requires si < |log|
      ensures j == RunStart(log, si - 1, xTerm)
    {
      j := si - 1;
      while j >= 0 && log[j].term == xTerm
        invariant -1 <= j < si
        invariant RunStart(log, j, xTerm) == RunStart(log, si - 1, xTerm)
      {
        j := j - 1;
      }
    }

    method AppendLoop(idx: nat, entries: seq<Entry>)
      requires idx <= |log|
      modifies this`log
      ensures log == Merge(old(log), idx, entries)
    {
      var i := 0;
      while i < |entries|
        invariant 0 <= i <= |entries| && log == old(log) && idx + i <= |log|
        invariant Merge(old(log), idx, entries) == Merge(log, idx + i, entries[i..])
      {
        if idx + i < |log| {
          if log[idx + i].term != entries[i].term {
            log := log[..idx + i];
            log := log + entries[i..];
            return;
          }
        } else {
          log := log + entries[i..];
          return;
        }
        assert entries[i..][1..] == entries[i + 1..];
        i := i + 1;
      }
    }

    // A leader of a term not older than ours is heard.
    method HearLeader(term: nat)
      requires Valid()
      modifies this`state, this`currentTerm, this`votedFor
      ensures View() == Heard(old(View()), term)
    {
      if term > currentTerm {
        currentTerm, votedFor := term, -1;
      }
      state := Follower;
    }

    method FollowCommit(leaderCommit: nat)
      requires Valid()
      modifies this`commitIndex
      ensures View() == old(View()).(commit := NewCommit(old(View()), leaderCommit))
    {
      if leaderCommit > commitIndex {
        var lastIdx := LastLogIndex();
        if lastIdx >= 0 {
          commitIndex := if leaderCommit < lastIdx then leaderCommit else lastIdx;
        }
      }
    }

    method AppendEntries(args: AppendArgs) returns (reply: AppendReply)
      requires Valid()
      modifies this
      ensures Valid() && nextIndex == old(nextIndex) && matchIndex == old(matchIndex)
      ensures (View(), reply) == HandleAppend(old(View()), args)
    {
      if args.term < currentTerm {
        reply := AppendReply(currentTerm, false, 0, 0, 0);
        Save();
        return;
      }
      HearLeader(args.term);
      reply := CheckAndAppend(args);
    }

    method CheckAndAppend(args: AppendArgs) returns (reply: AppendReply)
      requires Valid()
      modifies this
      ensures Valid() && nextIndex == old(nextIndex) && matchIndex == old(matchIndex)
      ensures (View(), reply) == AppendHere(old(View()), args)
    {
      if args.prev < lastIncludedIndex || args.prev > LastLogIndex() {
        reply := AppendReply(currentTerm, false, 0, 0, LastLogIndex() + 1);
        Save();
        return;
      }
      var si := args.prev - lastIncludedIndex;
      if log[si].term != args.prevTerm {
        var j := FirstOfTerm(si, log[si].term);
        reply := AppendReply(currentTerm, false, log[si].term, j + lastIncludedIndex + 1, -1);
        Save();
        return;
      }
      AppendLoop(si + 1, args.entries);
      MergeNonEmpty(old(log), si + 1, args.entries);
      FollowCommit(args.leaderCommit);
      reply := AppendReply(currentTerm, true, 0, 0, -1);
      Save();
    }

    method InstallSnapshot(args: InstallArgs) returns (replyTerm: nat)
      requires Valid()
      modifies this
      ensures Valid() && nextIndex == old(nextIndex) && matchIndex == old(matchIndex)
      ensures (View(), replyTerm) == HandleInstall(old(View()), args)
    {
      replyTerm := currentTerm;
      if args.term < currentTerm {
        return;
      }
      HearLeader(args.term);
      if args.inc <= lastIncludedIndex {
        Save();
        return;
      }
      ReplacePrefix(args);
    }

    method ReplacePrefix(args: InstallArgs)
      requires Valid() && args.inc > lastIncludedIndex
      modifies this
      ensures Valid() && nextIndex == old(nextIndex) && matchIndex == old(matchIndex)
      ensures View() == InstallHere(old(View()), args)
    {
      var offset := args.inc - lastIncludedIndex;
      if offset < |log| && log[offset].term == args.incTerm {
        log := log[offset..];
      } else {
        log := [Entry(args.incTerm, Nil)];
      }
      lastIncludedIndex, lastIncludeTerm := args.inc, args.incTerm;
      if commitIndex < lastIncludedIndex {
        commitIndex := lastIncludedIndex;
      }
      Save();
      snapshot := Some(args.data);
    }

    method Snapshot(index: nat, data: Table)
      requires Valid()
      modifies this
      ensures Valid() && nextIndex == old(nextIndex) && matchIndex == old(matchIndex)
      ensures View() == Compact(old(View()), index, data)
    {
      if index <= lastIncludedIndex || index - lastIncludedIndex >= |log| {
        return;
      }
      var offset := index - lastIncludedIndex;
      lastIncludeTerm := log[offset].term;
      lastIncludedIndex := index;
      log := log[offset..];
      Save();
      snapshot := Some(data);
    }

    // One heartbeat round for one peer, up to sending.
    method NextRound(to: nat) returns (out: Round)
      requires Valid() && to < nextIndex.Length
      modifies nextIndex
      ensures (View(), out) == RoundFor(old(View()), me, to)
    {
      if nextIndex[to] < 1 {
        nextIndex[to] := 1;
      }
      if nextIndex[to] > LastLogIndex() + 1 {
        nextIndex[to] := LastLogIndex() + 1;
      }
      if nextIndex[to] <= lastIncludedIndex {
        out := InstallRound(InstallArgs(currentTerm, me, lastIncludedIndex, lastIncludeTerm,
                                        if snapshot.Some? then snapshot.value else map[]));
      } else {
        var prev := nextIndex[to] - 1;
        var entries: seq<Entry> := [];
        if nextIndex[to] <= LastLogIndex() {
          entries := log[nextIndex[to] - lastIncludedIndex..];
        }
        out := AppendRound(AppendArgs(currentTerm, me, prev, log[prev - lastIncludedIndex].term, entries, commitIndex));
      }
      assert nextIndex[..] == RoundFor(old(View()), me, to).0.next;
    }

    method SearchBack(prev: nat, xIndex: int, xTerm: nat) returns (j: int)
      requires Valid()
      ensures j == ScanBack(View(), prev - 1, xIndex, xTerm)
    {
      j := prev - 1;
      while j >= xIndex
        invariant ScanBack(View(), j, xIndex, xTerm) == ScanBack(View(), prev - 1, xIndex, xTerm)
        decreases j - xIndex
      {
        var si := j - lastIncludedIndex;
        if si < 0 || si >= |log| {
          break;
        }
        if log[si].term == xTerm {
          break;
        }
        j := j - 1;
      }
    }

    // How many peers hold entry j, counting this one.
    method CountHolders(j: nat) returns (confirm: nat)
      requires Valid() && me < matchIndex.Length
      ensures confirm == |Holders(matchIndex[..], me, j)|
    {
      confirm := 1;
      var p := 0;
      ghost var seen: set<nat> := {me};
      while p < matchIndex.Length
        invariant 0 <= p <= matchIndex.Length
        invariant seen == (set q: nat | q < matchIndex.Length && (q == me || (q < p && matchIndex[q] >= j)))
        invariant confirm == |seen|
      {
        if p != me && matchIndex[p] >= j {
          confirm := confirm + 1;
          seen := seen + {p};
        }
        p := p + 1;
      }
      assert seen == Holders(matchIndex[..], me, j);
    }

    method AdvanceCommit(from: nat)
      requires Valid() && me < matchIndex.Length && from < matchIndex.Length
      modifies this`commitIndex
      ensures View() == old(View()).(commit := CommitScan(old(View()), me, matchIndex[from]))
      ensures Highest(View(), me, matchIndex[from], old(commitIndex))
    {
      ScanIsHighest(View(), me, matchIndex[from]);
      var j: nat := matchIndex[from];
      while j > commitIndex
        invariant commitIndex == old(commitIndex)
        invariant View() == old(View())
        invariant CommitScan(View(), me, j) == CommitScan(View(), me, matchIndex[from])
        decreases j
      {
        var si := j - lastIncludedIndex;
        if 0 <= si < |log| && log[si].term == currentTerm {
          var confirm := CountHolders(j);
          if confirm > nextIndex.Length / 2 {
            assert Committable(View(), me, j);
            commitIndex := j;
            return;
          }
        }
        j := j - 1;
      }
    }

    // A reply to the AppendEntries `args` that was sent to peer `from`.
    method OnAppendReply(from: nat, args: AppendArgs, reply: AppendReply)
      requires Valid() && me < matchIndex.Length && from < matchIndex.Length
      modifies this, nextIndex, matchIndex
      ensures Valid() && nextIndex == old(nextIndex) && matchIndex == old(matchIndex)
      ensures View() == HandleAppendReply(old(View()), me, from, args, reply)
    {
      if reply.term > currentTerm {
        StepDown(reply.term);
        Save();
        return;
      }
      if state != Leader || currentTerm != args.term {
        return;
      }
      if !reply.success {
        if nextIndex[from] > 1 {
          if reply.xLen != -1 {
            nextIndex[from] := reply.xLen;
          } else {
            var j := SearchBack(args.prev, reply.xIndex, reply.xTerm);
            nextIndex[from] := j;
          }
          if nextIndex[from] < 1 {
            nextIndex[from] := 1;
          }
        }
        assert nextIndex[..] == HandleAppendReply(old(View()), me, from, args, reply).next;
        return;
      }
      matchIndex[from] := args.prev + |args.entries|;
      nextIndex[from] := matchIndex[from] + 1;
      AdvanceCommit(from);
    }

    method OnInstallReply(from: nat, args: InstallArgs, replyTerm: nat)
      requires Valid() && from < matchIndex.Length
      modifies this, nextIndex, matchIndex
      ensures Valid() && nextIndex == old(nextIndex) && matchIndex == old(matchIndex)
      ensures View() == HandleInstallReply(old(View()), from, args, replyTerm)
    {
      if replyTerm > currentTerm {
        StepDown(replyTerm);
        Save();
        return;
      }
      if state != Leader || currentTerm != args.term {
        return;
      }
      nextIndex[from] := args.inc + 1;
      matchIndex[from] := args.inc;
    }
  }

  lemma MergeNonEmpty(log: Log, idx: nat, entries: seq<Entry>)
    requires 0 < idx <= |log|
    ensures |Merge(log, idx, entries)| > 0
    decreases |entries|
  {
  }
}
