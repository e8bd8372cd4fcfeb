# A model of the replicated, sharded key/value stack and its proofs

The repository builds a key/value store in layers: a versioned single server, a lock on top
of it, Raft with log compaction, a replicated state machine over Raft, and a store sharded
over many replicated groups with a controller that moves shards between them. Beside these
stand a MapReduce worker and three web crawlers. This project models the logic of each layer
and proves what the layer is for. `dafny verify dfyconfig.toml` checks all of it.

## How it is built

- **Raft** (`RaftLog`, `RaftNode`, `RaftServer`, `RaftCluster`, `RaftCore`, `RaftCoreProof`,
  `RaftRefinement`, `RaftSafety`, `RaftTheorems`, `RaftCommit`, `RaftProgress`, `RaftElection`,
  `RaftProbing`, `RaftScenes`, `RaftCircle`, `RaftDelivery`).
  `RaftServer.Raft` is the object of `raft.go` with its fields and loops; every handler is
  proved to do what the function of the same name in `RaftNode` says. `RaftCluster` runs any
  number of such servers, each with its key/value service, over a network that may lose,
  delay, reorder and repeat messages, with crashes and restarts at any moment. `RaftCore` is
  Raft without compaction and with history; `RaftRefinement` shows that each step of the
  cluster is one or more steps of the core, and `RaftSafety` reads the theorems off it, for every run.
  `RaftCommit`, `RaftProgress` and `RaftElection` say when the cluster acts: commits, elects, applies.
  `RaftScenes` plays out runs of three servers, for the two places where the code falls short.
- **Sharded store** (`ShardGroup`, `ShardServer`, `ShardSystem`, `ShardProof`,
  `ShardTheorems`, `ShardRemains`, `ShardCtrler`, `ShardProgress`, `Balance`, `ShardCfg`,
  `ShardPlacing`). Groups are the atomic machines their `DoOp`
  describes; any number of controllers read and write the two configuration registers, stop
  anywhere, and restart. `ShardCtrler.Caller` is one controller's thread with everything the
  others may do between its steps. `ShardCfg.ShardConfig` is the configuration object with `Rebalance`.
- **Clerks and the lock** (`Kv`, `KvServer`, `ClerkRuns`, `Linearizability`, `Clerks`, `Lock`,
  `LockClient`, `LockProgress`). A run lets every attempt of every call be lost, executed once, or executed
  long after the call returned.
- **MapReduce** (`MapReduce`) and the **crawlers** (`Pages`, `SerialCrawler`,
  `ChannelCrawler`, `MutexCrawler`).

Where an object is updated by one thread, the model is a class with methods and loops.
Where the order of goroutines or messages is the point, it is a state machine whose steps
are the code's critical sections.

## What the code does that its comments or its design do not say

- A rejected append sets nextIndex to the index the search stopped at, not one past it
  (`src/raft1/raft.go:690`). Against a follower that has compacted its log further than the
  leader this can jump back and forth for ever. `RaftCircle.ProbingEndsExactly` is the exact
  condition: probing ends in every run for every pair with boundaries l and f if and only if
  f <= l. `RaftCircle.CircleReached` is, for every l < f, a run of three servers to a leader
  that never gets anywhere. `RaftProbing.RefusalLowersIff` says when a single refusal makes progress.
- The applier reads lastIncludedIndex again after handing a snapshot over without the lock
  (`src/raft1/raft.go:750-753`). If a newer snapshot was installed in between, the service
  silently misses the commands between the two. In the cluster handing over and moving
  lastApplied are two steps. A run is `Steady` if no boundary moves between them;
  `RaftDelivery.DeliveryExactly` proves for every run that raft and the services stay in step
  if and only if it is steady, and `RaftDelivery.DeliveryCanSkip` is a run of three servers that
  ends with two replicas at one index and with different tables. Log, terms, votes and commit
  indices are safe in every run; what is said of tables and snapshots holds for the steady ones.
- A server that is alone never leads: its own vote is a majority, but votes are counted only
  when a peer's comes in (`src/raft1/raft.go:515-560`). `RaftElection.ElectionExactly` proves that
  from any state a leader can be elected if and only if there is more than one server.
- A Put that names a version its key has not reached yet is not linearizable: a delayed
  attempt can take effect after the call has returned, and on a missing key the answer
  ErrNoKey is one the sequential specification never gives. `Linearizability.SafeExactly`
  draws the line for all versions; one such Put is enough.
- `src/kvsrv1/lock/lock.go:99-101` says that Release never sees ErrVersion. `Lock.ReleaseOnePut`
  proves it, and more: the check after ErrMaybe never finds the lock still held.
- `Join` and `Leave` that give up half way keep what they had already added or removed.

## Model

| member | source | states |
|---|---|---|
| RaftSafety.OneLog | src/raft1/raft.go:261-376 | for every run there is one log that every server follows at every moment: committed entries and boundaries are read off it, and as long as the run is steady snapshots and service tables too |
| RaftSafety.StateMachineSafety | src/raft1/raft.go:308-332 | two servers that have committed an index, at any two moments of a run with loss, reordering, crashes and compaction, hold the same entry there; with one server taken twice, no committed entry is ever replaced |
| RaftSafety.LeaderCompleteness | src/raft1/raft.go:699-724 | what a server knows committed is in the log or the snapshot prefix of every leader of the same or a later term from then on |
| RaftSafety.ElectionSafety | src/raft1/raft.go:509-575 | two servers that lead one term, at any two moments of a run with crashes, are one server |
| RaftSafety.LogMatching | src/raft1/raft.go:283-324 | two logs with the same term at an index, the boundary included, agree on every entry up to it that both still hold |
| RaftSafety.CrashLosesNothing | src/raft1/raft.go:99-135 | at every step of a run the disk holds the volatile term, vote, log, boundary and snapshot, so a restart gives them back |
| RaftSafety.BoundaryHolds | src/raft1/raft.go:72-82 | the log is never empty, its first entry carries the boundary's term, and boundary, commit index and last index are in order |
| RaftSafety.ReplicasAgree | src/kvraft1/rsm/rsm.go:142-188 | in steady runs services at the same index, at any two moments, have the same table, however they got there: commands, snapshots or a restart |
| RaftSafety.CoreLeaderCompleteness | src/raft1/raft.go:702-724 | an entry of the leader's own term that a majority stores is in every later leader's log |
| RaftSafety.CommittedReaches | src/raft1/raft.go:326-331 | what a server calls committed reaches every leader of its own or a later term |
| RaftSafety.GrowLog | src/raft1/raft.go:737-771 | the log that all servers follow throughout a run is committed as a whole |
| RaftCoreProof.WinnerCarries | src/raft1/raft.go:248-258 | a candidate that a majority voted for has every entry that a majority of any earlier term stores: the up-to-date check is what makes elections safe |
| RaftCoreProof.UpToDateCarries | src/raft1/raft.go:251-252 | a log that is at least as up to date as a voter's, and whose last entry's term is older than the ballot, has the committed entries the voter has |
| RaftCoreProof.LogMatch | src/raft1/raft.go:296-305 | two logs that agree on one term agree on everything before it |
| RaftCoreProof.CommitInReign | src/raft1/raft.go:326-331 | what a server has committed is in the log of the leader of its term, so accepting from that leader loses none of it |
| RaftCoreProof.ElectInv | src/raft1/raft.go:559-568 | winning an election keeps the invariant: no other leader of the term, nothing committed missing |
| RaftCoreProof.GrantInv | src/raft1/raft.go:254-258 | granting a vote keeps the invariant |
| RaftCoreProof.CampaignInv | src/raft1/raft.go:493-499 | starting an election keeps the invariant |
| RaftCoreProof.ProposeInv | src/raft1/raft.go:445-447 | a leader's new entry keeps the invariant |
| RaftCoreProof.AdoptInv | src/raft1/raft.go:308-332 | taking over a leader's prefix, by append or by snapshot, keeps the invariant |
| RaftCoreProof.DecideInv | src/raft1/raft.go:702-724 | committing an entry of the current term that a majority stores keeps the invariant |
| RaftCoreProof.CountVoteInv | src/raft1/raft.go:556-560 | counting a peer's vote once keeps the invariant |
| RaftRefinement.SimStep | src/raft1/raft.go:227-773 | every step of the cluster of compacting servers is steps of uncompacted Raft |
| RaftRefinement.SimAppend | src/raft1/raft.go:261-333 | delivering an AppendEntries, in any state and of any age, is a step of uncompacted Raft |
| RaftRefinement.SimInstall | src/raft1/raft.go:335-376 | delivering an InstallSnapshot is a step of uncompacted Raft |
| RaftRefinement.SimVote | src/raft1/raft.go:227-259 | answering a vote request is a step of uncompacted Raft |
| RaftRefinement.SimVoteReply | src/raft1/raft.go:541-572 | a vote reply, of whatever age, is a step of uncompacted Raft; each peer counts once |
| RaftRefinement.SimAppendReply | src/raft1/raft.go:661-725 | an append reply, of whatever age, is a step of uncompacted Raft |
| RaftRefinement.SimInstallReply | src/raft1/raft.go:620-636 | an install reply, of whatever age, is a step of uncompacted Raft |
| RaftRefinement.SimCrash | src/raft1/raft.go:111-135 | a restart from disk loses nothing uncompacted Raft needs |
| RaftRefinement.SimServe | src/raft1/raft.go:737-751 | offering, taking and applying what is committed, and Raft.Snapshot at an applied index, change nothing uncompacted Raft sees |
| RaftRefinement.SimMove | src/raft1/raft.go:750-755 | moving lastApplied to the boundary after a snapshot was handed over keeps everything about logs, and what holds of the service too exactly if the boundary has not moved |
| RaftRefinement.RoundAppendOk | src/raft1/raft.go:598-653 | every AppendEntries a leader sends is a slice of its log that runs to the end, with a commit index inside it |
| RaftRefinement.RoundInstallOk | src/raft1/raft.go:605-613 | every snapshot a leader sends is the replay of its committed prefix |
| RaftRefinement.InstallLog | src/raft1/raft.go:350-367 | InstallSnapshot leaves the log that taking over the leader's prefix would |
| RaftRefinement.CommittableGuard | src/raft1/raft.go:703-724 | an entry the commit loop accepts is one of the current term that a majority stores |
| RaftCommit.ScanSound | src/raft1/raft.go:703-724 | the commit loop leaves the commit index alone or moves it to a committable entry |
| RaftCommit.CommitsHighest | src/raft1/raft.go:698-724 | after a success reply in the leader's term the commit index is the highest one, at or below what that peer stores, of an entry of the current term that more than half of the servers store; with none above it, it stays |
| RaftProgress.LeaderCommits | src/raft1/raft.go:661-725 | the same for a step of any run of any number of servers |
| RaftProgress.StartPuts | src/raft1/raft.go:432-456 | the index and term that Start returns are where a leader's command is, after an unchanged log; another server takes nothing |
| RaftProgress.StartFound | src/raft1/raft.go:432-456 | at any later moment, whatever server holds an entry of that term at that index holds this command there |
| RaftProgress.CatchesUp | src/raft1/raft.go:737-771 | in a steady run a service can reach its server's commit index by steps of its own applier, unless a snapshot older than the boundary is being handed over |
| RaftElection.VoteExactly | src/raft1/raft.go:227-259 | a vote is given exactly to a candidate of a current term, with a log not behind, by a server that has not voted for another in that term |
| RaftElection.WinsExactly | src/raft1/raft.go:556-568 | a candidate leads exactly when more than half have voted for it |
| RaftElection.CandidateShort | src/raft1/raft.go:509-575 | in every run of more than one server a candidate has at most half of the votes |
| RaftElection.AloneNeverLeads | src/raft1/raft.go:515-560 | in no run of one server does it lead |
| RaftElection.ElectionPossible | src/raft1/raft.go:478-575 | from any state of any run of more than one server a continuation elects a leader, in a term that no server had reached |
| RaftElection.ElectionExactly | src/raft1/raft.go:478-575 | from any state a leader can be elected if and only if there is more than one server |
| RaftTheorems.FollowerCommitExact | src/raft1/raft.go:326-331 | an accepted AppendEntries leaves the leader's entries in place and its LeaderCommit, or the server's own higher one, as commit index, however long the server's own log is: the min always picks LeaderCommit |
| RaftTheorems.SuccessMeans | src/raft1/raft.go:266-306 | an AppendEntries succeeds exactly if its term is current and its previous entry is held with the same term, not below the boundary |
| RaftTheorems.CommitStays | src/raft1/raft.go:326-331 | no step but a crash lowers a server's commit index |
| RaftTheorems.VoteDecisionSame | src/raft1/raft.go:227-259 | a compacted server votes as it would with its whole log |
| RaftTheorems.AppendDecisionSame | src/raft1/raft.go:283-332 | with the previous index not below the boundary a compacted server answers AppendEntries, and changes its log and commit index, as it would with its whole log |
| RaftTheorems.AppendBelowBoundary | src/raft1/raft.go:285-289 | below the boundary it refuses, changes nothing and asks for what follows its log |
| RaftTheorems.CompactSameLog | src/raft1/raft.go:148-172 | Snapshot leaves the log the server stands for, its term, vote and commit index unchanged |
| RaftTheorems.InstallKeepsTail | src/raft1/raft.go:356-367 | InstallSnapshot keeps the tail exactly if the boundary entry is held with the boundary's term |
| RaftTheorems.LeaderHeard | src/raft1/raft.go:261-282 | a request of a later term brings the server to that term, taken or refused, and makes it a follower; the disk has it |
| RaftTheorems.ReplyHeard | src/raft1/raft.go:541-549 | any reply of a later term ends a candidacy or a reign |
| RaftTheorems.AfterInstall | src/raft1/raft.go:620-636 | a peer that has taken a snapshot is next sent what follows it, or a newer snapshot |
| RaftLog.MergeCompacts | src/raft1/raft.go:308-324 | appending with conflict truncation commutes with compaction |
| RaftLog.ReplayAgree | src/kvraft1/server.go:35-74 | logs that agree up to an index replay to the same table |
| RaftProbing.RefusalLowersIff | src/raft1/raft.go:674-697 | a refused round lowers nextIndex if and only if the index it probed is not below the follower's boundary; below it nextIndex goes up |
| RaftProbing.RunStartIs | src/raft1/raft.go:296-305 | the conflict a refusal names is the whole run of entries of one term that ends before the refused index |
| RaftProbing.ScanBackIs | src/raft1/raft.go:679-690 | the leader's search ends at its last entry of that term at or above XIndex, or below XIndex or outside its log |
| RaftProbing.ProbingEnds | src/raft1/raft.go:674-697 | with a follower that has not compacted further than the leader, probing ends within nextIndex minus one refusals, in an accepted append or a snapshot |
| RaftProbing.NoRefusalAtOne | src/raft1/raft.go:284-306 | at nextIndex 1 such a follower cannot refuse |
| RaftProbing.RefusalAtOneSticks | src/raft1/raft.go:675-695 | at nextIndex 1 a refusal, which takes a follower compacted further than the leader, repeats with the same request after any number of rounds |
| RaftProbing.CirclesForEver | src/raft1/raft.go:690 | for every leader boundary below the follower's there are logs with which no number of rounds ends the probing |
| RaftCircle.CircleReached | src/raft1/raft.go:674-697 | for every two boundaries l < f some run of three servers, with elections, compaction and crashes, reaches such a pair |
| RaftCircle.ProbingEndsExactly | src/raft1/raft.go:674-697 | probing, left alone, ends for every leader with boundary l and every peer with boundary f in every run of any number of servers if and only if f <= l |
| RaftProbing.BoundaryZero | src/raft1/raft.go:796 | a follower with boundary 0 and log[0] of term 0 holds what the leader holds at index 0 |
| RaftDelivery.DeliveryExactly | src/raft1/raft.go:743-755 | for every run, every service is at every moment where raft believes it is if and only if no boundary moves between the handing over of a snapshot and the move of lastApplied |
| RaftDelivery.MovedBoundarySkips | src/raft1/raft.go:750-753 | when one has moved, the next command the service gets is the one after the new boundary, applied to the table of the old one |
| RaftDelivery.DeliveryCanSkip | src/raft1/raft.go:750-753 | a run of three servers at whose end two replicas have applied through the same index and a committed Put is missing from one of them |
| RaftServer.Raft.constructor | src/raft1/raft.go:784-808 | a server starts from what the disk holds, or from nothing |
| RaftServer.Raft.ReadPersist | src/raft1/raft.go:111-135 | restart restores term, vote, log and boundary and sets commit and applied to the boundary |
| RaftServer.Raft.Save | src/raft1/raft.go:99-108 | the disk gets term, vote, log and boundary and keeps the snapshot |
| RaftServer.Raft.ElectionTimeout | src/raft1/raft.go:491-504 | the fields change as a timeout of the node says |
| RaftServer.Raft.RequestVote | src/raft1/raft.go:227-259 | fields, disk and reply are those of the node's vote handler |
| RaftServer.Raft.OnVoteReply | src/raft1/raft.go:541-572 | fields and disk are those of the node's vote count; winning resets nextIndex and matchIndex of all peers |
| RaftServer.Raft.Start | src/raft1/raft.go:432-456 | a leader appends the command at the index it returns, any other server nothing |
| RaftServer.Raft.AppendEntries | src/raft1/raft.go:261-333 | fields, disk and reply are those of the node's append handler |
| RaftServer.Raft.CheckAndAppend | src/raft1/raft.go:283-332 | the consistency check, the append and the commit rule, for a leader of the current term |
| RaftServer.Raft.AppendLoop | src/raft1/raft.go:310-324 | the loop over entries leaves the merge of log and entries: nothing is cut unless a term differs |
| RaftServer.Raft.FirstOfTerm | src/raft1/raft.go:299-303 | the backward search for the first entry of the conflicting term |
| RaftServer.Raft.FollowCommit | src/raft1/raft.go:326-331 | the commit index moves to the smaller of LeaderCommit and the last index |
| RaftServer.Raft.InstallSnapshot | src/raft1/raft.go:335-376 | fields, disk and reply are those of the node's install handler |
| RaftServer.Raft.ReplacePrefix | src/raft1/raft.go:356-375 | the prefix is replaced, the tail kept if the boundary matches |
| RaftServer.Raft.Snapshot | src/raft1/raft.go:148-172 | the log is cut at index and the snapshot saved with it, if index is inside the log |
| RaftServer.Raft.NextRound | src/raft1/raft.go:593-654 | the message sent to a peer, and nextIndex clamped |
| RaftServer.Raft.SearchBack | src/raft1/raft.go:679-689 | the leader's search for its last entry of the conflicting term |
| RaftServer.Raft.CountHolders | src/raft1/raft.go:711-719 | the count is the number of peers known to store the entry, with the leader |
| RaftServer.Raft.AdvanceCommit | src/raft1/raft.go:703-724 | the commit index moves to the highest entry of the current term that more than half of the servers store, if one is above it |
| RaftServer.Raft.OnAppendReply | src/raft1/raft.go:661-725 | fields and disk are those of the node's append-reply handler |
| RaftServer.Raft.OnInstallReply | src/raft1/raft.go:620-636 | fields and disk are those of the node's install-reply handler |
| Kv.PutExact | src/kvsrv1/server.go:60-79 | a Put succeeds exactly if it names the current version, moves the key to the next one, and otherwise changes nothing and says why |
| Kv.HoldsTells | src/kvsrv1/server.go:41-54 | a Get of a key with a history of values returns the last and their number, and ErrNoKey with neither exactly if there is none |
| Linearizability.GetTells | src/kvsrv1/server.go:41-54 | in every run an executed Get returns the value of the last Put applied to its key and the number of Puts applied to it; ErrNoKey exactly if there was none |
| Linearizability.GetReturns | src/kvsrv1/client.go:30-43 | and a clerk's Get returns that of a moment inside the call |
| KvServer.KVServer.constructor | src/kvsrv1/server.go:32-37 | a server starts empty |
| KvServer.KVServer.Get | src/kvsrv1/server.go:41-54 | value and version of an existing key, ErrNoKey with neither exactly for a missing one |
| KvServer.KVServer.Put | src/kvsrv1/server.go:60-79 | the table and the error are those of the versioned compare-and-swap |
| KvServer.KVServer.DoOp | src/kvraft1/server.go:35-74 | the replicated service's operation is that of the single server |
| KvServer.KVServer.Snapshot | src/kvraft1/server.go:76-84 | a snapshot is the table |
| KvServer.KVServer.Restore | src/kvraft1/server.go:86-94 | restoring a snapshot gives its table |
| KvServer.Rsm.Reader | src/kvraft1/rsm/rsm.go:142-188 | the loop over deliveries leaves the table that the deliveries make, gives each waiter the replies of its index and no other, and turns all away when the channel is closed |
| KvServer.OneReply | src/kvraft1/rsm/rsm.go:158-169 | whatever mix of commands and snapshots is delivered, a waiter gets at most one reply, that of the command the log has at its index, made on the replay of the log before it; it gets one exactly if that command is this server's and did not come inside a snapshot |
| KvServer.Rsm.TurnAway | src/kvraft1/rsm/rsm.go:147-155 | every waiter, and nobody else, gets ErrWrongLeader once |
| KvServer.Rsm.Answer | src/kvraft1/rsm/rsm.go:161-169 | only the waiter at the command's index gets the reply, and only if this server proposed the command |
| KvServer.FedIsReplay | src/kvraft1/rsm/rsm.go:142-188 | however a replica got to an index, by commands or by snapshots, its table is the replay of the log up to it |
| ClerkRuns.RunInv | src/kvsrv1/client.go:62-88 | in every run each attempt executes at most once, replies are those of the store at that point, and a call returns the clerk's reading of its last attempt's reply |
| Linearizability.SafeExactly | src/kvsrv1/client.go:62-88 | a Put that names version v of a key at version c when it is called is safe, that is every run whose other Puts name versions already reached is linearizable, if and only if v is at most c |
| Linearizability.ModestLinearizable | src/models1/kv.go:44-67 | in every run whose Puts name versions already reached, each key has an order of its calls that holds every finished one, respects time and is accepted by the repository's specification |
| Linearizability.BadRun | src/kvsrv1/client.go:68-87 | for every c < v a run, in which exactly one call, a Put naming v at version c, is out of line, that no order explains |
| Linearizability.ResultTellsEffect | src/kvsrv1/client.go:36-43 | OK: exactly one attempt was applied; first-try ErrVersion: none was or will be; in every case at most one |
| Linearizability.FinishedIsOver | src/kvsrv1/client.go:62-88 | once a Put that named a version already reached has returned, no attempt of it can take effect any more, and ErrNoKey was not its answer |
| Linearizability.AppliedOnce | src/kvsrv1/server.go:60-79 | however often it is resent a Put is applied at most once |
| Linearizability.PointAccepted | src/models1/kv.go:50-67 | at the point a call takes, the specification accepts its result and moves as the store does |
| Linearizability.PointInside | src/kvsrv1/client.go:62-88 | that point lies inside the call |
| Clerks.SingleGet | src/kvsrv1/client.go:30-43 | Get returns the first reply it receives |
| Clerks.SinglePut | src/kvsrv1/client.go:62-88 | Put returns the first reply it receives, with ErrVersion turned into ErrMaybe unless it answers the first attempt |
| Clerks.Clerk.Retry | src/kvraft1/client.go:66-93 | the clerk returns at the first answer that is not ErrWrongLeader and has moved on one server for every attempt before it |
| Clerks.Clerk.Put | src/shardkv1/shardgrp/client.go:45-74 | at most one attempt per server; ErrWrongGroup if none answers; ErrMaybe on a resend; the clerk ends at the server that answered, one further for every attempt before |
| Clerks.ShardedPut | src/shardkv1/client.go:63-84 | the first group that is not wrong decides; ErrVersion only if a single attempt was sent in all and it was refused |
| Lock.MutualExclusion | src/kvsrv1/lock/lock.go:38-105 | for any number of clients, in every run, at most one is between Acquire's return and its Release, the stored value is its id all that time, and a client that has released is stored no longer |
| Lock.NoLeftover | src/kvsrv1/client.go:62-88 | an attempt of the lock's Puts that arrives after its call returned changes nothing |
| Lock.ReleaseOnePut | src/kvsrv1/lock/lock.go:81-105 | Release's Put is never answered with ErrVersion, and the check after ErrMaybe always finds the lock gone |
| LockProgress.FreeThenPut | src/kvsrv1/lock/lock.go:60-69 | a finished Get of Acquire that found the lock free is followed by a Put of the client's id at the version that Get returned |
| LockProgress.AcquireTakes | src/kvsrv1/lock/lock.go:38-79 | from any moment of any run a client in Acquire, wherever it is in it, comes to hold a lock that is free, or stored under its id, by its own calls |
| LockProgress.AcquireExactly | src/kvsrv1/lock/lock.go:38-79 | and it can do so if and only if the lock is free or stored under its id |
| LockProgress.ReleaseEnds | src/kvsrv1/lock/lock.go:81-105 | from any moment of any run a client in Release returns by its own calls, and its id is then not stored |
| Lock.LockRunInv | src/kvsrv1/lock/lock.go:38-105 | in every run each unfinished Put on the key is one some client waits for: an acquire of a version that was free, or a release of the one its client has |
| LockClient.LockHandle.constructor | src/kvsrv1/lock/lock.go:30-36 | a handle holds the lock's key and its owner's id |
| LockClient.LockHandle.Acquire | src/kvsrv1/lock/lock.go:38-79 | the loop asks and returns as the steps of the lock's runs do, for any answers |
| LockClient.AcquireAsks | src/kvsrv1/lock/lock.go:52-69 | on a lock found free it puts its id at the version it was told and returns when that is answered OK; on its own lock it returns at once; on another's it asks again |
| LockClient.LockHandle.Release | src/kvsrv1/lock/lock.go:81-105 | the loop asks and returns as the steps of the lock's runs do, for any answers |
| ShardTheorems.OneMap | src/shardkv1/shardctrler/shardctrler.go:69-166 | after any run, with any number of controllers crashing, stalling and resuming, the sharded store stands for exactly the acknowledged Puts applied one after the other: none lost, undone or repeated |
| ShardTheorems.MigrationKeepsMap | src/shardkv1/shardctrler/shardctrler.go:107-165 | no step of a controller, a register, a freeze, an install or a delete changes the one map, late or not |
| ShardTheorems.PutRefines | src/shardkv1/shardgrp/server.go:65-88 | a group that answers a Put at all answers and changes the one map as a single store would; one that refuses changes nothing |
| ShardProgress.RefusesExactly | src/shardkv1/shardgrp/server.go:46-70 | a group refuses the keys of the shards it does not serve and no others |
| ShardProgress.ServedPut | src/shardkv1/shardgrp/server.go:65-88 | the group that serves a key performs and answers every Put on it as the one map would |
| ShardProgress.ServedGet | src/shardkv1/shardgrp/server.go:46-64 | and answers every Get on it from the one map |
| ShardProgress.AcknowledgedHold | src/shardkv1/shardgrp/server.go:65-88 | in every run the one map has of each key the last acknowledged value, at the version that counts them |
| ShardProgress.ServedGetTells | src/shardkv1/shardgrp/server.go:46-64 | in every run the serving group's Get returns the last acknowledged value and the number of them, and ErrNoKey exactly if there is none |
| ShardProgress.ServedPutAcknowledged | src/shardkv1/shardgrp/server.go:65-88 | in every run it acknowledges a Put exactly if the Put names the number of those acknowledged before |
| ShardProgress.NamedAccepts | src/shardkv1/client.go:63-84 | with nothing pending the group that the configuration names serves the key, and a Put that names the version it tells is acknowledged |
| ShardRemains.ExecRemains | src/shardkv1/shardgrp/server.go:151-179 | in every run a group that does not have a shard has no row of it |
| ShardRemains.DeleteAnswers | src/shardkv1/shardgrp/server.go:151-179 | a Delete of any age removes every row of the shard and is answered OK, unless the group has seen a later number; then it changes nothing |
| ShardTheorems.GetRefines | src/shardkv1/shardgrp/server.go:46-64 | a group that answers a Get at all answers from the one map |
| ShardTheorems.SingleOwner | src/shardkv1/shardgrp/server.go:90-179 | in every run at most one group serves a shard, and if none does its rows are at a group frozen for the claimed, unpublished configuration |
| ShardTheorems.Fenced | src/shardkv1/shardgrp/server.go:96-103 | a Freeze, Install or Delete of a configuration already published changes no shard at the group that has it, whatever number it was acquired under |
| ShardTheorems.NumbersGrow | src/shardkv1/shardgrp/server.go:105 | no step lowers a group's number for a shard |
| ShardTheorems.CfgAdvances | src/shardkv1/shardctrler/shardctrler.go:135-152 | the published configuration stays or becomes the next of the chain |
| ShardTheorems.ChainGrows | src/shardkv1/shardctrler/shardctrler.go:92-100 | along a run claims are only added to the chain and the published number never goes down |
| ShardTheorems.SameClaim | src/shardkv1/shardctrler/shardctrler.go:71-100 | two controllers that pass the claim for one number, at any two moments, have the same target and the same configuration to take the sources from |
| ShardTheorems.ClaimedAt | src/shardkv1/shardctrler/shardctrler.go:71-100 | the old configuration of a controller that passed the claim is the one just before its target in the chain |
| ShardTheorems.ClaimIsNext | src/shardkv1/shardctrler/shardctrler.go:135-152 | a publication that can still succeed is of the one claimed configuration |
| ShardTheorems.ExecInv | src/shardkv1/shardctrler/shardctrler.go:69-166 | the invariant of shards, registers, controllers and messages holds in every run |
| ShardCtrler.Caller.ChangeConfigTo | src/shardkv1/shardctrler/shardctrler.go:69-166 | whatever the others do between its steps the invariant holds, and it reports success only if its configuration or a newer one is published; left alone, with a configuration that is next or already claimed and groups that have servers, it succeeds from any reachable state, wherever earlier controllers crashed, and then every shard is served by the group it names and no group keeps a row of a shard it gave up |
| ShardCtrler.Caller.InitController | src/shardkv1/shardctrler/shardctrler.go:42-52 | whatever the others do between its two reads and after, success means that a configuration was pending and that it, or a newer one, is published; left alone it finishes exactly the configuration that is claimed and not published, and does nothing if there is none |
| ShardCtrler.Caller.Claim | src/shardkv1/shardctrler/shardctrler.go:71-100 | the claim phase goes on exactly with the configuration asked for; left alone it fails on an old number and succeeds on one that is next or already claimed |
| ShardCtrler.Caller.ReadBoth | src/shardkv1/shardctrler/shardctrler.go:71-91 | where reading both registers leaves the controller |
| ShardCtrler.Caller.FreezeShard | src/shardkv1/shardctrler/shardctrler.go:114-121 | the rows are those of a Freeze the old group executed; it is refused only if the group has no servers or somebody interferes |
| ShardCtrler.Caller.InstallShard | src/shardkv1/shardctrler/shardctrler.go:122-127 | success means the new group has the shard; it is refused only if the group has no servers or somebody interferes |
| ShardCtrler.Caller.MoveShard | src/shardkv1/shardctrler/shardctrler.go:112-128 | one goroutine's next part, the Freeze or after it the Install: success means the shard is frozen, or has arrived |
| ShardCtrler.Caller.MoveAll | src/shardkv1/shardctrler/shardctrler.go:102-133 | in whatever order the goroutines go on, success means every moved shard is installed; with nobody interfering and servers there it succeeds |
| ShardCtrler.Caller.Publish | src/shardkv1/shardctrler/shardctrler.go:135-152 | the retry loop ends, with this or a newer configuration published, and says which |
| ShardCtrler.Caller.DeleteAll | src/shardkv1/shardctrler/shardctrler.go:154-165 | deleting changes no configuration and keeps the invariant; left alone it leaves no row of a moved shard at its old group |
| ShardCtrler.FreezeAnswers | src/shardkv1/shardgrp/server.go:96-103 | while a configuration is pending the old group of a shard it moves never refuses its Freeze, whatever was done before |
| ShardCtrler.InstallAnswers | src/shardkv1/shardgrp/server.go:128-141 | nor its new group its Install |
| ShardCtrler.AllServing | src/shardkv1/shardctrler/shardctrler.go:135-139 | with nothing pending every shard is served by the group the published configuration names |
| ShardCtrler.ExecSound | src/shardkv1/shardgrp/server.go:157-179 | in every run no group has deleted a shard for a configuration that is not published yet |
| ShardProof.ClaimInv | src/shardkv1/shardctrler/shardctrler.go:92-100 | a successful claim keeps the invariant: nothing newer is claimed before the last one is published |
| ShardProof.PublishInv | src/shardkv1/shardctrler/shardctrler.go:135-139 | publication keeps the invariant: by then every moved shard is installed |
| ShardProof.FreezeInv | src/shardkv1/shardgrp/server.go:90-120 | executing a Freeze of any age keeps the invariant and every shard's rows |
| ShardProof.InstallNewInv | src/shardkv1/shardgrp/server.go:140-150 | the first Install of a configuration brings exactly the rows the frozen source has |
| ShardProof.InstallLateInv | src/shardkv1/shardgrp/server.go:128-139 | a repeated or late Install changes nothing |
| ShardProof.DeleteInv | src/shardkv1/shardgrp/server.go:151-179 | a Delete of any age removes no row of a shard from the group that has it |
| ShardServer.KVServer.constructor | src/shardkv1/shardgrp/server.go:305-316 | a new group serves every shard if it is the first, else none, with number 0 |
| ShardServer.KVServer.Get | src/shardkv1/shardgrp/server.go:46-64 | the answer is that of the group's Get; ErrWrongGroup exactly for a shard not served, ErrNoKey exactly for a missing key of one that is |
| ShardServer.KVServer.Put | src/shardkv1/shardgrp/server.go:65-88 | table and error are those of the group's Put; ErrWrongGroup exactly for a shard not served, OK exactly for the current version of a key of one that is |
| ShardServer.KVServer.Freeze | src/shardkv1/shardgrp/server.go:90-120 | status, number and the copied rows are those of the group's Freeze |
| ShardServer.KVServer.CopyShard | src/shardkv1/shardgrp/server.go:109-115 | the loop copies exactly the shard's rows |
| ShardServer.KVServer.Install | src/shardkv1/shardgrp/server.go:122-150 | table, status, number and error are those of the group's Install |
| ShardServer.KVServer.AddRows | src/shardkv1/shardgrp/server.go:147-149 | the loop adds all rows and keeps the others |
| ShardServer.KVServer.Delete | src/shardkv1/shardgrp/server.go:151-179 | table, status, number and error are those of the group's Delete |
| ShardServer.KVServer.DropShard | src/shardkv1/shardgrp/server.go:173-178 | the loop removes exactly the shard's rows |
| ShardServer.KVServer.Snapshot | src/shardkv1/shardgrp/server.go:185-195 | a snapshot is table, status and numbers |
| ShardServer.KVServer.Restore | src/shardkv1/shardgrp/server.go:197-210 | restoring a snapshot gives back its table, status and numbers |
| ShardCfg.RebalancedBest | src/shardkv1/shardcfg/shardcfg.go:122-154 | for any groups and assignment: every shard on a member, loads at most one apart; once the unassigned are placed, the balancing loop moves exactly max(excess over the share plus one, shortfall) different shards, which no even assignment undercuts |
| ShardPlacing.RebalancedFewest | src/shardkv1/shardcfg/shardcfg.go:122-154 | of the shards that the old assignment has on members exactly as many move as its loads force, max(excess over the share plus one, excess over the share less the remainder), and no even assignment moves fewer |
| ShardPlacing.RebalancedStays | src/shardkv1/shardcfg/shardcfg.go:122-154 | all of them stay if and only if that number is zero |
| ShardPlacing.RebalancedKeeps | src/shardkv1/shardcfg/shardcfg.go:122-154 | all of them stay if no member had more shards than its share |
| ShardPlacing.MoveAtLeast | src/shardkv1/shardcfg/shardcfg.go:140-153 | every even assignment moves at least that many |
| ShardPlacing.EvenResting | src/shardkv1/shardcfg/shardcfg.go:130-153 | the balancing loop moves no shard that was only just placed |
| ShardCfg.FillPlaces | src/shardkv1/shardcfg/shardcfg.go:130-138 | each shard of no member goes, in its turn, to a group that is then least loaded |
| ShardCfg.RebalancedTwice | src/shardkv1/shardcfg/shardcfg.go:122-154 | rebalancing again changes nothing |
| ShardCfg.FillKeeps | src/shardkv1/shardcfg/shardcfg.go:131-138 | placing unassigned shards leaves members' shards alone and leaves none unassigned |
| Balance.EvenBest | src/shardkv1/shardcfg/shardcfg.go:140-153 | the balancing loop ends even, with the fewest shards moved |
| Balance.ShiftNeeded | src/shardkv1/shardcfg/shardcfg.go:146-152 | each move lowers the number of moves still needed by exactly one: the loop ends |
| Balance.EvenMoves | src/shardkv1/shardcfg/shardcfg.go:140-153 | no shard moves twice: shards displaced and moves made are the same number |
| Balance.KeepsOn | src/shardkv1/shardcfg/shardcfg.go:140-153 | a group that has received never becomes one that gives |
| Balance.Fewest | src/shardkv1/shardcfg/shardcfg.go:140-153 | any even assignment displaces at least the needed number of shards |
| Balance.MostIs | src/shardkv1/shardcfg/shardcfg.go:99-108 | the scan over ascending ids finds the most and the least loaded group, the smallest id among equals |
| ShardCfg.ShardConfig.constructor | src/shardkv1/shardcfg/shardcfg.go:44-49 | an empty configuration, number 0, no shard assigned |
| ShardCfg.ShardConfig.SortedGids | src/shardkv1/shardcfg/shardcfg.go:90-98 | the ids of the group map in ascending order |
| ShardCfg.ShardConfig.Tally | src/shardkv1/shardcfg/shardcfg.go:81-84 | the count of every id |
| ShardCfg.ShardConfig.Scan | src/shardkv1/shardcfg/shardcfg.go:86-108 | most and least loaded group and their loads; -1 and 257 without groups |
| ShardCfg.ShardConfig.Analyze | src/shardkv1/shardcfg/shardcfg.go:80-111 | the same for the configuration |
| ShardCfg.ShardConfig.Place | src/shardkv1/shardcfg/shardcfg.go:130-138 | members keep their shards, and each other shard goes, in its turn, to a group that is then least loaded |
| ShardCfg.ShardConfig.MoveOne | src/shardkv1/shardcfg/shardcfg.go:147-152 | the first shard of the one group goes to the other, nothing else changes |
| ShardCfg.ShardConfig.Level | src/shardkv1/shardcfg/shardcfg.go:140-153 | the loop ends and leaves the even assignment |
| ShardCfg.ShardConfig.Rebalance | src/shardkv1/shardcfg/shardcfg.go:122-154 | the array holds the rebalanced assignment, which is a function of groups and old assignment alone |
| ShardCfg.ShardConfig.AddGroups | src/shardkv1/shardcfg/shardcfg.go:158-177 | all groups join exactly if no id and no server is taken; else some may have |
| ShardCfg.ShardConfig.Join | src/shardkv1/shardcfg/shardcfg.go:156-183 | the number goes up exactly if all could join and there was one; a refusal leaves those already added |
| ShardCfg.ShardConfig.Leave | src/shardkv1/shardcfg/shardcfg.go:185-205 | the number goes up exactly if all ids were groups and none came twice; a refusal leaves those before it gone |
| ShardCfg.ShardConfig.JoinBalance | src/shardkv1/shardcfg/shardcfg.go:207-213 | a join that succeeds leaves a balanced configuration with the next number; one that fails moves no shard |
| ShardCfg.ShardConfig.LeaveBalance | src/shardkv1/shardcfg/shardcfg.go:215-221 | a leave that succeeds leaves a balanced configuration with the next number; one that fails moves no shard |
| MapReduce.RunBoth | src/main/mrsequential.go:38-84 | with a Reduce that does not mind the order of values, the lines of all partitions together are the lines of the sequential program, each as often |
| MapReduce.DistributedIsSequential | src/mr/worker.go:88-105 | the same for any outputs that reduce their partitions |
| MapReduce.KeyInOnePartition | src/mr/worker.go:88-89 | a key with all its values is in exactly the partition its hash names |
| MapReduce.PartitionsTogether | src/mr/worker.go:128-225 | reductions of the partitions are together a reduction of all pairs |
| MapReduce.SameLines | src/main/mrsequential.go:68-84 | two reductions of the same pairs have the same lines |
| MapReduce.ReducesOrder | src/mr/worker.go:184-186 | an order of the pairs, and so the choice of sort, makes no difference to such a Reduce |
| MapReduce.RunIsAll | src/mr/worker.go:190-201 | in sorted pairs a run of equal keys holds all the values of its key |
| MapReduce.SortByKey | src/mr/worker.go:184-186 | some permutation sorted by key |
| MapReduce.TakeRun | src/mr/worker.go:191-198 | the inner loops find the end of the run and its values in order |
| MapReduce.ReduceSorted | src/main/mrsequential.go:68-84 | the loop puts out one line for every key, reduced from all its values |
| MapReduce.Shuffle | src/mr/worker.go:188-201 | the worker's loop collects exactly one entry for every key, with all its values |
| MapReduce.Sequential | src/main/mrsequential.go:38-84 | the sequential program puts out a reduction of all pairs |
| MapReduce.MapTask | src/mr/worker.go:70-105 | each file holds exactly the pairs of its partition, in order |
| MapReduce.ReduceTask | src/mr/worker.go:147-208 | a worker's output is a reduction of the pairs in the files it found |
| MapReduce.Distributed | src/mr/worker.go:63-233 | each partition's output is a reduction of the pairs that hash to it, in whatever order its files are found |
| SerialCrawler.Crawl.Serial | class/lecture2/crawler.go:17-30 | what a crawl adds is reachable, and closed but for what was there before |
| SerialCrawler.Crawl.Run | class/lecture2/crawler.go:119 | started with nothing fetched it fetches each reachable page once and no other |
| ChannelCrawler.CountsSends | class/lecture2/crawler.go:86-103 | in every interleaving n is the number of sends not yet received, the list in hand included, and the coordinator stops exactly when there are none |
| ChannelCrawler.FetchesReachableOnce | class/lecture2/crawler.go:77-111 | no page is fetched twice or without being reachable, and when the coordinator stops all reachable ones have been |
| ChannelCrawler.NeverStuck | class/lecture2/crawler.go:86-103 | until it stops some goroutine can go on |
| ChannelCrawler.StepsRunOut | class/lecture2/crawler.go:86-103 | every step lowers a measure, so every interleaving ends |
| MutexCrawler.FetchesReachableOnce | class/lecture2/crawler.go:49-67 | in every interleaving no page is fetched twice or without being reachable, and when the first call returns every call has and all reachable pages have been fetched |
| MutexCrawler.NeverStuck | class/lecture2/crawler.go:55-65 | the wait groups never deadlock |
| MutexCrawler.AllReturned | class/lecture2/crawler.go:55-65 | the first call returns only when all have |

## Left out

- RaftServer.Raft.AppendEntries: takes PreLogIndex as a natural number, because a leader never sends a negative one; the code's test for a negative index is left out.
- RaftServer.Raft.CheckAndAppend: the same.
- RaftServer.Raft.ElectionTimeout: happens at any moment, because sleeps, random timeouts and electionGen are left out; `RaftElection.ElectionPossible` says that a leader can be elected, nothing is claimed about how soon.
- RaftSafety.ReplicasAgree: holds for steady runs only, because of the race above; `RaftDelivery.DeliveryCanSkip` is a run that breaks it.
- RaftProbing.ProbingEnds: is about two servers left alone with one request at a time between them, because a new term or a compaction at the leader begins another search.
- KvServer.Rsm.Answer: does not claim that a reply belongs to the operation submitted, because the code matches a waiter by index and server only.
- Linearizability.ModestLinearizable: is about one store that runs each request at most once, because a reply through the replicated log may belong to another operation; calls at a shard group meet such a store through `ShardTheorems.PutRefines` and `ShardTheorems.GetRefines`.
- ShardTheorems.OneMap: takes a controller's `new` as one read back from nextName or built from a configuration read from cfgName with the number one higher, because ChangeConfigTo is sound only for these; each group keeps one fixed list of servers.
- ShardTheorems.Fenced: is about configurations already published; a message of the claimed one is what moves the shard.
- ShardCtrler.Caller.MoveAll: one goroutine's Freeze or Install comes between those of others, not the packets of one between the packets of another; those interleavings are steps of `ShardSystem`, for which the theorems hold in any order.
- ShardCfg.ShardConfig.Rebalance: needs fewer than 257 shards, because the code's sentinel for the least load is 257.
- MapReduce.Distributed: runs the map tasks and then the reduce tasks, because the coordinator's phases hold only if each worker reports once; files, their names and the coordinator are left out.
- MutexCrawler.FetchesReachableOnce: starts and counts a goroutine in one step, because nothing can come between the two that another goroutine sees.
- Versions, terms, indices and configuration numbers are unbounded; the code's 64-bit wrap-around is not modelled.
- The hash of a key is a parameter of the sharded store and of MapReduce: nothing depends on FNV.
- Bytes, JSON, labgob and labrpc: encoding is an exact round trip, the network a set of messages.
- Kill, the size threshold for snapshots (any applied index may be snapshot), and the repository's own tests.
- FreezeShard, InstallShard and DeleteShard of the group clerk: loops that retry until an answer, as Clerk.Retry does without ErrMaybe.
- Groups exist from the start of a run, owning nothing until they join.
