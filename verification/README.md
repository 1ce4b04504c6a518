# A verified model of the replicated store and the chat pools

This project models, in Dafny, the logic of a small distributed key-value store and of the pools of
a chat server, and proves what every run of them keeps.

- **Raft** (`RaftTypes`, `RaftSteps`, `RaftNode`, `RaftCluster`). A node's calls are functions from
  its fields to new fields and the callbacks it makes, in order; the class `RaftNode` updates the
  fields in place with the loops of the original and is proved to do exactly that. A cluster is the
  nodes, the durable term and vote of each, the packets sent and delivered, and what each node
  applied. A run interleaves calls in any order; packets may be lost, delayed and reordered. A crash
  may stop a call between any two of its callbacks; the node then restarts from its disk.
  - `CallLaws`: what each call does and answers, from the message and the fields, without the step
    functions: who gets a vote, who wins, what a newer term does, what an append request leaves.
  - `VoteDiscipline`, `ElectionSafety`: at most one leader per term, whatever log a restart finds.
  - `CallPhases`, `LogShape`, `LogMatching`, `CrashMoves`, `LeaderCompleteness`,
    `StateMachineSafety`: what every step keeps, complete or cut short by a restart that finds the
    log it wrote.
  - `RaftSafety`, `EveryLaterLeader`: Log Matching, State Machine Safety and Leader Completeness over
    every such run.
  - `RaftTail`: exactly when a success reply and a follower's commit are right.
  - `SampleRuns`, `SampleCalls`, `StaleTailRun`, `LostEntryRun`, `NeededHypotheses`: concrete runs
    that show which hypotheses cannot be dropped.
  - `ApplyOrder`, `LogRepair`: order of application, convergence of log repair, stability of
    agreement.
- **Durable half** (`Bytes`, `Engine`, `RaftStore`, `PersistHistory`, `RaftService`, `Replica`,
  `ReplicaRuns`): ordered log keys, scans and batches of the engine, what a restart finds after any
  callbacks, and the engines of a run's nodes as the fold of the commands applied to them.
- **Placement driver and router** (`Placement`, `ShardMap`, `ShardManager`): balanced replica
  placement, rebalancing, key ranges and routing.
- **Pools** (`ThreadPool`, `ConnectPool`): conservation of tasks and connections over every
  interleaving, drain at shutdown, completeness of the reaper.
- **Stream splitters** (`Framing`, `JsonStream`): length-prefixed frames and brace-matched objects,
  independent of how the stream is cut.

## Where the code departs from the paper or its comments

The model follows the code.

- A success reply and a follower's commit use the last index of the follower's log, not the last
  index the request verified (`raft_node.cpp` lines 175 and 183). State Machine Safety and Leader
  Completeness are therefore proved for runs in which every accepting follower ends with a prefix of
  the sender's log. `RaftTail` shows that this is one comparison of terms before the call. It cannot
  be dropped: `NeededHypotheses.AppliedCommandsCanDiffer` breaks State Machine Safety and the same-term
  form of Leader Completeness through line 175, and `NeededHypotheses.CommittedCanBeMissing` breaks Leader
  Completeness of a later term through line 183. Election Safety and Log Matching need no such
  condition.
- A same-term AppendEntries does not turn a candidate into a follower (lines 137-140), and an append
  reply with a higher term does not make a leader step down (line 105).
- `propose` answers true before anything is committed (lines 30-46), so true does not mean committed.
- Persisting deletes the old log keys after putting the new ones in one batch (`raft_service.cpp`
  lines 190-206, `rocks_engine.cpp` lines 81-86): a key in both lists ends absent. An entry is found
  by a restart only if the number of consecutive latest log writes that wrote it is odd
  (`PersistHistory.RecoverAfterHistory`). Election Safety is proved for restarts that find any log at
  all. The properties of logs are proved for runs whose restarts find the log last written;
  `ReplicaRuns.RestartReadsEngine` says when the engine gives that, and
  `NeededHypotheses.EntryLostToRestart` is a run in which it does not and a committed command is replaced.
- The placement scan starts from the first alive node without looking whether the shard has it
  (`shard_manager.cpp` lines 124-133), so a pass over an existing assignment can place two replicas on
  one node; from no replicas it cannot. `Placement.FillRepeatsExactlyWhen` gives the exact condition.
- After a timed wait an idle pool thread leaves without looking at the queue again (`threadpool.h`
  lines 221-238).

## Assumptions

- Membership is fixed, node ids are distinct and not zero, and a node's peers are the others.
- The network delivers a packet at most once: votes are counted by an integer, not a set.
- Terms, indices and counters do not overflow; indices stay below 255 * 2^56 and logs at most 100000
  entries where the store is concerned, which are the bounds of the scan.
- Clients do not use the keys reserved for Raft.
- A timeout may happen at any tick; clocks and random timeouts are parameters.
- Protobuf and JSON parsing are parameters; serializing a log entry and parsing it gives it back.
- A connection's return time and the reaper's readings come from one clock that does not go back and
  ticks in nanoseconds, so that more than ten whole seconds are 11 * 10^9 ticks or more.

## Model

| member | source | states |
|---|---|---|
| `ElectionSafety.AtMostOneLeaderPerTerm` | 分布式存储/src/data_node/raft_node.cpp:49-99 | in every run, with crashes between any two durable writes and any log read back after a crash, two leaders of one term, observed at any two times, are the same node |
| `ElectionSafety.StepKeepsElection` | 分布式存储/src/data_node/raft_node.cpp:213-268 | every complete or cut-short call keeps the election invariant: disk and memory agree on term and vote, one grant per voter and term, the integer vote tally is at most the number of distinct voters heard |
| `VoteDiscipline.GuardedPrefix` | 分布式存储/src/data_node/raft_service.cpp:185-188 | when a call's callbacks stop after any number of them, no vote on the wire goes beyond what the separately written term and vote on disk allow |
| `VoteDiscipline.RequestVoteGuarded` | 分布式存储/src/data_node/raft_node.cpp:49-74 | answering a vote request makes term and vote durable before the grant is sent |
| `LogShape.MergeResult` | 分布式存储/src/data_node/raft_node.cpp:158-171 | truncate-and-append against a request cut out of a leader's log leaves the old log, already agreeing through the last entry sent, or exactly the leader's log up to there |
| `LeaderCompleteness.ProgressKeepsCore` | 分布式存储/src/data_node/raft_node.cpp:49-74 | an entry that may still be, or was, acknowledged by a majority is in the log of every later leader and stays in the logs of those who acknowledged it, step by step |
| `EveryLaterLeader.CommittedInEveryLaterLeader` | 分布式存储/src/data_node/raft_node.cpp:296-312 | Leader Completeness for leaders of later terms observed at any time, before the commit as well as after it |
| `StateMachineSafety.ReplicatedIsChosen` | 分布式存储/src/data_node/raft_node.cpp:300-310 | counting match indices over a majority really finds an entry of the leader's own term acknowledged by a majority of the cluster |
| `RaftTail.TailCheck` | 分布式存储/src/data_node/raft_node.cpp:181-184 | the hypothesis is one comparison of terms before the call: the reported match index is true of the leader's log if and only if the follower's tail fits it |
| `RaftTail.CommitCheck` | 分布式存储/src/data_node/raft_node.cpp:173-176 | when a request raises the commit index, everything up to the new index is the leader's if and only if the term found there is the leader's |
| `ApplyOrder.AppliedOnceInOrder` | 分布式存储/src/data_node/raft_node.cpp:314-321 | in every crash-free run the apply callback of each node has seen 1, 2, 3, ... without gap or repeat, and nothing committed is waiting when a call returns |
| `LogRepair.RepairConverges` | 分布式存储/src/data_node/raft_node.cpp:113-119 | for any two logs that satisfy Log Matching, reject/decrement/resend ends within nextIndex rounds, never takes nextIndex below one, leaves the follower agreeing through the leader's last index, and, unless the leader knew it before, its matchIndex at the follower's last index and its nextIndex one above |
| `CallPhases.DiesEitherWay` | 分布式存储/src/data_node/raft_node.cpp:213-268 | a node that dies in a call either has all of its durable writes on disk, or holds the old log and has sent and applied nothing |
| `CallPhases.LocalPhased` | 分布式存储/src/data_node/raft_node.cpp:30-209 | every call makes its durable writes before it sends or applies anything |
| `RaftSafety.LogsMatch` | 分布式存储/src/data_node/raft_node.cpp:142-171 | in every state of every run whose restarts read back the log they wrote, nodes dying anywhere in a call and requests dropped, delayed and reordered, two logs with the same term at an index are identical up to it |
| `CrashMoves.StepKeepsLogs` | 分布式存储/src/data_node/raft_node.cpp:30-46 | every call, complete or cut short by such a restart, keeps the log invariant: each log is sound and every entry in it, with all that precedes it, comes from the log of the leader of its term |
| `RaftSafety.SameCommandsApplied` | 分布式存储/src/data_node/raft_node.cpp:296-321 | State Machine Safety: in every run in which each restart reads back the log it wrote and each accepting follower ends with a prefix of the sender's log, whatever two nodes apply at one index, whenever and in whichever of their lives, is one command |
| `RaftSafety.CommittedInLaterLeaders` | 分布式存储/src/data_node/raft_node.cpp:122-185 | Leader Completeness, same runs: what a node has committed is, from then on, a prefix of the log of every leader of the same or a later term |
| `NeededHypotheses.AppliedCommandsCanDiffer` | 分布式存储/src/data_node/raft_node.cpp:173-176 | without the prefix hypothesis both are false: a crash-free run of three nodes in which a heartbeat commits an entry it never verified, two nodes apply different commands at index 1, and what one committed is not in the log of the leader of the same term |
| `NeededHypotheses.CommittedCanBeMissing` | 分布式存储/src/data_node/raft_node.cpp:181-184 | a crash-free run in which a heartbeat is answered with the follower's last index, the leader of term 2 commits an entry nobody else holds, and the leader of term 3 does not have it |
| `NeededHypotheses.EntryLostToRestart` | 分布式存储/src/data_node/raft_service.cpp:190-206 | without whole restarts it is false too: a run with no stale tail and one restart, which finds exactly what its engine holds after an even number of persists, and two nodes apply different commands at index 1 |
| `LogRepair.AgreementIsStable` | 分布式存储/src/data_node/raft_node.cpp:158-171 | once a follower accepts a request, its log through the last index covered does not change while its term lasts, whatever older or reordered requests arrive and whichever restarts read back their logs, and is the log of that term's leader |
| `PersistHistory.PresentIffOdd` | 分布式存储/src/data_node/rocks_engine.cpp:76-89 | after any callbacks, completed or cut short, a log key is present if and only if the number of consecutive latest log writes that wrote it is odd, since a batch deletes after it puts |
| `PersistHistory.RecoverAfterHistory` | 分布式存储/src/data_node/raft_service.cpp:183-231 | what a restart reads after any callbacks, completed or cut short: the latest term and vote, and the entries of the log last written whose streak is odd; the whole log if and only if all are |
| `PersistHistory.PersistTwiceForgets` | 分布式存储/src/data_node/raft_service.cpp:190-206 | persisting an unchanged state twice leaves nothing of the log, once keeps it |
| `Replica.DiskIsStored` | 分布式存储/src/data_node/raft_service.cpp:208-217 | the term and vote a restart reads are those of the crash model's disk, after callbacks cut short anywhere |
| `Replica.ReplayForgets` | 分布式存储/src/data_node/raft_service.cpp:158-174 | whatever was applied before, applying commands among which it all occurs gives the store of applying those once |
| `ReplicaRuns.ReplicasAgree` | 分布式存储/src/data_node/raft_service.cpp:158-206 | the engines of two nodes that have caught up to the same index, each after all the callbacks its node made in all its lives, show clients the same store, whenever each is looked at (runs of SameCommandsApplied) |
| `ReplicaRuns.RunThisLife` | 分布式存储/src/data_node/raft_node.cpp:314-321 | in every run, with crashes anywhere and whatever log a restart finds, each node has applied 1, 2, ..., lastApplied in this order since its last start |
| `ReplicaRuns.HistoryRecorded` | 分布式存储/src/data_node/raft_node.cpp:314-327 | what a run records of a node, applied commands and durable term and vote, is what its callbacks did, over every run |
| `ReplicaRuns.MemoryIsStored` | 分布式存储/src/data_node/raft_service.cpp:197-206 | as long as restarts read back the log written, the log in memory is the log last written |
| `ReplicaRuns.RestartReadsEngine` | 分布式存储/src/data_node/raft_service.cpp:208-231 | a restart of the crash model against the engine: term and vote are the engine's, and when the entries are too, it loses nothing if and only if every entry last written has an odd streak |
| `Placement.FillRepeatsExactlyWhen` | 分布式存储/src/pd_server/shard_manager.cpp:121-136 | exactly when filling a shard puts two replicas on one node, in terms of what filling starts from: the first alive node holds one and fewer lighter nodes than missing replicas lack one; or it does not, and beside it fewer than the rest lack one and are no heavier |
| `Placement.RepeatsExactlyWhen` | 分布式存储/src/pd_server/shard_manager.cpp:123-133 | exactly when one pick falls on a node that already holds a replica |
| `Framing.SendFrame` | 分布式存储/src/common/codec.cpp:43-52 | four length bytes, the sender's type byte, the data |
| `CallLaws.GrantedExactlyWhen` | 分布式存储/src/data_node/raft_node.cpp:48-74 | the whole answer to a vote request from message, fields and log ends: granted exactly when the term is not older, the vote is free or already the candidate's, and the voter's (last term, last index) is not lexicographically above the candidate's |
| `CallLaws.SomebodyElectable` | 分布式存储/src/data_node/raft_node.cpp:61-66 | in a term above all of theirs, of any non-empty set of nodes one gets the vote of every node of the set |
| `CallLaws.StandsForElection` | 分布式存储/src/data_node/raft_node.cpp:222-268 | an election timeout: next term, own vote, and exactly one request to each peer with what the log ends with |
| `CallLaws.WinsExactlyWhen` | 分布式存储/src/data_node/raft_node.cpp:86-99 | a candidate leads exactly when twice its votes exceed the cluster's size, for any size; it then expects each peer to hold its whole log and tells each so |
| `CallLaws.TermHeeded` | 分布式存储/src/data_node/raft_node.cpp:80-84 | a message of an older term changes no field; one of a newer term other than an append reply makes the node a follower of that term, and writes it down |
| `CallLaws.DeliveryRaisesTerm` | 分布式存储/src/data_node/raft_node.cpp:128-139 | over every run: after any request or vote reply arrives the receiver's term is the larger of the two and on disk; if it rose the node is a follower, and log, commitIndex and lastApplied are as before unless the message is an append request |
| `CallLaws.UnawaitedIgnored` | 分布式存储/src/data_node/raft_node.cpp:85-86 | a reply of an older term, or one the node's role no longer waits for, changes nothing and causes no callback |
| `CallLaws.AppendRefused` | 分布式存储/src/data_node/raft_node.cpp:128-156 | an append request of an older term, beyond the log, or with another previous term is refused; the reply's hint and what is left unchanged are stated for each case |
| `CallLaws.AppendAccepted` | 分布式存储/src/data_node/raft_node.cpp:158-185 | otherwise the log is cut at the first entry of the request it does not hold, by index and term, and continued with the request; what is then committed, applied and answered |
| `CallLaws.TakesCommand` | 分布式存储/src/data_node/raft_node.cpp:30-46 | only a leader takes a command: one entry of its term at the next index, written down and sent to each peer with everything the peer is believed to miss |
| `CallLaws.HearsAnswer` | 分布式存储/src/data_node/raft_node.cpp:105-119 | a success never lowers matchIndex and sets nextIndex one above a raised one; a refusal lowers nextIndex by one, never below one, and resends; other peers' indices stay |
| `CallLaws.CommitsExactlyWhen` | 分布式存储/src/data_node/raft_node.cpp:200-208 | a leader's tick commits the highest entry of its own term that a strict majority holds, counting the leader, for a cluster of any size, and sends heartbeats exactly when due |
| `Replica.LookupAfter` | 分布式存储/src/data_node/raft_service.cpp:158-174 | a key has a value after a list of commands if and only if the last command touching it puts that value, or none touches it and it had the value before |
| `Engine.ScanReads` | 分布式存储/src/data_node/rocks_engine.cpp:51-74 | a scan gives ascending keys of the range with the store's values, never over the limit, and every key of the range before the one to go on with |
| `RaftStore.DecimalIs` | 分布式存储/src/data_node/raft_service.cpp:183-188 | the stored term and vote are decimal digits of the number's value, without a leading zero |
| `RaftStore.EachPairCounts` | 分布式存储/src/data_node/raft_service.cpp:219-227 | a stored pair yields its entry if it parses and nothing otherwise, whatever surrounds it |
| `RaftStore.NothingToLoad` | 分布式存储/src/data_node/raft_service.cpp:208-231 | from a store that was never written a restart leaves the node as constructed |
| `RaftStore.EntriesLimited` | 分布式存储/src/data_node/raft_service.cpp:219-222 | a restart reads back at most 100000 entries |
| `Placement.BestIsFirst` | 分布式存储/src/pd_server/shard_manager.cpp:123-133 | of the lightest nodes the shard lacks the scan takes the first in table order |
| `ShardMap.FirstLetterDecides` | 分布式存储/src/pd_server/shard_manager.cpp:53-61 | the shard serving a key is the one whose 26 / n first letters hold the key's, or the last one for what lies beyond; and shard ids are the positions from 1, never the router's 0 |
| `PoolSteps.SubmitAddsThread` | chat/include/threadpool.h:126-154 | over every run, once start has counted its threads: a submit is accepted below the limit, and adds a thread exactly in cache mode when the queue outnumbers the idle threads and the thread limit allows |
| `ConnectSteps.IdleIsLong` | chat/src/server/MysqlDB.cpp:275-280 | more than ten whole seconds unused is eleven billion nanoseconds of the clock or more |
| `Framing.FrameLayout` | 分布式存储/src/common/codec.cpp:43-52 | the four length bytes weigh 2^24, 2^16, 2^8 and 1, then type, then payload |
| `JsonStream.ClosingIsFirst` | chat/src/client/chat_client.cpp:86-103 | the end found is the first position outside every string where as many braces closed as opened, counting only braces outside strings, and none is found exactly when there is no such position |
| `JsonStream.EachTextCounts` | chat/src/client/chat_client.cpp:112-117 | a text contributes its value if it parses and nothing otherwise, whatever surrounds it |
| `RaftNodeClass.RaftNode.constructor` | 分布式存储/src/data_node/raft_node.cpp:8-26 | a new node has term 0, no vote and a log holding the sentinel |
| `RaftNodeClass.RaftNode.Propose` | 分布式存储/src/data_node/raft_node.cpp:30-46 | new fields and callbacks are those of the propose step; false without any change unless leader |
| `RaftNodeClass.RaftNode.HandleRequestVote` | 分布式存储/src/data_node/raft_node.cpp:48-74 | reply, new fields and callbacks are those of the vote step, which GrantedExactlyWhen pins and RequestVoteGuarded orders |
| `RaftNodeClass.RaftNode.ProcessVoteReply` | 分布式存储/src/data_node/raft_node.cpp:76-99 | new fields and callbacks are those of the vote-reply step, which TermHeeded, UnawaitedIgnored and WinsExactlyWhen pin |
| `RaftNodeClass.RaftNode.ProcessAppendReply` | 分布式存储/src/data_node/raft_node.cpp:101-120 | new fields and callbacks are those of the append-reply step; a higher term does not make the leader step down |
| `RaftNodeClass.RaftNode.HandleAppendEntries` | 分布式存储/src/data_node/raft_node.cpp:122-185 | reply, new fields and callbacks are those of the append step; a same-term request does not make a candidate step down |
| `RaftNodeClass.RaftNode.MergeEntries` | 分布式存储/src/data_node/raft_node.cpp:158-171 | the loop computes the merge that MergeResult characterises |
| `RaftNodeClass.RaftNode.Tick` | 分布式存储/src/data_node/raft_node.cpp:187-209 | new fields and callbacks are those of the tick step, for either answer of the clock |
| `RaftNodeClass.RaftNode.BecomeFollower` | 分布式存储/src/data_node/raft_node.cpp:213-220 | fields and callbacks of stepping down |
| `RaftNodeClass.RaftNode.BecomeCandidate` | 分布式存储/src/data_node/raft_node.cpp:222-232 | fields, durable writes and one vote request per peer, in this order |
| `RaftNodeClass.RaftNode.StartElection` | 分布式存储/src/data_node/raft_node.cpp:252-268 | one vote for itself and one request per peer, describing its log |
| `RaftNodeClass.RaftNode.BecomeLeader` | 分布式存储/src/data_node/raft_node.cpp:234-250 | next and match indices of every peer are reset and a heartbeat goes to each; every next index is at least one |
| `RaftNodeClass.RaftNode.SendAppendEntries` | 分布式存储/src/data_node/raft_node.cpp:272-294 | one request per peer, cut out of the log at its next index; the node does not change |
| `RaftNodeClass.RaftNode.AdvanceCommitIndex` | 分布式存储/src/data_node/raft_node.cpp:296-312 | the commit index becomes the highest entry of the current term that a majority holds, and no higher one qualifies; nothing else changes |
| `RaftNodeClass.RaftNode.ApplyCommitted` | 分布式存储/src/data_node/raft_node.cpp:314-321 | applies exactly the entries after lastApplied up to commitIndex, in order, inside the log |
| `RaftNodeClass.RaftNode.LoadPersistedState` | 分布式存储/src/data_node/raft_node.cpp:329-343 | term, vote and sentinel plus the given entries; all other fields stay |
| `RaftStore.EncodeLogKey` | 分布式存储/src/data_node/raft_service.cpp:177-181 | the shifting loop gives the byte 255 and the index as eight big-endian bytes |
| `RaftStore.LogKeyOrder` | 分布式存储/src/data_node/raft_service.cpp:176-181 | log keys are injective and sorted by index, for every 64-bit index |
| `RaftStore.LogKeyInRange` | 分布式存储/src/data_node/raft_service.cpp:195-195 | the scanned range holds the keys of exactly the indices below 255 * 2^56 |
| `RaftStore.NumbersSurvive` | 分布式存储/src/data_node/raft_service.cpp:183-188 | term and vote are read back exactly after a persist, whatever the store held and whatever the log is |
| `RaftStore.RecoverAfterPersist` | 分布式存储/src/data_node/raft_service.cpp:183-231 | a restart after a persist reads the term, the vote and exactly the entries whose keys the store did not hold before |
| `RaftStore.RestoredIffDisjoint` | 分布式存储/src/data_node/raft_service.cpp:190-206 | persist then recover restores the log if and only if the stale log keys are disjoint from the keys written |
| `RaftStore.RestartRestores` | 分布式存储/src/data_node/raft_node.cpp:329-343 | the same for the restarted node: term and vote are always back, the log if and only if no key written was in the store before |
| `Engine.RocksEngine.Scan` | 分布式存储/src/data_node/rocks_engine.cpp:51-74 | the pairs of the first `limit` keys of [start, end) in key order, whether there are more, and the next key |
| `Engine.RocksEngine.WriteBatch` | 分布式存储/src/data_node/rocks_engine.cpp:76-89 | all puts in order, then all deletes: a key in both lists ends absent |
| `Engine.RocksEngine.Find` | 分布式存储/src/data_node/rocks_engine.cpp:38-43 | found if and only if present, with its value |
| `RaftServiceClass.RaftService.OnApply` | 分布式存储/src/data_node/raft_service.cpp:158-174 | a put key is present with its value, a deleted key absent, every other key as before, and any other request changes nothing; the store is the fold LookupAfter reads |
| `RaftServiceClass.RaftService.PersistRaftState` | 分布式存储/src/data_node/raft_service.cpp:183-206 | two puts, a scan and one batch leave the store the persist theorems speak about |
| `RaftServiceClass.RaftService.RecoverRaftState` | 分布式存储/src/data_node/raft_service.cpp:208-231 | the node continues with what the recovery theorems say the store holds; loading is skipped when there is neither term nor log |
| `Replica.ClientSeesFold` | 分布式存储/src/data_node/raft_service.cpp:158-206 | after any callbacks, completed or cut short anywhere, the client sees the fold of the applied commands, the store LookupAfter describes; Raft's own writes do not show |
| `Replica.ReplayChangesNothing` | 分布式存储/src/data_node/raft_service.cpp:158-174 | applying a whole log over the store of any of its prefixes gives the store of applying it once |
| `Replica.PersistIsPersisted` | 分布式存储/src/data_node/raft_service.cpp:183-206 | the three durable writes of the protocol model are what the service's persist does to the engine |
| `Placement.BalancedPlacement` | 分布式存储/src/pd_server/shard_manager.cpp:100-141 | from no replicas on m alive nodes: every shard gets exactly min(3, m) distinct alive nodes, and every node's load is the quotient of the total by m or one more |
| `Placement.RebalanceKeeps` | 分布式存储/src/pd_server/shard_manager.cpp:96-142 | one pass over any assignment drops and moves no replica, adds only alive nodes, reaches three replicas or as many as are alive, keeps a set leader, names the first earlier replica where none was set, leaves a shard without replicas unled, and its incremental counter ends equal to a full recount |
| `Placement.SettledAfterTwo` | 分布式存储/src/pd_server/shard_manager.cpp:96-142 | with as many alive nodes and no id zero, every shard has a leader after two passes and a third changes nothing |
| `Placement.RepeatedReplica` | 分布式存储/src/pd_server/shard_manager.cpp:123-134 | an assignment of two shards from which a pass gives one node two replicas of a shard |
| `Placement.BestIsLight` | 分布式存储/src/pd_server/shard_manager.cpp:123-133 | the scan settles on the first alive node or a strictly lighter one the shard lacks, and on nothing heavier than any node the shard lacks |
| `ShardMap.RangesPartition` | 分布式存储/src/pd_server/shard_manager.cpp:46-63 | for every shard count from 1: each key from "a" on lies in exactly one shard, the one the first-match lookup returns; smaller keys lie in none |
| `ShardMap.RebalanceKeepsRouting` | 分布式存储/src/pd_server/shard_manager.cpp:96-142 | rebalancing never changes which shard a key is routed to |
| `ShardMap.EveryKeyServed` | 分布式存储/src/pd_server/shard_manager.cpp:46-142 | after creating the shards and two passes, every key from "a" on is routed to a shard led by its first replica, one of min(3, m) distinct alive nodes |
| `ShardMap.Router.GetShardId` | 分布式存储/src/client_sdk/router.cpp:43-51 | the id of the first shard that covers the key, or 0 |
| `ShardMap.Router.GetAddrForKey` | 分布式存储/src/client_sdk/router.cpp:16-31 | the direct address, or the address of the leader of the first shard that covers the key, or empty |
| `ShardManagerClass.ShardManager.ScheduleRebalance` | 分布式存储/src/pd_server/shard_manager.cpp:96-142 | for the order in which the node table listed the alive nodes, each shard changes only as RebalanceKeeps allows (leader, replicas, target), and the shards are those of the pass the other placement lemmas speak about; unchanged when no node is alive |
| `ShardManagerClass.ShardManager.CountReplicas` | 分布式存储/src/pd_server/shard_manager.cpp:108-115 | the load counter is the recount, over alive nodes, of every replica assigned |
| `ShardManagerClass.ShardManager.Pick` | 分布式存储/src/pd_server/shard_manager.cpp:124-133 | the loop settles on the node BestIsLight characterises |
| `ShardManagerClass.ShardManager.InitShards` | 分布式存储/src/pd_server/shard_manager.cpp:46-63 | the shards of RangesPartition, none for a count below one |
| `ShardManagerClass.ShardManager.RegisterNode` | 分布式存储/src/pd_server/shard_manager.cpp:8-20 | a new id no node has, alive and just heard from; later ids larger still |
| `ShardManagerClass.ShardManager.ProcessHeartbeat` | 分布式存储/src/pd_server/shard_manager.cpp:22-30 | a known node is alive and just heard from, and no other changes |
| `ShardManagerClass.ShardManager.GetDeadNodes` | 分布式存储/src/pd_server/shard_manager.cpp:32-44 | exactly the alive nodes silent for over ten seconds die, and are listed once each |
| `ShardManagerClass.ShardManager.SetInitialNodes` | 分布式存储/src/pd_server/shard_manager.cpp:144-156 | exactly the listed nodes become alive, never heard from, and later ids stay unused ones |
| `ShardManagerClass.ShardManager.AssignShard` | 分布式存储/src/pd_server/shard_manager.cpp:82-94 | only the first shard with the id changes: it gains the node once, and the leader if asked |
| `PoolSteps.EachTaskOnce` | chat/include/threadpool.h:118-161 | in every interleaving each accepted task is exactly one of queued, in one worker's hands, or executed, once |
| `PoolSteps.TakenInOrder` | chat/include/threadpool.h:246-252 | the n-th task taken is the n-th accepted |
| `PoolSteps.DrainedWhenEmpty` | chat/include/threadpool.h:79-89 | with at least one initial thread and nothing accepted after shutdown began, an empty thread table means an empty queue and every accepted task executed |
| `PoolSteps.RunMans` | chat/include/threadpool.h:199-274 | in every interleaving the thread and free counters equal the table and the idle workers plus those gone at shutdown, and threads and tasks stay within their limits |
| `PoolSteps.LateTaskStranded` | chat/include/threadpool.h:118-143 | a run in which a task accepted after shutdown began is left with no thread |
| `PoolSteps.NoThreadStranded` | chat/include/threadpool.h:164-183 | a run with no initial thread in which a task is left with no thread |
| `ThreadPoolClass.ThreadPool.constructor` | chat/include/threadpool.h:164-174 | construction and start(n): a table of n running workers, none counted free yet |
| `ThreadPoolClass.ThreadPool.CountOne` | chat/include/threadpool.h:176-182 | start counts its threads free one by one while they already run |
| `ThreadPoolClass.ThreadPool.SubmitTask` | chat/include/threadpool.h:118-161 | accepted if and only if the queue is below its limit; in cache mode a thread is added when the queue is longer than the free threads |
| `ThreadPoolClass.ThreadPool.TakeTask` | chat/include/threadpool.h:244-262 | the front task moves into the worker's hands |
| `ThreadPoolClass.ThreadPool.LookAtEmptyQueue` | chat/include/threadpool.h:208-216 | on an empty queue the worker leaves after shutdown and waits before |
| `ThreadPoolClass.ThreadPool.WaitOver` | chat/include/threadpool.h:219-242 | an idle worker above the initial number leaves, without looking at the queue again |
| `ThreadPoolClass.ThreadPool.ExecuteTask` | chat/include/threadpool.h:264-267 | the worker runs what it holds, once |
| `ThreadPoolClass.ThreadPool.ReturnToLoop` | chat/include/threadpool.h:268-270 | the worker is counted free again |
| `ConnectSteps.ConnectionsConserved` | chat/src/server/ConnectPool.cpp:11-21 | in every interleaving the free counter is the queue length, the total is queued plus borrowed and between its bounds, no connection is in two places, and a borrower let through finds one |
| `ConnectSteps.FrontOnlyIsComplete` | chat/src/server/ConnectPool.cpp:143-155 | in every reachable state the reaper, looking at the front only, goes on if and only if the pool is above its initial size and some queued connection has been unused for eleven billion ticks or more, which is what over 10 whole seconds means |
| `ConnectSteps.StepKeeps` | chat/src/server/ConnectPool.cpp:113-134 | every step keeps the queue sorted by last use, the counters and the bounds |
| `ConnectPoolClass.ConnectPool.constructor` | chat/src/server/ConnectPool.cpp:3-29 | the initial connections, queued and counted |
| `ConnectPoolClass.ConnectPool.ProduceOne` | chat/src/server/ConnectPool.cpp:37-58 | one new connection behind an empty queue, or none when the database refuses |
| `ConnectPoolClass.ConnectPool.GetConn` | chat/src/server/ConnectPool.cpp:111-123 | refused if and only if the queue is empty; otherwise its front |
| `ConnectPoolClass.ConnectPool.Return` | chat/src/server/ConnectPool.cpp:124-134 | back at the end of the queue, stamped with the current time |
| `ConnectPoolClass.ConnectPool.ReapPass` | chat/src/server/ConnectPool.cpp:137-158 | drops a beginning of the queue, all unused for eleven billion ticks or more; afterwards the pool is at its initial size or no queued connection is |
| `Framing.RoundTrip` | 分布式存储/src/data_node/data_server.cpp:84-113 | frames of at most 2^32-6 payload bytes, encoded in a row and delivered in any pieces, come out in order with nothing left over |
| `Framing.SplitMore` | 分布式存储/src/data_node/data_server.cpp:84-113 | cutting a stream is cutting a beginning of it and going on with the rest |
| `Framing.PiecesDoNotMatter` | 分布式存储/src/data_node/data_server.cpp:84-113 | for every stream no beginning of which overruns, pieces give what the whole gives |
| `Framing.PartialFrameWaits` | 分布式存储/src/data_node/data_server.cpp:86-89 | a frame cut before its end makes the server wait if and only if its payload is at most 2^32-6 bytes; otherwise the 32-bit sum wraps and it overruns |
| `Framing.Connection.OnMessage` | 分布式存储/src/data_node/data_server.cpp:84-113 | the loop cuts exactly the frames the specification cuts and keeps its rest |
| `JsonStream.PiecesDoNotMatter` | chat/src/client/chat_client.cpp:75-119 | for every character stream and every way of splitting it, feeding the pieces gives the same object texts and leftover as feeding it whole |
| `JsonStream.NothingLost` | chat/src/client/chat_client.cpp:78-118 | the stream is the extracted objects in order, each ending at the first position outside strings where its braces balance, with braceless gaps between, and a leftover with no complete object in front |
| `JsonStream.ExtractMore` | chat/src/client/chat_client.cpp:78-118 | extracting from a stream is extracting from a beginning of it and going on with the rest |
| `JsonStream.ExtractJsonObjects` | chat/src/client/chat_client.cpp:75-119 | the loop returns the values of the texts that parse and leaves the specified rest; each round shrinks the buffer |

## Left out

- RaftSafety.SameCommandsApplied: assumes that no follower accepts a request while keeping a tail the sender's log does not have, and that restarts find the log last written, because without either the code applies different commands (`NeededHypotheses.AppliedCommandsCanDiffer`, `NeededHypotheses.EntryLostToRestart`).
- RaftSafety.CommittedInLaterLeaders: the same assumptions; without the first it fails (`NeededHypotheses.AppliedCommandsCanDiffer`, `NeededHypotheses.CommittedCanBeMissing`).
- EveryLaterLeader.CommittedInEveryLaterLeader: the same assumptions; without the first it fails (`NeededHypotheses.CommittedCanBeMissing`).
- ApplyOrder.AppliedOnceInOrder: crash-free, since a restarted node applies its log again from index 1; `ReplicaRuns.RunThisLife` says the same of each life, and `ReplicaRuns.ReplicasAgree` what replaying leaves in the store.
- RaftServiceClass.RaftService.RecoverRaftState: a stored number is accepted only if it is all decimal digits, which is all that persisting writes; the C++ conversion also accepts blanks, a sign and trailing text.
- Engine.RocksEngine.WriteBatch: writes never fail, so the success status the code returns and its callers ignore is not modelled; the same holds of single puts and deletes.
- ShardManagerClass.ShardManager.SetInitialNodes: the port of such a node, which the code leaves uninitialized, is arbitrary.
- PoolSteps.DrainedWhenEmpty: runs begin when `start` has filled the thread table; submitting before that, and starting twice, are not modelled.
- ThreadPoolClass.ThreadPool.constructor: the same; the threads may run before `start` has started the last of them.
- ConnectSteps.FrontOnlyIsComplete: idle seconds are unbounded, where the code narrows them to an int.
- ConnectPoolClass.ConnectPool.constructor: every initial connection can be opened; otherwise the code throws and there is no pool.
- Framing.SendFrame: the frame is written; that a message for an unconnected peer is dropped is a lost packet of the cluster model.
- Liveness: elections, wake-ups of waiting threads and delivery are possible steps, never promised ones.
- InstallSnapshot and membership change, which the code does not implement.
- Sockets, event loops, reconnecting and the dispatch of decoded messages.
- Engine internals and fsync policy: puts and batches are durable and in order.
- Shutdown of the connection pool, which only ends the object.
- The codec's own receiving loop, which expects no type byte and only discards payloads.
- Whether an extracted JSON text is valid when a string ends in an escaped backslash; only segmentation, order and brace matching are claimed.
- Plain setters of the router, the pool and the engine, whose contracts only name the assignment.
- Request handlers, user and session logic, SQL, Redis, menus and configuration.
