# Verified models of a linearizability checker, Raft, a key/value server and MapReduce

A Dafny 4.11 project about four components of a set of distributed systems labs written in Go.
`dafny verify dfyconfig.toml` checks all of it.

**The linearizability checker** (`Bitset`, `LinkedEntries`, `VisitedCache`, `Search`, `SearchLinks`, `Checker`,
`Entries`, `Events`, `Histories`, `KvModel`, `Parallel`, `Porcupine`).  `CheckSingle` is the search as it is written: a
doubly linked list of heap nodes changed by lift and unlift, a packed bitset changed in place, a cache of
buckets, a stack.  It is proved sound, complete and terminating for every model whose `Equal` respects `Step`.
The split by key is proved exact, and the parallel driver is a state machine whose verdict is proved right
under every order of results and any timeout; `Goroutine` ties the two together, by what a search may have
seen of the kill flag.  A history that is split into no partitions never gets a
verdict without a timeout: `KvVerdictReachable` says exactly when there is one.

**Raft** (`RaftServer`, `RaftPeer`, `RaftCluster` and the proofs beside them).  `RaftServer` has the handlers as functions of the state of a
peer, `RaftPeer` the handlers as they are written, proved to compute them.  `RaftCluster` is the step
relation of a cluster: peers time out, take commands and send, and messages are delivered late, out of order
or never.  The theorems are about the runs that meet these hypotheses:

- a message is delivered at most once, and each handler, `Start` and the start of an election are one step;
- generating an AppendEntries request and sending it is one step, though the code gives up the lock in between
  (src/raft/raft.go:689-704);
- peers do not crash, and no service takes snapshots (compaction is treated on its own).

Four more are switches of the model, each a guard on what is handled late.  Every other message, early or late, is
handled in every run.

| switch | guard | asked for by | without it |
|---|---|---|---|
| `votes` | a vote of an earlier election does not complete a majority of it (`VoteGuard`) | all theorems | `TwoLeaders` |
| `hints` | what a rejection of an earlier term points at is in the leader's log (`HintGuard`) | `NothingPanics` | `HintPastTheLog` |
| `acks` | an acknowledgement of an earlier term tells of no more than the leader knows, or of older entries only (`AckGuard`) | commitment | `CommittedEntryLost` |
| `order` | a request that a later one has overtaken does not shorten the log of a peer in its term (`OrderGuard`) | commitment | `TwoEntriesCommitted` |

The last column names a run that meets the other three and breaks a theorem.  `RaftGuards` says how tight the guards
are.  `VoteGuard` holds iff no peer leads without a majority of its own term afterwards.  A rejection leaves what is due
to the follower possible to generate iff its hint fits the leader's log before (`HintFits`).  For acknowledgements only a
sufficient guard is usable: they are counted rightly iff the peer has acknowledged as much in this term or all they tell
of is older, but what a peer has acknowledged the leader knows only from its matchIndex.

`RaftHistory` and `RaftSteps` carry the argument of sections 5.2 to 5.4 of the extended Raft paper; `RaftLink`,
`RaftElection`, `RaftReplication` and `RaftCommit` relate the cluster to it; `RaftSafety` has the theorems over whole
runs, `RaftBounds` that nothing indexes out of range.  What is possible is proved as well: `RaftVoting` says exactly when a
vote is granted and that every run of two or more peers can go on to elect a leader, `RaftRepair` that a leader can
repair any follower, also by snapshots where it has compacted its log, and exactly when not, and `RaftProgress` that
every run can go on to commit a command everywhere.  `RaftLaws` has what the replies of a peer tell those who ask.
`RaftCompaction` sets a peer that compacts its log beside one that never does and says exactly which requests and
replies tell them apart; `RaftHints` has a run of a rejection that does.

**The key/value server** (`KvServer`, `KvProtocol`, `KvExamples`).  Server and clerk are classes; the protocol of many
clerks over a network that loses requests and replies is a state machine.  A clerk makes one call at a
time, client numbers differ, and a call that fails leaves no request of its own still to be handled.  A Put by a clerk without a
record is executed again when it is retried.  `EveryRun` places each such execution: it is one of a call that takes
effect later, by a clerk that has not appended before.  So nothing a clerk calls after an Append of its own is executed twice,
and clerks that append before they put see a linearizable store.  So do all clerks as long as every Put that is executed
again finds its own value still stored.

**MapReduce** (`MrTasks`, `MrCoordinator`, `MrData`, `MrWorker`, `MrJob`, `MrProgress`).  The coordinator is a class with task
records; the loops of the workers and of the sequential job are methods; `MrJob` is the whole job as a
state machine with timers, workers that die or repeat work, and files that appear by renaming.  `MrProgress`
proves that every run of it can still be brought to its end.  Map, Reduce
and the hash are parameters, Reduce does not depend on the order of the values, and there is at least one
reduce task.

Where the code and its comments disagree the code is followed: a Put is retried without a record although
the comments speak of a complete duplicate table.

Sorting in Go is not stable: a sort is any rearrangement in order, chosen arbitrarily (`Sorting`).

## Model

| member | source | states |
|---|---|---|
| Bitset.NewBitset | src/porcupine/bitset.go:10-17 | enough words for the positions asked for, and none of them set |
| Bitset.Clone | src/porcupine/bitset.go:19-23 | a fresh array with the same words, so later changes of the one do not reach the other |
| Bitset.Set | src/porcupine/bitset.go:29-33 | adds exactly the position to the set of positions and leaves every other position alone |
| Bitset.Clear | src/porcupine/bitset.go:35-39 | removes exactly the position |
| Bitset.SetMember | src/porcupine/bitset.go:29-33 | of the or with a mask: position q is set afterwards iff it is the one set or was set before |
| Bitset.ClearMember | src/porcupine/bitset.go:35-39 | of the and-not with a mask, the same |
| Bitset.Popcnt | src/porcupine/bitset.go:46-52 | the number of set positions |
| Bitset.TotalIsSize | src/porcupine/bitset.go:46-52 | adding up the ones of the words is counting the set of positions |
| Bitset.Hash | src/porcupine/bitset.go:54-60 | a function of the words only, so equal sets of one length have one hash |
| Bitset.Equals | src/porcupine/bitset.go:62-72 | true iff the lengths and the words agree |
| Bitset.BitsInjective | src/porcupine/bitset.go:62-72 | two slices of one length are the same words iff they hold the same set of positions |
| Entries.MakeEntries | src/porcupine/checker.go:29-60 | some rearrangement of the calls and returns of the history in which none comes after one it should precede: by time, calls before returns at equal times |
| Entries.EntriesProblem | src/porcupine/checker.go:29-60 | every sorted list of entries is a well-formed search problem, calls before their returns, whichever rearrangement the unstable sort yields |
| Entries.SolvableIffLinearizable | src/porcupine/checker.go:29-60 | the search problem has a solution iff the history is linearizable: some order of its operations is accepted by Step and respects real time |
| Events.Renumber | src/porcupine/checker.go:92-106 | events keep everything but their numbers, which become places among the first appearances |
| Events.SameAfterwards | src/porcupine/checker.go:92-106 | two events have the same number after renumbering iff they had before |
| LinkedEntries.InsertBefore | src/porcupine/checker.go:70-81 | the links around the new node, and no others, are changed; also at the head and at the end |
| LinkedEntries.Prepend | src/porcupine/checker.go:121-138 | one more node in front of a row of nodes is a row of nodes |
| LinkedEntries.MakeLinkedEntries | src/porcupine/checker.go:121-138 | a row of nodes, one for each entry in order, each call matched with the next return of its number |
| LinkedEntries.Length | src/porcupine/checker.go:83-90 | the number of nodes in the row |
| LinkedEntries.Bypass | src/porcupine/checker.go:159-167 | one unlinking: neighbours are joined, the node keeps its own links |
| LinkedEntries.Lift | src/porcupine/checker.go:159-167 | the links become those with call and return removed, also when the two are adjacent or last |
| LinkedEntries.Relink | src/porcupine/checker.go:169-177 | one relinking: the neighbours the node remembers point at it again |
| LinkedEntries.Unlift | src/porcupine/checker.go:169-177 | the links become those with return and call put back |
| LinkedEntries.LiftCoherent | src/porcupine/checker.go:159-167 | lifting keeps the list well formed: it links exactly the remaining positions, in order, both ways |
| LinkedEntries.UnliftUndoesLift | src/porcupine/checker.go:159-177 | unlifting after lifting restores every link, including the adjacent case |
| SearchLinks.LinksAtCoherent | src/porcupine/checker.go:189-242 | wherever the search stands, the list is well formed and holds exactly the entries of the operations not linearized |
| SearchLinks.LinksPop | src/porcupine/checker.go:227-241 | unlifting the top of the stack gives the links of the level below |
| SearchLinks.NextSkips | src/porcupine/checker.go:189-242 | the next link skips only linearized operations |
| VisitedCache.StoreOk | src/porcupine/checker.go:201-202 | a stored configuration is kept, in the bucket of its hash, and all others stay |
| VisitedCache.FoundInBucket | src/porcupine/checker.go:145-152 | what is found in a bucket was stored, with an equal set and an equal state |
| VisitedCache.NotInBucket | src/porcupine/checker.go:145-152 | when no entry of the bucket of its hash matches, no equal configuration was ever stored |
| Checker.CacheContains | src/porcupine/checker.go:145-152 | true iff a configuration with this set and an equal state has been visited |
| Search.ScannedCallMinimal | src/porcupine/checker.go:194-213 | a call the scan reaches may come next: no operation left has returned before it |
| Search.ReturnExhausts | src/porcupine/checker.go:214-216 | when the scan reaches a return, every operation that may come next has been tried |
| Search.Push | src/porcupine/checker.go:201-208 | taking an operation keeps the invariant of the depth-first search: what was visited is on the stack or exhausted |
| Search.Skip | src/porcupine/checker.go:209-213 | going on keeps it |
| Search.Pop | src/porcupine/checker.go:235-241 | giving up the top keeps it: the configuration given up is exhausted |
| Search.AllCovered | src/porcupine/checker.go:189-242 | when the start and all that was visited are exhausted, every partial linearization was visited, up to equality of states: pruning loses nothing |
| Search.Failed | src/porcupine/checker.go:214-217 | a search that fails at the bottom of the stack has covered every linearization |
| Search.FiniteUniverse | src/porcupine/checker.go:189-242 | finitely many configurations are reachable, whatever the model |
| Checker.EmptyIffDone | src/porcupine/checker.go:190-190 | the list is empty iff every operation is linearized, so the cursor is never nil inside the loop |
| Checker.Searcher.Advance | src/porcupine/checker.go:209-213 | the cursor goes on, the invariant holds, the place in the list grows |
| Checker.Searcher.Remember | src/porcupine/checker.go:201-202 | the cache stays sound and holds one more configuration |
| Checker.Searcher.Mark | src/porcupine/checker.go:203-205 | the stack and the bitset get the operation; cached bitsets are not touched |
| Checker.Searcher.Detach | src/porcupine/checker.go:206-207 | the list without the operation, the cursor at its first node |
| Checker.Searcher.Take | src/porcupine/checker.go:201-208 | the invariant at the longer path, with exactly its configuration added to those visited |
| Checker.Searcher.TryCall | src/porcupine/checker.go:194-213 | the cursor goes on with nothing visited, or one operation is taken whose configuration was new |
| Checker.Searcher.Unmark | src/porcupine/checker.go:235-239 | the stack, the state and the bitset of the level below |
| Checker.Searcher.Reattach | src/porcupine/checker.go:240-241 | the list of the level below, the cursor behind the operation given up |
| Checker.Searcher.GiveUp | src/porcupine/checker.go:214-241 | the invariant at the shorter path |
| Checker.Ids | src/porcupine/checker.go:225-230 | the operations on the stack, in order |
| Checker.Record | src/porcupine/checker.go:219-234 | each operation on the stack has a recorded partial linearization at least as long as the stack; recorded ones are partial linearizations with their operation in them |
| Checker.Round | src/porcupine/checker.go:190-243 | one pass of the loop keeps the invariant and shrinks (configurations not visited, stack depth, entries left), or stops with the search failed |
| Checker.CheckSingle | src/porcupine/checker.go:179-253 | sound and complete: true only if there is a linearization; false, unless one of its looks found the kill flag set, only if there is none; terminates; with computePartial, unless so killed, each operation gets a longest partial linearization |
| Porcupine.CheckPartition | src/porcupine/checker.go:281-285 | the same of a history of operations, and that every recorded partial linearization replays |
| Parallel.KillStays | src/porcupine/checker.go:274-353 | once the kill flag is set it stays set |
| Porcupine.Goroutine | src/porcupine/checker.go:281-285 | the answer of a search in a run whose flag is set only by that run is one the driver model allows: exact, or false after the flag was set |
| Porcupine.PathReplays | src/porcupine/visualization.go:62-71 | a partial linearization is accepted step by step from Init |
| Porcupine.LongestReplays | src/porcupine/visualization.go:62-71 | what is recorded for an operation replays without a rejected step, and has the operation in it |
| KvModel.Partition | src/models/kv.go:18-34 | the operations of each key in their order, keys sorted and distinct, none left out |
| KvModel.KeyModelEqual | src/porcupine/model.go:59-61 | equality of states respects Step, as the checker asks of a model |
| KvModel.ValueIs | src/models/kv.go:39-57 | the state after any operations is the value of the last put and all that was appended since |
| KvModel.AcceptedIff | src/models/kv.go:39-57 | an order of operations is accepted iff every get and every append that returns a value returns that value as it was just before |
| KvModel.RunOnly | src/models/kv.go:39-57 | what the whole store does to a key is what the key's own operations do |
| KvModel.Merge | src/models/kv.go:18-57 | orders of the keys merge into one order of all operations that respects real time |
| KvModel.PartitionExact | src/models/kv.go:18-57 | a history is linearizable against the store iff every key is against KvModel |
| Parallel.RunInv | src/porcupine/checker.go:274-353 | in every run, results received are true of their partitions unless the search was killed, at most one for each |
| Parallel.VerdictRight | src/porcupine/checker.go:274-353 | whatever the order of results and the moment of the timeout: Ok only if all partitions are linearizable, Illegal only if one is not, Unknown only after a timeout; VerdictExact gives the other halves |
| Parallel.InOrderSent | src/porcupine/checker.go:280-311 | what the loop has received and drained are, in order, the first results the goroutines sent |
| Parallel.VerdictExact | src/porcupine/checker.go:274-353 | of the results sent and the ones received alone: Illegal iff a received one is false; Unknown iff there was a timeout and no received one is false; Ok iff neither, and then one was received from every partition |
| Parallel.LoopStops | src/porcupine/checker.go:291-337 | with computeInfo a result is received from every partition, in the loop or, after a timeout, behind it; without, none after a false one; the kill flag is set iff there was a timeout, or a false result and no computeInfo |
| Parallel.WorkShrinks | src/porcupine/checker.go:274-353 | every event brings the end nearer |
| Parallel.NeverStuck | src/porcupine/checker.go:274-353 | with a partition, some event is enabled until there is a verdict |
| Parallel.NoPartitionsBlocks | src/porcupine/checker.go:292-311 | without partitions and without a timeout the loop waits forever |
| Parallel.VerdictReachable | src/porcupine/checker.go:274-353 | there is a verdict iff there is a partition or a timeout |
| Porcupine.KvVerdictRight | src/porcupine/checker.go:365-373 | CheckOperations with KvModel: Ok iff the whole store is linearizable, in every run without a timeout; never wrong with one |
| Porcupine.KvVerdictReachable | src/porcupine/checker.go:365-373 | it comes to a verdict iff the history is not empty or a timeout is set |
| RaftPeer.Raft.constructor | src/raft/raft.go:951-975 | a fresh peer |
| RaftPeer.Raft.ConvertRole | src/raft/raft.go:647-666 | a new leader has all of nextIndex after its log and matchIndex at -1; the rest is unchanged |
| RaftPeer.Raft.RequestVote | src/raft/raft.go:261-307 | the state and reply that RaftServer.RequestVote gives, every branch: stale, already voted, later term, not up to date; RaftVoting says when it is granted |
| RaftPeer.Raft.StartElection | src/raft/raft.go:309-318 | the candidate of the next term that has voted for itself, and its arguments |
| RaftPeer.Raft.HandleVoteReply | src/raft/raft.go:373-393 | the count of that election, leadership on a majority, stepping down on a later term |
| RaftPeer.Raft.AppendEntries | src/raft/raft.go:471-542 | the state and reply that RaftServer.AppendEntries gives: rejections with their hints, replacement of the tail, commit index |
| RaftPeer.Raft.FirstOfTerm | src/raft/raft.go:516-518 | the loop stops at the last index below the conflicting term, or at 0 |
| RaftPeer.Raft.Replace | src/raft/raft.go:523-539 | the tail after prev is the request's entries, and the commit index is raised to the smaller of leaderCommit and the last index |
| RaftPeer.Raft.GenAppendEntries | src/raft/raft.go:544-570 | what is due to the follower, or that it has been compacted |
| RaftPeer.Raft.HandleAppendEntries | src/raft/raft.go:580-644 | nextIndex, matchIndex and commit index as RaftServer.HandleAppendReply gives them |
| RaftPeer.Raft.GoBack | src/raft/raft.go:603-615 | nextIndex of the follower as RaftServer.Retreat gives it, nothing else |
| RaftPeer.Raft.LastNotAbove | src/raft/raft.go:606-608 | the loop stops at the last index whose term is not above the conflicting one |
| RaftPeer.Raft.Advance | src/raft/raft.go:625-643 | the commit index that RaftServer.LeaderCommit gives; RaftProgress.CommitIsHighest says that it is the highest index of the leader's term that a majority has matched, if above the commit index |
| RaftPeer.Raft.Start | src/raft/raft.go:866-888 | a leader appends an entry of its term and returns its index; others refuse |
| RaftPeer.Raft.Snapshot | src/raft/raft.go:183-216 | the log from the index on, with a placeholder of the right term in front |
| RaftPeer.Raft.InstallSnapshot | src/raft/raft.go:732-797 | every branch of RaftServer.InstallSnapshot: a stale term, a later one, a snapshot not needed, one past the end of the log, one within it; lastApplied goes with it |
| RaftPeer.Raft.HandleInstallSnapshot | src/raft/raft.go:830-851 | the state that RaftServer.HandleSnapshotReply gives: stepping down, or nextIndex and matchIndex moved to the snapshot; RaftRepair.SnapshotReplyMovesOn says what is due then |
| RaftHistory.Matching | src/raft/raft.go:500-526 | in a history in which every entry comes with its leader's log, one term at one index means one prefix |
| RaftHistory.UpToDateHolds | src/raft/raft.go:239-246 | a candidate that is up to date beside a log with a replicated entry has that entry |
| RaftHistory.LeaderCompleteness | src/raft/raft.go:239-246 | every leader elected later has every entry that a majority has acknowledged to the leader of its term |
| RaftHistory.MajoritiesMeet | src/raft/raft.go:379-384 | two majorities share a server |
| RaftSteps.CastVoteCommit | src/raft/raft.go:294-302 | casting a vote keeps the claims behind Leader Completeness |
| RaftSteps.ElectCommit | src/raft/raft.go:379-384 | so does an election by a majority |
| RaftSteps.ExtendCommit | src/raft/raft.go:872-879 | so does a command at the leader |
| RaftSteps.AcceptCommit | src/raft/raft.go:523-526 | so does taking over the leader's log, if nothing acknowledged to it is taken back |
| RaftElection.TimeoutKeeps | src/raft/raft.go:352-398 | starting an election keeps the relation of the cluster and its messages to the history |
| RaftElection.VoteRequestKeeps | src/raft/raft.go:261-307 | handling a request for a vote keeps it: one vote for each server and term |
| RaftElection.VoteAnswerKeeps | src/raft/raft.go:373-393 | handling a reply keeps it, in whatever term it comes, unless a stale vote completes a majority |
| RaftElection.OneWinner | src/raft/raft.go:379-384 | a term with a leader has no second candidate with a majority |
| RaftReplication.SubmitKeeps | src/raft/raft.go:866-888 | a command keeps the relation |
| RaftReplication.SendKeeps | src/raft/raft.go:544-570 | generating a request keeps it, whenever the next index is within the log |
| RaftReplication.ReplacedLog | src/raft/raft.go:523-526 | what an accepted request leaves is the leader's log up to where the request ends |
| RaftReplication.AppendKeeps | src/raft/raft.go:471-542 | handling a request keeps the relation |
| RaftReplication.AppendAnswerKeeps | src/raft/raft.go:580-644 | so does handling its reply, of whatever term and content |
| RaftReplication.SnapshotRequestKeeps | src/raft/raft.go:732-762 | so does a snapshot the peer does not need |
| RaftReplication.SnapshotAnswerKeeps | src/raft/raft.go:830-851 | and the reply to it |
| RaftCommit.AppendCommit | src/raft/raft.go:523-539 | handling requests keeps, unless an overtaken one makes a log shorter, every commit index, and every leaderCommit under way, backed by an entry that a majority holds |
| RaftCommit.CountedReplicated | src/raft/raft.go:625-643 | an index of its term that the leader counts a majority for has been acknowledged by one |
| RaftCommit.AppendAnswerCommit | src/raft/raft.go:618-643 | the commit index a reply leads to is backed, unless it is a stale acknowledgement of more than the leader knows |
| RaftSafety.ElectionSafety | src/raft/raft.go:352-396 | in every run, at any two moments, two leaders of one term are one server |
| RaftSafety.LeaderAppendOnly | src/raft/raft.go:866-880 | from any moment to any later one, a leader's log in its term only grows |
| RaftSafety.LogMatching | src/raft/raft.go:500-526 | in every run, two logs with one term at an index agree up to it |
| RaftSafety.RequestMatching | src/raft/raft.go:544-570 | so do a log and the entries of a request under way |
| RaftSafety.NothingPanics | src/raft/raft.go:471-644 | in every run with guarded votes and rejections, whatever may happen next goes through: no handler indexes out of range |
| RaftBounds.RetreatFits | src/raft/raft.go:603-615 | a rejection leads within the log iff its conflictIndex does or the log has its conflictTerm before nextIndex |
| RaftBounds.BoundedStep | src/raft/raft.go:544-644 | every enabled event goes through and leaves every nextIndex of a leader within its log |
| RaftStaleHint.HintPastTheLog | src/raft/raft.go:562-564 | without the guard on rejections: a run of five servers after which a leader cannot generate what is due, since a rejection from an earlier reign has set nextIndex past the end of its log |
| RaftSafety.StateMachineSafety | src/raft/raft.go:531-539 | in every run with guarded acknowledgements in which no overtaken request shortens a log, what one server has committed at one moment and another at another agree, with all that comes before |
| RaftSafety.CommittedForever | src/raft/raft.go:531-539 | commit indexes never go back, and what is committed stays the same |
| RaftSafety.LeadersHaveCommitted | src/raft/raft.go:239-246 | a leader of the same or a later term has whatever any server has committed |
| RaftExamples.TwoLeaders | src/raft/raft.go:379-384 | without the guard on votes: a run of three servers with two leaders of one term |
| RaftStaleAck.CommittedEntryLost | src/raft/raft.go:618-643 | without the guard on acknowledgements: a run of five servers in which an acknowledgement from an earlier reign makes a leader commit an entry that a later leader lacks |
| RaftGuards.VoteTallied | src/raft/raft.go:379-384 | a vote that is counted leaves a leader only with a majority of its own term iff VoteGuard holds |
| RaftGuards.LeadersAreEarned | src/raft/raft.go:352-396 | in every run, every leader has counted a majority in its own term |
| RaftGuards.VoteGuardIsExact | src/raft/raft.go:373-393 | in every run, a vote under way may be handled iff afterwards every leader still has |
| RaftGuards.RejectionGuardIsExact | src/raft/raft.go:603-615 | in every run, after a rejection the next request to that follower can be generated iff the hint fits the log and nextIndex the leader has before it |
| RaftGuards.LeadersCountRightly | src/raft/raft.go:618-643 | in every run with guarded acknowledgements, every matchIndex of a leader is no more than that peer has acknowledged to it, but for entries of earlier terms |
| RaftGuards.SuccessIsCountedRightly | src/raft/raft.go:618-643 | in every run, an acknowledgement leaves matchIndex so iff as much was acknowledged in this term or what it tells of is older |
| RaftExamples.TwoEntriesCommitted | src/raft/raft.go:523-523 | without the guard on order: a run with two different entries committed at one index |
| RaftRepair.AcceptedKeeps | src/raft/raft.go:523-526 | of a request accepted late: acknowledged entries up to x are kept iff the request reaches x |
| RaftRepair.SnapshotReplyMovesOn | src/raft/raft.go:846-850 | a leader that owed its snapshot has, after the reply, matchIndex at the snapshot and owes the rest of its log: the request it generates starts at lastIncludedIndex |
| RaftRepair.SnapshotReplyRaises | src/raft/raft.go:830-850 | of any snapshot the leader sent in its term: nextIndex never goes down, ends up behind the snapshot, and changes only together with matchIndex |
| RaftRepair.StaleSnapshotReply | src/raft/raft.go:830-833 | the reply to a snapshot of another term, or to a peer that no longer leads, changes nothing |
| RaftRepair.RejectedRound | src/raft/raft.go:500-519 | every rejected request lowers nextIndex, and leaves the follower's log and snapshot alone |
| RaftRepair.SnapshotRoundSettles | src/raft/raft.go:732-797 | a snapshot sent, installed or refused, and answered leaves nextIndex just behind it; if it fits, the next request is accepted |
| RaftRepair.RepairConverges | src/raft/raft.go:603-619 | however two matching logs differ, compacted or not, after so many exchanges of requests and snapshots as nextIndex allows the follower has all that the leader has not compacted, and the leader knows it, for good |
| RaftRepair.RepairIsExact | src/raft/raft.go:732-797 | once a snapshot or the rest behind it is due, repair comes to an end iff the follower has not applied up to where the snapshot ends, or has an entry of the snapshot's term where it ends |
| RaftRepair.TrimmedLeaderIsStuck | src/raft/raft.go:762-774 | when it does not: InstallSnapshot leaves an entry of term 0 in a log it trims, and a follower that has applied and kept the entry itself is never repaired by that leader, in any number of exchanges |
| RaftRepair.AheadOfLeader | src/raft/raft.go:506-516 | a request to a follower that has compacted more than the leader indexes within its log iff nextIndex is not below the follower's snapshot |
| RaftRepair.CompactedFollowerIsRepaired | src/raft/raft.go:732-851 | whatever of two matching logs leader and follower have compacted, if the follower's applied entries are the leader's, so many exchanges give it all of the leader's whole log beyond the leader's snapshot |
| RaftRepair.RoundsRun | src/raft/raft.go:671-704 | m exchanges are 3m events of a cluster, enabled whatever the hypotheses, and change the two peers as m rounds do and nobody else |
| RaftRepair.FollowersCanBeRepaired | src/raft/raft.go:603-619 | every run extends, by exchanges between the two alone, to one in which a follower whose term is not past the leader's has the leader's log, if what is due to it can be generated |
| RaftVoting.OneIsUpToDate | src/raft/raft.go:239-245 | of any two logs one is up to date with respect to the other, so of two peers one can vote for the other |
| RaftVoting.GrantedIff | src/raft/raft.go:261-307 | of uncompacted logs: granted iff the term is later, or equal and no vote for another was given in it, and the candidate's log is at least as up to date (section 5.4.1 of the extended Raft paper) |
| RaftVoting.VotedIffGranted | src/raft/raft.go:261-307 | the reply tells the term the peer is in afterwards, and says granted iff the peer has then voted for the candidate in the term of the request; log, indexes and commit index stay |
| RaftVoting.VoteIsGrantedIff | src/raft/raft.go:261-307 | in every run, of every request whose candidate still stands: granted iff the voter is free in that term and the candidate's log as it is now is up to date |
| RaftVoting.LeaderCanBeElected | src/raft/raft.go:352-413 | every run of two or more peers extends, by timeouts and deliveries alone, to one with a leader, whose log is up to date with respect to every other; all others follow in its term, and no log has changed |
| RaftVoting.NeverLeadsAlone | src/raft/raft.go:375-412 | a cluster of one peer has no leader in any run: votes are counted only when a reply comes in |
| RaftVoting.LeaderIffTwo | src/raft/raft.go:352-413 | a run can be extended to one with a leader iff there are at least two peers |
| RaftProgress.CommitIsHighest | src/raft/raft.go:618-643 | after an acknowledgement no index above the commit index and of the leader's term is matched by a majority, counted as a set of peers; if the commit index was raised it is such an index; nothing else but nextIndex and matchIndex of the peer changes |
| RaftProgress.FollowerCommitIs | src/raft/raft.go:531-539 | the commit index a follower takes over: the smaller of the leader's and its own last index if the leader's is higher, else its own |
| RaftProgress.MajorityCommits | src/raft/raft.go:618-643 | every run extends, by exchanges of a leader whose last entry is of its term with peers that are with it a majority, to one in which they have its log and all of it is committed |
| RaftProgress.EveryRunCanCommit | src/raft/raft.go:352-704 | every run of two or more peers extends to one in which a leader is elected, takes a given command, and every peer has the leader's old log and the command, committed |
| RaftLaws.AppendTellsTerm | src/raft/raft.go:471-493 | the reply tells the later of the two terms, in which the peer is then; it follows unless the request is of the past, which changes nothing |
| RaftLaws.SnapshotTellsTerm | src/raft/raft.go:732-760 | the same of a snapshot, except that a reply in the leader's own term says 0; the role stays unless the term is later |
| RaftLaws.LateLeaderLearns | src/raft/raft.go:580-599 | a leader that sends whatever is due to a peer of a later term follows after the reply, in that term and without a vote |
| RaftLaws.LateCandidateLearns | src/raft/raft.go:352-413 | a candidate that asks a peer of a later term follows after the reply, in that term |
| RaftLaws.TakenIff | src/raft/raft.go:471-521 | a request is taken iff its term is not past and the log reaches prevLogIndex with an entry of the same term there, if that is not compacted |
| RaftLaws.HintsAreRight | src/raft/raft.go:500-519 | a rejection points at the last entry if the log is too short, and else at the first of the entries before prevLogIndex, none of which has a term below the one it names |
| RaftLaws.RetreatIs | src/raft/raft.go:603-615 | the leader goes back behind its last entry of the term named, if it has one before what was due, and else to where it is told |
| RaftLaws.RejectionSkipsTerm | src/raft/raft.go:500-615 | of uncompacted logs: after a rejection there is a term less of the follower's to go, or the next request is taken |
| RaftLaws.RepairByTerms | src/raft/raft.go:500-619 | so repair takes no more exchanges than the terms in the follower's log and three, whatever the number of entries (end of section 5.3 of the extended Raft paper) |
| RaftCompaction.SameVoteArgs | src/raft/raft.go:309-318 | a compacted peer stands with the arguments of one that never compacts |
| RaftCompaction.SameAppend | src/raft/raft.go:544-570 | the leader sends the same iff what is due is not within the snapshot, whatever nextIndex is |
| RaftCompaction.SameSuccess | src/raft/raft.go:507-526 | AppendEntries at or above the snapshot is accepted by both or neither, iff it does not meet the snapshot's last entry with another term |
| RaftCompaction.AppendRefines | src/raft/raft.go:507-539 | unless it does, the compacted log goes on being what is left of the full one |
| RaftCompaction.SameHint | src/raft/raft.go:513-520 | the hints of a rejection agree iff the terms skipped do not reach into the snapshot |
| RaftCompaction.VoteRefines | src/raft/raft.go:239-302 | votes are granted alike |
| RaftCompaction.CountRefines | src/raft/raft.go:625-643 | the commit index comes out the same |
| RaftCompaction.RetreatAlike | src/raft/raft.go:604-612 | nextIndex after a rejection agrees iff the term is not found in the full log, or found where the compacted log still shows it and nothing is compacted, or below it and the hint is just that index; a term found above the snapshot is too low by the snapshot's index |
| RaftCompaction.ReplyRefines | src/raft/raft.go:580-644 | after any reply the compacted leader is what is left of the full one iff that search does not differ |
| RaftCompaction.InstallReplaces | src/raft/raft.go:765-766 | a snapshot that reaches the end of the log leaves what is left of the log it was taken of |
| RaftCompaction.InstallTrims | src/raft/raft.go:767-774 | one from within the log leaves what is left of it iff the term it ends with is 0, since the placeholder gets term 0 |
| RaftHints.HintMisread | src/raft/raft.go:604-612 | a leader that has compacted, and a follower, both at the end of lives from a fresh start: the follower's rejection sends the compacted leader to index 2, one that never compacts to 3 |
| RaftCompaction.CompactRefines | src/raft/raft.go:183-216 | taking a snapshot anywhere in the log leaves what is left of the full log |
| RaftCompaction.CompactionIsInvisible | src/raft/raft.go:183-246 | over any life of commands, snapshots, requests, votes, elections and replies on which nothing tells the two apart, the compacted peer is what is left of one that never compacts |
| RaftCompaction.CompactedVotesAlike | src/raft/raft.go:239-318 | so it stands and votes alike ever after |
| KvServer.KVServer.constructor | src/kvsrv/server.go:124-132 | empty tables |
| KvServer.KVServer.Get | src/kvsrv/server.go:36-64 | tables and reply of OnGet: no record, a repeated request, a new one; no other client's record changes |
| KvServer.KVServer.Put | src/kvsrv/server.go:66-90 | tables of OnPut |
| KvServer.KVServer.Append | src/kvsrv/server.go:92-122 | tables and reply of OnAppend, including a client's first record |
| KvServer.Clerk.constructor | src/kvsrv/client.go:25-34 | a clerk that has made no request |
| KvServer.Clerk.Get | src/kvsrv/client.go:46-65 | one new number for all attempts; the server handles the request as often as attempts reach it; the value is that of the last |
| KvServer.Clerk.PutAppend | src/kvsrv/client.go:75-95 | the same of Put and Append |
| KvServer.ExecutedIff | src/kvsrv/server.go:36-122 | a request does to the store what the model says, and answers so, unless it is the one recorded of its client, or an Append numbered -1 of a client without a record; then the store stays and the answer is the recorded one; only Append makes a record |
| KvServer.RetriesAlone | src/kvsrv/server.go:36-122 | handled any number of times with nothing in between, a request does what it does once |
| KvProtocol.Fresh | src/kvsrv/server.go:36-122 | a request without a record takes effect as the model says, and leaves a record if the client has one |
| KvProtocol.ExecuteStep | src/kvsrv/server.go:36-122 | each execution keeps the order of effects: new, answered from the record, a Get that moves, a Put once more |
| KvProtocol.RunInv | src/kvsrv/client.go:46-95 | every run has an order of effects, within the calls, that explains all replies and the data |
| KvProtocol.EveryRun | src/kvsrv/server.go:36-122 | in every run with any losses and any clerks: what has returned, with some calls under way and each needless execution of a Put, is linearizable, and the data is what that order leaves; each needless execution is of a Put whose call takes effect later and returns no earlier, by a clerk no Append of which comes before; all else takes effect once; executions that found their own value stored may be left out |
| KvProtocol.ExecutedOnce | src/kvsrv/server.go:66-90 | no call begun after an Append of the same clerk has returned is executed more than once |
| KvProtocol.TracedAgain | src/kvsrv/server.go:74-78 | executing a Put again keeps every needless execution traced to its call |
| KvProtocol.AppendingFirstIsEnough | src/kvsrv/server.go:66-122 | if every clerk has an Append returned before it puts, no Put is executed twice, and the recorded history is linearizable when all calls have returned |
| KvProtocol.PutInVain | src/kvsrv/server.go:74-78 | a Put that finds its own value stored when it is executed again needs no place of its own in the order of effects |
| KvProtocol.RecordedIsLinearizable | src/kvsrv/server.go:36-122 | when all calls have returned and every Put executed again found its own value still stored, the recorded history is linearizable against KvModel, key by key |
| KvExamples.RetriedPutIsHarmless | src/kvsrv/server.go:74-78 | executing a Put again leaves the store alone iff there is a record of it or the value is still there |
| KvExamples.RetriedPut | src/kvsrv/server.go:74-78 | a run in which a Put is executed twice around the operations of another clerk |
| KvExamples.RetriedPutIsNotLinearizable | src/kvsrv/server.go:74-78 | no order of its operations explains what was seen |
| MrCoordinator.Coordinator.constructor | src/mr/coordinator.go:268-283 | the map tasks of the inputs, free, in MapPhase |
| MrCoordinator.Coordinator.MakeMapTask | src/mr/coordinator.go:166-176 | one free task for each input |
| MrCoordinator.Coordinator.SelectTask | src/mr/coordinator.go:97-121 | the first free task of the phase is assigned and returned, or a task to wait |
| MrCoordinator.Coordinator.RequestTask | src/mr/coordinator.go:62-95 | tasks and reply of RequestTask: a task, wait, or exit; the timer is for that task |
| MrCoordinator.Coordinator.CheckTimeout | src/mr/coordinator.go:123-138 | one timer changes its task as TimedOut says, and no other |
| MrCoordinator.Coordinator.ReportTask | src/mr/coordinator.go:141-164 | the task is finished and counted if it is assigned to the reporter |
| MrCoordinator.Coordinator.MakeReduceTask | src/mr/coordinator.go:178-198 | one free task for each bucket with the files found, and the counter reset |
| MrCoordinator.Coordinator.CheckPhase | src/mr/coordinator.go:201-222 | one look: to ReducePhase or to AllDone when the counter says so |
| MrWorker.WriteIntoTmpFiles | src/mr/worker.go:95-138 | file r holds exactly the pairs of bucket r, in order |
| MrWorker.DoMap | src/mr/worker.go:140-167 | fails iff an input is missing; else file r is sorted and holds, as often as they occur, exactly those of the pairs mapf(name, contents) of all inputs whose key hashes to r |
| MrWorker.MappedIsFlat | src/mr/worker.go:140-167 | what the map loop collects is what mapf makes of each input's name and contents, one input after the other |
| MrWorker.DoReduce | src/mr/worker.go:169-213 | one line for each key read, with what Reduce makes of all its values, in the order of keys |
| MrWorker.Collect | src/mr/worker.go:181-188 | the pairs of a file join the groups of their keys |
| MrWorker.Group | src/main/mrsequential.go:79-88 | the values of one key, and where the next begins |
| MrWorker.Sequential | src/main/mrsequential.go:42-96 | fails iff an input is missing; else one line for each key among the pairs mapf(name, contents) of all inputs, with what Reduce makes of all its values, in the order of a sort of exactly those pairs |
| MrData.ReducesRearranged | src/mr/worker.go:187-204 | with an order-insensitive Reduce, rearranged pairs have the same right output |
| MrData.BucketsReduce | src/mr/worker.go:114-120 | right outputs for all the buckets are, together, the right output |
| MrData.SameLines | src/main/mrsequential.go:77-96 | there is one right output, up to the order of lines |
| MrJob.AllRead | src/mr/coordinator.go:178-198 | in whatever order the files are found and whichever copies are read, a reduce task reads its whole bucket |
| MrJob.PutOutRight | src/mr/worker.go:169-213 | so what it puts out is right, however often it is carried out |
| MrJob.StepInv | src/mr/coordinator.go:62-222 | every event keeps counters, files, work under way, outputs and timers right |
| MrJob.DistributedIsSequential | src/mr/worker.go:95-213 | at AllDone, after any assignments, deaths, timeouts and repeated work, the output files hold together the lines of the sequential job |
| MrJob.TotalIsFlat | src/mr/worker.go:140-167 | the pairs of the whole job are those mapf makes of each input's name and contents |
| MrJob.ShareIsHashed | src/mr/worker.go:95-138 | the pairs for reduce task r are those of them whose key hashes to r |
| MrJob.OutputIsRight | src/mr/worker.go:169-213 | at AllDone, a line is in output file r iff its key hashes to r, mapf emits the key for some input, and the value is what Reduce makes of all values emitted for it |
| MrJob.RepliesAreRight | src/mr/coordinator.go:62-121 | in every run a worker is told to exit iff the job is done, and to wait iff it is not and no task of the phase is free; else it gets the first free one |
| MrJob.ReportCountsIff | src/mr/coordinator.go:141-163 | in every run a report finishes its task and is counted iff the task is still assigned to who reports; else it changes nothing |
| MrJob.FreeTasksHaveNoWorker | src/mr/coordinator.go:123-138 | in every run a free task belongs to no worker |
| MrJob.CountersAreRight | src/mr/coordinator.go:141-222 | in every run the counters count the finished tasks, and each phase is over only when all its tasks are |
| MrJob.AssignmentsCarryNReduce | src/mr/coordinator.go:62-75 | every map assignment carries the number of reduce tasks |
| MrJob.NoTaskIsStranded | src/mr/coordinator.go:75-138 | every assigned task has a timer running, and that timer sets it free |
| MrJob.AnyTimerFrees | src/mr/coordinator.go:123-138 | any timer, also a stale one, leaves an unfinished task free |
| MrProgress.LinesExist | src/mr/worker.go:187-204 | any pairs have a right output |
| MrProgress.OneMore | src/mr/coordinator.go:62-164 | in every run with an unfinished task of the phase, some continuation finishes one more |
| MrProgress.JobCanFinish | src/mr/coordinator.go:62-222 | every run extends to one in which the job is done |
| MrJob.JobAdvances | src/mr/coordinator.go:141-222 | from any moment to any later one, phases only advance and finished tasks stay finished |

## Left out

- Integer widths: terms, indexes, counters and times are mathematical integers; the words of a bitset are 64-bit.
- Raft timers, heartbeats, channels, liveness in real time, and persistence: peers do not crash, so nothing is restored.
- Raft applyLogs and condInstallSnapshot: they run beside the handlers, and entries need not be applied in order.
- RaftPeer.Raft.InstallSnapshot: the snapshot's data and its delivery to the service are not modelled; in the cluster, where nothing is compacted, no snapshot is ever installed.
- RaftCompaction.CompactionIsInvisible: leaves out AppendEntries requests from below the snapshot or in conflict with it, and rejections on which the two searches differ; SameSuccess and ReplyRefines say that these are told apart.
- RaftRepair.RepairConverges: is for followers that have compacted no more than the leader; what is sent to others may index before their logs, and AheadOfLeader says exactly when.
- RaftRepair.CompactedFollowerIsRepaired: is about pairs of peers; in the cluster nothing is compacted.
- RaftPeer.Raft.StartElection: the sending of the requests is in the step relation of the cluster, not in the method.
- RaftGuards.SuccessIsCountedRightly: its condition is of what the peer has acknowledged, which a leader does not see; the guard it can check, AckGuard, is sufficient and not necessary.
- KvProtocol.RecordedIsLinearizable: is for runs in which no Put is executed again over another value, because such a run need not be linearizable (RetriedPutIsNotLinearizable); EveryRun covers the others and AppendingFirstIsEnough says how clerks can avoid them.
- KvServer.Clerk.Get: the fates of the calls are given as a finite sequence, and the clerk is pending when they run out; there is no fairness of the network.
- Removal of servers or of network ends while a call is under way, and equal random client numbers.
- MrWorker.DoMap: a file that cannot be opened ends the process and is modelled as a result without files.
- Names of files: inputs, intermediate and output files are different names; matching of patterns, temporary names, and the coding of pairs as text are not modelled.
- Porcupine.CheckPartition: the events form of a history is covered by Events only as far as renumbering; PartitionEvent, CheckEvents and the defaults of a Model repeat what is proved of operations.
- LinkedEntries.Lift: unlinking and relinking of one node are factored into methods of their own.
- The HTML output of the visualizer, describing of operations and states, labrpc, labgob, the unfinished kvraft, shardctrler and shardkv, the mrapps plugins and all tests.
