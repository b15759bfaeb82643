# Raft consensus and its key-value service, verified in Dafny

This project models the Raft implementation of `internal/consensus/raft` and the thin key-value layer above it
(`internal/service/kv.go`, `internal/kv/store.go`), and proves what such a cluster promises: one leader per term, no
committed entry lost, no two replicas that disagree, nothing acknowledged that a restart forgets. The algorithm is
that of Ongaro and Ousterhout, "In Search of an Understandable Consensus Algorithm (Extended Version)", sections 5.2,
5.3, 5.4 and 7. Nothing here executes the original program; where its code and its comments or the paper differ, the
model follows the code.

`dafny verify dfyconfig.toml` checks the whole project.

## How the project is built

Three layers, each proved against the one below it.

1. **Objects.** `Raft.RaftNode` and `Storage.InMemoryStorage` are classes with the fields of the source. Every locked
   section of the source is one method that updates fields in place, with the source's loops (merge loop, term
   searches, commit scan, counting of holders, reset of progress, copying of entries, apply loop). `KV.Store` and
   `KV.Service` are the state machine and the service that drives it. Each method is proved equal to a function on
   values.
2. **Values.** `NodeModel` and `ServiceModel` hold those functions: one per locked section, on a node together with
   its disk. Every storage call has a verdict passed in; a call that fails leaves its record alone. A crash between two
   storage calls leaves the same disk as a run in which the later calls fail, so the verdicts describe every point at
   which a section can be cut short.
3. **Executions and runs.** `Cluster` is a transition system over a map of servers, a growing set of messages and a
   history that no server reads. Its 17 actions are the locked sections, a crash with restart, and the steps of the state
   machine. Messages may be lost, delayed, repeated and reordered; any storage call may fail; any server may crash at any
   time. An *execution* is any sequence of such steps. A *run* is an execution in which no server restarts from a stored
   log that has drifted from the log it had; the writes that let a store drift, and all that servers do while their
   stores have drifted, are part of runs.

`Invariants` states the inductive invariant. The `Steps…` modules prove that each section keeps it, `Frames` that the
other servers and the messages are not disturbed, and `Preservation` puts the cases together. `Safety` contains the
core of the argument: the induction over terms behind Leader Completeness. `Theorems`, `LogMatching`, `Agreement` and
`ServiceRuns` state what follows for every run. `Elections` has its own, smaller invariant on terms and votes and states
what follows for every execution. `Backoff`, `Compaction` and `Durability` are about single handlers. `KeptSuffix` and
`Drift` construct, from the blocks of `Scenario`, a run and an execution that show where the guards are needed.

Safety alone would also hold of servers that do nothing. `Obligations` states, on raw fields and uncompacted logs and
without the tests the handlers themselves use, when each handler must act: grant, accept, commit, take over, step down,
install, compact. `Progress` lifts this to runs and executions: a leader never owes a commit, a stale leader is told and
deposed, every peer is served, nothing committed is stuck. `Hints` shows that the fast search for a follower's position
finds the greatest one, with one exact exception.

The key idea is the *uncompacted log* `Full(h, n)`: the committed prefix that a node's snapshot stands for, followed by
the entries the node still has. All log properties are about it, so compaction and snapshots are part of every theorem.

## Assumptions

- Membership is static: every node has the same members, itself included. The configuration is therefore a parameter
  and not part of hard state, snapshots or messages.
- Node identifiers are numbers and "no vote" is `None`, for the source's non-empty strings and `""`.
- Terms and indices are natural numbers.
- A storage call happens fully or not at all. Hard state, log with base index, and snapshot are three records.
- The JSON codec is an inverse pair. A command is modelled after decoding, with values for a payload that decodes to no
  known operation and for one that does not decode; a snapshot is no bytes, the encoding of a store, or undecodable.
- Reading outside the retained log is a crash of the process. The two sections that can do so carry the guard as a
  condition, and a crash is the restart action. When they would do so is stated exactly (`IndexRanges`,
  `InstallOvertakesApply`, `CompactionOvertakesPeer`).
- Handing a message to the state machine is one step. The source releases its lock around the channel send, and
  advances the applied index before it sends an entry and after it sends a snapshot.

## What is false of the code, and exactly when it holds

- **Log Matching for whole prefixes.** `applySnapshotLocked` keeps the suffix above an installed snapshot without
  comparing the boundary entry. `KeptSuffix.LogMatchingCanFail` is a complete run of three servers that ends with an
  entry of term 1 above a committed entry of term 2. `LogMatching.MatchedStep` proves for every reachable state and
  every action that matching is kept if and only if the action does not install a snapshot over such a suffix, and
  `Theorems.LogMatchingTheorem` is the classical property for the runs without such a step. The other safety theorems
  hold in all runs, with these steps included.
- **Durability and safety after an ignored `SetLog` failure.** Log writes count from the snapshot index, the store from
  its own base, so a store whose rewrite failed or was cut short can drift. `Durability.AcknowledgedEntryForgotten` is an
  acknowledged entry that a restart does not find, and `Drift.StateMachineSafetyCanFail` is a complete execution in which
  two servers therefore deliver different commands at one index. `Durability.MirrorStep` says, for every action and every
  outcome of its storage calls, exactly when a store stays in step; `Theorems.RestartRestores` that a restart restores the
  log exactly when it is; and the safety theorems hold in every execution without a restart from a drifted log.
- **Acknowledgement by index.** `Durability.AnotherCommandApplied` shows another command applied at the acknowledged
  index; `Theorems.AcknowledgedCommand` says exactly when the command at the index is the proposed one.
- **The fast search for a follower's position.** A refused leader passes over no position the follower would accept, but
  for one: `lastIndexOfTermLocked` does not look at the snapshot's term, so a leader that has compacted all its entries of
  the reported term sends its snapshot although an append just above it would be accepted
  (`Hints.SnapshotPositionSkipped`). `Hints.NothingSkipped` is the exact condition.
- **One member.** The majority comparison is in the branch that reads somebody else's vote, so a single member never leads
  (`Elections.SingleMemberNeverLeads`), although the quorum of one is one.
- **Replay of the persisted commit index.** A comment in `NewNode` says the persisted commit index lets committed
  entries be replayed after a restart. With a snapshot present the code sets the commit index to the snapshot index
  first, so entries committed above the snapshot wait for the next leader. The model follows the code; the theorem is
  that the restored commit index is never above the one in memory (`Theorems.RestartRestores`).

## Model

| member | source | states |
|---|---|---|
| `Elections.ElectionSafety` | internal/consensus/raft/election.go:42-199 | In every execution, restarts from drifted logs and failed hard-state writes included, two servers that are leader of the same term at any two moments are the same server. |
| `Elections.OneVotePerTerm` | internal/consensus/raft/rpc_handlers.go:61-92 | In every execution, two granted vote responses of one member for one term, at any two moments, name the same candidate. |
| `Elections.SingleMemberNeverLeads` | internal/consensus/raft/election.go:138-194 | In every execution of a cluster of one member no state has a leader. |
| `Elections.BallotStep` | internal/consensus/raft/node.go:345-359 | Every action, a restart from any disk included, keeps durable votes on record, counted votes true, winners backed by quorums, and rewrites no vote and no winner. |
| `Theorems.RunInv` | internal/consensus/raft/node.go:191-246 | In every state of every run the cluster invariant holds, whatever crashes, storage failures and message faults occur, as long as no server restarts from a stored log that has drifted. |
| `Theorems.RunContinues` | internal/consensus/raft/replication.go:314-353 | Along a run the record is only extended: ballots, votes, elections and the committed log are never rewritten, leaders' logs only grow. |
| `Theorems.LeaderHasCommitted` | internal/consensus/raft/replication.go:318-339 | A leader's uncompacted log agrees with the committed log on everything decided in its term or earlier. |
| `Theorems.ElectedWithCommitted` | internal/consensus/raft/rpc_handlers.go:78-92 | The log a leader was elected with already contains everything committed in earlier terms. |
| `Theorems.CommitIsCommitted` | internal/consensus/raft/rpc_handlers.go:272-292 | A server's log up to its commit index is part of the one committed log, which later states only extend. |
| `Theorems.CommittedNeverDropped` | internal/consensus/raft/rpc_handlers.go:225-261 | Entries a server once knew to be committed stay in its log for the rest of the run, even across restarts that lower its commit index. |
| `Theorems.StateMachineSafety` | internal/consensus/raft/apply.go:79-120 | Any two deliveries at the same index, on any servers, at any times, in any incarnations, deliver the same command. |
| `Theorems.ReplicasAgree` | internal/service/kv.go:197-269 | Two replicas with the same applied index hold the same store, which is the replay of the committed log up to that index, whatever mix of snapshots and commands they consumed. |
| `Theorems.ServiceReplays` | internal/service/kv.go:271-308 | The store a service would serialize at its applied index is the replay of the committed log up to that index, which is at most the node's lastApplied and commit index. |
| `Theorems.SnapshotsReplay` | internal/consensus/raft/consensus.go:84-126 | A snapshot in memory, on disk or pending is the replay of the committed log up to its index, and that index is within the commit index. |
| `Theorems.StreamOrder` | internal/consensus/raft/apply.go:27-130 | Within an incarnation commands come at consecutive indices, later snapshots only jump forward, and nothing above the commit index is delivered. |
| `Theorems.SameTermSameEntry` | internal/consensus/raft/consensus.go:25-37 | In every run, entries of the same index and term are the same entry, on any servers at any times. |
| `Theorems.CarefulRunMatched` | internal/consensus/raft/snapshot.go:12-22 | In such runs every log of every state consists of prefixes of leaders' logs. |
| `Theorems.AgreementNeverShrinks` | internal/consensus/raft/rpc_handlers.go:225-261 | While a follower stays in a term, the prefix it shares with that term's leader never shrinks, for any order and any repetition of requests and for any other steps in between. |
| `Theorems.MatchIndexTruthful` | internal/consensus/raft/replication.go:203-265 | Unless the peer has moved to a later term, its log equals the leader's up to the leader's match index for it. |
| `Theorems.FollowerCommitIsSound` | internal/consensus/raft/rpc_handlers.go:272-279 | An accepted request leaves the follower equal to the leader up to the last sent entry and up to its new commit index, which is the maximum of its own and the leader's: the bound by its own last index never takes effect. |
| `Theorems.IndexRanges` | internal/consensus/raft/node.go:285-289 | snapshotIndex <= commitIndex <= last index, lastApplied <= commitIndex, next indices within 1 and last index + 1; the apply read and the replication slice leave the log exactly when a snapshot is pending above lastApplied, respectively when the next index is compacted. |
| `Theorems.ProbingTerminates` | internal/consensus/raft/replication.go:214-241 | In every reachable state, probing a peer ends with an accepted position or with the snapshot after at most nextIndex - 1 refusals. |
| `Theorems.AcknowledgedCommand` | internal/service/kv.go:310-361 | The entry committed at an acknowledged index is the proposed one if and only if it has the term of the proposal; it has whenever the proposer still leads that term when it applies the index. |
| `Theorems.LogMatchingTheorem` | internal/consensus/raft/rpc_handlers.go:170-261 | In runs without a foreign suffix kept under an installed snapshot, equal terms at an index, at any two moments, mean equal logs up to that index, and terms never decrease along a log. |
| `Theorems.LeaderMatched` | internal/consensus/raft/election.go:177-194 | In every run, kept foreign suffixes included, a leader's uncompacted log consists of prefixes of leaders' logs. |
| `Theorems.UnmatchedNeverElected` | internal/consensus/raft/rpc_handlers.go:78-92 | In every run a server that becomes leader had a matched log before the step: a log with a kept foreign suffix is never electable. |
| `Theorems.RestartRestores` | internal/consensus/raft/node.go:131-186 | At every moment of a run a restart would restore snapshot and indices, a commit index no greater, and, on a node that is not degraded, term and vote; it restores the log if and only if the stored log has not drifted. |
| `Theorems.LandingRunsAreRuns` | internal/consensus/raft/node.go:361-411 | An execution in which every log write lands is a run: no store drifts, so every restart finds its log. |
| `Theorems.DurableMirror` | internal/consensus/raft/node.go:131-186 | In an execution in which every log write lands, a restart at any moment restores log, snapshot and indices, a commit index no greater, and, on a node that is not degraded, term and vote. |
| `KeptSuffix.LogMatchingCanFail` | internal/consensus/raft/snapshot.go:13-22 | A complete run of three servers after which an entry of term 1 follows a committed entry of term 2. |
| `Drift.StateMachineSafetyCanFail` | internal/consensus/raft/snapshot.go:43-45 | A complete execution of three servers, with one failed SetLog and one restart, in which two servers deliver different commands at index 2. |
| `LogMatching.MatchedStep` | internal/consensus/raft/snapshot.go:12-26 | From a state in which all logs match, a step keeps them matching if and only if it does not install a snapshot below entries kept over a boundary entry of another term. |
| `LogMatching.EntryOfLeader` | internal/consensus/raft/consensus.go:25-37 | Every entry of every uncompacted log is the entry that the leader of its term has at that index. |
| `LogMatching.MatchedTermsOrdered` | internal/consensus/raft/rpc_handlers.go:170-224 | In a matched log terms never decrease. |
| `LogChanges.ActionLogChange` | internal/consensus/raft/rpc_handlers.go:227-261 | Every action leaves the acting server's uncompacted log alone, adopts the log of its durable term's leader without losing shared entries, or puts a committed snapshot under it. |
| `LogChanges.TermsGoUp` | internal/consensus/raft/node.go:345-359 | The durable term of a server never goes back. |
| `LogChanges.InstalledMatched` | internal/consensus/raft/snapshot.go:13-22 | A snapshot put under a matched log leaves it matched if and only if nothing is kept above it or the boundary entry has the snapshot's term. |
| `Agreement.TruthfulStep` | internal/consensus/raft/replication.go:259-265 | Every action keeps all success replies in flight true of their senders and all match indices true of the peers. |
| `Agreement.AcceptedAgrees` | internal/consensus/raft/rpc_handlers.go:227-300 | A success response means the follower's log equals the leader's up to the last entry of the request, and the term is durable. |
| `Agreement.InstalledAgrees` | internal/consensus/raft/rpc_handlers.go:362-411 | A response in the request's term means the follower has the leader's log up to the snapshot index. |
| `Agreement.ChangeKeepsAgreement` | internal/consensus/raft/rpc_handlers.go:225-261 | No log change that a term's leader allows shrinks the prefix shared with that leader. |
| `Agreement.ChangeKeepsCommitted` | internal/consensus/raft/rpc_handlers.go:225-261 | No log change that a term's leader allows drops a committed entry. |
| `Preservation.StepPreservesInv` | internal/consensus/raft/node.go:218-246 | Each of the 17 actions keeps the cluster invariant and extends the history, for every outcome of its storage calls; a restart under the condition that it finds the log of the node. |
| `StepsElection.SameWinner` | internal/consensus/raft/election.go:162-194 | Two quorums of votes in one term elect the same candidate. |
| `StepsReplication.RefusalBound` | internal/consensus/raft/rpc_handlers.go:170-224 | The conflict index of a refusal is at most one past the previous index of the request. |
| `StepsQuiet.RestartStep` | internal/consensus/raft/node.go:131-186 | A crash and restart at any moment at which the stored log is in step keeps the invariant. |
| `Safety.QuorumsMeet` | internal/consensus/raft/node.go:264-267 | Two quorums share a member. |
| `Safety.LeaderCompleteness` | internal/consensus/raft/rpc_handlers.go:78-92 | An entry of a term acknowledged by a quorum is in the log of every later leader at its election, by induction on terms over voters that acknowledged it. |
| `Safety.CommittedInLeader` | internal/consensus/raft/replication.go:318-339 | A leader's log agrees with the committed log on everything committed in its term or earlier. |
| `Preservation.InitInv` | internal/consensus/raft/node.go:84-189 | A cluster of nodes restored from empty storage satisfies the invariant. |
| `StepsElection.VoteStep` | internal/consensus/raft/rpc_handlers.go:11-113 | Answering a vote request keeps the invariant: a vote is durable before it is used and justified by everything the voter acknowledged. |
| `StepsElection.StartElectionStep` | internal/consensus/raft/election.go:42-59 | Starting an election keeps the invariant, also on a degraded node and when the write fails. |
| `StepsElection.WinStep` | internal/consensus/raft/election.go:177-194 | Taking over as leader keeps the invariant, with a log that contains what its voters acknowledged. |
| `StepsReplication.MergeAdopts` | internal/consensus/raft/rpc_handlers.go:227-261 | A merge turns the follower's log into a prefix of the leader's at least as long as what they shared, or leaves it; a completed one reaches the last entry of the request. |
| `StepsReplication.AppendStep` | internal/consensus/raft/rpc_handlers.go:116-300 | Handling AppendEntries keeps the invariant for every combination of storage failures. |
| `StepsCommit.CommitTargetIsGreatest` | internal/consensus/raft/replication.go:314-353 | The target of the scan is the greatest committable index above the old one, or the old one if there is none; `CommitRule` says on raw fields what is committable. |
| `StepsCommit.CommittableIsChosen` | internal/consensus/raft/replication.go:318-331 | What the commit rule counts is acknowledged by a quorum. |
| `StepsCommit.AppendReplyStep` | internal/consensus/raft/replication.go:184-295 | Reading an AppendEntries reply keeps the invariant: step down, back off, or record the match and commit. |
| `StepsCommit.StartCommandStep` | internal/consensus/raft/consensus.go:12-54 | Proposing a command keeps the invariant, with rollback when the log write fails. |
| `StepsSnapshot.CompactStep` | internal/consensus/raft/consensus.go:84-126 | Compaction at the service's applied index keeps the invariant. |
| `StepsSnapshot.InstallStep` | internal/consensus/raft/snapshot.go:12-45 | Installing a snapshot keeps the invariant, kept suffix and failed writes included. |
| `StepsQuiet.AppendRequestSound` | internal/consensus/raft/replication.go:73-99 | A request built by a leader carries the leader's entries up to the end of its log, the right previous term, and a commit index within them. |
| `Backoff.AppendIdempotent` | internal/consensus/raft/rpc_handlers.go:116-300 | Handling an accepted request again, with any storage verdicts, changes neither node nor disk. |
| `Backoff.Probe` | internal/consensus/raft/replication.go:214-241 | Refusals plus the reached next index never exceed the first next index, and the reached position is accepted or below the leader's snapshot. |
| `Backoff.FirstIndexIsFirst` | internal/consensus/raft/node.go:291-300 | The search returns the first index of the term, or 0 exactly when the term does not occur. |
| `Backoff.LastIndexIsLast` | internal/consensus/raft/node.go:302-311 | The search returns the last index of the term, or 0 exactly when the term does not occur. |
| `Compaction.VoteUnaffected` | internal/consensus/raft/node.go:269-283 | A vote request is answered, and the vote recorded, exactly as on the uncompacted log. |
| `Compaction.AppendUnaffected` | internal/consensus/raft/rpc_handlers.go:187-233 | AppendEntries accepts, refuses, logs and commits exactly as on the uncompacted log, for every storage verdict; only a conflict index that falls into the compacted prefix differs. |
| `Compaction.CompactionInvisible` | internal/consensus/raft/rpc_handlers.go:187-233 | The same for every request in the network of every state satisfying the invariant: the skipped check below the snapshot is never needed. |
| `Durability.CompactCrash` | internal/consensus/raft/consensus.go:110-123 | A crash between SaveSnapshot and SetLog of a local compaction restores the same node as a crash after both, with the log of the running node. |
| `Durability.InstallCrash` | internal/consensus/raft/snapshot.go:12-45 | The same for installed snapshots shorter or longer than the log, also before the hard state is written. |
| `Durability.AnotherCommandApplied` | internal/service/kv.go:355-361 | A proposer that is told an index and then overruled applies another command at that index. |
| `Durability.AppendMirrors` | internal/consensus/raft/node.go:361-370 | An append keeps stored and running log in step if and only if the store reaches up to the snapshot. |
| `Durability.CutMirrors` | internal/consensus/raft/node.go:372-387 | A truncation, with or without an append after it, keeps them in step if and only if the stored base is the snapshot index or nothing is left and nothing appended. |
| `Durability.MergeMirrors` | internal/consensus/raft/rpc_handlers.go:227-261 | For each of the four outcomes of its storage calls, a merge leaves a log that a restart restores if and only if its writes land: nothing is written, or entries are appended to a store that reaches the snapshot, or a cut is made in a store that starts there or leaves nothing. |
| `Durability.MirrorStep` | internal/consensus/raft/node.go:361-411 | From a state in which a store is in step, each of the 17 actions leaves it in step if and only if its log writes land. |
| `Durability.RewriteMirrors` | internal/consensus/raft/node.go:400-411 | A restart and every successful rewrite of the stored log put log and store in step, whatever they were. |
| `Durability.AcknowledgedEntryForgotten` | internal/consensus/raft/node.go:372-387 | After an ignored SetLog failure a conflicting append is acknowledged and not found after a restart. |
| `ServiceModel.CompactionBound` | internal/service/kv.go:242-266 | Handling a message in sequence keeps fewer than SnapshotEvery applied commands uncompacted, and fails only for undecodable data or a snapshot that cannot be saved. |
| `ServiceRuns.ServiceStaysCompacted` | internal/service/kv.go:261-307 | In every run in which the service keeps its rule, it is at most SnapshotEvery commands ahead of the node's snapshot, and fewer whenever it has finished with a message. |
| `ServiceRuns.SnapshotNeverBeyondLog` | internal/consensus/raft/consensus.go:94-99 | In every run a snapshot is never refused for lying beyond the log; it fails only when it cannot be saved. |
| `ServiceRuns.ServeInTwoActions` | internal/service/kv.go:197-269 | Handling a message is the cluster's consume action followed, when due, by its compaction action. |
| `Raft.RaftNode.AppendEntriesRequestForPeer` | internal/consensus/raft/replication.go:60-102 | One request in flight per peer, a second one is only noted; panics exactly when the next index lies outside the retained log. |
| `Raft.RaftNode.RequestFor` | internal/consensus/raft/replication.go:73-99 | The request is the whole log from the next index with the position before it, and none exactly when the slice or the previous entry is outside the retained log. |
| `Storage.CloneLogEntries` | internal/consensus/raft/node.go:413-427 | The copying loop returns an equal log. |
| `Storage.InMemoryStorage.constructor` | internal/consensus/raft/storage_memory.go:14-17 | A new store holds no state. |
| `Storage.InMemoryStorage.Load` | internal/consensus/raft/storage_memory.go:19-37 | Load returns the stored records. |
| `Storage.InMemoryStorage.SaveHardState` | internal/consensus/raft/storage_memory.go:39-45 | Replaces the hard state only, or nothing on failure. |
| `Storage.InMemoryStorage.AppendLog` | internal/consensus/raft/storage_memory.go:47-56 | Extends the stored log only, or nothing on failure. |
| `Storage.InMemoryStorage.TruncateLog` | internal/consensus/raft/storage_memory.go:58-70 | Keeps the first entries, with the count clamped to the stored log. |
| `Storage.InMemoryStorage.SetLog` | internal/consensus/raft/storage_memory.go:72-79 | Replaces log and base together, or nothing on failure. |
| `Storage.InMemoryStorage.SaveSnapshot` | internal/consensus/raft/storage_memory.go:81-89 | Replaces the snapshot only, or nothing on failure. |
| `Raft.NormalizePeers` | internal/consensus/raft/node.go:248-262 | The loop returns the peers without the node itself. |
| `Raft.RaftNode.constructor` | internal/consensus/raft/node.go:84-189 | Restores the node that the recovery function computes from the storage, trimming stale entries and clamping the commit index. |
| `Raft.RaftNode.PersistHardState` | internal/consensus/raft/node.go:345-359 | Writes term, vote and commit index, or nothing on failure. |
| `Raft.RaftNode.FirstIndexOfTerm` | internal/consensus/raft/node.go:291-300 | The forward loop computes the first index of a term. |
| `Raft.RaftNode.LastIndexOfTerm` | internal/consensus/raft/node.go:302-311 | The backward loop computes the last index of a term. |
| `Raft.RaftNode.ElectionTimeout` | internal/consensus/raft/election.go:29-37 | The timeout turns the node into a candidate. |
| `Raft.RaftNode.StartElection` | internal/consensus/raft/election.go:42-59 | Term and own vote are durable, or taken back with the node degraded; the request carries the last log position. |
| `Raft.RaftNode.AdoptHigherTerm` | internal/consensus/raft/replication.go:186-201 | Steps down to a higher term; a failed write degrades the node. |
| `Raft.RaftNode.OnVoteResponse` | internal/consensus/raft/election.go:138-197 | Counts a vote; steps down, stops, takes over if and only if twice the votes exceed the number of members, or goes on. |
| `Raft.RaftNode.TakeOver` | internal/consensus/raft/election.go:184-190 | The loop resets the progress of every member. |
| `Raft.RaftNode.HandleRequestVote` | internal/consensus/raft/rpc_handlers.go:11-113 | The handler with its rollbacks equals the value function, whose outcome `VoteGrantedIff` characterizes. |
| `Raft.RaftNode.HandleAppendEntries` | internal/consensus/raft/rpc_handlers.go:116-300 | The handler equals the value function on node, disk and response, which `AppendAnswered` and `AcceptsIff` characterize. |
| `Raft.RaftNode.CheckPrevious` | internal/consensus/raft/rpc_handlers.go:170-225 | The consistency check with its conflict hints. |
| `Raft.RaftNode.FirstUnmatched` | internal/consensus/raft/rpc_handlers.go:227-245 | The scan finds the first incoming entry that is missing or in conflict, skipping what the snapshot covers. |
| `Raft.RaftNode.MergeEntries` | internal/consensus/raft/rpc_handlers.go:227-261 | Truncation and append at that entry equal the merge function, for every storage verdict. |
| `Raft.RaftNode.ObserveTerm` | internal/consensus/raft/rpc_handlers.go:154-164 | Adopts a higher term durably or not at all. |
| `Raft.RaftNode.FollowCommit` | internal/consensus/raft/rpc_handlers.go:272-292 | Adopts the leader's commit index up to the last own entry. |
| `Raft.RaftNode.RpcFinished` | internal/consensus/raft/replication.go:134-147 | Clears the in-flight mark and reports a noted request. |
| `Raft.RaftNode.BackOffFor` | internal/consensus/raft/replication.go:214-241 | The branches on the conflict hints compute the backed-off next index. |
| `Raft.RaftNode.OnAppendResponse` | internal/consensus/raft/replication.go:184-295 | Reading a reply equals the value function. |
| `Raft.RaftNode.CountHolders` | internal/consensus/raft/replication.go:324-329 | The loop counts the peers that hold an index, plus the leader. |
| `Raft.RaftNode.AdvanceCommitIndex` | internal/consensus/raft/replication.go:314-353 | The downward scan commits the target of the commit rule, which `CommitRule` characterizes. |
| `Raft.RaftNode.StartCommand` | internal/consensus/raft/consensus.go:12-54 | Appends, persists, and rolls back on failure. |
| `Raft.RaftNode.Snapshot` | internal/consensus/raft/consensus.go:84-126 | Compacts up to an index; the rewrite of the stored log is best effort. |
| `Raft.RaftNode.CutLog` | internal/consensus/raft/snapshot.go:13-22 | Keeps the suffix after an index without looking at the boundary entry. |
| `Raft.RaftNode.ApplySnapshot` | internal/consensus/raft/snapshot.go:12-45 | Resets the node to a saved snapshot, with both writes best effort. |
| `Raft.RaftNode.HandleInstallSnapshot` | internal/consensus/raft/rpc_handlers.go:304-412 | The handler equals the value function, including ignored and replacing snapshots. |
| `Raft.RaftNode.InstallSnapshotRequestForPeer` | internal/consensus/raft/snapshot.go:53-81 | Builds a snapshot request only for a peer behind the compacted log. |
| `Raft.RaftNode.OnSnapshotResponse` | internal/consensus/raft/snapshot.go:145-182 | Advances a peer past the snapshot, or steps down. |
| `Raft.RaftNode.ApplyWakeup` | internal/consensus/raft/apply.go:27-131 | One undisturbed wake-up sends the pending snapshot and then exactly the committed entries after it, in order. |
| `Raft.CommandsAt` | internal/consensus/raft/apply.go:80-121 | The messages of a wake-up are the entries at consecutive indices with their commands. |
| `KV.Store.Get` | internal/kv/store.go:28-35 | Returns the value of a key if present. |
| `KV.Store.Apply` | internal/kv/store.go:37-63 | Executes a decoded command, with the meaning `ReplayLookup` gives it; an undecodable one is an error and changes nothing. |
| `KV.Store.Snapshot` | internal/kv/store.go:65-87 | The copying loop encodes exactly the data. |
| `KV.Store.RestoreSnapshot` | internal/kv/store.go:89-118 | Replaces the data; no bytes mean empty, undecodable bytes change nothing. |
| `KV.Service.HandleApply` | internal/service/kv.go:197-269 | Consumes a message, counts it, and compacts when due. |
| `KV.Service.TakeSnapshot` | internal/service/kv.go:271-308 | Hands the serialized store to the node; only a success resets the counter. |
| `Obligations.QuorumIsMajority` | internal/consensus/raft/node.go:264-267 | A number of members reaches the quorum if and only if it is more than half of them. |
| `Obligations.CommitRule` | internal/consensus/raft/replication.go:314-353 | On raw fields: every entry of the current term above the commit index that peers making a majority with the leader are known to hold is at or below the new commit index, and a commit index that moved is such an entry; nothing else changes. |
| `Obligations.ReplyCommits` | internal/consensus/raft/replication.go:250-276 | A success reply of the leader's term raises the progress of that peer to the last entry sent, no other progress, and commits all that a majority is then known to hold. |
| `Obligations.SnapshotReplyRecords` | internal/consensus/raft/snapshot.go:145-181 | A reply to a snapshot of the leader's term raises the progress of that peer to the snapshot and commits nothing. |
| `Obligations.ProposalAccepted` | internal/consensus/raft/consensus.go:12-54 | A command is accepted if and only if the node leads, is not degraded and the write succeeds; it then is the last entry, of the current term, at the returned index, and everything a majority holds is committed. |
| `Obligations.VoteGrantedIff` | internal/consensus/raft/rpc_handlers.go:40-113 | A vote is granted if and only if the node is not degraded, the term is not older and written if newer, the vote of that term is free or the candidate's, the candidate's last position is at least that of the uncompacted log, and the vote is written; what the node then holds is stated for both outcomes. |
| `Obligations.VoteRepeats` | internal/consensus/raft/rpc_handlers.go:84-95 | A granted request, handled again, is granted again and changes nothing. |
| `Obligations.AppendAnswered` | internal/consensus/raft/rpc_handlers.go:138-168 | Every AppendEntries answer carries the later of the two terms, on disk when it is new; a stale request changes nothing, any other makes the node a follower in its term. |
| `Obligations.InstallAnswered` | internal/consensus/raft/rpc_handlers.go:334-362 | Every InstallSnapshot answer carries the later of the two terms, on disk when it is new; a stale request changes nothing, any other makes the node a follower in its term. |
| `Obligations.LaterTermDeposes` | internal/consensus/raft/replication.go:186-201 | Reading an answer of a later term makes the node a follower in that term without a vote; the term is on disk or the node is degraded. |
| `Obligations.AcceptsIff` | internal/consensus/raft/rpc_handlers.go:170-300 | On the uncompacted log: a request is accepted if and only if the node is not degraded, the term is not older and written if newer, the entry before the new ones is there with its term, and the log and commit writes it calls for succeed; a log that has all the entries stays as it is, any other ends with the request from the first missing entry on; the commit index follows the leader's as far as the log goes. |
| `Obligations.CompactTakesEffect` | internal/consensus/raft/consensus.go:84-126 | Compaction has an effect if and only if the index is in the retained log and the snapshot is saved; it then keeps every later entry, hard state, commit and apply positions. |
| `Obligations.InstallTakesEffect` | internal/consensus/raft/rpc_handlers.go:362-411 | A saved snapshot that is newer cuts the log there and nowhere above, raises the commit index to it and is handed over unless the state machine has come as far; any other changes only term and role. |
| `Obligations.TakesOverIff` | internal/consensus/raft/election.go:138-194 | A candidate that reads an answer of its term becomes leader if and only if twice its granted votes, its own included, exceed the number of members; it starts every peer after its own log, and otherwise goes on with the vote counted. |
| `Obligations.RecoveredCommit` | internal/consensus/raft/node.go:151-186 | A restart without snapshot replays up to the written commit index as far as the log goes; with one it starts from the snapshot and hands it over first. |
| `Progress.QuorumIsCommitted` | internal/consensus/raft/replication.go:314-353 | In every state of every run a leader has already committed every entry of its term that peers making a majority with it are known to hold. |
| `Progress.PromptStep` | internal/consensus/raft/replication.go:250-276 | Every action of a server keeps it so: no action leaves a leader with an uncommitted entry of its term that a majority is known to hold. |
| `Progress.AnswersTrue` | internal/consensus/raft/rpc_handlers.go:40-168 | In every execution every answer in the network carries a term at least that of its request and at most the one its sender has on disk. |
| `Progress.LaterAnswerDeposes` | internal/consensus/raft/replication.go:186-201 | Whoever reads an answer of a later term, to a vote, append or snapshot request, becomes a follower in that term. |
| `Progress.StaleLeaderDeposed` | internal/consensus/raft/rpc_handlers.go:141-152 | In every execution, once a server in good order has handled an AppendEntries request of an older term, its answer can be read in every later state, and reading it makes a sender still behind a follower in the server's term. |
| `Progress.VotesByUncompactedLog` | internal/consensus/raft/rpc_handlers.go:75-95 | In every run, compaction included, the conditions for a granted vote are those on the uncompacted log. |
| `Progress.AcceptsByUncompactedLog` | internal/consensus/raft/rpc_handlers.go:170-300 | In every run, every request in the network is accepted, and its entries are taken over, exactly as on the receiver's uncompacted log. |
| `Progress.ApplyNeverStuck` | internal/consensus/raft/apply.go:27-120 | In every run a server with an unapplied committed entry can deliver its pending snapshot or, without one, its next entry. |
| `Progress.EveryPeerIsServed` | internal/consensus/raft/replication.go:60-102 | In every run a leader has a request for every peer with none in flight: its snapshot exactly when the peer's next entry is compacted, and otherwise its uncompacted log from that entry on. |
| `Progress.ServedAgain` | internal/consensus/raft/replication.go:134-147 | In every run, after a request is finished, whatever its outcome, a leader can send to that peer again. |
| `Progress.NotedUntilDone` | internal/consensus/raft/replication.go:67-70 | In every execution a request to a peer, of either kind, asked for while one is in flight stays noted through every step but the end of that one or a restart. |
| `Progress.LookupFindsLastWrite` | internal/kv/store.go:55-60 | In every run a replica's store has for each key what the last of the committed entries it has applied that writes the key says, and nothing if there is none. |
| `StateMachine.ReplayLookup` | internal/kv/store.go:55-60 | After a replay a key is present if and only if the last Put or Delete of it in the log is a Put, and then with that value; other commands touch no key. |
| `Hints.RefusalReports` | internal/consensus/raft/rpc_handlers.go:170-223 | A follower refuses if and only if its uncompacted log lacks the entry before the new ones; it reports the end of a log that is too short, and otherwise the term it has there and the first retained index of that term. |
| `Hints.LeaderLands` | internal/consensus/raft/replication.go:214-241 | A leader told of a term lands just after its last retained entry of it, and without one at the reported index; when that is no step back, one below. |
| `Hints.RefusedLeaderLands` | internal/consensus/raft/replication.go:214-256 | Reading a refusal of its own term moves the next index of that peer there and changes nothing else. |
| `Hints.NothingSkipped` | internal/consensus/raft/replication.go:217-224 | Between the refused position and the one it lands at a leader passes over no position the follower would accept, except the one at its own snapshot, and that one if and only if the reported term is the snapshot's and no retained entry has it. |
| `Hints.ProbeFindsGreatest` | internal/consensus/raft/replication.go:214-241 | Probing an unchanged follower ends at the greatest position above the leader's snapshot that the follower accepts, or at the snapshot. |
| `Hints.SnapshotPositionSkipped` | internal/consensus/raft/node.go:302-311 | The exception happens: a leader that has compacted its entries of the reported term falls back to its snapshot although its request just above the snapshot would be accepted. |
| `Hints.LogsMeet` | internal/consensus/raft/snapshot.go:12-22 | In every run without a foreign suffix kept under a snapshot, the logs of a leader and of any server of no later term meet the conditions of these laws. |

## Left out

- gRPC transports, protobuf code and field mapping: plumbing without state of its own.
- Tracing, metrics, logging and the admin state: observation only, erased from the modelled sections.
- Timers, election jitter, channels and goroutines: replaced by actions that may happen at any time; what a server
  must do and can do next is stated (`Obligations`, `Progress`), that it happens in time is not.
- `storage_json.go`: only its granularity is modelled, three records written atomically and independently.
- `ClusterClient`, the command-line client, the dashboard and scripts: user interface.
- `waitApplied` wake-ups and the clean-up of applied timestamps: metrics and liveness; the comparison by index is covered
  by `AcknowledgedCommand` and `AnotherCommandApplied`.
- Membership change and linearizable reads: not implemented by the source.
- Configuration in hard state and snapshots: with static membership it never changes anything.
- 64-bit overflow of terms and indices.
- Raft.RaftNode.ApplyWakeup: models a wake-up during which no other section runs; the interleaved loop is the pair of
  delivery actions of `Cluster`, for which `StreamOrder` is proved.
- NodeModel.DeliverSnapshot, NodeModel.DeliverEntry: one step each, although the source releases the lock around the
  channel send: it advances the applied index before sending an entry and after sending a snapshot. In between only
  `applySnapshotLocked` reads that index, and the newer snapshot it compares it with is larger in either order.
- Raft.RaftNode.ApplySnapshot: the pending mark is set before the best-effort hard-state write instead of after it; both
  are inside one locked section.
- Theorems.LogMatchingTheorem: stated for runs without a foreign suffix kept under a snapshot, because it is false
  otherwise; `MatchedStep` gives the exact condition per step and `SameTermSameEntry` what holds in all runs.
- Theorems.StateMachineSafety and the other theorems on logs and commits: stated for runs, not for every execution,
  because they are false when a server restarts from a drifted stored log (`StateMachineSafetyCanFail`); when stores
  drift is exact (`MirrorStep`).
