# Verified models of crab-scheme's consensus cores, code emitter and core algorithms

This project models the parts of crab-scheme whose correctness is hard to see from the code, and proves what they are
for. Code that changes state in place is modelled by classes and methods with loops, proved equal to functions on
values; the theorems are about those functions, for every input, every run or every reachable state.

**Raft** (`Raft*.dfy`, `LogStore.dfy`, `Membership.dfy`, `ConfigChain.dfy`). A replica is a value and every handler a
function from a replica and an input to a replica and addressed messages (`RaftModel`). `RaftRuntime.RaftNode` and
`RaftStore.MemLogStore` are the same replica and its store as objects, with the source's loops. `RaftCluster` is a group
over a network that loses, duplicates and reorders messages, with crashes and restarts, membership changes and reads at
any point. `RaftTheorems` proves election safety, log matching, leader completeness, state machine safety, that nothing
committed is ever given up, and that joint consensus makes configurations a chain whose neighbouring quorums meet.
`RaftReads` proves that an answered read reflects everything committed anywhere when it was issued, and `RaftStale`
gives a run for each of its two hypotheses in which, without it, the answer is stale. `RaftRecovery` proves that a store
rebuilds its replica after any number of crashes, with local compaction on, and `RaftRejoin` exactly when it rebuilds
the membership too. `RaftCompaction`, `RaftCompactGroup` and `RaftCompactReads` prove that local compaction is invisible
to a group with fixed membership: beside every replica runs an imagined twin that keeps its whole log, and election
safety, log matching, leader completeness, equal states, fresh reads and crash recovery hold in every run in which no
snapshot is delivered. `RaftClients` proves for every run that whatever stands in a log was asked for there and then,
`RaftAnswers` that every read is answered once and by whom, `RaftRecords` that what is applied is reported once and in
order. `RaftInstall` proves what a received snapshot leaves, and when that is the leader's state: a snapshot that
arrives late sets the state machine back behind the applied index (raft.rs:970-985).

**EPaxos** (`Epaxos*.dfy`, `Digraph.dfy`, `Tarjan.dfy`). `EpaxosTheorems` proves agreement, dependency coverage,
real-time order and consistent execution for every run of a group; `EpaxosConvergence` that replicas which executed the
same commands have the same state. `EpaxosSizes` proves for exactly which group sizes coverage, consistent execution
and real-time order hold. It gives runs of groups of two, four and six in which two replicas execute conflicting
commands in opposite orders, and of four and six in which a later command ignores an earlier one; real-time order holds
in groups of two. `EpaxosInterference` proves that in every run a dependency is a proposed command that conflicts, and a
sequence number is 1 or one more than a dependency's. `Tarjan` proves the iterative strongly-connected-components search
against reachability; `EpaxosRuntime.EpaxosReplica` is the replica as an object, with the eligibility fixpoint and the
execution loops.

**The code emitter** (`Aot*.dfy`). Recursive evaluation of a block graph, the loop-and-match program emitted for it, and
a proof that the program returns what the evaluation returns, through tail self-calls turned into jumps and the fixpoint
that finds values holding the function's own handle. Parameters are assigned one after the other, which is faithful
exactly when nothing is clobbered; a swapping tail call is the counterexample. `AotComplete` proves that the calls
turned into jumps are exactly those whose result is returned, which functions are emitted, and that a function whose
calls are all of that kind runs in a loop without calling itself.

**Smaller algorithms**. `equal?` on cyclic data is bisimilarity, and never ends on some cycles through vectors alone
(`SchemeEqual`); decoding undoes encoding and rejects
every truncated frame (`Codec`, `EpaxosCodec` and their `Runtime` forms); integer square root by Newton's method and
the division family of R6RS sections 11.7.3.1 and 11.7.4.3 (`Numbers`); the reference-counted slot table with its
free list (`ProcTable`).

Where the code and its comments differ, the models follow the code: a restart takes the bootstrap voters at the base of
the log even if a snapshot is stored (raft.rs:340-342, 364-368), a follower that rejects an AppendEntries hints at
the entry before the message's and not at the start of its conflicting term (raft.rs:875-881), and Newton's method
starts from 2^(bits/2 + 1) and not from 2^(bits/2) (number.rs:324-327).

`dafny verify dfyconfig.toml` checks the whole project.

## Model

| member | source | states |
|---|---|---|
| RaftTheorems.ElectionSafety | crates/cs-consensus/src/raft.rs:725-839 | In every run, two replicas that are ever leader in the same term are the same replica. |
| RaftTheorems.LogsMatch | crates/cs-consensus/src/raft.rs:844-933 | In every run, two logs (any replicas, any two times) with the same term at an index agree on everything up to it. |
| RaftTheorems.LeaderCompleteness | crates/cs-consensus/src/raft.rs:1077-1103 | Whatever a replica had committed is in the log of every leader of the same or a later term from then on. |
| RaftTheorems.LeaderAnticipates | crates/cs-consensus/src/raft.rs:725-766 | A leader of a later term already holds everything a replica still in an earlier term goes on to commit. |
| RaftTheorems.StateMachineSafety | crates/cs-consensus/src/raft.rs:1125-1151 | Entries applied at one index by any two replicas at any two times are the same entry; replicas that applied equally far hold the same state. |
| RaftTheorems.CommittedStays | crates/cs-consensus/src/raft.rs:899-913 | A replica's term and commit index never go back and no truncation reaches at or below its commit index, across crashes and restarts. |
| RaftTheorems.ConfigurationsFormChain | crates/cs-consensus/src/raft.rs:574-590 | The configurations in every log form a chain Simple(v), Joint(v,w), Simple(w), ... from the bootstrap voters, and a replica's active configuration is the last one in its log. |
| RaftTheorems.NeighbouringQuorumsMeet | crates/cs-consensus/src/raft.rs:60-69 | A quorum of a configuration and a quorum of the configuration it changes into always share a replica. |
| RaftTheorems.CommittedAgree | crates/cs-consensus/src/raft.rs:1077-1103 | Two prefixes certified as committed never disagree, whatever terms committed them. |
| RaftReads.ReadIndexFresh | crates/cs-consensus/src/raft.rs:611-625 | A read answered with a value by a leader that had committed an entry of its own term when asked and had not restarted, or whose echoes past its counter come only from replicas still in its term, is, among the answers added by that step, the query's value on a log prefix covering every commit index any replica had reached when the read was issued. |
| RaftReads.NotRestarted | crates/cs-consensus/src/raft.rs:611-625 | A replica that has not restarted has no echo past its heartbeat counter on its way or counted. |
| RaftStale.OwnCommitNeeded | crates/cs-consensus/src/raft.rs:993-1031 | A run in which nobody restarts and a leader that has committed nothing at all answers a read from before another replica's commits. |
| RaftStale.NoRestartNeeded | crates/cs-consensus/src/raft.rs:343-377 | A run in which a restarted leader, with a commit of its own term, answers a read from before another replica's commits, on the echo of a heartbeat sent before the restart. |
| RaftReads.CommittedFurthest | crates/cs-consensus/src/raft.rs:1208-1248 | When a quorum has confirmed a leader of a term, nobody can have committed further than a leader holding a commit of its own term. |
| RaftRecovery.CrashRecovery | crates/cs-consensus/src/raft.rs:343-377 | After any sequence of ticks, legal messages, proposals, membership changes, reads, compactions, crashes and restarts, the stored hard state is the live term, vote and commit index, and restoring from the store alone rebuilds log, term, vote, commit index, applied index and state machine. |
| RaftRejoin.MembershipRecovered | crates/cs-consensus/src/raft.rs:361-377 | After any such sequence a restart brings the active membership back exactly if the live log still holds a configuration or the one at its base is the bootstrap one. |
| RaftRejoin.MembershipForgotten | crates/cs-consensus/src/raft.rs:364-368 | A replica bootstrapped alone learns of a second voter, folds that entry away and restarts: it is alone again. |
| RaftRejoin.FeedAllTracked | crates/cs-consensus/src/raft.rs:482-492 | Every sequence of legal inputs keeps the active membership the last one in the live log, or else the one at its base. |
| RaftRecovery.SettledRecovers | crates/cs-consensus/src/raft.rs:343-377 | The store of any replica in the invariant state rebuilds that replica. |
| RaftRecovery.GroupMessagesLegal | crates/cs-consensus/src/raft.rs:894-913 | In a Raft group every message a replica can receive is legal in the sense crash recovery needs. |
| RaftRecovery.FeedAllSettled | crates/cs-consensus/src/raft.rs:500-506 | Every sequence of legal inputs keeps the recovery invariant (everything committed is applied, hard state saved, snapshot consistent with the folded log). |
| RaftCompactGroup.CompactedElections | crates/cs-consensus/src/raft.rs:725-839 | With local compaction at any thresholds, two replicas that are ever leader in the same term are the same replica. |
| RaftCompactGroup.CompactedLogs | crates/cs-consensus/src/raft.rs:844-933 | With local compaction, what two replicas have stored at two times are two logs, folded up to their bases, that agree up to any index of equal term and on everything both have committed; a leader of the same or a later term holds all the other had committed. |
| RaftCompactReads.CompactedReadFresh | crates/cs-consensus/src/raft.rs:611-625 | With local compaction, a read answered by a leader that had committed an entry of its own term when asked and had not restarted is the query's value on a prefix of the log behind its store that covers every commit index any replica had reached when the read was issued. |
| RaftCompactReads.GroupReads | crates/cs-consensus/src/raft.rs:1208-1248 | Through every local run of a compacting group the twins keep their heartbeat counters and who can have echoed them. |
| RaftCompactGroup.CompactedStates | crates/cs-consensus/src/raft.rs:1125-1183 | With local compaction, any two replicas that at any two times have applied equally far hold the same state. |
| RaftCompactGroup.CompactedOnward | crates/cs-consensus/src/raft.rs:1125-1183 | With local compaction, no replica's term, commit index or applied index ever goes back, across restarts. |
| RaftCompactGroup.GroupRecovers | crates/cs-consensus/src/raft.rs:343-377 | At any time in a run with local compaction, every replica's store alone rebuilds its log, term, vote, membership, commit index, applied index and state machine. |
| RaftCompactGroup.CompactedMessagesLegal | crates/cs-consensus/src/raft.rs:894-913 | In a group that compacts locally, every message a replica can be sent, short of a snapshot, is legal in the sense crash recovery needs. |
| RaftCompactGroup.GroupStep | crates/cs-consensus/src/raft.rs:633-693 | Every local step of a compacting group keeps a twin group without compaction, which takes the same step or refuses the same message, in good standing. |
| RaftCompaction.AppendEntriesTwin | crates/cs-consensus/src/raft.rs:844-933 | A replica that has folded entries away takes an AppendEntries as its twin with the whole log does. |
| RaftCompaction.FoldedTwin | crates/cs-consensus/src/raft.rs:870-892 | If the entry before the message's is folded away, the replica refuses, and its twin could have refused as well. |
| RaftCompaction.CompactTwin | crates/cs-consensus/src/raft.rs:1156-1174 | Folding applied entries into a snapshot leaves the twin as it is. |
| RaftCompaction.RestoreTwin | crates/cs-consensus/src/raft.rs:343-377 | A replica restored from its snapshot and suffix and its twin restored from the whole log come back to the same state. |
| RaftCluster.NextOk | crates/cs-consensus/src/raft.rs:633-693 | Every step of a group (tick, delivery, client request, restart) keeps the invariant that ties replicas and messages to one history of elections, acknowledgements and commits. |
| RaftHandlers.OnMessageOk | crates/cs-consensus/src/raft.rs:633-693 | Handling any message keeps a replica and everything it sends consistent with the history. |
| RaftHandlers.OnTickOk | crates/cs-consensus/src/raft.rs:528-551 | An election or heartbeat tick keeps the invariant. |
| RaftHandlers.MaybeAdvanceCommitOk | crates/cs-consensus/src/raft.rs:1077-1103 | Advancing the commit index is certified by a quorum holding an entry of the current term. |
| RaftHandlers.AppendEntriesOk | crates/cs-consensus/src/raft.rs:844-933 | Accepting entries from a leader keeps the follower's log coherent and everything it had committed. |
| RaftHandlers.RestoreOk | crates/cs-consensus/src/raft.rs:343-377 | A replica rebuilt from its store satisfies the invariant of the replica that crashed. |
| Membership.MajoritiesMeet | crates/cs-consensus/src/raft.rs:60-69 | Two majorities of one voter list share a voter. |
| Membership.WithoutIncreasing | crates/cs-consensus/src/raft.rs:447-451 | Dropping a replica from an increasing voter list leaves an increasing list of exactly the others. |
| RaftClients.EntriesWereAsked | crates/cs-consensus/src/raft.rs:556-590 | In every run, with compaction, snapshots, membership changes and restarts, every command in any log was submitted at one earlier step to the leader of its term, whose log ended just before it, and every joint configuration was asked for there with exactly its incoming voters; no two entries come from the same step. |
| RaftClients.SubmitPlaces | crates/cs-consensus/src/raft.rs:556-568 | A command submitted to a leader stands in its term at the next index, right behind everything it held, whatever is committed, compacted or finalized in the same step. |
| RaftClients.ChangePlaces | crates/cs-consensus/src/raft.rs:574-590 | A change submitted to a leader in a simple configuration stands at the next index as the joint configuration of its voters and the set asked for, sorted and without repetition. |
| RaftAnswers.EveryAnswer | crates/cs-consensus/src/raft.rs:1208-1248 | In every run a step adds answers only at the replica that takes it: while it leads its term, a value only for a read that waited there or is made by the step and waits no longer, as the query's value on the state applied by then; a read made of a replica that does not lead adds exactly that refusal; losing the lead refuses every waiting read once, in order; and request by request, reads waiting before and made are reads answered and still waiting. |
| RaftAnswers.ActAnswers | crates/cs-consensus/src/raft.rs:697-723 | Every step of a replica accounts for each of its reads once, and only a leader has reads waiting. |
| RaftAnswers.PendingWasAsked | crates/cs-consensus/src/raft.rs:611-625 | In every run a waiting read was asked of that replica, while it led in its present term, at the commit index and with the counter of that step. |
| RaftInstall.InstallKeeps | crates/cs-consensus/src/raft.rs:938-989 | A snapshot past the base leaves exactly the entries behind it if the log had its last entry and none otherwise; base, stored snapshot, hard state, state machine and membership are the message's, and commit and applied index never go back. |
| RaftInstall.InstallIgnored | crates/cs-consensus/src/raft.rs:938-967 | A snapshot of an earlier term changes nothing and is refused; one the base covers is acknowledged and changes nothing but the term. |
| RaftInstall.MergedFits | crates/cs-consensus/src/raft.rs:970-985 | If the follower's log matches the leader's, what is left after a snapshot agrees with the leader up to it, and if they differed before it nothing past it is left. |
| RaftInstall.InstallSettles | crates/cs-consensus/src/raft.rs:938-989 | A follower that had applied no further than the snapshot is left with the log, the state and the stored data of a replica that applied the leader's entries itself. |
| RaftInstall.LateInstall | crates/cs-consensus/src/raft.rs:970-985 | A follower that had applied further keeps log and applied index but takes the snapshot's older state. |
| RaftInstall.LateInstallHarmless | crates/cs-consensus/src/raft.rs:970-985 | That loses nothing if no command lies between the snapshot and what had been applied. |
| RaftInstall.InstallExactly | crates/cs-consensus/src/raft.rs:970-985 | For a state machine that counts commands the state afterwards is right exactly if the snapshot reaches as far as had been applied or no command lies in between. |
| RaftInstall.LateInstallLoses | crates/cs-consensus/src/raft.rs:970-985 | A replica applies a command, takes a late snapshot from before it, and has lost the command although its applied index says otherwise. |
| RaftInstall.RefusalMovesBack | crates/cs-consensus/src/raft.rs:1018-1030 | After a refusal the next index is at least 1, at most the hint, and smaller than before or 1; it is the hint, one less than before, or 1; other peers keep theirs and the follower is sent what lies from there. |
| RaftInstall.RefusalsReachStart | crates/cs-consensus/src/raft.rs:1018-1030 | As many refusals as the leader's guess is off bring it to the first entry, in one term and with the log unchanged. |
| RaftRecords.FeedReports | crates/cs-consensus/src/raft.rs:1125-1151 | Each input adds to the output one record for every entry it applies, in index order, with the entry's command and the state machine's result on the entries before it, and no other record. |
| RaftRecords.FeedAllReports | crates/cs-consensus/src/raft.rs:1125-1151 | Through any inputs until the output is taken, every applied entry is reported once, in order. |
| RaftRuntime.RaftNode.constructor | crates/cs-consensus/src/raft.rs:295-332 | A fresh replica has the initial state for its voters, with an empty store. |
| RaftRuntime.RaftNode.Restore | crates/cs-consensus/src/raft.rs:343-377 | Rebuilding from a store gives the state the recovery theorem speaks about. |
| RaftRuntime.RaftNode.HandleMessage | crates/cs-consensus/src/raft.rs:633-693 | The new state and the messages are those of the step the safety theorems are about. |
| RaftRuntime.RaftNode.Tick | crates/cs-consensus/src/raft.rs:528-551 | A tick campaigns, sends heartbeats or does nothing, as the model step says. |
| RaftRuntime.RaftNode.Submit | crates/cs-consensus/src/raft.rs:556-568 | A leader appends, tries to commit and replicates, and returns the entry's index; others refuse and change nothing. With compaction off, the log afterwards starts with the old one followed by the command, in the leader's term, at the index returned. |
| RaftRuntime.RaftNode.ChangeMembership | crates/cs-consensus/src/raft.rs:574-590 | Only a leader in a simple configuration enters a joint one, and says so. |
| RaftRuntime.RaftNode.LinearizableRead | crates/cs-consensus/src/raft.rs:611-625 | The read is registered at the current commit index with a fresh sequence number; a replica that does not lead sends nothing and adds one answer, that it is not the leader. |
| RaftRuntime.RaftNode.StepDown | crates/cs-consensus/src/raft.rs:697-723 | Term, vote, role and pending reads change as the model's follower step says. |
| RaftRuntime.RaftNode.Campaign | crates/cs-consensus/src/raft.rs:725-748 | A candidate votes for itself, asks the others, and leads at once if alone. |
| RaftRuntime.RaftNode.Lead | crates/cs-consensus/src/raft.rs:750-766 | A new leader resets progress, appends a no-op, tries to commit and replicates. |
| RaftRuntime.RaftNode.TakeOffice | crates/cs-consensus/src/raft.rs:750-760 | The replica becomes leader, with every peer starting from the end of the log and nothing matched. |
| RaftRuntime.RaftNode.ResetProgress | crates/cs-consensus/src/raft.rs:754-760 | Every peer starts from the end of the log with nothing matched. |
| RaftRuntime.RaftNode.AppendOwn | crates/cs-consensus/src/raft.rs:770-786 | One entry of the current term is appended and the active membership recomputed. |
| RaftRuntime.RaftNode.OnRequestVote | crates/cs-consensus/src/raft.rs:790-822 | The vote is granted exactly when the model grants it, and saved first. |
| RaftRuntime.RaftNode.OnRequestVoteResp | crates/cs-consensus/src/raft.rs:824-839 | Votes are counted only by a candidate of that term; a quorum makes it leader. |
| RaftRuntime.RaftNode.OnAppendEntries | crates/cs-consensus/src/raft.rs:844-933 | Rejection with a hint, or conflict-aware splice, commit and apply, as the model step says. |
| RaftRuntime.RaftNode.SpliceAll | crates/cs-consensus/src/raft.rs:899-913 | The loop over received entries leaves exactly the model's spliced store. |
| RaftRuntime.RaftNode.OnInstallSnapshot | crates/cs-consensus/src/raft.rs:938-989 | The state and the acknowledgement are those of the step RaftInstall.InstallKeeps and RaftInstall.InstallIgnored describe: a snapshot past the base replaces log prefix, state machine and membership, any other is only acknowledged. |
| RaftRuntime.RaftNode.OnAppendEntriesResp | crates/cs-consensus/src/raft.rs:993-1031 | Progress, read confirmations and retries of the leader follow the model step. |
| RaftRuntime.RaftNode.MessageFor | crates/cs-consensus/src/raft.rs:1036-1062 | A peer is sent the whole suffix it lacks, or a snapshot if that was folded away. |
| RaftRuntime.RaftNode.Broadcast | crates/cs-consensus/src/raft.rs:1064-1073 | Every peer gets its message, in voter order. |
| RaftRuntime.RaftNode.AdvanceCommit | crates/cs-consensus/src/raft.rs:1077-1103 | Commit, save, apply and leave a joint configuration, as the model step says. |
| RaftRuntime.RaftNode.ScanCommit | crates/cs-consensus/src/raft.rs:1081-1097 | The upward scan stops at the highest index of the current term that a quorum holds. |
| RaftRuntime.RaftNode.HoldersOf | crates/cs-consensus/src/raft.rs:1086-1092 | The set of replicas counted for an index is the leader and the peers that matched it. |
| RaftRuntime.RaftNode.FinalizeJoint | crates/cs-consensus/src/raft.rs:1108-1123 | A committed joint configuration is followed by the simple one. |
| RaftRuntime.RaftNode.ApplyAll | crates/cs-consensus/src/raft.rs:1125-1151 | The loop applies every committed entry once, in order. |
| RaftRuntime.RaftNode.CompactIfDue | crates/cs-consensus/src/raft.rs:1178-1183 | Applied entries are folded into a snapshot exactly at the threshold. |
| RaftRuntime.RaftNode.FoldApplied | crates/cs-consensus/src/raft.rs:1156-1174 | The snapshot covers exactly the applied entries and keeps the membership in force there. |
| RaftRuntime.RaftNode.ConfirmedSeq | crates/cs-consensus/src/raft.rs:1208-1228 | The result is the highest read sequence number a quorum has confirmed. |
| RaftRuntime.RaftNode.ServePending | crates/cs-consensus/src/raft.rs:1232-1248 | Confirmed and applied reads are answered from the state machine; the others stay, in order. |
| RaftRuntime.Answer | crates/cs-consensus/src/raft.rs:1232-1248 | One pass splits waiting reads into answers and reads still pending. |
| RaftRuntime.RaftNode.RecomputeMembership | crates/cs-consensus/src/raft.rs:482-492 | The active membership is the last configuration in the log, or the base one. |
| RaftRuntime.RaftNode.MembershipAt | crates/cs-consensus/src/raft.rs:469-479 | The membership in force at an index. |
| RaftStore.MemLogStore.constructor | crates/cs-consensus/src/store.rs:123-125 | An empty store. |
| RaftStore.MemLogStore.AppendAll | crates/cs-consensus/src/store.rs:138-140 | Entries are added at the end and nothing else changes. |
| RaftStore.MemLogStore.Range | crates/cs-consensus/src/store.rs:142-148 | The loop returns exactly the live entries between the two indices. |
| RaftStore.MemLogStore.Truncate | crates/cs-consensus/src/store.rs:166-175 | Everything from the index on is dropped; everything, if it is at or below the base. |
| RaftStore.MemLogStore.SetHardState | crates/cs-consensus/src/store.rs:177-179 | Only the hard state changes. |
| RaftStore.MemLogStore.SetSnapshot | crates/cs-consensus/src/store.rs:185-191 | The entries the snapshot covers are dropped, the rest kept. |
| EpaxosTheorems.Agreement | crates/cs-consensus/src/epaxos.rs:305-468 | Whoever commits an instance, whenever, commits the same command, sequence number and dependencies. |
| EpaxosTheorems.DependencyCoverage | crates/cs-consensus/src/epaxos.rs:305-468 | Of two committed interfering commands at least one is in the other's dependencies, for every safe group size. |
| EpaxosTheorems.RealTimeOrder | crates/cs-consensus/src/epaxos.rs:186-199 | A command committed anywhere before an interfering one is proposed is among its dependencies with a smaller sequence number and is executed before it on every replica. |
| EpaxosTheorems.ExecutionConsistent | crates/cs-consensus/src/epaxos.rs:477-533 | Any two replicas run two interfering commands in the same relative order, whatever batches each executes in. |
| EpaxosConvergence.ReplicasConverge | crates/cs-consensus/src/epaxos.rs:477-533 | Replicas that have executed the same instances have the same state, if non-interfering commands commute. |
| EpaxosConvergence.ShuffleRuns | crates/cs-consensus/src/epaxos.rs:50-56 | Two executions of the same commands that keep interfering ones in order end in the same state. |
| EpaxosTheorems.SafeSizes | crates/cs-consensus/src/epaxos.rs:174-178 | The safe group sizes (fast quorums meet, or a group of one) are the odd ones and the even ones from eight on. |
| EpaxosSizes.FastQuorumsMeetExactly | crates/cs-consensus/src/epaxos.rs:174-178 | Any two fast quorums of a group share a replica if twice the fast quorum exceeds the group; otherwise two disjoint fast quorums exist. |
| EpaxosSizes.CoverageExactly | crates/cs-consensus/src/epaxos.rs:338-393 | A group size is safe exactly if no run of a group of that size commits two conflicting commands of which neither depends on the other. |
| EpaxosSizes.OrderExactly | crates/cs-consensus/src/epaxos.rs:477-533 | A group size is safe exactly if no run of a group of that size has two replicas execute two conflicting commands in opposite orders. |
| EpaxosSizes.RealTimeExactly | crates/cs-consensus/src/epaxos.rs:186-199 | A group size is safe, or two, exactly if no run of a group of that size has a command committed before an interfering one is proposed and missing from its dependencies, not below its sequence number or not executed before it. |
| EpaxosSizes.LateRun | crates/cs-consensus/src/epaxos.rs:338-393 | For groups of four and six, a run in which a command is proposed after an interfering one is committed and is committed without it. |
| EpaxosSizes.OutsideSafe | crates/cs-consensus/src/epaxos.rs:338-393 | For every unsafe size, a run in which two leaders decide without each other, with empty dependencies, and execute the two commands in opposite orders. |
| EpaxosTheorems.AloneIdle | crates/cs-consensus/src/epaxos.rs:233-270 | A group of one never sends, commits or executes anything. |
| EpaxosTheorems.NextOk | crates/cs-consensus/src/epaxos.rs:273-303 | Every step of a group keeps the invariant tying replicas and undelivered messages to one history of opinions, acceptances and decisions. |
| EpaxosSteps.ReplyHandled | crates/cs-consensus/src/epaxos.rs:338-393 | Counting a PreAccept reply: fast decision, slow path or keep collecting all keep the invariant. |
| EpaxosSteps.AcceptReplyHandled | crates/cs-consensus/src/epaxos.rs:414-430 | Counting an Accept reply, and deciding at a majority, keeps the invariant. |
| EpaxosSteps.PreAcceptHandled | crates/cs-consensus/src/epaxos.rs:305-336 | A replica's first opinion on an instance covers everything interfering it has recorded. |
| EpaxosSteps.BatchOk | crates/cs-consensus/src/epaxos.rs:477-533 | Executing a batch keeps a replica's execution order the one the decisions dictate. |
| EpaxosRuntime.EpaxosReplica.constructor | crates/cs-consensus/src/epaxos.rs:144-157 | A fresh replica knows its group, in order, and nothing else. |
| EpaxosInterference.DependenciesInterfere | crates/cs-consensus/src/epaxos.rs:186-199 | In every run every dependency of an instance any replica knows, committed or not, is another instance that its leader has proposed with a command the instance's own conflicts with. |
| EpaxosInterference.SequenceJustified | crates/cs-consensus/src/epaxos.rs:186-199 | In every run the sequence number any replica knows for an instance, committed or not, is 1 or one more than what some replica had recorded for one of its dependencies. |
| EpaxosRuntime.EpaxosReplica.DepsAndSeq | crates/cs-consensus/src/epaxos.rs:186-199 | One pass over the known instances gives exactly those known, other than the excluded one, whose commands the new one conflicts with, and a sequence number that is 1 or one more than the largest of theirs. |
| EpaxosRuntime.EpaxosReplica.RecordState | crates/cs-consensus/src/epaxos.rs:202-227 | A state is recorded unless what is known is further along. |
| EpaxosRuntime.EpaxosReplica.ProposeCommand | crates/cs-consensus/src/epaxos.rs:233-270 | Proposing does what the model's step says, and asks every peer. |
| EpaxosRuntime.EpaxosReplica.HandleMessage | crates/cs-consensus/src/epaxos.rs:273-303 | The new state and messages are those of the step the theorems are about, followed by execution. |
| EpaxosRuntime.EpaxosReplica.HandlePreAcceptReply | crates/cs-consensus/src/epaxos.rs:338-393 | The tally, and then the fast path, the slow path or nothing. |
| EpaxosRuntime.EpaxosReplica.HandleAcceptReply | crates/cs-consensus/src/epaxos.rs:414-430 | The count, and at a majority the commit. |
| EpaxosRuntime.EpaxosReplica.ExecuteCommitted | crates/cs-consensus/src/epaxos.rs:477-533 | Everything eligible is executed in an execution order the theorems allow, and the state machine is fed those commands in that order. |
| EpaxosRuntime.FindEligible | crates/cs-consensus/src/epaxos.rs:482-506 | The fixpoint loop finds the largest set of committed instances closed under unexecuted dependencies. |
| EpaxosRuntime.SortByKey | crates/cs-consensus/src/epaxos.rs:521-523 | A component is sorted by sequence number and instance, without losing or adding any. |
| Tarjan.TarjanScc | crates/cs-consensus/src/epaxos.rs:539-616 | The result partitions the nodes into exactly the strongly connected components, each after every component it can reach. |
| Tarjan.SearchFrom | crates/cs-consensus/src/epaxos.rs:560-612 | One search visits everything reachable from its start and keeps the invariant of the explicit-stack algorithm. |
| Tarjan.TakeSuccessor | crates/cs-consensus/src/epaxos.rs:574-588 | Looking at one successor keeps the invariant and makes progress. |
| Tarjan.LeaveNode | crates/cs-consensus/src/epaxos.rs:589-611 | Finishing a node emits its component exactly when it is a root, and keeps the invariant. |
| Tarjan.PopComponent | crates/cs-consensus/src/epaxos.rs:593-601 | The pop loop takes exactly the stack above and including the root. |
| AotProof.EmissionPreservesMeaning | crates/cs-aot/src/lib.rs:1021-1131 | Whenever recursive evaluation of the block graph yields a value, the emitted loop-and-match program, with tail self-calls turned into jumps, yields the same value. |
| AotComplete.EmitLoopMatch | crates/cs-aot/src/lib.rs:1021-1131 | The emission loop computes exactly the values that hold the function's own handle, produces the program the preservation theorem is about, and succeeds exactly on the functions of the subset. |
| AotComplete.DetectsExactly | crates/cs-aot/src/lib.rs:389-419 | A tail call is detected exactly if the block ends in a self-call and its terminator, a return or a jump to a block that only returns its parameter, returns the call's result in every environment; its arguments are the call's. |
| AotComplete.EmitsExactly | crates/cs-aot/src/lib.rs:1021-1131 | Emission succeeds exactly if there is a block and every block, apart from its tail call, has only supported instructions with known symbols and, without a tail call, no jump to an unknown block or with the wrong number of arguments. |
| AotComplete.TailCallIsJump | crates/cs-aot/src/lib.rs:389-419 | A tail call becomes a jump to the entry that pairs every parameter with its argument, and leaves no statement of its own. |
| AotComplete.CallFreeExactly | crates/cs-aot/src/lib.rs:358-388 | The emitted program never calls itself exactly if every call in the function is a tail call. |
| AotComplete.WithinStack | crates/cs-aot/src/lib.rs:358-388 | A bounded stack never changes a program's result, and one frame per unit of fuel, or none if there are no calls, never loses one. |
| AotComplete.TailRecursionLoops | crates/cs-aot/src/lib.rs:358-388 | A function of the subset whose calls are all tail calls is emitted, and the program runs on no stack at all and returns what the recursion returns, however long it runs. |
| AotProof.SequentialIsParallel | crates/cs-aot/src/lib.rs:2255-2322 | Assigning parameters one after the other is faithful from every state exactly when no argument names a parameter that an earlier assignment changes. |
| AotProof.SwapIsMiscompiled | crates/cs-aot/src/lib.rs:1021-1131 | A concrete tail call (f y x) evaluates to 5 and its emitted loop to 0: the condition is needed. |
| AotProof.TailSim | crates/cs-aot/src/lib.rs:389-419 | A detected tail self-call, through a returning join block or directly, is a jump back to the entry with rebound parameters. |
| AotProof.InstSim | crates/cs-aot/src/lib.rs:1257-2252 | Each emitted statement computes what its instruction computes, including self-calls and handle lookups. |
| AotSelf.ComputeSelfRefs | crates/cs-aot/src/lib.rs:463-514 | The fixpoint ends with the least set closed under lookups, copies and all-edges parameter joins, every member having a reason. |
| AotSelf.InstHeld | crates/cs-aot/src/lib.rs:463-514 | Every member that has a value holds the function's own handle after any instruction. |
| AotSelf.EdgeHeld | crates/cs-aot/src/lib.rs:428-440 | Members still hold the handle after any edge is taken. |
| AotSelf.StartHeld | crates/cs-aot/src/lib.rs:1962-1980 | At a call no member has a value yet, so every member that has a value holds the handle. |
| AotSelf.EdgeCounted | crates/cs-aot/src/lib.rs:428-440 | Every argument list a terminator passes to a block is among the block's in-edges. |
| SchemeEqual.EqualIsBisimilarity | crates/cs-core/src/eq.rs:57-93 | `equal?` ends and answers true exactly when the two (possibly cyclic) values are bisimilar with eqv leaves. |
| SchemeEqual.RecSound | crates/cs-core/src/eq.rs:62-93 | A positive answer closes a finite relation under the visited pairs, whatever the fuel. |
| SchemeEqual.RecFinishes | crates/cs-core/src/eq.rs:62-93 | Where no cycle runs through vectors alone, the comparison given up after any large enough number of nested calls has ended with the same answer. |
| SchemeEqual.TrapDiverges | crates/cs-core/src/eq.rs:79-89 | Down a chain of first elements that are always two different vectors, it has not ended after any number of nested calls. |
| SchemeEqual.SelfVectorsDiverge | crates/cs-core/src/eq.rs:79-89 | Two vectors that each hold only themselves are never told equal or different. |
| SchemeEqual.RecComplete | crates/cs-core/src/eq.rs:62-93 | Values related by any bisimulation are answered true, whatever has been visited. |
| Codec.MessageRoundTrip | crates/cs-consensus/src/codec.rs:65-140 | Decoding an encoded Raft message gives it back, whatever bytes follow. |
| Codec.MessageTruncated | crates/cs-consensus/src/codec.rs:221-273 | Every strict prefix of an encoded Raft message is rejected. |
| Codec.BigEndianWeighs | crates/cs-consensus/src/codec.rs:21-23 | The bytes of a 64-bit number, each times its power of 256 with the first the most significant, add up to it. |
| Codec.MessageStarts | crates/cs-consensus/src/codec.rs:65-140 | The first byte of a frame is the kind of the message, 0 to 4, and the next eight are its term. |
| EpaxosCodec.MessageStarts | crates/cs-consensus/src/codec.rs:311-374 | The first byte of a frame is the kind of the message, 0 to 4, and the next eight are the leader of its instance. |
| Codec.EntryRoundTrip | crates/cs-consensus/src/codec.rs:143-147 | Decoding an encoded log entry gives it back, whatever bytes follow. |
| Codec.EntryTruncated | crates/cs-consensus/src/codec.rs:276-278 | Every strict prefix of an encoded log entry is rejected. |
| EpaxosCodec.MessageRoundTrip | crates/cs-consensus/src/codec.rs:311-374 | Decoding an encoded EPaxos message gives it back, whatever bytes follow. |
| EpaxosCodec.MessageTruncated | crates/cs-consensus/src/codec.rs:377-414 | Every strict prefix of an encoded EPaxos message is rejected. |
| EpaxosCodec.Ascending | crates/cs-consensus/src/codec.rs:286-291 | A dependency set is listed in ascending order, each member once. |
| CodecRuntime.Encode | crates/cs-consensus/src/codec.rs:65-140 | The buffer written is the message's encoding. |
| CodecRuntime.Decode | crates/cs-consensus/src/codec.rs:221-273 | The cursor's result is the message whose encoding starts the buffer, and an error on every strict prefix of an encoding. |
| CodecRuntime.Writer.PutEntry | crates/cs-consensus/src/codec.rs:48-62 | The entry's encoding is appended. |
| CodecRuntime.Writer.PutEntries | crates/cs-consensus/src/codec.rs:100-102 | The loop appends the encodings in order. |
| CodecRuntime.Cursor.U64 | crates/cs-consensus/src/codec.rs:169-174 | Eight bytes are read big-endian and passed, or the end is reported. |
| CodecRuntime.Cursor.BytesField | crates/cs-consensus/src/codec.rs:175-184 | Exactly the announced number of bytes is taken, or the end is reported. |
| CodecRuntime.Cursor.Nums | crates/cs-consensus/src/codec.rs:185-192 | The loop reads that many numbers or reports the first failure. |
| CodecRuntime.Cursor.Conf | crates/cs-consensus/src/codec.rs:193-202 | A configuration is read, or an unknown tag reported. |
| CodecRuntime.Cursor.EntryField | crates/cs-consensus/src/codec.rs:203-217 | An entry is read, or an unknown tag or the end reported. |
| EpaxosCodecRuntime.Encode | crates/cs-consensus/src/codec.rs:311-374 | The buffer written is the message's encoding. |
| EpaxosCodecRuntime.Decode | crates/cs-consensus/src/codec.rs:377-414 | The cursor's result is the message whose encoding starts the buffer, and an error on every strict prefix of an encoding. |
| EpaxosCodecRuntime.PutDeps | crates/cs-consensus/src/codec.rs:286-291 | The loop over the set appends its count and members in ascending order. |
| EpaxosCodecRuntime.ReadSet | crates/cs-consensus/src/codec.rs:300-307 | The loop reads the announced number of instances into a set. |
| Numbers.ExactIntegerSqrt | crates/cs-core/src/number.rs:314-337 | Newton's loop from 2^(bits/2+1) descends and ends with n = s^2 + r and r < 2s + 1; negative numbers give nothing. |
| Numbers.SqrtUnique | crates/cs-core/src/number.rs:310-313 | Only the floor of the square root leaves such a rest. |
| Numbers.StepAbove | crates/cs-core/src/number.rs:326-332 | A Newton step never falls below the root. |
| Numbers.TruncatedDivision | crates/cs-core/src/number.rs:271-289 | quotient and remainder divide exactly with the dividend's sign, and are the only ones that do. |
| Numbers.FloorDivision | crates/cs-core/src/number.rs:343-361 | floor-quotient and modulo divide exactly with the divisor's sign, and are the only ones that do. |
| Numbers.EuclideanDivision | crates/cs-core/src/number.rs:364-391 | div and mod leave a remainder in [0, abs(y)), and no other quotient does. |
| Numbers.CentredDivision | crates/cs-core/src/number.rs:397-431 | div0 and mod0 leave a remainder in [-abs(y)/2, abs(y)/2), and no other quotient does. |
| Numbers.Simplify | crates/cs-core/src/number.rs:434-440 | The value is unchanged and is held as a fixnum exactly when it fits 64 bits. |
| Numbers.ShiftFloors | crates/cs-core/src/number.rs:632-639 | The arithmetic right shift divides by a power of two rounding down, for either sign. |
| Numbers.ShiftMeaning | crates/cs-core/src/number.rs:524-534 | arithmetic-shift multiplies or floor-divides by the power of two its count says. |
| Numbers.ShiftBack | crates/cs-core/src/number.rs:524-534 | A right shift undoes a left shift by the same count. |
| Numbers.ShiftsAdd | crates/cs-core/src/number.rs:632-639 | Two right shifts are one by the sum of their counts. |
| ProcTable.TableFollowsCarriers | crates/cs-core/src/nanbox.rs:543-639 | Through every balanced run the free list ends, visits exactly the slots without a carrier and each once, counts are carriers and contents are what was stored. |
| ProcTable.UseAfterRun | crates/cs-core/src/nanbox.rs:573-634 | After every balanced run a handle with a carrier is live and gives what it was allocated for, dropping it frees the slot exactly with the last carrier, and a new handle is none of those in use. |
| ProcTable.TableIsPeak | crates/cs-core/src/nanbox.rs:573-591 | After every balanced run the table has as many slots as there ever were handles in use at one time, and the next allocation adds one exactly if every slot has a carrier. |
| ProcTable.NewKeeps | crates/cs-core/src/nanbox.rs:573-591 | Allocation from the free list or by growth keeps the table good. |
| ProcTable.DropKeeps | crates/cs-core/src/nanbox.rs:613-624 | Releasing a carrier keeps the table good, linking a freed slot in. |
| ProcTable.AllocFreshHandle | crates/cs-core/src/nanbox.rs:573-591 | The handle given out has no carrier. |
| ProcTable.SlotTable.Register | crates/cs-core/src/nanbox.rs:573-591 | The table takes the allocation step; the handle had no carrier and now has one. |
| ProcTable.SlotTable.Retain | crates/cs-core/src/nanbox.rs:593-600 | The table takes the copy step. |
| ProcTable.SlotTable.Release | crates/cs-core/src/nanbox.rs:613-624 | The table takes the drop step; the procedure comes back exactly with the last carrier. |
| ProcTable.SlotTable.Peek | crates/cs-core/src/nanbox.rs:628-634 | The procedure stored for the handle, nothing changed. |
| ProcTable.SlotTable.Take | crates/cs-core/src/nanbox.rs:675-685 | Peek and release in one. |

## Left out

- RaftTheorems.ElectionSafety, RaftTheorems.LogsMatch, RaftTheorems.LeaderCompleteness, RaftTheorems.LeaderAnticipates, RaftTheorems.StateMachineSafety, RaftTheorems.CommittedStays, RaftTheorems.ConfigurationsFormChain: compaction is off in the group, as in the default configuration, so InstallSnapshot is never sent. What installing a snapshot does to one replica is proved in RaftInstall; it is not a step of the group: the stale branch acknowledges the whole log without a matching check (raft.rs:965-967), which the acknowledgement invariant does not allow.
- RaftCompactGroup.CompactedElections, RaftCompactGroup.CompactedLogs, RaftCompactReads.CompactedReadFresh, RaftCompactGroup.CompactedStates, RaftCompactGroup.CompactedOnward, RaftCompactGroup.GroupRecovers, RaftCompactGroup.CompactedMessagesLegal: membership is fixed and InstallSnapshot is sent but not delivered. Membership is fixed because a restore across a snapshot forgets it (RaftRejoin.MembershipForgotten), which the source documents as deferred (raft.rs:364-368).
- RaftReads.ReadIndexFresh: asks that the leader has committed an entry of its own term when the read is issued, and that it has not restarted before or that whoever has echoed a heartbeat past its counter in its term is still in that term; RaftStale.OwnCommitNeeded and RaftStale.NoRestartNeeded show a stale answer without each. Sufficient together; a run may break either and still answer freshly.
- RaftCompactReads.CompactedReadFresh: asks that the leader has not restarted before the read.
- RaftRecovery.CrashRecovery: messages are legal (an accepted AppendEntries does not contradict what the replica has committed) and InstallSnapshot is not received; the active membership after a restore across a snapshot is RaftRejoin.MembershipRecovered.
- RaftRecovery.GroupMessagesLegal: for groups with compaction off; RaftCompactGroup.CompactedMessagesLegal is its counterpart with local compaction.
- RaftInstall.InstallSettles, RaftInstall.LateInstall, RaftInstall.InstallExactly: the snapshot is of the log of a leader that the follower's log matches in the sense of RaftTheorems.LogsMatch, and what the follower has applied past it agrees with that log.
- RaftRecords.FeedReports, RaftRecords.FeedAllReports: for inputs as in RaftRecovery.CrashRecovery.
- RaftRuntime.RaftNode.Submit: says where the command stands with compaction off; RaftClients.SubmitPlaces says it for every threshold.
- RaftRuntime.RaftNode.Tick: the timers and the pseudo-random election timeout are an input that says whether the running timer is due.
- EpaxosTheorems.Agreement: each message is delivered at most once, as for all EPaxos results, because the source counts replies without looking at their sender (epaxos.rs:351, 423). Recovery of a failed leader is deferred in the source, so ballots stay 0.
- EpaxosTheorems.DependencyCoverage, EpaxosTheorems.ExecutionConsistent, EpaxosConvergence.ReplicasConverge: groups of two, four and six are excluded; EpaxosSizes.CoverageExactly and EpaxosSizes.OrderExactly show that they have to be.
- EpaxosTheorems.RealTimeOrder: groups of four and six are excluded; EpaxosSizes.RealTimeExactly shows that they have to be, and that groups of two need not.
- EpaxosRuntime.EpaxosReplica.ExecuteCommitted: leaves open the order in which a set is walked where the source walks it in key order; the theorems hold for every order.
- AotProof.EmissionPreservesMeaning: the raw 64-bit mode with LoadConst, Add, Sub, Mul, Lt, Eq, Move, CallSelf, EnvLookup and Call; argument lists clobber nothing, the self symbol is not captured, and values have one definition. The straight-line shape emitted for a single block, the boxed mode and floating point are not modelled.
- SchemeEqual.EqualIsBisimilarity: no cycle runs through vectors alone, since vectors are not entered in the visited set and the source does not end on some such cycles (SchemeEqual.TrapDiverges), and eqv is reflexive on atoms, so there is no NaN.
- CodecRuntime.Cursor.BytesField: reports the end of input for every length that exceeds it; the source adds the length to the position in machine words (codec.rs:177), which for lengths near the word size overflows first. Encodings of real messages never have such lengths.
- CodecRuntime.Cursor.Nums: reports the end of input for every count that exceeds it; the source reserves memory for the announced count first (codec.rs:187, 240), which can fail for counts that no encoding has.
- Codec.MessageRoundTrip, EpaxosCodec.MessageRoundTrip: for messages whose numbers and lengths fit 64 bits, as they do in the source. Elsewhere terms, indices and counters are unbounded naturals.
- ProcTable.TableFollowsCarriers: runs stay within the 32-bit limits of slot indices and counts; the source panics when a count overflows, and would wrap an index after 2^32 - 1 live slots.
- Numbers.ExactIntegerSqrt: exact integers only; rationals and flonums are not modelled.
- The drivers, transports, timers and actors around the consensus cores are I/O and are not modelled.
- Hashing, type inference for code emission, project rendering, the VM, the reader, the garbage collector, gossip, discovery and the command line are not modelled.
