# A Dafny model of the raft server and what it guarantees

The repository implements Raft from the paper (Ongaro and Ousterhout, "In Search of an Understandable Consensus
Algorithm"): servers elect a primary per term, the primary replicates one log entry per AppendEntry RPC and backs off
on a refusal, commits by an order statistic over its followers' saved indices, and hands committed commands to a
key/value machine through a single write thread. Two per-peer sequence counters ("lsn") make requests at most once
and tie replies to requests. The log lives in a vector with a stale tail, backed by a data file and an offset file.

This project models that code branch by branch and proves what it does and does not promise.

## How it is laid out

| file | what it holds |
|---|---|
| `Types.dfy` | addresses, configuration, log entries, the messages of `rpc.proto` |
| `NodeSpec.dfy` | one server as a value, every handler of `RaftServer.cpp` as a function; a throw sets `fault` |
| `RaftServer.dfy` | the server object, method by method in place, each proved equal to its function |
| `NodeFacts.dfy`, `NodeSteps.dfy` | the invariant of one server, and the effect of every handler as predicates over (before, input, after) |
| `Outcomes.dfy` | the account of an event field by field, which every handler comes to and which leaves no choice |
| `NodeRuns.dfy`, `NodeLives.dfy` | one server fed any inputs: vote accounting, at-most-once RPCs; and that every server of a cluster run lives such a run |
| `Cluster.dfy` | the servers, everything ever sent, and a ghost history; a step delivers a letter or fires a timer |
| `Basics.dfy`, `Election.dfy`, `Logs.dfy`, `Replication.dfy`, `Retention.dfy`, `CatchUp.dfy` | the layers of the cluster-wide inductive invariant |
| `Completeness.dfy`, `Commitment.dfy` | the invariant that the two guards H4 and H5, which the code lacks, would add |
| `AsWritten.dfy` | theorems about every run of the code as it stands |
| `Theorems.dfy` | theorems about every run under H1, H2 and H3, and last under H4 and H5 as well |
| `Progress.dfy`, `Voting.dfy` | what every run does whenever it may: apply what is committed, follow newer terms, vote, elect |
| `Scripts.dfy` | building blocks of concrete runs: one event, what it does to the servers involved and to each hypothesis |
| `Witness.dfy`, `OldTerms.dfy`, `FallingCommit.dfy`, `GrownCandidate.dfy` | runs of any three servers that show what fails without one hypothesis, or fails anyway |
| `OrderStatistic.dfy` | the commit rule: sort, pick, and what the pick means |
| `DurableLog.dfy`, `Entries.dfy` | file layout, reload and crashes as functions on bytes; the `Entries` and `data` objects |
| `ApplyControl.dfy`, `StateMachineControler.dfy` | the catch-up loop as a function and in place |
| `ThreadPool.dfy` | the pool as steps of its workers in any interleaving, and the pool object |
| `EasyStateMachine.dfy` | the key/value machine and the whole apply pipeline |

The cluster is any non-empty list of servers with distinct ports. Messages may be lost, reordered and repeated; only a
granted vote arrives at most once, because `winned_votes_++` does not look at who voted. The election timer may fire
whenever the node is not primary, the RV retry timer only for a candidate and the AE retry timer only for a primary,
which is what `cancel_all_timers` is for. A throw halts the node. Logs start empty and nodes do not restart.

Five hypotheses on runs appear by name; none of them changes a step, and each is tested on one step at a time.

- **H1** (`Election.H1`): a node that has handled an AE of a term it was already in grants no later vote in that term.
  The code does not ensure it: `trans2F` forgets the vote even when the term does not grow (`RaftServer.cpp:136`).
- **H2** (`Logs.H2`): a client command reaches only a primary. `append_client_apply_to_entries` does not check the role
  (`RaftServer.cpp:442-452`).
- **H3** (`Retention.H3`): a RESP_APPEND handled with equal terms answers an AE that the receiver sent in that term. The
  refusal of an older AE carries the refuser's newer term (`RaftServer.cpp:469-470`).
- **H4** (`Completeness.H4`): a vote goes only to a candidate whose log, as it stood for election, has a later last term
  than the voter's, or the same and no fewer entries. This is the guard missing at `RaftServer.cpp:585-596`, which
  compares the voter's last entry with the candidate's new term.
- **H5** (`Completeness.H5`): a recomputed commit index that is not -1 names an entry of the primary's own term. This is
  the guard missing at `RaftServer.cpp:789`.

H1 to H5 can all hold while entries are committed and applied (`Witness.Commit`), and for each of them there is a run in
which it alone fails and a property is lost, or a throw is reached that the comments exclude.

Where comments and code disagree, the code is modelled. The comments call the throws at `RaftServer.cpp:474`, `:623` and
`:729` impossible and say at `:808` that a commit index never falls; all four are reached (`Witness.dfy`), and
`AsWritten.ThrowsExactly` says exactly when. `latest_term` exists in `rpc.proto` but is never set or used for voting
(`RaftServer.cpp:351-364`, `:585-596`), so neither the election restriction of section 5.4.1 of the Raft paper nor the
commit restriction of section 5.4.2 is in force. `Witness.DifferentCommandsApplied` and
`OldTerms.OldTermCommitOverwritten` are the consequences; `Theorems.LeaderCompleteness` and
`Theorems.StateMachineSafety` say that both guards together, in runs under H1 to H3, are enough.

## Model

| member | source | states |
|---|---|---|
| AsWritten.ImpossibleThrows | RaftServer.cpp:454-542 | In every run, without any hypothesis: the throws at lines 200, 465, 496, 524, 533, 689 and every bounds throw of the stored log never happen |
| AsWritten.ThrowsExactly | RaftServer.cpp:610-626 | In every run each of the four other throws happens if and only if its guard holds, stated on the state before the step and the message |
| AsWritten.LogsWellShaped | RaftServer.cpp:442-452 | In every reachable state entry k carries index k, terms never decrease along a log nor exceed the node's term, and the commit index lies inside the log |
| AsWritten.AesWellShaped | RaftServer.cpp:267-305 | The same for every AE ever sent, with one entry at most; an empty AE never commits past the entry it verifies |
| AsWritten.FollowerCommitsVerified | RaftServer.cpp:518-539 | A follower whose commit index moved commits nothing beyond the entry the AE verified or inserted, and holds what the AE says there |
| AsWritten.CommitIsMajoritySaved | RaftServer.cpp:776-791 | In every run a recomputed commit index is the greatest k that a majority of servers has saved, and it lies inside the primary's log |
| AsWritten.OkAnswersLastAe | RaftServer.cpp:674-718 | An ok a primary acts on answers the last RPC it sent that peer in the term, an AE for the entry before nextIndex with the same emptiness, although lsns are shared by RV and AE and restart per term |
| AsWritten.VotesAreGrants | RaftServer.cpp:740-763 | A candidate's vote count is one plus the distinct grants of its term that it consumed, and a primary has a majority of them |
| AsWritten.ElectionSafetyUntilLate | RaftServer.cpp:557-608 | As written, a term has at most one primary until some node handles an AE of a term it is already in |
| AsWritten.AnswersNeverThrow | RaftServer.cpp:724-736 | A step that satisfies H3 reaches neither the throw at line 623 nor the one at line 729 |
| Theorems.ElectionSafety | RaftServer.cpp:212-223 | Election Safety (section 5.2 of the Raft paper) in every run under H1 |
| Theorems.NoSecondPrimary | RaftServer.cpp:472-475 | Under H1 no primary ever meets an AE of its own term |
| Theorems.OnlyCommitThrows | RaftServer.cpp:794-815 | Under H1 and H3 the falling commit index is the only throw left |
| Theorems.LogMatching | RaftServer.cpp:494-540 | Log Matching (section 5.3): under H1 and H2, logs with one entry of the same index and term are identical up to it |
| Theorems.LogsFollowThePrimary | RaftServer.cpp:267-305 | Under H1 and H2 a log with an entry of term T agrees up to it with the log of T's primary |
| Theorems.QuorumBackedCommit | RaftServer.cpp:687-722 | Under H1 and H2, behind every commit index a primary sets stands a majority whose members each held that prefix when they answered in this term |
| Theorems.ApplyAgreement | RaftServer.cpp:768-815 | Under H1 and H2, nodes that apply index k while in one term apply the same command |
| Theorems.FollowerRetains | RaftServer.cpp:494-539 | Under H1 to H3 a follower that answered ok keeps the matched prefix for as long as it stays in the term |
| Theorems.FollowerNeverRefuses | RaftServer.cpp:499-510 | Under H1 to H3 it accepts every later AE of that term that passes the lsn check |
| Theorems.CatchUpTerminates | RaftServer.cpp:674-736 | Under H1 to H3 the refusals a primary acts on per follower are at most its log size at election, and after an ok nextIndex is one past the saved index |
| Theorems.PrimaryCommitFallsExactly | RaftServer.cpp:776-791 | Under H1 to H3 a primary that stays primary lowers its commit index if and only if it counts the first ok of its term and, where two servers are a majority, that ok stands for an index below it, and elsewhere if anything was committed |
| Theorems.LeaderCompleteness | RaftServer.cpp:585-596 | Under H1 to H5 (section 5.4.3 of the Raft paper): what a primary of one term sets its commit index to is, with all before it, in the log of the primary of every later term |
| Theorems.StateMachineSafety | RaftServer.cpp:768-792 | Under H1 to H5 no two servers hand different commands to their state machines at one index, whatever their terms |
| Theorems.CommitChooses | RaftServer.cpp:776-791 | Under H1 to H5 behind every commit index k a primary sets there is a majority that held its first k + 1 entries in its term, the last of them an entry of that term |
| Witness.Commit | RaftServer.cpp:776-792 | Any three servers have a run under all five hypotheses in which a command is committed and applied |
| Witness.TwoPrimariesInOneTerm | RaftServer.cpp:130-137 | Any three servers have a run with two primaries in term 1; of the five hypotheses only H1 fails in it |
| Witness.SecondPrimaryThrows | RaftServer.cpp:472-475 | The throw at line 474 is reached in a run where only H1 fails |
| Witness.LogsDiverge | RaftServer.cpp:442-452 | Any three servers have a run in which two logs differ in an entry of one index and term; only H2 fails in it |
| Witness.RefusalMeetsNonPrimary | RaftServer.cpp:610-626 | The throw at line 623 is reached in a run where only H3 fails, so no term has two primaries |
| Witness.RefusalAtIndexZero | RaftServer.cpp:724-736 | The throw at line 729 is reached in a run where only H3 fails |
| Witness.CommitIndexThrows | RaftServer.cpp:794-809 | The throw at line 808 is reached even in a run under all five hypotheses |
| Witness.CommittedEntryMissing | RaftServer.cpp:585-596 | Leader Completeness is lost in a run where only H4 fails: a later primary with an empty log, after an entry was committed and applied |
| Witness.DifferentCommandsApplied | RaftServer.cpp:585-596 | State Machine Safety is lost in a run where only H4 fails: two servers apply any two commands at index 0 |
| OldTerms.OldTermCommitOverwritten | RaftServer.cpp:776-791 | State Machine Safety is lost in a run where only H5 fails: an entry of term 1 is committed by counting in term 3, overwritten and replaced by any other in term 4 |
| FallingCommit.CommitIndexFalls | RaftServer.cpp:776-791 | A primary's commit index falls from 1 to 0 in the last step of a run where only H5 fails |
| Progress.CommittedIsHandedOver | RaftServer.cpp:768-815 | In every reachable state of every run each server has handed every index up to its commit index to its state machine |
| Progress.RaisedCommitHandsOver | RaftServer.cpp:809-811 | A step that raises a commit index, of a follower or a primary, hands over at once what the log holds up to it, and no step hands over more |
| Progress.SameCommands | RaftServer.cpp:768-774 | Under H1 to H5, of the command sequences that any two servers have handed to their state machines one is a prefix of the other |
| Progress.NewerTermFollowed | RaftServer.cpp:610-618 | Any message of a newer term, replies included, makes its receiver a follower of that term without votes |
| Progress.HandledTermReached | RaftServer.cpp:192-202 | Whoever handled a message of a term is in that term or a later one from then on |
| Progress.OwnTermAeFollowed | RaftServer.cpp:472-482 | An AE of its own term, a late one included, makes every server but the term's primary a follower with its vote back |
| Progress.MajorityElects | RaftServer.cpp:740-763 | Of two servers or more, one that stood and is no follower is primary if and only if its own vote and the grants it consumed are more than half |
| Progress.LoneServerNeverPrimary | RaftServer.cpp:740-763 | A cluster of one server never has a primary, because only a grant triggers the count |
| Voting.VoteGivenExactly | RaftServer.cpp:557-607 | In every run a vote goes to an RV if and only if it is fresh, a vote is left, and the voter does not have a last entry of that very term in a log longer than the RV tells |
| Voting.VoteComparesLogs | RaftServer.cpp:585-596 | Under H2 the log compared is the one the candidate stood with |
| Voting.RefusedOnlyByLongerLog | RaftServer.cpp:585-596 | In every run whoever is refused a vote that was left stood with a log shorter than the voter's, which ends in an entry of the term |
| Voting.VotedMeansGiven | RaftServer.cpp:598-605 | In every run a follower that has no vote left in its term has sent a grant of that term |
| GrownCandidate.GrownCandidateGetsVote | RaftServer.cpp:585-596 | Without H2 a vote can go to a candidate that stood with the shorter log, because it has appended a client command since |
| Outcomes.HandleOutcome | RaftServer.cpp:411-436 | For every input of a running server the handlers come to the field-by-field account: term, role, votes, log, commit index, bookkeeping, counters, throw, what the state machine gets, and exactly which RPCs leave |
| Outcomes.OutcomeUnique | RaftServer.cpp:411-436 | The account determines the state after the event and the RPCs sent |
| Outcomes.DefectiveAeThrows | RaftServer.cpp:463-540 | An AE with too many entries, a prelog term without prelog, an index out of place or a commit index ahead of the log throws and changes neither log, commit index nor state machine |
| Outcomes.TermNeverLowered | RaftServer.cpp:192-202 | A smaller term throws and changes nothing; the counters restart exactly when the term grows |
| Outcomes.NextOutsideThrows | RaftServer.cpp:267-305 | A next index outside the log throws where an AE is built from it, and beyond the log where an ok is counted |
| NodeSteps.HandleFacts | RaftServer.cpp:411-436 | For every input of a running server: the invariant is kept, only well-shaped RPCs of the new term leave, one request per peer with the next lsn, and the stated effects on role, votes, log, commit index, bookkeeping and throw |
| NodeLives.LifeIsNodeRun | RaftServer.cpp:35-68 | The events of a server in any run of the cluster, with its states in between, form a run of that server alone |
| NodeLives.VotesBounded | RaftServer.cpp:130-137 | In every run a server's grants and candidacies in a term are at most one plus the AEs of the term it handled while in it |
| NodeLives.RequestsIncrease | RaftServer.h:133-150 | In every run, requests of one sender and term that pass a server's check have increasing lsns |
| NodeLives.LateRequestsIdle | RaftServer.cpp:544-553 | In every run, a request at or below a handled lsn of its sender and term gets no vote, and as a late AE changes neither log, commit index nor applied commands |
| NodeRuns.VoteAccounting | RaftServer.cpp:130-137 | Fed any inputs, a node's grants and candidacies in a term are at most one plus the AEs of the term it handled while in it |
| NodeRuns.AeAtMostOnce | RaftServer.cpp:544-553 | After an AE was handled, no AE of that sender and term with the same or an older lsn changes log, commit index or applied commands |
| NodeRuns.RvAtMostOnce | RaftServer.cpp:573-576 | An RV at or below a handled lsn of its sender and term gets no vote |
| NodeRuns.LsnsIncrease | RaftServer.h:133-150 | The requests of one sender that pass the check within a term carry strictly increasing lsns |
| NodeFacts.AskAllBroadcasts | RaftServer.cpp:258-263 | The candidate's loop sends exactly one RV to each other server, each with that peer's next lsn |
| NodeFacts.AppendAllBroadcasts | RaftServer.cpp:184-189 | The new primary's loop sends exactly one AE to each other server, each with that peer's next lsn, and cannot throw |
| OrderStatistic.CommitRuleIsGreatest | RaftServer.cpp:776-788 | At least a majority of servers saved k if and only if k is at most what the rule picks |
| OrderStatistic.CommitRuleMonotone | RaftServer.cpp:776-788 | Raising saved indices never lowers the pick |
| OrderStatistic.DescendingUnique | RaftServer.cpp:787 | A descending arrangement of a multiset is unique, so the pick does not depend on how std::sort works |
| RaftServer.SortIgnoresOrder | RaftServer.cpp:779-787 | Nor on the order in which the map of saved indices is walked |
| RaftServer.RaftServer.constructor | RaftServer.cpp:8-33 | A new server is a follower of term 0 with commit index -1, counters at their start and the log its files hold |
| RaftServer.RaftServer.ResetBothRpcLsn | RaftServer.cpp:204-210 | The loop in place leaves every counter at its start value and touches nothing else |
| RaftServer.RaftServer.UpdateTerm | RaftServer.cpp:192-202 | Counters restart exactly when the term grows; a smaller term throws |
| RaftServer.RaftServer.Trans2F | RaftServer.cpp:130-137 | The whole new state, including that the vote is forgotten in every case |
| RaftServer.RaftServer.Trans2C | RaftServer.cpp:212-265 | The whole new state and every RV that leaves |
| RaftServer.RaftServer.Trans2P | RaftServer.cpp:170-190 | The whole new state, the bookkeeping set by the loop and every AE that leaves |
| RaftServer.RaftServer.BuildRpcAe | RaftServer.cpp:267-305 | The AE built from nextIndex and the stored log, or a throw exactly when nextIndex is outside the log |
| RaftServer.RaftServer.AE | RaftServer.cpp:307-313 | One AE leaves and one lsn is used, or the throw |
| RaftServer.RaftServer.RV | RaftServer.cpp:351-371 | One RV leaves, without the candidate's last term, and one lsn is used |
| RaftServer.RaftServer.AppendClientApplyToEntries | RaftServer.cpp:442-452 | The command is appended in the node's term whatever its role, and its own saved index moves |
| RaftServer.RaftServer.React2Ae | RaftServer.cpp:454-542 | Every branch in order: entry count, terms, second primary, role change, at-most-once check, log check, then the update |
| RaftServer.RaftServer.CheckPrelog | RaftServer.cpp:494-511 | The refusals and throws of the log check |
| RaftServer.RaftServer.TakeEntries | RaftServer.cpp:518-540 | The cut-and-append on the stored log, the commit update and the ok, with their throws |
| RaftServer.RaftServer.ShouldIgnoreRemoteRpc | RaftServer.cpp:544-553 | Ignores exactly lsns at or below the remembered one, otherwise remembers the new one |
| RaftServer.RaftServer.React2Rv | RaftServer.cpp:557-577 | Every branch up to the ballot |
| RaftServer.RaftServer.Ballot | RaftServer.cpp:577-607 | The vote, with the last entry compared against the remote term |
| RaftServer.RaftServer.React2RespAe | RaftServer.cpp:610-626 | Step down, ignore, deal or throw by comparing terms and role |
| RaftServer.RaftServer.PrimaryDealRespAeWithSameTerm | RaftServer.cpp:674-737 | The primary's bookkeeping after an ok or a refusal, and the AE that follows at once |
| RaftServer.RaftServer.React2RespRv | RaftServer.cpp:628-641 | Step down, ignore or count |
| RaftServer.RaftServer.CandidateDealRespRvWithSameTerm | RaftServer.cpp:740-763 | A grant for the last lsn counts and a majority of votes makes a primary |
| RaftServer.RaftServer.MajoritySaved | RaftServer.cpp:778-789 | Copying the map into an array in any order, sorting and picking yields the commit rule |
| RaftServer.RaftServer.PrimaryUpdateCommitIndex | RaftServer.cpp:776-792 | The saved index, the recomputed commit index and what is handed over |
| RaftServer.RaftServer.FollowerUpdateCommitIndex | RaftServer.cpp:794-815 | The commit index capped at the last entry; the throw when it falls |
| RaftServer.RaftServer.ApplyToStateMachine | RaftServer.cpp:768-774 | What reaches the state machine controler |
| RaftServer.RaftServer.ReactToIncomingMsg | RaftServer.cpp:411-436 | Any message has the effect the specification gives it |
| RaftServer.RaftServer.Next | RaftServer.cpp:35-68 | So has any timer, command or message: the object refines the step function the theorems are about |
| RaftServer.RaftServer.Move | RaftServer.cpp:35-68 | With the RPCs handed over, a whole event of the object is the move of one server in a step of the cluster |
| StoredLog.Entries.constructor | entry/entry.cpp:48-74 | Reloading the two files rebuilds exactly the log they hold |
| StoredLog.Entries.Get | entry/entry.cpp:80-88 | Entry or throw as of the logical log, never from the stale tail |
| StoredLog.Entries.Insert | entry/entry.cpp:91-125 | Cut at the index, append, in memory and in both files; throws and changes nothing exactly beyond the end |
| StoredLog.Entries.ModifyOffsetVectorAfterInsert | entry/entry.cpp:127-139 | The offset table is cut and extended by the new length |
| StoredLog.Entries.GetOffset | entry/entry.cpp:141-150 | The offset, or nothing beyond the table |
| StoredLog.DataFile.ReadFromOffset | entry/data.cpp:43-50 | As many bytes as asked for: byte k is the one at offset + k of the file, or 0 where the file has ended |
| StoredLog.DataFile.WriteFromOffset | entry/data.cpp:52-63 | Seek, write and truncate leave the kept prefix followed by the data, and the file ends there |
| DurableLog.OffsetsPrefix | entry/entry.h:45-56 | The offset table stays the prefix sums of the serialised lengths across an insert |
| DurableLog.ReloadRecovers | entry/entry.cpp:64-73 | Parsing by offsets inverts serialising, for every log on disk |
| DurableLog.WritesReload | entry/entry.cpp:91-125 | After any sequence of inserts a reload gives the log those inserts describe |
| DurableLog.InsertOnDisk | entry/entry.cpp:91-125 | An insert keeps the two files a stored log and leaves the entries and nothing else in the data file |
| DurableLog.WritesExact | entry/data.cpp:52-63 | So after any sequence of inserts, whatever lay behind the log before the first |
| DurableLog.CrashRecovers | entry/entry.cpp:100-107 | A crash anywhere in the data write and before the offset write keeps every entry below the index, and the whole log when it was an append |
| DurableLog.CrashLosesNothing | entry/data.cpp:52-63 | Nor does a crash lose anything while the bytes written so far repeat what they replace and no stored byte is cut off |
| DurableLog.CrashedOverwriteReplaces | entry/entry.cpp:100-107 | But whatever entry of whatever stored log is overwritten by one of equal size, there is a crash after which the new entry stands in the middle of the old log |
| ApplyControl.AdvanceHandsOver | state_machine/StateMachineControler.cpp:24-43 | One catch-up loop hands over exactly the missing indices in order, or stops where the log ends |
| ApplyControl.ExactlyOnceInOrder | state_machine/StateMachineControler.cpp:24-43 | Over any commit updates, decreasing ones included, the indices 0 to the highest are enqueued once each and in order |
| StateMachineControl.StateMachineControler.UpdateCommitIndexAndApply | state_machine/StateMachineControler.cpp:24-31 | The loop in place terminates and does what the function says |
| StateMachineControl.StateMachineControler.ApplyToStateMachine | state_machine/StateMachineControler.cpp:33-43 | One entry is enqueued with its index, or the throw of get |
| PoolSteps.Conservation | state_machine/ThreadPool.h:37-82 | For any number of workers in any interleaving, accepted tasks are the executed, running and queued ones as multisets, and tasks start in queue order |
| PoolSteps.OneWorkerInOrder | state_machine/ThreadPool.h:37-58 | One worker executes in the order of enqueueing |
| PoolSteps.JoinedRanEverything | state_machine/ThreadPool.h:85-93 | Once all workers of a pool have returned, every accepted task ran exactly once |
| PoolSteps.JoinTerminates | state_machine/ThreadPool.h:85-93 | A stopped pool never blocks before it is joined, and is joined after a number of worker steps that no scheduling changes |
| PoolSteps.StopJoins | state_machine/ThreadPool.h:85-93 | Destroyed at any moment of any run, a pool with workers can be joined by worker steps alone and has then executed exactly what it had accepted |
| PoolSteps.DestroyedAcceptsNothing | state_machine/ThreadPool.h:69-79 | After the destructor set the flag no task is accepted any more, whatever happens |
| ThreadPools.ThreadPool.constructor | state_machine/ThreadPool.h:37-58 | The loop launches the given number of idle workers |
| ThreadPools.ThreadPool.Enqueue | state_machine/ThreadPool.h:60-82 | A task is queued, or the throw exactly after the stop |
| ThreadPools.ThreadPool.TakeOrReturn | state_machine/ThreadPool.h:45-52 | The locked part of a round is one step of the model, return exactly when stopped and empty |
| ThreadPools.ThreadPool.WorkerLoop | state_machine/ThreadPool.h:41-56 | Whatever other workers, clients and the destructor do between and during its rounds, the interleaving is a run of the pool; the worker returns exactly on a stopped pool without tasks and otherwise waits, and undisturbed it executes the queue in order |
| KeyValue.LookupIsLatest | state_machine/EasyStateMachine.cpp:14-51 | Through a lookup that defaults to 0 the machine is the fold of the applied calls alone |
| KeyValue.QueriesDoNotMatter | state_machine/EasyStateMachine.cpp:14-31 | Queries, which insert zeros, never change a later answer |
| KeyValue.KeysAreNamed | state_machine/EasyStateMachine.cpp:14-51 | The machine holds exactly the keys that calls and queries named |
| KeyValue.EasyStateMachine.Apply | state_machine/EasyStateMachine.cpp:33-51 | The key takes the value |
| KeyValue.EasyStateMachine.Get | state_machine/EasyStateMachine.cpp:14-31 | The answer, 0 for a missing key, which is then inserted |
| ApplyPipeline.AppliedInLogOrder | state_machine/StateMachineControler.cpp:24-53 | In every interleaving of commit updates, write worker and queries, the applied commands are those of entries 0, 1, ... once each and in order, and every lookup is the fold of exactly those |
| ApplyPipeline.LoopIsHands | state_machine/StateMachineControler.cpp:28-30 | The catch-up loop is a sequence of the pipeline's moves |
| ApplyPipeline.CommittedGetApplied | state_machine/StateMachineControler.cpp:24-43 | From every state of a pipeline that is not stopped, once the commit index is set to an index of the log the pipeline can apply every entry up to it, with the values the log held |
| ApplyPipeline.QueriesServed | state_machine/StateMachineControler.cpp:45-53 | In every interleaving the machine performs each get once, at its own moment, and none besides |
| ApplyPipeline.CommandTakesEffect | state_machine/EasyStateMachine.cpp:53-60 | A command built by a client sets its key once its entry is applied |

## Left out

- ElectionSafety: needs H1, because the code forgets votes; `Witness.TwoPrimariesInOneTerm` shows the hypothesis is needed.
- LogMatching: needs H1 and H2; `Witness.LogsDiverge` shows what H2 is for.
- LeaderCompleteness: needs H4 and H5, which the code does not ensure; `Witness.CommittedEntryMissing` and `OldTerms.OldTermCommitOverwritten` break one each.
- StateMachineSafety: the same.
- VoteComparesLogs: needs H2; without it the log compared is the one at the time the RV was sent (`GrownCandidate.GrownCandidateGetsVote`), and `Voting.VoteGivenExactly` and `Voting.RefusedOnlyByLongerLog` hold of every run.
- MajorityElects: two servers or more, because one alone is never elected (`Progress.LoneServerNeverPrimary`).
- HandleOutcome: input of the shape that runs bring; what other AEs do is `Outcomes.DefectiveAeThrows`.
- ApplyAgreement: one term only, because without H4 and H5 it is false across terms.
- FollowerRetains: needs H1 to H3 and speaks of one term, because a later primary may overwrite any entry.
- CrashRecovers: the offset file is written atomically in the model; a torn offset file is not covered.
- Next: an ok of the current term that a primary gets from outside the configuration is not modelled, because the program then writes past the array at `RaftServer.cpp:779-786`; every other message from outside is. So for the members below.
- ReactToIncomingMsg: as Next.
- React2RespAe: as Next.
- PrimaryDealRespAeWithSameTerm: as Next.
- CrashedOverwriteReplaces: equal sizes only, because what a damaged stretch parses to is the codec's affair.
- WorkerLoop: what other threads do is a parameter, call by call; locks and wake-ups are atomic.
- JoinTerminates: that a sleeping worker is woken belongs to the condition variable, which is not part of this model.
- Restarts at cluster level: term and vote are not persisted; reload is covered for the stored log only.
- Timers, `cancel_all_timers` and the `waiting_count` throws, sockets, connections and framing: Boost.Asio semantics, kept as nondeterministic firing and a set of sent letters.
- Protobuf and Boost archive encodings: an abstract serialise and parse pair with a round trip.
- Overflow of terms, lsns, indices and file offsets: unbounded integers.
- A refused vote or an append reply may arrive more than once in the model; the program's network repeats less.
- The debug line at `RaftServer.cpp:788` reads three sorted values and so needs three servers; the model does not log.
- The index-to-client address map, replies to clients, the client program, configuration file reading and logging.
- The data race between a query and an apply on the machine's map: both are atomic in the model.
- Liveness of elections: it depends on random real-time timeouts.
