# A verified model of the Raft library

This project models the consensus library in Dafny and proves what it is for:
that servers which disagree about messages, crash, restart and change leaders
still hand the same entries to their state machines in the same order.

## What is modelled

**The cluster** (`Quorums`, `Commitment`, `Cluster`, `Election`, `LogMatching`,
`Acknowledgements`, `WitnessedCommits`, `LeaderCompleteness`, `SealedPrefixes`,
`SafetySteps`, `StateMachineSafety`, `Answers`, `Progress`, `Guarantees`).
`Cluster` is a step system: a server is a value with durable fields (term, the
stored vote pair, log) and volatile ones (role, leader, vote count, commit index,
applied entries, the leader's ledger of reported indexes), the network is a set of
messages from which nothing is ever taken away, so a message can be lost, late or
handled many times. There are nineteen kinds of steps: timeouts, elections, vote
and append requests and their answers, dispatch, commit and apply, restarts, a
crash between the two writes of `persistVote`, a crash between deleting a
conflicting suffix and storing its replacement. The theorems are about every run
from every bootstrapped or empty start. Beside safety they say that the cluster is
never stuck: `Answers` has what votes and terms in the answers are good for, and
`Progress` continues any safe run so that any majority elects, commits and applies.

**The program** (`Server`, `Replication`). `Server.Raft` is a class with the
server's fields and methods for the vote, pre-vote and append handlers, the vote
count, dispatch, the leader's answer and commit cases and a start from stored state,
loops included. Each method is proved to change the object exactly as the step system
says, so the cluster theorems are about these methods. A leader's ledger is an object
of class `Commitment.Commitment`. `Replication` runs the leader's loop against the
follower's handler and the ledger.

**What the premises are worth** (`Counterexamples`, `CommitClamp`, `CommitForks`,
`ClampInRuns`, `SplitReads`). Some theorems need a premise the code does not meet by
itself. For each there is a complete run in which the theorem fails without it, and the
exact condition under which a single vote or a single request does no harm. For the
commit index that condition is exact over runs: `CommitForks` builds, for every request
that does not meet it, a run of five servers in which the request goes wrong.

**Membership** (`Configuration`, `ConfigurationPair`) covers configuration changes
and the committed/latest pair, **pre-vote** (`PreVote`) the round before an
election, and the remaining files what lies around consensus: `Apply` and
`Futures` the way from dispatch to the state machine thread, `Fsm` and `Snapshots`
that thread and its snapshots, `Application` what the application and its clients see, `LogStore` the log store, its ring buffer and
compaction, `RestoreHole` the index a user restore burns.

`Logs` has the log entry of the storage layer, `Wrappers` the option type. The cluster
layer carries term and command of an entry (the position in the sequence is its index),
`ConfigurationPair` only its configuration.

## Premises

- A main-thread handler is one atomic step, the heartbeat fast path included.
- A request is built in one step by a server that leads in the request's term at that
  moment. The code reads each entry on its own; `LeaderReadsSeamless` shows that this
  makes no difference to the logs as long as the server leads, and `SplitSafeIff` when
  it does afterwards.
- In the cluster layer the configuration is fixed, there are no snapshots, and the
  stores do not fail except by a crash between two writes.
- Timers, `nextIndex` and pipelining are replaced by steps that may happen at any
  time with any value the code could have.
- `LeaderCompletenessHolds` needs `WholeVotes`: no crash between the two writes of a
  vote leaves the name of a voter that is neither the new candidate nor the server
  itself, on a server with more than the bootstrap entry. The code makes two writes
  (raft.go:2130-2138) and answers a repeated request without the log check
  (raft.go:1697-1705). That is exactly the condition of `TornVoteHarm`.
- `StateMachineSafetyHolds` also needs `CoveredCommits`: the commit index a follower
  moves to is at most the last index the request speaks about, or the request ends in
  an entry of its own term. The code clamps to the
  follower's own last index (raft.go:1568), where Figure 2 of the Raft paper clamps to
  the last new entry, and reads the commit index apart from the entries
  (replication.go:568-581).
- An application reads a snapshot back as it was written, and the `ApplyBatch` of a
  batching application is the fold of what it does one by one.

## Findings about the code

- A torn vote pair can elect a leader that misses a committed entry
  (`TornVoteBreaksCompleteness`); one torn vote is harmful exactly when the kept name
  is that of a voter other than the new candidate and the server itself, and the log is
  more than the bootstrap entry (`TornVoteHarm`, `TornElectionHarm`).
- The follower's clamp can make two servers apply different entries
  (`CommitClampBreaksSafety`). A commit index beyond the request is safe for every
  follower exactly when at no index in between a leader of a term from before the
  commit can have written another entry (`ClampSafeIff`): a term not below that of the
  leader's entry before the index and not one the leader's log has from there on. Where
  there is such an index, a run reaches it (`ClampSafeInRunsIff`). There is none when
  the request ends in an entry of its own term (`CoveredNeverForks`).
- A server that has lost its leadership while a replication goroutine reads its log can
  send a request that breaks log matching (`SplitReadHappens`). A request read entry by
  entry is harmless exactly when at each read the log still had the term sent for the
  entry before (`SplitSafeIff`).
- A leader whose store refuses a configuration entry still takes that configuration as
  its latest one, and later as committed (`UnstoredIsCommitted`). `ProposalExact` gives
  the exact condition, `PairAgreesIff` says over every run when the pair is right again.
- Compaction leaves wrong bounds in the in-memory store when that is empty: the range
  then starts at 0 and the high bound wraps round (`SecondCompactionWraps`);
  `CompactExact` gives the exact condition.
- A batching and a non-batching application report different last indexes to a snapshot
  exactly when a batch ends in a configuration that nobody stores (`LastIndexAgrees`).
- A delete that crosses a store leaves the log cache wrong exactly when an entry the
  ring keeps is in the deleted range (`CrossedExact`).

## Model

| member | source | states |
|---|---|---|
| Quorums.QuorumSize | raft.go:1086-1094 | the votes asked for are more than half of the voters and never more than all of them |
| Quorums.QuorumsMeet | raft.go:1086-1094 | any two majorities of the same voters share a voter |
| Quorums.QuorumMatchUnique | commitment.go:88-104 | there is only one largest index that a majority of the reports reach |
| Quorums.QuorumMatchExists | commitment.go:88-104 | there is such an index whenever there is a voter |
| Commitment.SortAscending | commitment.go:93-97 | the sorted reports are the reports in ascending order, each as often as before |
| Commitment.MiddleIsQuorumMatch | commitment.go:97-98 | the element the code picks from the sorted reports is the largest index a majority of the voters hold |
| Commitment.Commitment.constructor | commitment.go:35-48 | a new ledger has a zero report for every voter and nothing committed |
| Commitment.Commitment.SetConfiguration | commitment.go:53-64 | reports of remaining voters stay, new voters start at zero, then the commit index is recalculated |
| Commitment.Commitment.Match | commitment.go:77-84 | only a higher report of a voter counts, and then the commit index is recalculated |
| Commitment.Commitment.Recalculate | commitment.go:88-104 | the commit index rises to the majority index if that is higher and not below the start index, else it stays |
| Commitment.CallIsExact | commitment.go:53-104 | after any call a changed commit index is the largest index a majority of the then voters hold, and at least the start index |
| Commitment.CommitIndexHistory | commitment.go:53-104 | over every sequence of calls the commit index never falls, and each value it has risen to was such a majority index at or above the start index |
| Commitment.ReportsSettle | commitment.go:77-104 | with fixed voters the final ledger is a function of each voter's highest report |
| Commitment.NewLedgerSettled | commitment.go:35-48 | a new ledger meets the premise of that |
| Commitment.HighestIsMax | commitment.go:77-84 | that report is the maximum of the starting value and everything reported |
| Commitment.OrderDoesNotMatter | commitment.go:77-104 | two sequences with the same set of reports, in any order and with repeats, end in the same ledger |
| Commitment.ReportsAreReal | commitment.go:35-84 | from a new ledger on, over every sequence of reports and changes of configuration, there is a report for exactly the current voters, and it is the highest the voter has made since it has been one, or 0 |
| Commitment.StayingReport | commitment.go:53-84 | a voter that every configuration keeps has the highest report it has ever made |
| Commitment.CommitIsReported | commitment.go:53-104 | over the same sequences a commit index above 0 is one that a majority of the voters of some moment had themselves reported by then |
| Cluster.Present | raft.go:1508-1535 | the count of duplicates: all of them have the log's terms, and the next entry conflicts or lies beyond the log |
| Election.StepKeepsElectionInv | raft.go:1603-1733 | every step keeps the election invariant: votes once granted stand, counts are of distinct voters, leaders have won |
| Election.VotedMoves | raft.go:1686-1732 | a vote is stored before it is granted, and the stored pair only moves to a later term or fills an empty name |
| Election.TallyCounts | raft.go:363-385 | counting one answer adds one distinct voter, and enough of them are a majority |
| Election.TermsNeverFall | raft.go:2141-2147 | over every run, restarts included, a server's term never falls |
| Election.VoteOncePerTerm | raft.go:1697-1732 | over every run a server grants at most one candidate per term, also after a crash between the two writes of the vote |
| Election.OneWinner | raft.go:363-385 | two candidates with a majority of granted answers in a term are the same |
| Election.ElectionSafety | raft.go:363-385 | over every run two servers that lead in the same term, at any two moments, are the same |
| LogMatching.BuiltRequestOk | replication.go:568-628 | a request that a leader builds is a consecutive cut of the log of its term with the right previous term |
| LogMatching.MergeMoves | raft.go:1508-1556 | after an accepted request the log agrees with the leader's up to the end of the request, and was only cut where it conflicted |
| LogMatching.StepKeepsLogInv | raft.go:1476-1560 | every step keeps the log invariant and only extends the history of reigns |
| LogMatching.LogMatchingHolds | raft.go:1476-1560 | over every run two logs with the same term at an index, at any two moments, are identical up to that index |
| Acknowledgements.AcceptedIsStored | raft.go:1505-1560 | while a follower stays in the term of an accepted request, its log agrees with that term's leader up to the request's end and holds the request's entries |
| Acknowledgements.AckStability | raft.go:1505-1560 | no other request of the term, in any order or repeated, changes an entry at or below the end of an accepted one |
| WitnessedCommits.QuorumIsCommitted | commitment.go:88-104 | the index the ledger reaches is acknowledged by a majority and ends in an entry of the leader's own reign |
| WitnessedCommits.LedgerInvHolds | replication.go:653-663 | over every run each report in a leader's ledger is backed by an acknowledgement |
| LeaderCompleteness.VoteCheck | raft.go:1707-1724 | a voter that holds a committed entry grants its vote only to a request whose log holds it too |
| LeaderCompleteness.CommittedIsHad | raft.go:1976-2043 | an entry committed in one reign is in every later reign's log |
| LeaderCompleteness.StepKeepsVoteInv | raft.go:1603-1733 | every step with a whole vote pair keeps the invariant that ties votes to logs |
| Guarantees.LeaderCompletenessHolds | raft.go:1603-1733 | over every run with whole vote pairs, what a leader's ledger has committed is, unchanged, in the log of every leader of a later term |
| SealedPrefixes.SealedAgree | raft.go:1566-1575 | two sequences sealed by commits agree as far as both reach |
| SafetySteps.StepKeepsSafetyInv | raft.go:1566-1575 | every step keeps commit indexes and applied entries sealed by a committed index |
| SafetySteps.OwnTermAgrees | raft.go:1566-1575 | beyond a request that ends in an entry of its own term a follower has only that leader's entries |
| StateMachineSafety.CoveredRequests | replication.go:568-581 | the premise on commit indexes holds of every run in which each request covers its commit index or ends in an entry of its own term |
| Guarantees.StateMachineSafetyHolds | raft.go:1292-1359 | over every run with whole votes and covered commits, two servers that ever handed an index to their state machines, before or after restarts, handed over the same entry |
| Guarantees.ProgressIsPossible | raft.go:1603-1733 | every safe run has a safe continuation in which any given majority, with entries on at least one of its servers, elects one of its own, and all of it has stored, committed and applied that one's log with a given command added, while no other server does anything |
| Progress.Elects | raft.go:285-385 | from every state of a safe run any such majority can elect one of its own, with all logs as they were |
| Answers.AppendTermIsTold | raft.go:1445-1475 | an append request is answered with the term the server is in afterwards, which is above the sender's if and only if the request is refused for its term |
| Answers.VoteTermIsTold | raft.go:1608-1675 | so is a vote request; a granted vote names the term asked for |
| Answers.HeardLeaderIsFollowed | raft.go:1456-1475 | after a request of its term or a later one a server follows the sender, unless it is taking over in that term, and then refuses every other candidate that is not taking over, without taking its term |
| Answers.StrangersAreRefused | raft.go:1638-1690 | a server with entries votes only for voters of its configuration; who is no member changes nothing, who is a nonvoter can raise the term |
| Answers.KnownLeaderIsPassed | raft.go:1651-1657 | a known leader makes no difference to a candidate that is that leader or is taking over |
| Answers.VoteIsRepeated | raft.go:1697-1705 | a granted vote is granted again, and that changes nothing |
| Answers.OneOfTwoWins | raft.go:1707-1724 | of any two voters that know no leader and have not voted in a term one gets the vote of the other |
| Answers.SomeoneIsElectable | raft.go:1707-1732 | in every non-empty set of such voters there is one that all the others vote for, and it has entries if any of them has |
| Answers.TakeoverAsks | raft.go:1976-2000 | a server told to take over asks for votes as such in the next term, one whose election timed out asks again without that privilege |
| Answers.RestartIsNew | api.go:500-590 | after a crash a server has its stored term, vote and log and is otherwise as new |
| Server.Raft.constructor | api.go:500-590 | a start from a stored term, vote and log is the restarted server of the step system, and the blank one when nothing is stored |
| Server.Raft.StepTo | raft.go:2141-2161 | becoming a follower at a term forgets the leader and any count, and nothing else |
| Server.Raft.RequestVote | raft.go:1603-1733 | the handler's new state and answer are those of the step system, through every early return |
| Server.Raft.RequestPreVote | raft.go:1736-1808 | answering a pre-vote changes nothing; it is granted exactly under the stated conditions and names the asked term unless the request is ignored |
| Server.Raft.PersistVote | raft.go:2130-2138 | both halves of the vote pair are written |
| Server.Raft.SkipDuplicates | raft.go:1511-1523 | the loop stops at the first entry that is new or conflicts |
| Server.Raft.StoreNew | raft.go:1511-1556 | the log becomes the merge of the step system |
| Server.Raft.AppendEntries | raft.go:1440-1580 | the handler's new state and answer are those of the step system |
| Server.Raft.ProcessLogs | raft.go:1292-1359 | everything up to the index that was not handed over is, in order |
| Server.Raft.ElectSelf | raft.go:1976-2043 | the term rises by one, the own vote is stored and every voter is asked |
| Server.Raft.CountVote | raft.go:363-385 | one answer off the channel leads to the step system's tally |
| Server.Raft.BecomeLeader | raft.go:379-385 | a winner starts with an empty ledger that begins after its last index |
| Server.Raft.SetupLeaderState | raft.go:455-464 | the new ledger has a zero report for every voter and begins after the last index |
| Server.Raft.DispatchLogs | raft.go:1244-1277 | the entries are appended with the current term and reported to the own ledger |
| Server.Raft.UpdateLastAppended | replication.go:653-663 | an accepted request with entries reports its end to the ledger and sets the next index after it; one without changes neither |
| Server.Raft.CommitCase | raft.go:785-830 | the commit index becomes the ledger's and the log up to the last committed future is handed over |
| Server.Raft.SetupAppendEntries | replication.go:568-628 | the request carries the previous entry and at most a batch of entries up to the last index |
| Replication.PrevCheckIsExact | raft.go:1476-1502 | for logs that match the leader's, the previous-entry check succeeds if and only if the logs agree up to there |
| Replication.MergedAgrees | raft.go:1508-1556 | an accepted request makes the follower agree up to its end and keeps log matching |
| Replication.BuiltIsCut | replication.go:585-628 | the built request is a cut of the leader's log with its commit index and exactly a batch, or what there is |
| Replication.SendOnce | replication.go:202-275 | one pass: stopped exactly by a later term, forward past what was sent if the follower agrees so far, else backward, with the ledger and the follower's commit index told |
| Replication.ReplicateTo | replication.go:202-295 | from every matching follower log the loop ends, with the leader's entries up to the last index on the follower, its commit index as far, the next index after it, and the ledger told of that index and of nothing about others; it stops at once if and only if the follower is in a later term |
| Configuration.HasVote | configuration.go:174-181 | a server has a vote if and only if it is a voter of the configuration |
| Configuration.InConfiguration | configuration.go:185-192 | the search finds exactly the members |
| Configuration.CheckConfiguration | configuration.go:196-223 | a configuration passes if and only if it is well formed, and a fault is the first one |
| Configuration.NextConfiguration | configuration.go:228-306 | a change is accepted if and only if its index is current and the changed configuration is well formed, and then gives that configuration |
| Configuration.ChangeIsLocal | configuration.go:228-306 | a change leaves every other server where and what it was |
| Configuration.ChangeOfEntry | configuration.go:244-299 | the suffrage and address of the named server after each command, and the set of members |
| Configuration.ChangeOfVoters | configuration.go:236-300 | the voters after each command, with distinct ids kept |
| Configuration.NeighbouringQuorumsMeet | raft.go:1086-1094 | majorities of two voter sets that differ in at most one server share a voter |
| Configuration.MembershipChangeIsSafe | configuration.go:228-306 | every change alters at most one voter, and every majority before meets every majority after |
| ConfigurationPair.PairTracker.constructor | api.go:591-608 | a start from any stored snapshot and log finds a right pair |
| ConfigurationPair.PairTracker.ProcessConfigurationLogEntry | raft.go:1585-1600 | a configuration entry moves latest to committed and becomes latest; other entries change nothing |
| ConfigurationPair.PairTracker.StoreLogs | raft.go:1538-1556 | storing entries keeps the pair in agreement with snapshot and log |
| ConfigurationPair.PairTracker.DeleteSuffix | raft.go:1524-1533 | the pair after a deletion, which is right if and only if it starts above the committed configuration and the commit index |
| ConfigurationPair.PairTracker.Restart | api.go:597-608 | the scan after a restart finds a right pair again |
| ConfigurationPair.PairTracker.AppendConfigurationEntry | raft.go:1203-1240 | latest becomes the proposal, stored or not; the pair is then right if and only if it was stored and the two were the same |
| ConfigurationPair.PairTracker.FollowerCommit | raft.go:1566-1572 | committed becomes latest as soon as the commit index reaches it |
| ConfigurationPair.PairTracker.LeaderCommit | raft.go:794-800 | the leader's commit case moves committed exactly when latest has been committed |
| ConfigurationPair.TruncationExact | raft.go:1524-1533 | going back to the committed configuration is right if and only if the deletion starts above it and above the commit index |
| ConfigurationPair.ProposalExact | raft.go:1203-1240 | a proposal leaves a right pair if and only if its entry was stored and committed and latest were the same |
| ConfigurationPair.UnstoredIsCommitted | raft.go:1235-1238 | a proposal that was not stored becomes the committed configuration, in no log, once another entry at its index is committed |
| ConfigurationPair.DeletionRepairs | raft.go:1524-1533 | a deletion from the index of a failed proposal or below makes the pair right again under exactly the conditions of any deletion, after any operations that store no configuration and commit below the index |
| ConfigurationPair.GuardIsEquality | raft.go:653-663 | the stability guard holds if and only if committed and latest are the same and the commit index has reached the leader's own entries |
| ConfigurationPair.OneAboveCommitted | raft.go:653-663 | there is never more than one configuration entry above the committed one |
| ConfigurationPair.SnapshotExact | snapshot.go:160-186 | the configuration stored with a snapshot is the last one at or below its index, and the pair stays right, if and only if no uncommitted one is at or below it; so always at a committed index |
| ConfigurationPair.PairAgreesOverRuns | raft.go:1585-1600 | over every run of appends, truncations, commits, proposals, failed or not, snapshots and restarts, whichever of the two is not from a failed proposal is right; when neither is, latest is the last configuration of snapshot and log and committed is it or the one before |
| ConfigurationPair.PairAgreesIff | raft.go:1203-1240 | over every run in which no configuration of a failed proposal is ever stored or has got into the snapshot, the pair is right if and only if neither of the two is from one |
| ConfigurationPair.DoneOk | raft.go:1585-1600 | each single operation on a right pair leaves a right pair if and only if it is not a proposal that failed |
| Counterexamples.TornVoteBreaksCompleteness | raft.go:2130-2138 | a run with one torn vote in which a later leader misses a committed entry |
| Counterexamples.RequestsAreSendable | raft.go:1976-2043 | every vote request of every run speaks of a log that is not empty and whose last term is at least 1 |
| Counterexamples.TornVoteHarm | raft.go:1697-1705 | after a torn vote some candidate, other than the new one and the server, with such a request and an older log gets the vote if and only if the kept name is that of such a voter and the server's own log is more than the bootstrap entry |
| Counterexamples.TornElectionHarm | raft.go:2018-2025 | the same for a candidate that crashes between the two writes of the vote for itself |
| Counterexamples.CommitClampBreaksSafety | raft.go:1566-1575 | a run with whole votes in which two servers apply different entries at an index |
| CommitClamp.ClampSafeIff | raft.go:1566-1575 | every follower that accepts a request, of the kind runs have, hands over only the leader's entries if and only if there is no index from the request's end up to its commit index where a leader from before the commit can have written another entry |
| CommitClamp.CoveredNeverForks | raft.go:1566-1575 | a request that covers its commit index, or ends in an entry of its own term, has no such index |
| CommitClamp.ReceiversAreReal | raft.go:1476-1580 | in every state of a safe run a server that accepts a request is of that kind: it shares terms only where it shares entries, has the leader's entries of the leader's term, and what was committed when the leader's index was |
| CommitClamp.FirstReign | api.go:261-280 | over every run the only entry of the first term is the bootstrap entry |
| ClampInRuns.ForksHappen | raft.go:1566-1575 | for every log and request with such an index a run of five servers, with whole votes and covered commits, in which the leader with that log has sent the request and server 1 accepts it and hands over another entry |
| ClampInRuns.ClampSafeInRunsIff | raft.go:1566-1575 | for every request of a leader, some such run goes wrong if and only if the request has such an index |
| SplitReads.SplitSafeIff | replication.go:568-628 | a request whose previous entry and entries are each read from the log of its own moment keeps every matching follower matching if and only if each of those logs has the term sent for the entry before |
| SplitReads.SeamlessInRuns | replication.go:568-628 | in every run a request read like that keeps log matching with every server at every moment |
| SplitReads.LeaderReadsSeamless | replication.go:568-628 | whatever a server reads while it leads in one term, over any number of moments, is read like that |
| SplitReads.SplitReadHappens | replication.go:568-628 | a run in which a former leader reads the previous entry before and the next one after its log is overwritten, and the follower that accepts the request no longer matches it |
| PreVote.PreVotePredictsVote | raft.go:1736-1808 | a pre-vote is granted if and only if the real vote would be, had the server not voted in that term; only a vote for another can then stand in the way |
| PreVote.AwaitPreVotes | raft.go:285-362 | the first event that decides ends the round: a majority of distinct supporting voters starts an election, a later term or an append request of the own one makes a follower of it, the timeout ends it without |
| PreVote.Campaign | raft.go:285-362 | over any number of rounds, round by round: an election has a majority and raises the term by exactly one; without one the term stays or rises to one told in that round; a majority in a round undisturbed at its own term elects |
| LogStore.InmemStore.GetLog | inmem_store.go:49-58 | the stored entry, or none |
| LogStore.InmemStore.StoreLogs | inmem_store.go:66-79 | entries and bounds after storing each in turn |
| LogStore.InmemStore.DeleteRange | inmem_store.go:82-99 | entries and bounds after deleting, the unsigned wrap of the high bound included |
| LogStore.PutExact | inmem_store.go:66-79 | storing keeps the bounds exact if and only if the entry overwrites or goes right after the last |
| LogStore.DeletedExact | inmem_store.go:82-99 | deleting keeps the bounds exact if and only if it takes a prefix or a suffix away |
| LogStore.BoundsStayExact | inmem_store.go:66-99 | over every run of contiguous appends and prefix or suffix deletes the bounds are the stored indexes |
| LogStore.CompactLogsWithTrailing | snapshot.go:216-248 | for any store, exactly what is neither above the snapshot nor among the trailing entries nor below the low bound goes; with right bounds nothing is below |
| LogStore.CompactExact | snapshot.go:216-248 | a compaction that deletes keeps the bounds exact if and only if the store is not empty |
| LogStore.SecondCompactionWraps | snapshot.go:216-248 | a second snapshot of an index with no trailing logs wraps the high bound of the emptied store |
| LogStore.CoherentIsRefinement | log_cache.go:46-60 | the cache answers as the store does if and only if every cached entry is the stored one |
| LogStore.StoreKeepsCoherent | log_cache.go:66-78 | filling the ring after a store keeps that |
| LogStore.NewLogCache | log_cache.go:25-34 | a cache is made if and only if the capacity is positive, and starts coherent |
| LogStore.LogCache.GetLog | log_cache.go:46-60 | hit or miss, the answer is the store's |
| LogStore.PartialStoreExact | log_cache.go:66-78 | a store that fails after taking some entries leaves the cache right if and only if none of them replaced a cached one |
| LogStore.NewEntriesUndisturbed | log_cache.go:66-78 | which is so for all entries the store did not have before |
| LogStore.LogCache.StoreLogs | log_cache.go:66-78 | ring and store after a success; after a failure the ring is as it was and right under exactly that condition |
| LogStore.LogCache.DeleteRange | log_cache.go:88-95 | the ring is emptied, whether or not the store then deletes |
| LogStore.CrossedExact | log_cache.go:66-95 | when a delete crosses a store between their critical sections, the cache refines the store if and only if no entry the ring keeps is in the range |
| LogStore.CacheRefinesStore | log_cache.go:46-95 | over every run of stores, stores that fail part of the way on entries not cached otherwise, deletes and crossings with disjoint indexes, the cache answers as the store, for every index and capacity |
| Apply.BatchesFlatten | raft.go:1337-1352 | the batches put together are the tuples, each has between one and MaxAppendEntries, and all but the last are full |
| Apply.ApplyAll | raft.go:1319-1354 | the loop sends the prepared tuples in these batches and answers the futures of entries the state machine does not see |
| Apply.Ready | raft.go:807-822 | the committed futures at the front: all of these are committed and the next is not |
| Apply.Stamp | raft.go:1255-1266 | the loop stamps the futures in order and stores their entries |
| Apply.PullReady | raft.go:807-822 | the loop takes exactly the committed front and its futures by index |
| Apply.Pipeline.ProcessLogs | raft.go:1292-1359 | queue, answers and lastApplied after a call, nothing for an old index |
| Apply.Pipeline.DispatchLogs | raft.go:1244-1277 | futures in flight and entries in the log, or each answered with the store's error and the leadership given up |
| Apply.Pipeline.Commit | raft.go:805-830 | the committed front is processed and leaves the queue |
| Apply.Pipeline.AbortInflight | raft.go:1123-1131 | every future in flight is answered with the restore error |
| Apply.Pipeline.BurnIndex | raft.go:1138-1187 | the burnt index becomes last index and lastApplied; it is the next one after both the log and the snapshot |
| Apply.Pipeline.StepDown | raft.go:517-530 | every future in flight is answered with the loss of leadership |
| Futures.NextWaits | raft.go:1244-1359 | every step keeps the futures in flight in order, in the log and above lastApplied, so none is dropped as old |
| Futures.PreparedIsVisible | raft.go:1319-1386 | what is put into batches are the visible entries, whether they come from futures or from the store |
| Futures.AppliedInOrder | raft.go:1292-1386 | over every run the batches since the last restore are exactly the visible entries up to lastApplied, in order, without gap or repeat |
| Futures.RangeServed | raft.go:1319-1354 | each future of a range is either answered or in a batch, never both, never twice |
| Futures.NextConserves | raft.go:807-830 | every step keeps each dispatched future in exactly one place |
| Futures.NextKeeps | future.go:121-131 | an answer once given never changes |
| Futures.FuturesConserved | raft.go:517-520 | over every run each future has one answer once leadership has ended and the queue is empty, and success only for a committed entry |
| Futures.StartedOk | raft.go:455-464 | a server that has just started meets the premises of both theorems over runs |
| Fsm.SinglesFold | fsm.go:92-125 | one by one, state and replies are those of the fold over the sent entries |
| Fsm.BatchRefinesSingle | fsm.go:127-186 | a batch leaves the same state and gives every future the same reply as its entries one by one, for every mix of types |
| Fsm.LastIndexAgrees | fsm.go:92-186 | lastIndex and lastTerm agree too if and only if the batch does not end in a configuration nobody stores |
| Fsm.CollectSent | fsm.go:146-154 | the loop selects commands and configurations and remembers the last entry |
| Fsm.Thread.constructor | fsm.go:86-90 | the thread starts with no index |
| Fsm.Thread.ApplySingle | fsm.go:92-125 | state, indexes and reply after one entry, the early return included |
| Fsm.Thread.ApplyBatch | fsm.go:127-186 | state, indexes and replies after a batch, in either mode |
| Fsm.Thread.Deal | fsm.go:173-185 | responses go to the futures of sent entries in order, nil to the others |
| Snapshots.StateAtLast | raft.go:1362-1386 | the state at the last visible entry of a range is the state at its end |
| Snapshots.SinglesTrack | fsm.go:92-125 | after any entries the thread's state is that of its lastIndex and of lastApplied |
| Snapshots.SnapshotPlusSuffix | snapshot.go:125-211 | over every run of batches, snapshots, compactions, restores and restarts the state is that of replaying the whole log up to lastApplied |
| Snapshots.SuffixIsThere | snapshot.go:216-248 | after a restart from the snapshot with the highest index every entry after it is still in the log |
| Snapshots.StartReplays | fsm.go:86-90 | a server that has just started meets the premise |
| Snapshots.SnapshotRoundTrip | snapshot.go:125-211 | a snapshot is taken as soon as there is an index, and restoring it right away gives back state and index; compaction takes away what it says |
| Application.StateIsDriven | fsm.go:92-125 | the state after any tuples is that of the application's own calls: Apply for each command, StoreConfiguration where there is one for each configuration, in order |
| Application.OnlyCommands | fsm.go:92-125 | without StoreConfiguration that is Apply over the commands and nothing else |
| Application.ReplyIsDriven | fsm.go:92-125 | a command's future gets what Apply returned in the state the calls before it left, any other future nil |
| Application.OthersHearNothing | fsm.go:92-125 | no other future is answered |
| Application.BatchIsDriven | fsm.go:127-186 | the same state and replies in batches |
| Application.BatchIsGiven | fsm.go:137-154 | ApplyBatch is given exactly the commands and configurations |
| Application.StateAtIsDriven | raft.go:1362-1386 | replaying the log is the application's calls for all of its entries: every command, and configurations where they are stored and shown |
| Application.RunsAreDriven | snapshot.go:125-211 | over every run with snapshots, compactions, restores and restarts, so is the application's state |
| Application.PassedOn | raft.go:1362-1386 | commands and barriers always go to the state machine thread with their futures, configurations from protocol version 3 on; the futures of all other entries are answered with success at once |
| Application.RequestsAreStored | raft.go:1244-1277 | every request is stored at its own index with its kind, data and the leader's term, and its future waits for that entry |
| Application.AllAreTold | raft.go:517-520 | everybody in a list of waiting futures hears the given answer, unless answered before, and nobody else |
| Application.ClientsAreTold | raft.go:517-520 | a future in flight hears of lost leadership at a step-down, of the restore at a restore, and a request the store refused of that |
| Application.WorkedThrough | fsm.go:173-185 | the futures of a batch the thread has worked through hear of success, unless answered before, and nobody else |
| Application.QueueIsSent | raft.go:1319-1354 | what counts as handed over is what is put into the thread's queue, from which the oldest batch is taken first |
| RestoreHole.SetNewLogs | replication.go:612-628 | the consecutive entries from the next index, or none if and only if the store misses one |
| RestoreHole.Prepare | replication.go:223-227 | a request if and only if the previous and all new entries are found, else the snapshot |
| RestoreHole.HolesStay | raft.go:1138-1187 | over every run of one leadership a burnt index stays empty |
| RestoreHole.HoleNeverStraddled | replication.go:568-628 | no request built later has entries on both sides of a burnt index, and entries above it follow a previous index at or above it |

## Left out

- Transports, codecs, disk snapshots, the stable store: messages, configurations and snapshots are values.
- Timers, leases, backoff, observers, metrics, logging, configuration validation.
- `installSnapshot` in the cluster proof: it keeps the log suffix after a snapshot, which needs a treatment of its own; `Snapshots` covers what a restore does to the state machine.
- What a request that a replication goroutine builds after its server has left the term does to anything but the logs.
- Failures of the stores inside vote and append handlers, except by a crash; the log cache, dispatch and deletes model theirs.
- `VerifyLeader`, leadership transfer beyond its flag in the vote request, `RecoverCluster`, protocol versions 0 to 2, shutdown.
- Choosing the newest readable snapshot at a restart: `Snapshots` allows a restart from any snapshot taken.
- Futures.AppliedInOrder: a follower's change of log keeps what is committed by premise; `StateMachineSafetyHolds` proves that for the cluster.
- Futures.FuturesConserved: the same premise.
- LogStore.InmemStore.DeleteRange: does not model a range that ends at the largest 64-bit number, on which the loop would not end.
- LogStore.LogCache.DeleteRange: the same range is left out.
- LogStore.CompactLogsWithTrailing: a compaction up to the largest 64-bit number is left out for the same reason.
- RestoreHole.HoleNeverStraddled: is about one leadership; a later leader may fill the index on a server that has followed it.
- Server.Raft.PersistVote: does not model an error of either write, only a crash between them in the step system.
- Server.Raft.StoreNew: does not model an error of the delete or of the store, only a crash between them in the step system.
- Server.Raft.AppendEntries: does not model these errors, nor the configuration pair, which `ConfigurationPair` has.
- Server.Raft.DispatchLogs: does not model the failed store and the futures, which `Apply.Pipeline.DispatchLogs` has.
- Server.Raft.CommitCase: does not model the committed configuration and the step-down of a removed leader; `ConfigurationPair.PairTracker.LeaderCommit` has the former.
- Server.Raft.UpdateLastAppended: does not model the notification of verify requests.
- Server.Raft.SetupAppendEntries: does not model a snapshot as previous entry and missing entries, which `RestoreHole.Prepare` has.
- Replication.ReplicateTo: does not model transport failures, a stop from outside and the snapshot fallback.
- Replication.SendOnce: the same.
- Guarantees.ProgressIsPossible: says that a continuation exists, not that timers and the network bring it about.
- Apply.Pipeline.Commit: does not model the configuration pair and the step-down of a removed leader; `ConfigurationPair.PairTracker.LeaderCommit` has the former.
- Apply.Pipeline.BurnIndex: does not model the early refusals and the creation and loading of the snapshot.
- Apply.Pipeline.StepDown: does not model pending verify requests.
