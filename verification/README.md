# A model of the Raft core, its runtime loop and its guarantees

This project models a Raft implementation: the event-driven core (`raft-core`), the loop of
`raft-runtime` that executes the actions the core returns, and the key-value store of the
simulator. On top of them it puts a cluster of any size with an unreliable network and
crashing nodes, and proves the guarantees of Raft (Figure 3 of Ongaro and Ousterhout, "In
Search of an Understandable Consensus Algorithm") for every run of that cluster.

`dafny verify dfyconfig.toml` checks the whole project.

## Layers

- `Protocol`, `RaftSteps`: messages, and the transition function of a node. Every handler is
  a function from a state and an event to a state and an ordered list of actions, with the
  branches of the source and its linear searches by the `index` field.
- `LogFacts`, `Quorums`, `RoleStructure`: what those searches, the reconciliation loop, the
  commit scan and the two ways of counting a majority compute, and what one step keeps.
- `RaftNode`, `Runtime`: the objects of the source. Every method of `Raft` updates the fields
  in place, with the loops of the source, and is proved to compute the transition function.
  `Node.ProcessActions` executes an action list in order.
- `Cluster`: a fixed set of nodes, each with memory, disk, state machine; a set of packets
  that only grows, so that loss, delay, reordering and duplication are all covered; steps are
  an event at a node, a crash after any prefix of an action list, and a restart through
  `restore`. History variables record ballots, leaders with their logs, and acknowledgements;
  no step depends on them.
- `Histories`, `CoreInvariant`, `CoreSteps`: the inductive invariant about votes, leaders and
  logs, kept by every step whatever the replies say.
- `Commitment`, `CommitInvariant`, `CommitSteps`: Leader Completeness as a fact about the
  history, and the inductive invariant about acknowledgements, commit and application.
- `Voting`, `Answers`: what the handlers must do, for any message: who gets a vote and who
  wins, what is answered to messages of other terms, how replies move a leader's vectors and
  its commit index, where clients are sent, when timers are put back.
- `Winning`, `CatchUp`: exchanges nobody interferes with. A node with a majority's logs behind
  it is elected, a follower catches up, and a command is committed by a majority and learned
  by the others.
- `Runs`, `Safety`, `StateMachineSafety`, `Acknowledgements`, `Durability`: the
  theorems about runs. `ConcreteRuns`: a run in which every reply is honest and entries are
  committed, one in which a false reply does no harm, and one in which every result that
  rests on honesty fails.

## Assumptions

- Node ids are distinct and a node's peers are the cluster minus itself
  (raft-simulator/src/cluster.rs:51-52, raft-core/src/lib.rs:86-89).
- `save` replaces the disk atomically (raft-runtime/src/persistence.rs:9-16).
- The acknowledged index. A success reply carries `last_log_index()`
  (raft-core/src/raft/append_entries.rs:233), while the leader reads it as "the peer has
  appended everything up to msg.match_index" (append_entries.rs:138) and the field is
  documented as "known replicated" (raft-core/src/lib.rs:63-64). The code and this
  documentation disagree when the follower carries a longer, older log behind the entries of
  the request: the reply then claims entries the leader does not have. The model keeps the
  literal code (`LastLogIndexRule`) and, beside it, the documented meaning
  (`VerifiedIndexRule`: `prev_log_index + |entries|`).
  - Every result of `Safety`, `Durability`, `Winning` and `CatchUp` holds for both, of every run.
  - The results of `StateMachineSafety` are about *honest* runs (`Cluster.HonestRun`): no
    leader in office books a success reply that claims more than its sender has truly
    acknowledged by then. What a reply truly acknowledges (`Cluster.TrueAck`) is its index if
    that is at most what the request has verified or the log ends in an entry of the sending
    leader, and otherwise what the request has verified.
  - `Acknowledgements` proves that a literal reply is true if and only if the follower does
    not carry such a suffix (a check on its own log and the message), that a leader whose
    credits are true keeps them true if and only if it books the truth, that a run in which
    every reply is honest is an honest run, and that under the documented meaning every run
    is honest, so that those results then hold without condition.
  - `ConcreteRuns` has a run of the literal code, with no crash and messages that are merely
    late or doubled, in which each of them fails.

## Model

| member | source | states |
|---|---|---|
| RaftNode.Raft.constructor | raft-core/src/lib.rs:85-100 | a new node is a follower of nobody with an empty log and term 0 |
| RaftNode.Raft.Restored | raft-core/src/lib.rs:103-107 | a restored node is a new one with the saved term, vote and log and nothing else |
| RaftNode.Raft.Step | raft-core/src/raft/step.rs:9-16 | the dispatch of an event, proved equal to the transition function all results are about |
| RaftNode.Raft.HandleMessage | raft-core/src/raft/step.rs:18-25 | the dispatch of a message, proved equal to the transition function |
| RaftNode.Raft.StepDown | raft-core/src/raft/vote.rs:92-99 | the whole new state after a step-down: the new term, no vote, no office, no known leader |
| RaftNode.Raft.HandleRequestVote | raft-core/src/raft/vote.rs:11-41 | in-place vote handling computes its transition function in every branch |
| RaftNode.Raft.BecomeLeader | raft-core/src/raft/vote.rs:121-136 | the new leader's whole state; both vectors fit the peers |
| RaftNode.Raft.HandleVoteResponse | raft-core/src/raft/vote.rs:43-88 | in-place counting of replies computes its transition function in every branch |
| RaftNode.Raft.HandleElectionTimeout | raft-core/src/raft/election.rs:7-60 | a candidacy, or the immediate win of a single node, computes its transition function |
| RaftNode.Raft.ReconcileLog | raft-core/src/raft/append_entries.rs:51-74 | the search, truncate and extend loop on the log in place computes `Reconcile`, of which LogFacts proves the meaning |
| RaftNode.Raft.HandleAppendEntries | raft-core/src/raft/append_entries.rs:21-92 | the receiver computes its transition function, with the literal acknowledged index |
| RaftNode.Raft.ApplyCommittedEntries | raft-core/src/raft/append_entries.rs:214-224 | the apply loop emits what `ApplyBetween` says and ends with nothing waiting |
| RaftNode.Raft.HandleAppendEntriesResponse | raft-core/src/raft/append_entries.rs:102-151 | the leader's bookkeeping of a reply computes its transition function |
| RaftNode.Raft.TryAdvanceCommitIndex | raft-core/src/raft/append_entries.rs:159-196 | the downward loop with its two early exits computes `CommitScan`, of which LogFacts proves the meaning |
| RaftNode.Raft.HandleHeartbeatTimeout | raft-core/src/raft/heartbeat.rs:16-33 | the loop over the peers emits one request for each, in order, and changes nothing |
| RaftNode.Raft.HandleClientRequest | raft-core/src/raft/client.rs:28-52 | a leader appends one entry of its term and, alone in its cluster, commits it at once |
| Runtime.KeyValueStore.constructor | raft-simulator/src/state_machine.rs:16-20 | the store starts empty |
| Runtime.KeyValueStore.Apply | raft-simulator/src/state_machine.rs:23-32 | by lookup: `Set` binds its key to its value, `Delete` leaves its key without one, and every other key keeps its value or stays absent |
| Runtime.WrittenIsUnique | raft-simulator/src/state_machine.rs:23-32 | that fixes the map: there is only one that fits |
| Runtime.UntouchedKeyStays | raft-simulator/src/state_machine.rs:23-32 | a key no command of a sequence is about keeps its value or stays absent |
| Runtime.LastCommandDecides | raft-simulator/src/state_machine.rs:23-32 | after a sequence of commands a key has the value of the last command about it if that is a `Set`, and is absent if it is a `Delete` |
| Runtime.Node.constructor | raft-runtime/src/node.rs:122-167 | a node starts from the saved state if there is one, with an empty state machine |
| Runtime.Node.ProcessActions | raft-runtime/src/node.rs:246-293 | for any list, so for any prefix a crash leaves: what is on disk, on the network and in the store afterwards |
| Runtime.Node.Step | raft-runtime/src/node.rs:213-217 | one event: the node, its disk, its packets and its store end exactly where the transition function and its action list say |
| LogFacts.PositionIsIndex | raft-core/src/raft/append_entries.rs:52-56 | on a log of a reachable shape the linear search by index is indexing |
| LogFacts.LogMatchesIsTermAt | raft-core/src/raft/append_entries.rs:202-210 | the consistency check holds at index 0 or where the entry at that position has that term |
| LogFacts.PrevLogInfoIsTermAt | raft-core/src/raft/heartbeat.rs:79-91 | the previous index and the term there, 0 past the end of the log |
| LogFacts.EntriesFromIsSuffix | raft-core/src/raft/heartbeat.rs:56-62 | the filter by index is a suffix of the log |
| LogFacts.ApplyBetweenIsSlice | raft-core/src/raft/append_entries.rs:214-224 | the lookup never misses: one application per index of the range, in order |
| LogFacts.ReconcileCutsAtFirstConflict | raft-core/src/raft/append_entries.rs:51-74 | for any terms: nothing changes if all entries are there, else the log is cut at the first entry that differs and the rest of the message follows |
| LogFacts.ReconcileRefinesSpecification | raft-core/src/raft/append_entries.rs:51-74 | the result is the old log if that has the whole message, and otherwise the checked prefix followed by the message |
| LogFacts.ReconcileHasMessage | raft-core/src/raft/append_entries.rs:51-74 | afterwards the log is still numbered without gaps, has the terms of the whole message, and is untouched up to `prev_log_index` |
| LogFacts.ReconcileIsIdempotent | raft-core/src/raft/append_entries.rs:51-74 | a second delivery of the same message changes nothing |
| LogFacts.CommitScanIsExact | raft-core/src/raft/append_entries.rs:172-189 | the scan returns the greatest index above the commit index that has an own-term entry on a quorum, or the commit index |
| LogFacts.CommitScanIsQuorumthLargest | raft-core/src/raft/append_entries.rs:159-196 | that is the greatest own-term index not above the quorum-th largest of the match indices and the leader's last index |
| Quorums.QuorumIsMajority | raft-core/src/lib.rs:108-113 | the rounding-up formula is floor((N+1)/2)+1, the smallest strict majority of N+1 nodes |
| Quorums.PeersAreTheOthers | raft-simulator/src/cluster.rs:51-52 | the peers are all other nodes, each once |
| Quorums.QuorumsIntersect | raft-core/src/lib.rs:44-46 | any two quorums share a node |
| Quorums.PositionalCountIsQuorum | raft-core/src/raft/append_entries.rs:182-185 | a count over positions of `match_index` plus self that reaches the quorum is a quorum of nodes |
| Quorums.GrantsMeetReplicas | raft-core/src/raft/append_entries.rs:182-185 | a winning set of grants shares a node with every committing positional count |
| RoleStructure.StartHasStructure | raft-core/src/lib.rs:85-107 | new and restored nodes have the structure below; they follow nobody, have committed nothing, and remember exactly what was saved |
| RoleStructure.StepKeepsStructure | raft-core/src/raft/step.rs:9-25 | under any event with any message: candidate state exactly when Candidate, leader state exactly when Leader, granted within received within members, self granted, vectors as long as `peers`, every `next_index` at least 1; office is reached only from a candidacy of the same term; terms rise and votes fall only with them |
| RoleStructure.TermsAndVotesOnlyAdvance | raft-core/src/raft/step.rs:9-25 | over any sequence of events with arbitrary messages the term never decreases and a vote is given up only for a later term |
| Voting.UpToDateIsTotal | raft-core/src/raft/vote.rs:101-108 | of any two logs at least one is up to date against the other |
| Voting.UpToDateIsTransitive | raft-core/src/raft/vote.rs:101-108 | being up to date is transitive |
| Voting.UpToDateBothWays | raft-core/src/raft/vote.rs:101-108 | two logs are up to date against each other exactly if they end in the same term and index |
| Voting.LongerLogBeats | raft-core/src/raft/vote.rs:101-108 | a log is up to date against every prefix of itself, and a proper prefix is not against it |
| Voting.LaterTermBeats | raft-core/src/raft/vote.rs:106 | a later last term beats any length |
| Voting.VoteRequestIsAnswered | raft-core/src/raft/vote.rs:11-41 | every vote request gets exactly one reply, to the candidate, with the term afterwards; it grants if and only if the vote of the term is free and the log up to date, the vote is then on record, and a higher term makes the node a follower without a leader in any case |
| Voting.GrantIsRepeated | raft-core/src/raft/vote.rs:22-27 | a request delivered again after a grant is granted again and changes nothing |
| Voting.PrefixVoterGrants | raft-core/src/raft/vote.rs:29-40 | a voter grants every request of a term in which its vote is free from a candidate whose log has its own as a prefix |
| Voting.VoteReplyIsCounted | raft-core/src/raft/vote.rs:43-88 | what every reply brings about: a higher term makes a follower without a vote, a reply that does not count changes nothing, one that counts is booked, and a strict majority of grants, no more and no less, makes the node leader |
| Voting.MajorityWins | raft-core/src/raft/vote.rs:78-87 | for any cluster size a reply of the candidacy from a peer not yet heard that completes a strict majority leaves the node leader, with both vectors at their start values |
| Voting.NewLeaderProbesItsEnd | raft-core/src/raft/vote.rs:128-135 | a new leader's first request to each peer is empty and hangs on its last entry |
| Voting.StaysUndecided | raft-core/src/lib.rs:42-47 | after any events with arbitrary messages no candidate holds a strict majority of grants, if none did at the start |
| Voting.NoCandidateHasMajority | raft-core/src/raft/vote.rs:78-81 | in every reachable state no candidate holds the grants of a strict majority of its cluster |
| Voting.TimeoutStands | raft-core/src/raft/election.rs:7-60 | whoever does not lead stands for the next term with its own vote, saved, and one request to each peer in order; alone it leads at once |
| Answers.StaleMessagesAreRefused | raft-core/src/raft/vote.rs:17-20 | a message of an earlier term changes nothing; a request is refused with the node's own term, a reply gets no action |
| Answers.LaterTermIsAdopted | raft-core/src/raft/vote.rs:12-15 | a message of a later term, of whatever kind, makes the node a follower of that term without office; its vote is free unless it grants that very request, and it knows no leader unless it accepts its request |
| Answers.StaleSenderStepsDown | raft-core/src/raft/append_entries.rs:23-31 | a leader or candidate of an earlier term that reaches a node steps down to that node's term with the answer |
| Answers.AppendIsAnswered | raft-core/src/raft/append_entries.rs:21-92 | every request gets exactly one reply, to the leader, with the term afterwards; it reports success if and only if the term is not an earlier one and the log has the entry the request hangs on; vote, role and known leader afterwards in every case |
| Answers.AcceptedCommits | raft-core/src/raft/append_entries.rs:76-83 | after an accepted request everything the leader announces is committed, as far as the request reaches, and everything committed is applied |
| Answers.RefusalBacksUp | raft-core/src/raft/append_entries.rs:132-135 | a refusal lowers the sender's `next_index` by one, never below 1, and leaves every other entry, all of `match_index` and everything else alone |
| Answers.RefusalsBackUp | raft-core/src/raft/append_entries.rs:132-135 | after k refusals in a row the index is the larger of 1 and what it was less k |
| Answers.SuccessAdvances | raft-core/src/raft/append_entries.rs:137-143 | a success never lowers a `match_index`, raises the sender's to what it claims with `next_index` right behind, and leaves the other peers' entries alone |
| Answers.MajorityCommits | raft-core/src/raft/append_entries.rs:145-149 | a success that leaves a strict majority with the leader's whole log commits and applies all of it, if it ends in an entry of the leader's term |
| Answers.LoneLeaderCommits | raft-core/src/raft/client.rs:42-49 | without peers a command is committed and applied at once |
| Answers.HeartbeatAddressesAll | raft-core/src/raft/heartbeat.rs:16-33 | a leader's heartbeat is exactly one request to each peer, in order, and changes nothing |
| Answers.ElectionTimerIsReset | raft-core/src/raft/vote.rs:36-40 | the election timer is put back exactly when a vote is given, a request accepted or votes are asked for |
| Answers.HeartbeatTimerIsReset | raft-core/src/raft/vote.rs:86-87 | the heartbeat timer is put back exactly by a new leader and by a leader that sends its requests or takes a command |
| Answers.ClientIsRedirected | raft-core/src/raft/client.rs:29-31 | a node that does not lead answers a client with one referral to the leader it knows |
| Answers.ClientIsSentToLeader | raft-core/src/raft/client.rs:29-31 | in every run a node that has accepted a request and has lived on in its term sends every client to the sender of that request, and does nothing else |
| Answers.ReferralHasLed | raft-core/src/raft/client.rs:29-31 | in every run the node named in a referral has led a term up to the sender's |
| RoleStructure.PersistComesFirst | raft-core/src/raft/vote.rs:34-40 | every list that persists does so first, or right behind a timer reset |
| RoleStructure.WriteAhead | raft-runtime/src/node.rs:264-269 | a crash in front of the save has sent and applied nothing |
| RoleStructure.UnsavedStepsAreHarmless | raft-core/src/raft/vote.rs:43-48 | a step that does not persist leaves the log alone and at most enters a later term without a vote |
| CoreSteps.TermIsVacant | raft-core/src/raft/vote.rs:78-87 | a term that has a leader cannot elect another |
| CoreSteps.AcceptedLog | raft-core/src/raft/append_entries.rs:41-74 | after an accepted request the log is the old one if that contains the leader's log up to the end of the message, else exactly that part of the leader's log; a request that hangs on an index past the leader's log is never accepted |
| CoreSteps.RequestFields | raft-core/src/raft/heartbeat.rs:39-74 | the fields of a request with the searches resolved |
| CoreSteps.RequestIsSlice | raft-core/src/raft/heartbeat.rs:39-74 | every request is a slice of the leader's log up to its end, or empty and carrying term 0 |
| CoreSteps.CrashIsRestart | raft-runtime/src/node.rs:246-293 | a crash after any prefix of any action list equals a restart in front of the event or behind it, with packets and applications missing |
| CoreSteps.StepKeepsCore | raft-core/src/raft/step.rs:9-25 | every step of every node keeps the invariant about votes, leaders, logs and packets |
| CoreSteps.CoreHolds | raft-core/src/raft/step.rs:9-25 | that invariant holds in every state of every run |
| Commitment.LeaderCompleteness | raft-core/src/raft/vote.rs:102-108 | what a quorum has acknowledged of a leader's own term is in the log every later leader starts with: the up-to-date check carries it from voter to leader |
| Commitment.CommittedAgree | raft-core/src/raft/append_entries.rs:175-189 | any two committed prefixes agree entry by entry |
| CommitSteps.ScannedIsCommitted | raft-core/src/raft/append_entries.rs:182-188 | an index found by the scan has been acknowledged by a quorum of nodes |
| CommitSteps.StepKeepsCommit | raft-core/src/raft/step.rs:9-25 | every step in which no false reply is booked keeps the invariant about acknowledgements, commits, applications and packets |
| CommitSteps.CommitHolds | raft-core/src/raft/append_entries.rs:20-196 | that invariant holds in every state of every honest run |
| Runs.HistoryExtends | raft-core/src/raft/client.rs:33-40 | leaders of the past stay the leaders of their terms, their logs only grow, and votes cast stay cast |
| Runs.DiskNeverFalls | raft-core/src/lib.rs:103-107 | over any stretch of any run, crashes included, the disk term never decreases and the disk vote of a term never changes once set |
| Safety.ElectionSafety | raft-core/src/raft/vote.rs:43-88 | at most one node ever leads in a term, in any two states of a run with crashes |
| Safety.OneVotePerTerm | raft-core/src/raft/vote.rs:11-41 | no node ever supports two candidates in one term, by a grant or by standing itself, although a step-down is not always saved |
| Safety.KnownLeaderHasLed | raft-core/src/raft/client.rs:29-31 | the node a client is sent to has led a term up to the current one, and a leader names itself |
| Safety.LeaderAppendOnly | raft-core/src/raft/client.rs:33-40 | while in office a leader's log only grows at its end |
| Safety.LogShape | raft-core/src/raft/append_entries.rs:51-74 | in every reachable state position i holds index i+1, terms never fall, lie between 1 and the current term, and memory and disk hold the same log |
| Safety.LogMatching | raft-core/src/raft/append_entries.rs:41-74 | two logs, in memory or on disk, of any nodes in any states, that share an entry's index and term are equal up to it |
| Safety.EveryEventIsEnabled | raft-core/src/raft/heartbeat.rs:39-47 | the vectors are never indexed out of bounds: the only thing a run cannot do is deliver what nobody sent |
| Safety.LogChanges | raft-core/src/raft/step.rs:9-25 | only an accepted request and a client command to a leader change a log |
| Safety.AgreementNeverShrinks | raft-core/src/raft/append_entries.rs:41-74 | while the disk stays in a term, its common prefix with the leader of that term never gets shorter, whatever late, duplicate or reordered request arrives |
| Safety.AcceptedRequestIsKept | raft-core/src/raft/append_entries.rs:41-91 | from the moment a request is accepted and saved, whether or not the node crashes in that very step, and as long as the disk stays in its term, the log has the leader's log up to `prev_log_index` plus the number of entries |
| StateMachineSafety.ExactlyOnceInOrder | raft-core/src/raft/append_entries.rs:214-224 | the commands applied since the last start are exactly the log's first `last_applied`, in order; nothing waits; the store is their fold |
| StateMachineSafety.StoreHoldsLastWrites | raft-simulator/src/state_machine.rs:23-32 | what a client reads for a key is the value of the last applied entry about it, or nothing if that deletes it or there is none |
| StateMachineSafety.LaterLeadersAreComplete | raft-core/src/raft/append_entries.rs:175-189 | what a leader has committed is in the log of every leader of every later term, in any two states of the run |
| StateMachineSafety.CommittedPrefixesAgree | raft-core/src/raft/append_entries.rs:76-83 | of what two nodes have committed, in any two states, the shorter is a prefix of the longer |
| StateMachineSafety.CommitsAreStable | raft-core/src/raft/append_entries.rs:51-83 | between restarts neither index decreases and nothing at or below the commit index is truncated |
| StateMachineSafety.CommitFallsIff | raft-core/src/raft/append_entries.rs:76-80 | for an arbitrary message the handler lowers the commit index if and only if it accepts one that announces more than is committed and ends below that |
| StateMachineSafety.RequestsCoverCommit | raft-core/src/raft/heartbeat.rs:51-71 | no request on the wire announces a commit beyond the log it vouches for |
| StateMachineSafety.StateMachineSafety | raft-core/src/raft/append_entries.rs:159-224 | no two nodes ever emit different commands for the same index |
| StateMachineSafety.ReplicatedMapsAgree | raft-simulator/src/state_machine.rs:22-33 | two nodes that have applied equally much, in any two states and after any restarts, hold the same map |
| StateMachineSafety.MatchIndexSoundness | raft-core/src/raft/append_entries.rs:132-143 | while a peer has not gone past the leader's term, its log agrees with the leader's up to the index it is credited with |
| Acknowledgements.LastIndexIsTruthfulIff | raft-core/src/raft/append_entries.rs:226-236 | the literal acknowledged index is a replicated index if and only if the follower's log, when it has the whole message, does not go on behind it with entries that end in another term |
| Acknowledgements.VerifiedIndexIsTruthful | raft-core/src/lib.rs:63-64 | `prev_log_index` plus the number of entries is always a replicated index |
| Acknowledgements.RepliesHonestIffNoOverclaim | raft-core/src/raft/append_entries.rs:226-236 | in a run of the literal code every reply is honest if and only if no node accepts a request in that situation |
| Acknowledgements.CreditsStayTrueIff | raft-core/src/raft/append_entries.rs:138-143 | a leader that credits its peers with no more than they have truly acknowledged keeps doing so when it counts a success reply if and only if the reply claims no more either |
| Acknowledgements.HonestRepliesMakeHonestRun | raft-core/src/raft/append_entries.rs:132-143 | where every reply is honest no leader can book a false one, whatever is delayed, doubled or lost |
| Acknowledgements.VerifiedRunsAreHonest | raft-core/src/raft/append_entries.rs:138-143 | with the documented meaning of the field every run is honest |
| Durability.RestartReadsDisk | raft-core/src/lib.rs:102-107 | after every crash and restart the node is what `restore` makes of its disk |
| Durability.GrantsAreDurable | raft-core/src/raft/vote.rs:34-40 | every vote given away is on disk in every later state, until the disk is in a later term |
| Durability.OnDiskStays | raft-core/src/raft/append_entries.rs:51-74 | whatever prefix of a leader's log is on a disk stays there in every later state of any run, crashes included, unless a leader elected since did not have it |
| Durability.AcceptedIsDurable | raft-core/src/raft/append_entries.rs:85-91 | of any run: whatever a node accepts and saves, in a step that completes or crashes behind the save, is on its disk in every later state, up to the end of the request and up to what the reply truly acknowledges, unless a leader elected since did not have it |
| Durability.CreditsAreOnDisk | raft-core/src/raft/append_entries.rs:85-91 | in every state of every run each disk holds all its node has truly acknowledged, under the same proviso |
| Durability.AcknowledgedIsDurable | raft-core/src/raft/append_entries.rs:226-236 | the index in a success reply itself: once the reply is true, every prefix it acknowledges is on the sender's disk in every later state of any run, unless a leader elected since did not have it |
| Durability.BroadcastIsSaved | raft-core/src/raft/client.rs:46 | what a leader has broadcast is on its own disk as long as the disk is in its term |
| Durability.BroadcastIsDurable | raft-core/src/raft/heartbeat.rs:53-73 | every broadcast entry is on the leader's disk in every later state of any run, unless a leader elected since did not have it |
| CatchUp.OneRound | raft-core/src/raft/append_entries.rs:132-143 | a round of heartbeat, request and reply is always possible, disturbs nobody else, and either brings the follower the whole log and what the leader has committed of it, with the leader crediting it, or lowers `next_index` by exactly one, still behind what the two agree on |
| CatchUp.CatchesUp | raft-core/src/raft/heartbeat.rs:39-91 | the leader's whole log is a prefix of the follower's after no more rounds than `next_index` is behind what the two agree on |
| CatchUp.CatchUpTerminates | raft-core/src/raft/append_entries.rs:132-135 | the same from any leader and follower of any state of any run, if the follower's term is not higher |
| CatchUp.TourCatchesUp | raft-core/src/raft/append_entries.rs:145-149 | once a strict majority has caught up, one peer after the other, the leader has committed and applied its whole log, if its last entry is of its own term |
| CatchUp.CommandSpreads | raft-core/src/raft/client.rs:28-52 | a command a leader takes is committed and applied by it once a strict majority has caught up, and by any of those peers after one more catch-up |
| Winning.ElectionSucceeds | raft-core/src/raft/election.rs:7-60 | whoever does not lead and has a log that is up to date against those of a bare majority wins the next term in an election nobody interferes with, with its log as it was |
| Winning.MajorityElects | raft-core/src/raft/vote.rs:78-87 | the same from any state of any run and for any cluster size |
| ConcreteRuns.HonestRunCommits | raft-core/src/raft/append_entries.rs:132-196 | the literal code elects, replicates, commits and applies in a run of three nodes in which every reply is honest |
| ConcreteRuns.StaleReply | raft-core/src/raft/append_entries.rs:226-236 | an empty heartbeat is answered with an index the leader has never filled |
| ConcreteRuns.FalseReplyAlone | raft-core/src/raft/append_entries.rs:226-236 | a run with such a reply on the wire is still honest as long as no leader books it |
| ConcreteRuns.LiteralRunBreaksSafety | raft-core/src/raft/append_entries.rs:233 | State Machine Safety fails of the literal code: two nodes apply different commands at index 2; the run is not honest |
| ConcreteRuns.LeaderCompletenessFails | raft-core/src/raft/append_entries.rs:175-189 | in the same run the leader of a later term lacks a committed entry and commits another in its place |
| ConcreteRuns.CommittedEntryIsCut | raft-core/src/raft/append_entries.rs:51-80 | in the same run a node that never stops truncates an entry it has committed; its `last_applied` then lies beyond its log and what it has applied differs from what the log holds |
| ConcreteRuns.MapsDiverge | raft-simulator/src/state_machine.rs:22-33 | in the same run two nodes that have applied equally much hold different maps |
| ConcreteRuns.CreditIsFalse | raft-core/src/raft/append_entries.rs:138-143 | in the same run a leader credits a peer of its term with more entries than it has itself |
| ConcreteRuns.CommitBeyondRequest | raft-core/src/raft/heartbeat.rs:51-71 | in a continuation of it a request announces a commit index beyond its end |

## Left out

- StateMachineSafety.StateMachineSafety: for the literal acknowledged index it is stated of honest runs only, and so are its companions in that module (`CommitFallsIff` needs no condition), because each fails in the run of `ConcreteRuns`: State Machine Safety in `LiteralRunBreaksSafety`, Leader Completeness and the agreement of committed prefixes in `LeaderCompletenessFails`, stable commits and in-order application in `CommittedEntryIsCut`, equal maps in `MapsDiverge`, match-index soundness in `CreditIsFalse`, and the bound on announced commits in `CommitBeyondRequest`. A run in which a false reply is booked and nothing comes of it stays safe; these runs are not characterised.
- Durability.AcknowledgedIsDurable: for the index in the reply it asks that this one reply be true, since a false one claims entries nobody has; up to the end of the request `Durability.AcceptedIsDurable` asks nothing.
- Runtime.Node.ProcessActions: does not model the map of pending client replies, which is keyed on `last_applied` after a whole batch (raft-runtime/src/node.rs:221-242, 281-290); `NotLeader` therefore has no effect in it, and timer resets are inert (when they are asked for is stated in `Answers`).
- Cluster.CrashEvent: a crash in front of the save leaves no trace in the history variables, since nobody has seen the state that was lost; node, disk, network and applications are as the source leaves them.
- The branch that only logs when `save` fails (raft-runtime/src/node.rs:266-268): `save` is assumed to succeed.
- Files, JSON and the temporary-file rename of the persistence layer (raft-runtime/src/persistence.rs:33-61): the disk is one variable that holds the last saved state; a first start without a file reads the default state.
- The simulator's restart without persisted state (raft-simulator/src/cluster.rs:84-93): it drops the durability Raft rests on.
- Timers and clocks (raft-runtime/src/timer.rs, raft-runtime/src/clock.rs): a timeout is an event that may happen at any time.
- The simulated network's drops, delays and partitions (raft-simulator/src/network.rs:145-190): covered by packets that may be delivered any number of times or never.
- Wrap-around of 64-bit terms and indices: both are unbounded here.
- Liveness beyond undisturbed exchanges: whether an election is ever left undisturbed depends on random timeouts.
- Membership change, snapshots and no-op entries of new leaders: the source has none.
- Terminal interface, metrics and logging: display only.
