# A verified model of the distributed key/value store

This project models the replication, storage and migration logic of the store and proves what it is
for: that a Raft cluster never loses or reorders a committed command, that every replica is the same
fold of one command sequence and `Submit` is linearizable, that the lock built from versioned puts
excludes, and that shards moving between groups answer like one versioned store.

Paths in the text are relative to the directory `DistributedKeyValueStore`, those in the table to the
repository root. `dafny verify dfyconfig.toml` verifies the whole project.

## How it is put together

**Raft** (`internal/raft`). `RaftPeer.dfy` says what each critical section of a peer computes, on a
log held as a base and a suffix; `RaftServer.dfy` is the struct itself, with its arrays and loops,
each method proved to compute exactly that. `Cluster.dfy` is the transition system: peers, and a set
of every message ever sent, so that messages are lost, delayed, repeated and reordered freely, and
steps in which a peer crashes and reloads what its persister holds, between two critical sections or
between two saves inside one. A reply carries the arguments it answers, as the caller still holds them.

The safety argument runs over full logs. `Protocol.dfy` gives the protocol with the history it needs:
per term the leader, its electors, the log it started with and the log it ended with; per peer and
term how much of that log it has held. `ProtocolProof.dfy` shows that each protocol step keeps the
inductive invariant. `ClusterInvariant.dfy` relates the cluster to it, `ElectionProof.dfy`,
`ReplicationProof.dfy` and `SnapshotProof.dfy` take it along every critical section, and
`RaftSafety.dfy` states the results over all runs. `Handlers.dfy` says the other way around what each
critical section must do: for every step of a run, the peer after it and the messages it sends, told by
the peer before it and the full log behind it, without the functions that compute them. `Compaction.dfy` compares a compacted peer with
the same peer uncompacted, and `Backtracking.dfy` bounds how long a leader probes a follower.

**Replicated state machine** (`internal/rsm`). `Rsm.dfy` adds the applier's batch, the channel, the
reader and the calls of `Submit` to the cluster; `RsmServer.dfy` is the struct with its loops;
`RsmProof.dfy` and `RsmSafety.dfy` prove the results over all runs, `Delivery.dfy` says what each round
of the applier, turn of the reader and return of a call must do, and `Reboot.dfy` what a reboot with
a compacted log does instead.

**Stores and migration** (`internal/kvsrv`, `internal/shardgrp`, `internal/shardctrler`).
`KvServer.dfy` and `ShardGroup.dfy` are the two state machines as classes over specification
functions, and `StoreHistory.dfy` says what they answer by the history of requests alone. `Controller.dfy` is the controller's own code, undisturbed. `Migration.dfy` lets
everything around it happen: calls repeated and delayed, changes stopped anywhere and re-run, clients
at work meanwhile. `MigrationSafety.dfy` proves exclusivity, `MigrationRefinement.dfy` the refinement
of one store, `MigrationOrder.dfy` and `MigrationLimits.dfy` exactly what their hypotheses are needed
for. A group is one atomic machine there, which is what the results about the replicated state machine justify.

**Clerk and lock** (`internal/kvsrv`). `KvLock.dfy` has the retry loops of the clerk and the lock,
proved to walk a client automaton and to send what it sends; `LockSafety.dfy` proves mutual exclusion
for any number of such clients over a network that may do anything, and `LockProgress.dfy` that a free
lock can be taken and a held one given back; `ClerkOutcomes.dfy` proves what
the error a `Put` returns says.

**Witnesses.** `RaftWitness.dfy`, `RsmWitness.dfy` and `MigrationWitness.dfy` construct runs: one in
which two of three peers, the third silent, elect a leader and commit a command, one in which a `Submit` returns, one in which a shard moves
with its data. `LockSafety.OneClientAcquires` and `ClerkOutcomes.UnseenCanBeLate` do so for lock and
clerk. So the results about runs are about something. `RebootWitness.dfy` goes on with the
second of these runs to where a reboot makes a `Submit` return the wrong reply.

Inside a proof, the quantifiers of the invariants are triggered by the predicates they assert, so
that a proof names each instance it uses.

## What is assumed

- Operation IDs and lock client IDs are unique, and client IDs are not empty.
- Saving to the persister is atomic. Encoding and decoding give back the same value, and a nil map is
  an empty one.
- Any timeout may fire at any time.
- The claims about replicas and `Submit` are for runs in which no replica reboots with a compacted
  log. `RsmProof.RebootKeepsStream` shows that this is exactly the condition a reboot needs: without
  it the reader stands at 0 and is handed the command after the base
  (`Reboot.FirstCommandAfterReboot`), and some later reply can be wrong exactly if the commands behind
  the base have changed the group at all (`Reboot.RebootRepliesExactly`).
  `RebootWitness.RebootAfterCompactionDiverges` is a run from the start in which one is.
- Shard exclusivity assumes that a configuration number names one assignment and that an interrupted
  change is completed before another number is begun. If another is begun instead, two groups can come
  to own a shard before any further change is begun, exactly if the open change had sent its install
  of the shard to a group that is there, served or not, and the new one moves the shard to yet another
  group and gets as far as that shard (`MigrationOrder.DisorderExactly`). A later number gets that far
  exactly if the groups it moves shards to are there (`MigrationOrder.LaterChangeExactly`).
- Refinement of one store assumes further that an install taking effect again finds the data it
  installs. That is exactly what an event needs in order to keep the refinement
  (`MigrationRefinement.RefinesExactly`); what is lost otherwise, and when, is in
  `MigrationLimits.SecondInstallKeepsData` for one install and `RerunKeepsData` for a whole change.
- That `ErrVersion` means "never" assumes that one network call is delivered at most once. Even then
  a put may take effect after it has returned: in no run if its version was at most the key's when
  the call began, and in some run if it was not (`ClerkOutcomes.SeenExactly`).

## Where the code and its documentation differ

- `architecture.md:616` has groups turn down a migration call whose number is at most the last seen;
  the code turns down only smaller ones (`internal/shardgrp/server.go` lines 247, 267 and 285). The model
  follows the code. This is why re-running a change, called idempotent at `architecture.md:274`, can
  lose data.
- `architecture.md:204` has a restarted server restore its snapshot. No code does so for a replica:
  `Make` marks the snapshot applied and hands it to nobody (`internal/raft/raft.go:83-90`).
- The follower caps its commit index by the length of its whole log, not by the last new entry as in
  Figure 2 of the extended Raft paper. `RaftSafety.FollowerCommitRule` proves the two the same for
  every message a leader can send.

## Model

| member | source | states |
|---|---|---|
| RaftSafety.ElectionSafety | DistributedKeyValueStore/internal/raft/election.go:22-94 | election safety over all runs with crashes: whoever leads a term at any two moments is the same peer |
| RaftSafety.OneVotePerTerm | DistributedKeyValueStore/internal/raft/election.go:96-130 | no peer ever grants its vote of one term to two candidates, in whatever order requests and restarts come |
| RaftSafety.VotesAreCounted | DistributedKeyValueStore/internal/raft/election.go:54-77 | in every reachable state the counter of a candidate or leader is the number of distinct peers whose grants of its term it has handled, itself included, and a leader has a majority of them |
| RaftSafety.VoteIsKept | DistributedKeyValueStore/internal/raft/election.go:105-128 | votedFor does not return to -1 or change while the term stays, across restarts too |
| RaftSafety.LogMatching | DistributedKeyValueStore/internal/raft/replication.go:181-212 | equal terms at one index on two peers mean equal entries at every uncompacted index up to it, and entries know their own index |
| RaftSafety.StateMachineSafety | DistributedKeyValueStore/internal/raft/replication.go:97-118 | any two peers at any two moments of any run agree on every entry both show committed |
| RaftSafety.CommittedEntryStays | DistributedKeyValueStore/internal/raft/replication.go:196-220 | no truncation, InstallSnapshot or restart takes a committed entry from a peer: it stays unchanged or goes behind the base |
| RaftSafety.LeaderCompleteness | DistributedKeyValueStore/internal/raft/election.go:114-128 | what a peer shows committed in a term is in the log, or behind the base, of every leader of a later term at any moment, before that as after it, and of its own term from then on |
| RaftSafety.LeaderAppendOnly | DistributedKeyValueStore/internal/raft/raft.go:99-116 | leader append-only: between any two moments at which a peer leads one term its log only grows at the end or goes behind its base |
| RaftSafety.TermsInOrder | DistributedKeyValueStore/internal/raft/raft.go:107-113 | in every reachable state terms never fall along a log, and none is past the current term |
| RaftSafety.FollowerCommitRule | DistributedKeyValueStore/internal/raft/replication.go:214-220 | every message sent reaches its own commit index, so capping by the whole log is capping by the last new entry |
| RaftSafety.IndexOrder | DistributedKeyValueStore/internal/raft/replication.go:97-139 | in every reachable state base <= applied <= committed <= last index, and a leader's nextIndex and matchIndex are within its log |
| RaftSafety.RunsNeverIndexOutOfRange | DistributedKeyValueStore/internal/raft/replication.go:56-63 | every step the environment can cause in a reachable state finds its slices and indices in range |
| RaftSafety.DurableImage | DistributedKeyValueStore/internal/raft/persist.go:12-65 | whenever the mutex is free a reload gives back term, vote and log, and a compacted log has its snapshot saved; crashes while it is held are steps of the runs themselves |
| RaftSafety.CrashLosesNothing | DistributedKeyValueStore/internal/raft/persist.go:12-36 | a crash at any point, between two saves of one handler too, takes back neither term nor vote nor snapshot nor an entry shown committed |
| RaftSafety.CrashInOk | DistributedKeyValueStore/internal/raft/replication.go:155-212 | a crash between two saves of one handler, after any number of a message's entries, leaves on disk a peer that the protocol explains |
| Handlers.TimeoutIs | DistributedKeyValueStore/internal/raft/election.go:22-47 | a timeout makes the peer the candidate of the next term, voting for itself, and asks everyone else with the end of its full log |
| Handlers.VoteIs | DistributedKeyValueStore/internal/raft/election.go:96-130 | a vote is granted if and only if the request's term is not behind, the vote of that term is free or the candidate's, and the candidate's full log, as it stood, is at least as up to date as the voter's |
| Handlers.VoteReplyIs | DistributedKeyValueStore/internal/raft/election.go:54-94 | a refusal is counted off, a grant counted, a higher term ends the candidacy, and the candidate leads exactly from when those counted are a majority |
| Handlers.CommandIs | DistributedKeyValueStore/internal/raft/raft.go:99-116 | a command at a leader goes to the end of its full log, elsewhere nowhere |
| Handlers.SendIs | DistributedKeyValueStore/internal/raft/replication.go:49-72 | a leader sends the full log from nextIndex on, were it nothing, unless that is behind its base |
| Handlers.CommitIs | DistributedKeyValueStore/internal/raft/replication.go:104-118 | the commit index becomes the highest entry of the leader's own term that some majority, the leader included, is known to hold, if that is past the old one |
| Handlers.AppendReplyIs | DistributedKeyValueStore/internal/raft/replication.go:81-141 | a success moves the indices of the peer that answered and commits as above; a rejection moves its nextIndex alone, to where the full log says; a higher term ends the leadership |
| Handlers.AppendIs | DistributedKeyValueStore/internal/raft/replication.go:144-222 | an entry message is accepted if and only if the full log has the entry it builds on; the log is then as the message has it unless it has all of it, and the commit index not behind the leader's; a rejection says why |
| Handlers.SnapshotSentIs | DistributedKeyValueStore/internal/raft/persist.go:68-81 | a snapshot message tells the base, its term in the full log, and what was saved there |
| Handlers.InstallIs | DistributedKeyValueStore/internal/raft/persist.go:112-165 | a snapshot past the base becomes the base, is saved and waits for the service; the log after it is kept if and only if it has the snapshot's last entry |
| Handlers.SnapshotReplyIs | DistributedKeyValueStore/internal/raft/persist.go:89-108 | what is known of the peer is at least the snapshot's index, nextIndex is one more, no other peer's entry changes, and it is sent entries again unless the base has moved beyond that |
| Handlers.CompactIs | DistributedKeyValueStore/internal/raft/raft.go:126-141 | a snapshot of the service past the base becomes the base and is saved, the full log stays |
| Handlers.ApplyIs | DistributedKeyValueStore/internal/raft/replication.go:225-265 | a pending snapshot is handed over alone and pends no longer; otherwise every command of the full log after lastApplied up to the commit index is, at its index |
| Handlers.RestartIs | DistributedKeyValueStore/internal/raft/raft.go:61-96 | a restart gives back term, vote, log and base, counts what is behind the base as applied, and remembers nothing else |
| RaftSafety.StepOk | DistributedKeyValueStore/internal/raft/replication.go:49-222 | every step of every peer keeps the invariant that ties the cluster to the protocol |
| RaftSafety.RunExplained | DistributedKeyValueStore/internal/raft/raft.go:61-141 | behind every run of the cluster stand protocol states over full logs, each with the invariant, whose history only grows |
| Protocol.LeaderCompleteness | DistributedKeyValueStore/internal/raft/replication.go:104-118 | a prefix a majority has taken, ending in the leader's own term, is in every later leader's log from its start |
| Protocol.CommittedAgree | DistributedKeyValueStore/internal/raft/replication.go:97-118 | two committed prefixes never disagree |
| Protocol.LogMatching | DistributedKeyValueStore/internal/raft/replication.go:181-194 | two logs with one term at one position are equal up to it |
| ProtocolProof.StandKeeps | DistributedKeyValueStore/internal/raft/election.go:22-36 | becoming a candidate keeps the protocol invariant |
| ProtocolProof.CastVoteKeeps | DistributedKeyValueStore/internal/raft/election.go:114-128 | voting for a candidate at least as up to date keeps it |
| ProtocolProof.OneLeader | DistributedKeyValueStore/internal/raft/election.go:70-75 | two majorities of votes in one term elect one peer |
| ProtocolProof.UpToDateWinner | DistributedKeyValueStore/internal/raft/election.go:114-122 | a winner whose electors hold a committed prefix holds it too: the up-to-date check of section 5.4.1 |
| ProtocolProof.ElectKeeps | DistributedKeyValueStore/internal/raft/election.go:70-94 | winning an election keeps the invariant, leader completeness included |
| ProtocolProof.ProposeKeeps | DistributedKeyValueStore/internal/raft/raft.go:107-113 | appending at the leader keeps it |
| ProtocolProof.AdoptKeeps | DistributedKeyValueStore/internal/raft/replication.go:196-212 | taking over a prefix of the leader's log keeps it |
| ElectionProof.StartElectionOk | DistributedKeyValueStore/internal/raft/election.go:22-47 | startElection is a protocol step, and its request describes the candidate's log |
| ElectionProof.RequestVoteOk | DistributedKeyValueStore/internal/raft/election.go:96-130 | RequestVote is a protocol step, and a granting reply records a vote cast |
| ElectionProof.VoteReplyOk | DistributedKeyValueStore/internal/raft/election.go:54-77 | the counter is the number of distinct granters of the current term, so a leader has a majority |
| ReplicationProof.StartOk | DistributedKeyValueStore/internal/raft/raft.go:99-116 | Start appends the command, and nothing else, to the leader's log of its term |
| ReplicationProof.AppendRequestOk | DistributedKeyValueStore/internal/raft/replication.go:56-72 | a message is the leader's whole tail with the right previous term, and covers the commit index it carries |
| ReplicationProof.AppendEntriesOk | DistributedKeyValueStore/internal/raft/replication.go:144-222 | AppendEntries is a protocol step; success means the follower holds the whole message, a rejection points inside the leader's log |
| ReplicationProof.AppendSavedOk | DistributedKeyValueStore/internal/raft/replication.go:198-212 | what is saved after any of the entries is a protocol step too: the follower holds the leader's log as far as it has written |
| ReplicationProof.TakenAtRefines | DistributedKeyValueStore/internal/raft/replication.go:198-212 | cutting the suffix at the first conflict and appending the rest yields the leader's prefix |
| ReplicationProof.CanCommitIsCommitted | DistributedKeyValueStore/internal/raft/replication.go:104-117 | an entry of the current term counted on a majority is committed: section 5.4.2 |
| ReplicationProof.AppendReplyStepOk | DistributedKeyValueStore/internal/raft/replication.go:81-141 | handling a reply, whichever way it went, keeps what the leader knows of its followers true |
| SnapshotProof.InstallSnapshotOk | DistributedKeyValueStore/internal/raft/persist.go:112-165 | InstallSnapshot is a protocol step in both branches, and its reply means the follower holds the prefix |
| SnapshotProof.CompactOk | DistributedKeyValueStore/internal/raft/raft.go:126-141 | Snapshot leaves the full log as it was |
| SnapshotProof.ApplyOk | DistributedKeyValueStore/internal/raft/replication.go:225-270 | an applier round keeps the peer's invariant |
| SnapshotProof.RestartOk | DistributedKeyValueStore/internal/raft/raft.go:61-96 | a restart from disk keeps the peer's invariant |
| RaftPeer.NewCommit | DistributedKeyValueStore/internal/raft/replication.go:104-118 | the commit index becomes the highest index past it that can be committed, or stays |
| RaftPeer.LastWithTerm | DistributedKeyValueStore/internal/raft/replication.go:123-130 | the last index at or past the base with the term, -1 exactly if there is none |
| RaftPeer.MatchedAt | DistributedKeyValueStore/internal/raft/replication.go:198-206 | entries skipped as already there have the message's terms |
| RaftPeer.MatchedEnds | DistributedKeyValueStore/internal/raft/replication.go:200-207 | the first entry not skipped is past the log's end or in conflict |
| RaftPeer.TakeFirst | DistributedKeyValueStore/internal/raft/replication.go:198-212 | the first i entries of a message leave the log as it is or cut it at the first conflict and put the new ones there |
| RaftServer.Raft.constructor | DistributedKeyValueStore/internal/raft/raft.go:61-96 | a new peer is what the persister holds, or fresh |
| RaftServer.Raft.Persist | DistributedKeyValueStore/internal/raft/persist.go:34-36 | saves the state and keeps the saved snapshot |
| RaftServer.Raft.StartElection | DistributedKeyValueStore/internal/raft/election.go:22-47 | the struct becomes the candidate of the next term, saved before its request is formed |
| RaftServer.Raft.TransitionToLeader | DistributedKeyValueStore/internal/raft/election.go:81-94 | the loop sets every nextIndex to the end of the log and every matchIndex to 0 |
| RaftServer.Raft.RequestVote | DistributedKeyValueStore/internal/raft/election.go:96-130 | new state and reply are the peer's vote step |
| RaftServer.Raft.VoteReply | DistributedKeyValueStore/internal/raft/election.go:54-77 | new state is the peer's counting step |
| RaftServer.Raft.Start | DistributedKeyValueStore/internal/raft/raft.go:99-116 | new state and result are the peer's append step |
| RaftServer.Raft.AppendRequest | DistributedKeyValueStore/internal/raft/replication.go:49-73 | the message built is the peer's, or none when a snapshot is due |
| RaftServer.Raft.AdvanceCommit | DistributedKeyValueStore/internal/raft/replication.go:104-118 | the two nested counting loops find the new commit index |
| RaftServer.Raft.AppendReply | DistributedKeyValueStore/internal/raft/replication.go:81-141 | new state is the peer's reply step |
| RaftServer.Raft.ScanForTerm | DistributedKeyValueStore/internal/raft/replication.go:123-130 | the downward loop finds the last index with the term |
| RaftServer.Raft.Rewind | DistributedKeyValueStore/internal/raft/replication.go:119-140 | only nextIndex of the peer changes, to the backtracked value |
| RaftServer.Raft.ScanRun | DistributedKeyValueStore/internal/raft/replication.go:183-191 | the downward loop finds the first index of the conflicting run |
| RaftServer.Raft.TakeEntries | DistributedKeyValueStore/internal/raft/replication.go:198-212 | the entry-by-entry loop ends as one cut at the first conflict and one append, and what it has saved after each entry is what that much of the message leaves |
| RaftServer.Raft.AppendEntries | DistributedKeyValueStore/internal/raft/replication.go:144-222 | new state and reply are the follower's step |
| RaftServer.Raft.SnapshotRequest | DistributedKeyValueStore/internal/raft/persist.go:68-81 | the message carries the saved snapshot and the base |
| RaftServer.Raft.InstallSnapshot | DistributedKeyValueStore/internal/raft/persist.go:112-165 | new state and reply are the follower's snapshot step |
| RaftServer.Raft.SnapshotReply | DistributedKeyValueStore/internal/raft/persist.go:89-108 | new state is the leader's progress step |
| RaftServer.Raft.Snapshot | DistributedKeyValueStore/internal/raft/raft.go:126-141 | new state is the compacted peer, saved with the snapshot |
| RaftServer.Raft.CollectBatch | DistributedKeyValueStore/internal/raft/replication.go:251-264 | the loop collects every command after lastApplied up to the commit index, in order |
| RaftServer.Raft.ApplierRound | DistributedKeyValueStore/internal/raft/replication.go:225-265 | a pending snapshot goes first and alone, otherwise the batch |
| Compaction.SameCandidate | DistributedKeyValueStore/internal/raft/election.go:22-77 | a compacted peer asks for votes and counts them as it would uncompacted |
| Compaction.SameVote | DistributedKeyValueStore/internal/raft/election.go:96-130 | and votes the same |
| Compaction.SameStart | DistributedKeyValueStore/internal/raft/raft.go:99-116 | and appends at the same index |
| Compaction.SameRequest | DistributedKeyValueStore/internal/raft/replication.go:56-72 | and sends the same message, exactly unless the follower is behind the base |
| Compaction.SameAppend | DistributedKeyValueStore/internal/raft/replication.go:144-222 | and answers and takes a message from past its base the same, save that XIndex is at least the base |
| Compaction.SameReply | DistributedKeyValueStore/internal/raft/replication.go:81-141 | and handles every reply the same, but for nextIndex of the peer that answered when the scan for the conflicting term is cut off at the base |
| Compaction.SameBacktrack | DistributedKeyValueStore/internal/raft/replication.go:119-140 | and goes back to the same index, or, exactly when the last entry of the term is behind the base, to the follower's first index of it |
| Compaction.SameSnapshotReply | DistributedKeyValueStore/internal/raft/persist.go:89-108 | and counts a snapshot the same |
| Compaction.SameBatch | DistributedKeyValueStore/internal/raft/replication.go:251-264 | and hands the same commands to the service |
| Compaction.CompactIsInvisible | DistributedKeyValueStore/internal/raft/raft.go:126-141 | Snapshot changes only how the prefix is represented |
| Compaction.InstallIsInvisible | DistributedKeyValueStore/internal/raft/persist.go:137-154 | so does InstallSnapshot when the log has the snapshot's last entry |
| Compaction.SameInstall | DistributedKeyValueStore/internal/raft/persist.go:112-165 | InstallSnapshot answers the same and, past the base, makes the two peers one, whether the suffix is kept or dropped; at or before the base it changes no entry |
| Backtracking.RejectionMeans | DistributedKeyValueStore/internal/raft/replication.go:166-194 | what each field of a rejection says about the follower's log |
| Backtracking.RejectionFalls | DistributedKeyValueStore/internal/raft/replication.go:119-139 | each rejection lowers nextIndex, and the next conflict is at a smaller term, though the leader scans from its last index and its log may have grown or been compacted meanwhile |
| Backtracking.BacktrackingIsFast | DistributedKeyValueStore/internal/raft/replication.go:119-139 | in any run a leader is rejected at most once per distinct term in an uncompacted follower's log, plus once, whatever else it does between its messages |
| RaftWitness.ACommandCommits | DistributedKeyValueStore/internal/raft/replication.go:49-222 | a run in which two of three peers, the third silent throughout, elect a leader, replicate a command and commit it |
| Delivery.TakeIs | DistributedKeyValueStore/internal/raft/replication.go:225-265 | in every execution the applier's batch is the pending snapshot alone, or else every command of the full log after lastApplied up to the commit index, each at its index |
| Delivery.ReadCommandIs | DistributedKeyValueStore/internal/rsm/rsm.go:98-119 | a command is run by the service, and the Submit registered at its index, and no other, is told its ID and reply |
| Delivery.ReadSnapshotIs | DistributedKeyValueStore/internal/rsm/rsm.go:125-144 | a snapshot ahead of the reader replaces the state, and every Submit registered at or below it, and no other, is told that it was jumped over |
| Delivery.ReturnIs | DistributedKeyValueStore/internal/rsm/rsm.go:73-88 | a Submit that was told its own ID returns that reply, told anything else none, and leaves the notify map |
| RsmProof.BatchFeeds | DistributedKeyValueStore/internal/raft/replication.go:251-264 | a batch continues the stream exactly where it ended |
| RsmProof.ReadKeepsStream | DistributedKeyValueStore/internal/rsm/rsm.go:98-147 | the reader's state stays the fold up to its position |
| RsmProof.InstallKeepsStream | DistributedKeyValueStore/internal/raft/persist.go:149-161 | a snapshot overwriting a pending one leaves the stream without gap |
| RsmProof.RebootKeepsStream | DistributedKeyValueStore/internal/raft/raft.go:83-90 | a reboot keeps the stream if and only if the log was never compacted |
| RsmProof.HeadResult | DistributedKeyValueStore/internal/rsm/rsm.go:106-119 | what the reader computes for a command is the result its submitter is owed |
| RsmSafety.OneLog | DistributedKeyValueStore/internal/rsm/rsm.go:98-147 | one log explains a run: every replica is its fold, every queue continues it gap-free, every saved snapshot is its fold at the base, every committed entry and every result is its own, each entry is an operation some Submit placed there once, and none stands at or before a returned one that was not submitted by then |
| RsmSafety.ReplicasNeverDiverge | DistributedKeyValueStore/internal/rsm/rsm.go:98-131 | two replicas at one position have one state, at any two moments |
| RsmSafety.NextCommandFollows | DistributedKeyValueStore/internal/rsm/rsm.go:99-131 | a command reaching the reader is the next one; a snapshot advances it or is ignored |
| RsmSafety.SnapshotIsInRange | DistributedKeyValueStore/internal/rsm/rsm.go:121-124 | the index the reader snapshots at is one Raft may compact to |
| RsmSafety.SubmitReturnsOwnResult | DistributedKeyValueStore/internal/rsm/rsm.go:53-96 | a successful Submit returns its own operation's result, applied once at the index Start gave it |
| RsmSafety.RealTimeOrder | DistributedKeyValueStore/internal/rsm/rsm.go:53-96 | in that one log every operation submitted after another returned is later, whether its own Submit returns, gives up, is cut off by a reboot or still waits: Submit is linearizable |
| RsmSafety.ResultsInOrder | DistributedKeyValueStore/internal/rsm/rsm.go:53-96 | in particular two operations that both return stand in the order in which one followed the other |
| Reboot.FirstCommandAfterReboot | DistributedKeyValueStore/internal/raft/raft.go:83-90 | after a reboot the first command handed over follows the base while the reader stands at 0, so the two fit exactly if the base is 0 |
| Reboot.RebootRepliesExactly | DistributedKeyValueStore/internal/rsm/rsm.go:106-119 | whatever comes after the base, all replies are the ones owed if and only if the commands up to the base have left the group blank |
| Reboot.FoldServes | DistributedKeyValueStore/internal/rsm/rsm.go:106-119 | the owed state at any later position is the fold at the base with the operations between served |
| RebootWitness.RebootAfterCompactionDiverges | DistributedKeyValueStore/internal/raft/raft.go:83-90 | a run from the start with one reboot: an install is acknowledged and compacted, the replica reboots and leads again, and a later get in the committed log returns what a group without the install would say |
| RsmWitness.ASubmitReturns | DistributedKeyValueStore/internal/rsm/rsm.go:53-147 | a run in which a Submit returns its operation's reply |
| RsmServer.RSM.ReaderTurn | DistributedKeyValueStore/internal/rsm/rsm.go:98-147 | one turn of the reader's loop updates state machine, position and waiting channels as the reader's step does |
| RsmServer.RSM.SignalUpTo | DistributedKeyValueStore/internal/rsm/rsm.go:133-143 | the loop tells exactly the Submits registered at or below the snapshot |
| RsmServer.RSM.Compact | DistributedKeyValueStore/internal/rsm/rsm.go:121-124 | Raft is compacted at lastApplied with the state machine's state, or nothing happens |
| RsmServer.RSM.TakeBatch | DistributedKeyValueStore/internal/raft/replication.go:225-265 | the applier takes its batch and leaves the channel alone |
| RsmServer.RSM.SendBatch | DistributedKeyValueStore/internal/raft/replication.go:267-269 | the loop sends the whole batch in order |
| RsmServer.RSM.Propose | DistributedKeyValueStore/internal/rsm/rsm.go:58-66 | a call is recorded with the index and term Start gave it, exactly if it was the leader |
| RsmServer.RSM.Register | DistributedKeyValueStore/internal/rsm/rsm.go:68-71 | the slot of the index becomes this call's, whoever had it |
| RsmServer.RSM.Poll | DistributedKeyValueStore/internal/rsm/rsm.go:82-95 | only a result carrying the call's own ID is returned, and a call that ends leaves the notify map |
| StoreHistory.ServerAnswers | DistributedKeyValueStore/internal/kvsrv/server.go:34-84 | over any series of requests a get tells the value of the last put of its key answered OK and the count of those, a put is answered OK if and only if its version is that count, and other keys do not change |
| StoreHistory.GroupAnswers | DistributedKeyValueStore/internal/shardgrp/server.go:174-242 | so does a group for every shard it owns; it turns down requests for others, and a request touches its own key only |
| StoreHistory.MigrationAnswers | DistributedKeyValueStore/internal/shardgrp/server.go:244-295 | a migration request is turned down exactly if its number is behind the shard's; otherwise number, ownership, freeze and data are what it asks for, and no other shard notices |
| KvServer.KVServer.Get | DistributedKeyValueStore/internal/kvsrv/server.go:34-47 | the value and version under the key, or ErrNoKey |
| KvServer.KVServer.Put | DistributedKeyValueStore/internal/kvsrv/server.go:50-84 | the store changes exactly when the version is the key's current one |
| ShardGroup.Group.Get | DistributedKeyValueStore/internal/shardgrp/server.go:174-196 | the reply of the group's state machine to a get |
| ShardGroup.Group.Put | DistributedKeyValueStore/internal/shardgrp/server.go:198-242 | new state and reply of the group's state machine for a put |
| ShardGroup.Group.Freeze | DistributedKeyValueStore/internal/shardgrp/server.go:244-262 | the shard is given up and its data copied out, unless fenced |
| ShardGroup.Group.Install | DistributedKeyValueStore/internal/shardgrp/server.go:264-280 | the shard is owned with a copy of the data, unless fenced |
| ShardGroup.Group.Delete | DistributedKeyValueStore/internal/shardgrp/server.go:282-295 | the shard is empty and not owned, unless fenced |
| ShardGroup.Group.Apply | DistributedKeyValueStore/internal/shardgrp/server.go:169-297 | new state and reply are those of DoOp for every operation |
| ShardGroup.Group.Restore | DistributedKeyValueStore/internal/shardgrp/server.go:317-341 | every field of every shard is the snapshot's, or fresh for an empty one |
| Controller.ShardController.InitConfig | DistributedKeyValueStore/internal/shardctrler/controller.go:32-88 | shards are dealt round robin and installed empty; published exactly if every install is accepted |
| Controller.ShardController.MoveShard | DistributedKeyValueStore/internal/shardctrler/controller.go:131-181 | succeeds exactly if both groups are there and behind the fence; then the data has moved whole, and on failure it is still somewhere |
| Controller.ShardController.ChangeConfigTo | DistributedKeyValueStore/internal/shardctrler/controller.go:108-194 | every shard whose group changes moves whole, others are untouched, and the change is published exactly if all moves succeed |
| Migration.NextMoved | DistributedKeyValueStore/internal/shardctrler/controller.go:127-131 | the loop goes to the first shard that the change moves |
| MigrationSafety.ShardExclusivity | DistributedKeyValueStore/internal/shardgrp/server.go:244-294 | at most one group owns a shard, with calls repeated and delayed and changes stopped and re-run |
| MigrationSafety.ShardIsServed | DistributedKeyValueStore/internal/shardctrler/controller.go:127-181 | the holder owns a shard until it lets go for the change under way, the target from its install on |
| MigrationSafety.NeverErrFrozen | DistributedKeyValueStore/internal/shardgrp/server.go:176-183 | ErrFrozen is never answered: a frozen shard is not owned |
| MigrationSafety.EventKeeps | DistributedKeyValueStore/internal/shardctrler/controller.go:127-194 | every event keeps the migration invariant |
| MigrationRefinement.ShardedStoreRefinesKvServer | DistributedKeyValueStore/internal/shardgrp/server.go:169-242 | every request an owner answers is answered as one KVServer would that had served the same requests, as long as an install taking effect again finds the data it installs |
| MigrationRefinement.HomeHoldsItsPart | DistributedKeyValueStore/internal/shardctrler/controller.go:131-181 | wherever a shard lives, also while in flight, its group holds exactly its part of the one store |
| MigrationRefinement.EventRefines | DistributedKeyValueStore/internal/shardgrp/server.go:169-297 | migration steps leave the one store alone, an owner's put acts on it as on KVServer |
| MigrationRefinement.RefinesExactly | DistributedKeyValueStore/internal/shardgrp/server.go:264-280 | an event keeps the refinement if and only if it is not an install that takes effect again on other data |
| MigrationWitness.AShardMoves | DistributedKeyValueStore/internal/shardctrler/controller.go:108-194 | an undisturbed run in which a put made at the source is read at the target |
| MigrationWitness.AnOvertakenChange | DistributedKeyValueStore/internal/shardctrler/controller.go:108-194 | an orderly run stopped after an install was sent, from which the next number leads to two owners |
| MigrationOrder.DisorderExactly | DistributedKeyValueStore/internal/shardctrler/controller.go:108-194 | when another number is begun while a change is open, two groups can come to own a shard if and only if the open change had sent its install and the new one takes the shard elsewhere and gets that far; calls are served late, repeatedly and in any order |
| MigrationOrder.LaterChangeExactly | DistributedKeyValueStore/internal/shardctrler/controller.go:108-194 | for a later number that far means that the groups it moves shards to exist: no fence is in its way |
| MigrationLimits.RerunKeepsData | DistributedKeyValueStore/internal/shardctrler/controller.go:127-181 | a change re-run after stopping keeps the data if and only if it stopped before the install, or nothing was written since, or there was nothing |
| MigrationLimits.RerunLosesPut | DistributedKeyValueStore/internal/shardgrp/server.go:244-295 | an acknowledged put is gone after its shard's change ran twice |
| MigrationLimits.SecondInstallKeepsData | DistributedKeyValueStore/internal/shardgrp/server.go:264-280 | a second install of the same number is accepted, and keeps the clients' data if and only if it is still what was installed |
| MigrationLimits.SecondInstallLosesPut | DistributedKeyValueStore/internal/shardgrp/server.go:264-280 | an acknowledged put is gone after the same install came twice |
| KvLock.Clerk.Get | DistributedKeyValueStore/internal/kvsrv/client.go:25-36 | repeats the one request until an answer comes, and returns that answer |
| KvLock.Clerk.Put | DistributedKeyValueStore/internal/kvsrv/client.go:39-58 | repeats the one request; ErrVersion becomes ErrMaybe exactly after a retry |
| KvLock.Lock.Acquire | DistributedKeyValueStore/internal/kvsrv/lock.go:37-64 | the loops walk the client's phases, send what the phases send, and return exactly on reaching Held |
| KvLock.Lock.Release | DistributedKeyValueStore/internal/kvsrv/lock.go:67-86 | the same for Release, returning exactly on reaching Idle |
| LockSafety.MutualExclusion | DistributedKeyValueStore/internal/kvsrv/lock.go:37-86 | at most one client is between a returned Acquire and the start of its Release |
| LockSafety.HolderUndisturbed | DistributedKeyValueStore/internal/kvsrv/lock.go:37-86 | while a client holds the lock neither its value nor its version changes |
| LockSafety.ReleasedForGood | DistributedKeyValueStore/internal/kvsrv/lock.go:67-86 | after Release the lock is not the client's and no put it left in the network can take effect |
| LockSafety.EventKeeps | DistributedKeyValueStore/internal/kvsrv/server.go:50-84 | every event, stale puts of earlier rounds included, keeps the lock's invariant |
| LockSafety.OneClientAcquires | DistributedKeyValueStore/internal/kvsrv/lock.go:37-64 | a run in which a client acquires the lock |
| LockProgress.FreeLockIsTaken | DistributedKeyValueStore/internal/kvsrv/lock.go:37-64 | from every reachable state in which the lock is free, or the client's own, a client outside or anywhere in Acquire has a run on which it comes to hold it |
| LockProgress.HeldLockIsReleased | DistributedKeyValueStore/internal/kvsrv/lock.go:67-86 | from every reachable state a client holding the lock or anywhere in Release has a run to outside, and a lock it held is free then |
| LockProgress.LockIsTakenInTurn | DistributedKeyValueStore/internal/kvsrv/lock.go:37-86 | from every reachable state with a free lock one client can take it, give it back, and another take it |
| ClerkOutcomes.OneEffectPerVersion | DistributedKeyValueStore/internal/kvsrv/server.go:54-83 | for each key and version at most one put ever takes effect |
| ClerkOutcomes.OkMeansExactlyOnce | DistributedKeyValueStore/internal/kvsrv/client.go:39-58 | OK means the put took effect once and never again |
| ClerkOutcomes.ErrVersionMeansNever | DistributedKeyValueStore/internal/kvsrv/client.go:49-53 | ErrVersion means the put never takes effect |
| ClerkOutcomes.SeenMeansSettled | DistributedKeyValueStore/internal/kvsrv/client.go:49-53 | a returned put of a version its caller had seen took effect at most once and is settled, ErrMaybe included |
| ClerkOutcomes.SeenExactly | DistributedKeyValueStore/internal/kvsrv/client.go:39-58 | a put has no effect after it has returned, in any run that delivers each attempt at most once, if and only if its version was at most the key's when the call began |
| ClerkOutcomes.UnseenCanBeLate | DistributedKeyValueStore/internal/kvsrv/server.go:54-83 | from every reachable state, a put of a version beyond the key's has a run in which it takes effect after it has returned |

## Left out

- Transport, encoding, metrics, command line, language wrappers and deployment.
- Timers, randomised timeouts and every liveness claim, that of Submit included: the loops of the
  clerk and the lock are modelled over the answers they are given and may still be waiting at the end.
- Crashes within one save of the persister, and crashes of kvsrv.
- Integer widths: terms, indices and versions are unbounded, so a version does not wrap around.
- Shard numbers outside 0 to 9, at which a group's code would panic, and payloads of unknown type.
- Keys as bytes: a key is a sequence of characters and its shard comes from the first one.
- Addresses: a group is its number, and the controller's clerk for it is one atomic call. The call to
  a group that does not exist, number 0 among them, never returns.
- Recovery of the state machine after a restart with a snapshot: the code has none.
- The bounded channel between applier and reader: the model's channel never blocks.
- KvLock.Lock.Acquire: the wait between two rounds, which does nothing but pass time.
- Controller.ShardController.InitConfig: states what the code does while nothing else acts on the
  groups; publishing is one compare and set, which an ambiguous answer of the clerk's cannot follow.
- Controller.ShardController.ChangeConfigTo: the same; the steps with everything else going on are
  those of the migration system.
