# QuorumLimiter: a verified model

QuorumLimiter is a token-bucket rate limiter whose decisions are commands in a
replicated log.  This project models its three cores in Dafny and proves what the
system is for: a cluster enforces one budget per policy and subject, across leader
changes, lost messages and restarts, and any majority of it can go on serving.

- **Consensus.**  `RaftNode.dfy` gives one member as a value and what each event does
  to it.  `Cluster.dfy` composes members into a state machine whose steps are cut at
  the durable writes: timeout, observe a term, vote, count, repair, learn, commit,
  apply, send, propose, crash.  The network only gains messages, so they may be lost,
  duplicated and reordered; each vote call hands at most one reply to its candidate.
  `ClusterInvariant.dfy` states the inductive invariant, `ClusterSteps.dfy`,
  `ClusterPreserve.dfy` and `ClusterReplicate.dfy` show that every step keeps it, and
  `ClusterSafety.dfy`, `ClusterHolders.dfy`, `ClusterResults.dfy`, `ClusterWaiters.dfy`
  and `ClusterProposals.dfy` draw the conclusions for whole runs.  `ClusterSettled.dfy` and
  `SmallClusters.dfy` show that no committed entry is truncated in clusters of the program's
  size, and `StaleLeader.dfy`, with the moves of `ClusterMoves.dfy`, that larger ones
  differ.  `CommitChoice.dfy` and `LogRepair.dfy` treat the two algorithms inside.
- **Availability.**  `Events.dfy` lets members handle events one after the other,
  `Elections.dfy` shows that from every reachable state any majority can elect one of its
  members, and `Availability.dfy` that it can then commit, apply and answer any command.
- **The running node.**  `RaftServer.dfy` is the member as the program runs it: an
  object mutated by its handlers over the byte-keyed store of `RaftStore.dfy`.  Each
  handler performs exactly an effect of `Handlers.dfy`, and each effect is a path of
  cluster steps.  `Durability.dfy` does the same for every point inside a handler, its
  durable writes, answers and messages included, so a crash anywhere is covered as well.
- **The limiter.**  `TokenBucket.dfy` and `Int64Math.dfy` hold the 64-bit arithmetic with
  its wrap-around written out, `BucketLaws.dfy` its laws, `StateMachine.dfy` the seven
  commands as a function.  `StoreInvariant.dfy`, `Ledger.dfy`, `Windows.dfy`,
  `Neutrality.dfy`, `Idempotency.dfy`, `CommandLaws.dfy`, `CommandOutcomes.dfy` and
  `LogLaws.dfy` prove what holds of every command and over every log.
  `BucketCell.dfy`, `Pruning.dfy` and `StateMachineTx.dfy` run the same commands in
  place, with the program's loops, on the tables of `StateStore.dfy`.
- **The ordered store.**  `Encoding.dfy` builds, parses and orders keys; `Cursor.dfy` is
  the cursor over a byte-ordered bucket.
- **All together.**  `GlobalBudget.dfy` runs the limiter in the cluster and bounds every
  decision that any leader of any term ever reports as allowed, fresh or repeated.
  `MemberTables.dfy` keeps the byte-keyed tables level with a member of a run.

Committed entries are never truncated.  The program's configuration demands three members
(internal/config/config.go:22), and in every cluster of at most four no committed entry is
ever truncated on any log that holds it (`SmallClusters.NeverTruncated`).  The size matters,
and decides it exactly (`StaleLeader.TruncatesNothingIff`): from five members on, a delayed
request of an earlier leader can cut an entry from a member that has not learned of its
commit.  In clusters of any size a majority keeps the entry
(`ClusterHolders.MajorityHolds`), and so does a member that has committed it itself
(`ClusterSafety.CommittedStays`) or has reached a committing term
(`ClusterHolders.HolderKeeps`).

Assumptions.  Member ids are distinct and not empty.  A storage failure is a crash.  The
embedded database is an atomic, durable map ordered by key bytes; each method of a store
is one transaction.  Entries and models are typed values in place of their JSON.  SHA-256
is taken to be injective, so the model keeps its input in place of the digest.  Proposed
commands carry timestamps that are not negative.  Terms, indexes and versions are unbounded
naturals; where they become 8-byte keys, they are required to fit.  The injected apply
function of the consensus layer is a function-valued field of the configuration.

The steps of `Cluster.dfy` allow more than the handlers do: any of them may follow any
other, so a crash or a message may fall between two writes of one handler, and a leader may
commit any index that a majority holds.  What holds of all their runs holds of the program.

A decision record's expiry time matters only to pruning: until a prune removes the record,
the code answers from it, expired or not, and so does the model.

`dafny verify dfyconfig.toml` checks the whole project.

## Model

| member | source | states |
|---|---|---|
| `ClusterSafety.ElectionSafety` | internal/raft/election.go:74-136 | In every run, with loss, duplication, reordering and crashes, two members that lead the same term, at the same or at different moments, are one member. |
| `ClusterSafety.LogMatchingAlways` | internal/raft/rpc.go:113-148 | In every reachable state each log is contiguous from the sentinel with terms that never fall, and two logs holding the same term at one index agree on everything up to it. |
| `ClusterSafety.LeadersHaveCommitted` | internal/raft/replication.go:115-145 | Leader Completeness, across moments: what a member of some term ever commits is on the log of every leader of a later term at every moment of its office, before the commit or after it, and on the log of the same term's leader from then on. |
| `ClusterSafety.CommittedAgree` | internal/raft/rpc.go:134-166 | State Machine Safety: the prefixes two members have committed, at any two moments, agree as far as both go. |
| `ClusterSafety.CommittedStays` | internal/raft/rpc.go:134-148 | A member's own commit index, applied index and term never fall, and nothing at or below its own commit index is ever truncated or replaced, through crashes too. |
| `SmallClusters.NeverTruncated` | internal/raft/rpc.go:134-148 | No committed entry is ever truncated anywhere: in every run of a cluster of at most four members (the program takes exactly three), an entry at or below any member's commit index, once on any member's log, stays on that log. |
| `SmallClusters.NoCommittedCut` | internal/raft/replication.go:184-199 | The same for one step: in such a cluster no request, however late, cuts an entry that a leader of any term has committed. |
| `SmallClusters.OneOld` | internal/raft/election.go:53-58 | Why: for each leader elected without a prefix, at most one member has, or ever stood for election with, a log that holds the prefix and ends before that leader's term. |
| `ClusterSettled.RunSettled` | internal/raft/rpc.go:66-82 | In every run a member's log is as it was when it voted until it takes entries of that term or later, a member that led a term has entries of it, and every append request reaches past the log its leader was elected with. |
| `StaleLeader.TruncatesNothingIff` | internal/config/config.go:22 | A committed entry is never truncated anywhere, in any run, if and only if the cluster has at most four members. |
| `ClusterHolders.MajorityHolds` | internal/raft/replication.go:115-145 | A commit is durable in a cluster of any size: at every moment after any member has committed a prefix, a majority of the members hold it on their logs, whether or not they have learned of the commit. |
| `ClusterHolders.HolderKeeps` | internal/raft/rpc.go:134-148 | In a cluster of any size, a member that holds a committed entry and whose term has reached a term that committed it keeps the entry for the rest of the run. |
| `ClusterHolders.StepCutsIff` | internal/raft/replication.go:184-199 | A step changes a member's log at or below an index if and only if it answers a genuine append request, not of an earlier term, whose previous entry matches and whose first entry not already present falls at or below that index. |
| `ClusterHolders.OnlyStaleLeadersCut` | internal/raft/rpc.go:134-148 | A committed entry is cut from a log only by a request of a leader whose term, and whose recipient's term, is below every term that committed the entry. |
| `StaleLeader.StaleLeaderCuts` | internal/raft/rpc.go:134-148 | The other half of that condition, at sizes the program refuses: in every cluster of five members or more there is a run in which one member holds an entry that another has committed and then loses it to a delayed request of a leader elected and deposed before the commit. |
| `ClusterSafety.StepKeeps` | internal/raft/node.go:342-369 | Every enabled step of the cluster keeps the inductive invariant and only adds to the recorded history. |
| `ClusterSafety.RunInv` | internal/raft/node.go:342-369 | The inductive invariant holds in every state of every run. |
| `ClusterInvariant.LeaderCompleteness` | internal/raft/election.go:53-58 | In any state with the invariant, a committed prefix of one reign is on the log of every later reign; the voting restriction and quorum overlap carry the proof. |
| `ClusterInvariant.LogMatching` | internal/raft/replication.go:184-199 | Two logs whose entries sit on their terms' leader logs agree up to any index where their terms agree. |
| `ClusterInvariant.ReconcileFacts` | internal/raft/replication.go:184-199 | Merging a batch of the leader's log yields a log that holds the leader's prefix to the end of the batch, either unchanged or exactly that prefix, so a late or repeated batch never shortens what it agrees with. |
| `ClusterInvariant.JustifiedAgree` | internal/raft/replication.go:112-145 | Two prefixes that leaders of any terms committed agree as far as both go. |
| `ClusterPreserve.KeepAnswerVote` | internal/raft/rpc.go:52-84 | Granting a vote, once and durably, keeps the invariant: no member is on record with two votes in a term. |
| `ClusterPreserve.KeepCountVote` | internal/raft/election.go:117-153 | Counting a reply and being elected keeps the invariant: the plain counter never exceeds the members that durably voted for this candidate, and no rival can already lead the term. |
| `ClusterPreserve.KeepCrash` | internal/raft/node.go:270-314 | A crash that keeps only the persisted fields keeps the invariant. |
| `ClusterReplicate.KeepAnswerAppend` | internal/raft/rpc.go:90-152 | Refusing, repairing or appending keeps the invariant, and never cuts what the member itself has committed. |
| `ClusterReplicate.KeepAdvance` | internal/raft/replication.go:115-145 | Committing by counting, under the current-term rule, keeps the invariant: the holders really acknowledged the entry to this leader. |
| `ClusterResults.AppliedExactlyOnce` | internal/raft/apply.go:8-54 | At every moment of every run the application state is the state machine folded over entries 1 to last_applied of the member's own log, and last_applied is at most the commit index, which is in the log. |
| `ClusterResults.ReplicasAgree` | internal/raft/apply.go:8-34 | Members that have applied equally many entries hold equal application states, whichever members and moments are compared. |
| `ClusterWaiters.WaitersAreOwn` | internal/raft/waiters.go:71-107 | Each registered waiter belongs to a current leader, is unanswered, and waits above last_applied on the current-term entry that carries its own proposer's command. |
| `ClusterWaiters.AnsweredOnce` | internal/raft/apply.go:25-32 | What a proposer has been told never changes afterwards. |
| `ClusterWaiters.ResultIsOwn` | internal/raft/apply.go:20-32 | A result told to a proposer is what its own committed command produced: every member that ever commits that far holds that command there, and folding its log yields that result. |
| `ClusterWaiters.NobodyForgotten` | internal/raft/waiters.go:93-107 | In every run, while its member stays up and it does not stop waiting itself, a proposer waits on or is told something. |
| `LogRepair.RepairTerminates` | internal/raft/replication.go:61-110 | From every reachable state, exchanging requests and replies in order with a peer of no later term ends with the peer holding the leader's log through the match index, which is the leader's last index. |
| `LogRepair.RepairInRun` | internal/raft/replication.go:61-110 | That exchange is a path of cluster steps: it ends a longer run in which the peer holds the leader's whole log and has committed what the leader has, the leader still leads and knows it, and no other member has moved. |
| `LogRepair.MatchIsHeld` | internal/raft/replication.go:71-86 | In every reachable state, replies lost, late or repeated, a peer of no later term holds the leader's log through the match index that the leader has for it. |
| `LogRepair.Refused` | internal/raft/replication.go:93-110 | A log-mismatch reply strictly lowers the peer's nextIndex and leaves it at 1 or more, through the conflict-term shortcut too. |
| `LogRepair.TermEndsBelow` | internal/raft/replication.go:150-178 | Where leader and follower disagree about an entry's term, the leader's last entry of the follower's term, if any, lies below; this is what makes the shortcut safe. |
| `LogRepair.NextIndexInRange` | internal/raft/replication.go:93-110 | In every reachable state a leader's nextIndex for each peer is between 1 and its last index plus 1. |
| `LogRepair.HintIsTight` | internal/raft/replication.go:93-110 | The hint never backs up too far: no entry from where the leader resumes up to where it was refused is one that the follower shares. |
| `LogRepair.LearnsExactly` | internal/raft/rpc.go:100-166 | After a request of its own term or a later one, a follower has that term and leader; if the request fits its log, its commit index is the larger of its own and the smaller of the leader's and the last index covered, and otherwise its log and commit index stay. |
| `LogRepair.Accepted` | internal/raft/rpc.go:134-166 | A success leaves the follower with the leader's whole log and with the larger of the two commit indexes, and the leader with that match index. |
| `LogRepair.MatchNeverFalls` | internal/raft/replication.go:78-84 | No reply lowers a match index, and a success raises it to the index reported if that is larger. |
| `Elections.CurrencyIsTotal` | internal/raft/election.go:53-58 | Of any two logs one is as current as the other, and both are exactly when they end in the same term at the same index. |
| `Elections.LongerIsAsCurrent` | internal/raft/election.go:53-58 | A log is as current as each of its prefixes, and more current than each proper one. |
| `Elections.VoteIsRepeated` | internal/raft/rpc.go:67-84 | A vote request that is delivered again gets the same answer and changes nothing. |
| `Elections.MajorityElects` | internal/raft/election.go:64-155 | From the end of every run, every majority of two or more can go on by its own handlers and messages alone until one of its members leads it, with no later term among them. |
| `Elections.LeaderIff` | internal/raft/election.go:117-136 | The condition is exact: every run can be continued to one with a leader if the cluster has two members or more, and no run of a cluster of one ever has a leader, because only a reply makes a candidate count its votes. |
| `Elections.HintsAgree` | internal/raft/waiters.go:109-117 | In every run, whom a member takes to lead, if anyone, was elected in its term; members of one term, at whatever moments, never name different leaders, a leader names itself and a candidate nobody. |
| `Elections.NewLeaderOffersNoop` | internal/raft/election.go:141-155 | A new leader's first request to every peer carries exactly its no-op, after all that it had before. |
| `Availability.MajorityServes` | internal/raft/waiters.go:71-91 | From the end of every run, whatever was lost, delayed or crashed, the members of any majority of two or more, with messages among themselves only, can come to a state where one of them leads, the given command is the last entry of its log, all of them have committed it and, if the log replays, applied it, and the proposer has been told exactly what the command produced. |
| `Availability.LeaderServes` | internal/raft/replication.go:7-145 | The same from any reachable state in which a member leads the majority, for any ticket not used yet. |
| `Availability.RecoversAll` | internal/raft/node.go:270-314 | Recovery at any moment of any run gives a follower with the persisted term, vote, log and commit index, no waiters, and everything committed applied, if that replays. |
| `Availability.AdvanceSettles` | internal/raft/replication.go:115-145 | After a success a leader whose last entry is of its own term has committed it if a majority is known to hold it. |
| `Events.Handles` | internal/raft/node.go:342-370 | In every reachable state every event that is due may be handled; the next state is reachable, and shows exactly what the handler does. |
| `Events.TermsAreAdopted` | internal/raft/node.go:445-471 | In every reachable state a member that handles a message is left with the later of its term and the message's, and a later term, or a request of its own term's leader, makes it a follower. |
| `Events.NewsIsSent` | internal/raft/replication.go:7-55 | A leader that has just been elected, has appended an entry or has committed one sends every peer, in the same handler, all that the peer may lack and its commit index. |
| `CommitChoice.CommitChoiceIsExact` | internal/raft/replication.go:112-138 | The quorum-th largest match index, with only its own entry's term checked, is the largest index that may be committed by counting, and there is none exactly when nothing is chosen. |
| `CommitChoice.LeadersChooseExactly` | internal/raft/replication.go:115-138 | The same for every leader in every run. |
| `CommitChoice.MajorityIndexIsExact` | internal/raft/replication.go:116-125 | A majority is known to hold an index exactly when it is at most the quorum-th largest match index. |
| `ClusterProposals.CommandsWereProposed` | internal/raft/waiters.go:71-90 | Nothing is invented: in every run, a command on any member's log was handed to the leader of its entry's term, under a ticket for that very index. |
| `GlobalBudget.NeverOverAllows` | README.md:40-43 | Over any run, at any moment, for any policy and subject: the decisions that all leaders of all terms have reported as allowed, fresh or repeated to a retry, plus the balance left at a most advanced member, cost no more than the bucket was granted on that member's applied log. |
| `GlobalBudget.NeverOverAllowsAt` | README.md:40-43 | The same at every member that has applied the most. |
| `GlobalBudget.NeverOverAllowsAtOneRate` | README.md:40-43 | The same for a policy whose rate does not change, where the grant is one capacity plus the rate times the bucket time since its first decision. |
| `GlobalBudget.FreshDecisionsDiffer` | internal/raft/apply.go:25-32 | Two proposers are never told the same fresh decision, so the distinct decisions count every fresh answer. |
| `GlobalBudget.ReportedWasMade` | internal/limiter/state_machine.go:412-427 | A reported decision, fresh or repeated, is what the entry at its own log index decided, at or below the entry that reports it. |
| `GlobalBudget.RecordsWereMade` | internal/limiter/state_machine.go:473-497 | Every decision record in the tables after a log was made by the entry of that log that it names. |
| `GlobalBudget.CostWithinSpent` | internal/limiter/state_machine.go:461-497 | Distinct decisions made at or below an index cost no more than the ledger of the log up to that index spent. |
| `GlobalBudget.AnsweredIsApplied` | internal/raft/apply.go:25-32 | A proposal that was answered with a result has been applied by the node that answered it. |
| `GlobalBudget.StoresStayOk` | internal/limiter/state_machine.go:86-118 | Every member's tables satisfy the store invariant at every moment of every run. |
| `MemberTables.ApplyNextEntry` | internal/limiter/state_machine.go:86-118 | Started level with a member of any run, one transaction on the byte-keyed tables leaves what the cluster's apply step leaves and reports what it reports; an entry fails in both or in neither, and then moves neither. |
| `MemberTables.ApplyAll` | internal/raft/apply.go:8-54 | Applying everything committed, the tables end level with the drained member of a longer run. |
| `Handlers.TimeoutIsSteps` | internal/raft/election.go:64-99 | What the election timeout handler does to its node and the network is a path of cluster steps. |
| `Handlers.VoteCallInRun` | internal/raft/rpc.go:52-84 | In every run, handling a vote request that is in the network is a path of cluster steps, with the same reply and the same waiters failed. |
| `Handlers.VoteReplyIsSteps` | internal/raft/election.go:117-153 | Handling a vote reply, promotion and first replication included, is a path of cluster steps. |
| `Handlers.AppendCallInRun` | internal/raft/rpc.go:90-168 | In every run, handling an append request that is in the network, from stepping down to applying, is a path of cluster steps. |
| `Handlers.AppendReplyIsSteps` | internal/raft/replication.go:61-145 | Handling an append reply, commit, apply and re-send included, is a path of cluster steps in every state with the invariant. |
| `Handlers.ProposeIsSteps` | internal/raft/waiters.go:71-90 | Accepting a proposal and replicating it is a path of cluster steps. |
| `Handlers.RecoverIsSteps` | internal/raft/node.go:270-314 | Crashing and recovering, with replay of what was committed, is a path of cluster steps. |
| `Handlers.LeadsStaysReachable` | internal/raft/node.go:342-369 | Whatever such paths lead to from a reachable state is the end of a longer run, so the theorems about runs hold after any handlers. |
| `Handlers.CallsAreOurs` | internal/raft/rpc.go:59-61 | In every run, every request in the network carries this protocol version and cluster id. |
| `Handlers.CallsContinueTheLog` | internal/raft/replication.go:34-42 | In every run, the entries of an append request carry the indexes that follow its previous one. |
| `Durability.TimeoutStops` | internal/raft/node.go:473-485 | The election timeout can be cut off anywhere: before its one durable write, after it, and after any part of the vote requests, the disk and all that the outside has seen are what some path of cluster steps leaves, with no other member moved. |
| `Durability.CallsStopInRuns` | internal/raft/rpc.go:52-168 | In every run the same holds of handling any vote or append request in the network: between the writes of the term, the vote, the log, the commit index and each applied entry, with any part of the proposers told and the reply sent or not. |
| `Durability.VoteReplyStops` | internal/raft/election.go:121-149 | The same of handling a vote reply, be it a new term or the leader's no-op and its first requests. |
| `Durability.AppendReplyStops` | internal/raft/replication.go:65-144 | The same of handling an append reply: the commit index, every applied entry and its answer, and the requests that follow. |
| `Durability.ProposeStops` | internal/raft/waiters.go:76-82 | The same of accepting a proposal. |
| `Durability.RecoverStops` | internal/raft/node.go:270-314 | The same of recovery itself, between any two replayed entries. |
| `Durability.CrashAnywhere` | internal/raft/node.go:270-314 | A handler is cut off after any of its durable writes and any part of what it says before the next; the crash and the recovery extend the run to one where the member is its disk restarted with the committed rest applied, no other member has moved, every message handed out is in the network, and proposers know exactly what they were told. |
| `Durability.RecoverAfterStop` | internal/raft/node.go:270-314 | From any point where a member may stop, crash and recovery end a longer run: the member comes back as its disk, messages and answers included. |
| `RaftServer.Node.constructor` | internal/raft/node.go:188-266 | A new node knows every member but itself, each once, and a quorum that fits them, over any store whose log is contiguous. |
| `RaftServer.NewNode` | internal/raft/node.go:188-266 | Over an empty store, construction and recovery succeed exactly when a cluster id is configured, and leave a valid node in the state in which every member of the cluster starts. |
| `RaftServer.Node.RecoverClusterID` | internal/raft/node.go:316-336 | The stored cluster id is adopted, or a configured one is stored when there is none; it fails, changing nothing, exactly when there is neither or they differ. |
| `RaftServer.Node.Recover` | internal/raft/node.go:270-314 | With no agreed cluster id nothing changes; otherwise the node is what the disk held, restarted, with the committed rest applied one write at a time, and the result says whether replay reached the commit index. |
| `RaftServer.Node.BecomeFollower` | internal/raft/node.go:445-468 | Steps down, durably first when the term rises, and tells every waiter of a deposed leader that it no longer leads. |
| `RaftServer.Node.BecomeCandidate` | internal/raft/node.go:473-485 | Term and self-vote are the same in memory and on disk, and one term up. |
| `RaftServer.Node.OnElectionTimeout` | internal/raft/election.go:64-99 | Performs exactly the timeout effect, the new candidacy and one vote request per peer, with exactly the durable writes listed for it. |
| `RaftServer.Node.HandleRequestVote` | internal/raft/rpc.go:52-84 | Performs exactly the vote-request effect, with exactly its durable writes in order, and returns the reply it names; that effect grants what a majority needs to elect (`Elections.MajorityElects`). |
| `RaftServer.Node.HandleVoteResponse` | internal/raft/election.go:117-136 | Performs exactly the vote-reply effect with exactly its durable writes; a failed call does nothing. |
| `RaftServer.Node.CountVote` | internal/raft/election.go:130-135 | One vote more; at a majority, leadership, the no-op and an append request per peer. |
| `RaftServer.Node.PromoteToLeader` | internal/raft/election.go:141-153 | Progress is reset, the no-op ends the log, and every peer is sent what it lacks. |
| `RaftServer.Node.BecomeLeader` | internal/raft/node.go:490-502 | Every peer, and only peers, starts with nextIndex past the log's end and matchIndex 0. |
| `RaftServer.Node.BuildRequest` | internal/raft/replication.go:19-53 | The request read back from the byte-keyed store is the one the log as a sequence calls for. |
| `RaftServer.Node.ReplicateToAll` | internal/raft/replication.go:7-14 | A leader sends each peer its request, once; others send nothing. |
| `RaftServer.Node.HandleAppendEntries` | internal/raft/rpc.go:90-168 | Performs exactly the append-request effect, with exactly its durable writes in order, and returns the reply it names. |
| `RaftServer.Node.CheckPrev` | internal/raft/rpc.go:112-130 | No hint exactly when the log holds the preceding entry; else the hint of the abstract log. |
| `RaftServer.Node.RepairLog` | internal/raft/rpc.go:132-148 | After cutting and appending in the bucket the log is the abstract merge, and the cached last index and term are its end. |
| `RaftServer.Node.ReconcileEntries` | internal/raft/replication.go:184-199 | Finds how many entries are already present, cuts at the first conflict only, and appends the rest. |
| `RaftServer.Node.FirstIndexOfTerm` | internal/raft/replication.go:150-163 | The start of the run of that term which ends at the given index. |
| `RaftServer.Node.LastIndexWithTerm` | internal/raft/replication.go:167-178 | The highest index of that term, or 0. |
| `RaftServer.Node.RefreshLastLog` | internal/raft/replication.go:203-217 | The cached last index and term are those of the stored log. |
| `RaftServer.Node.LearnCommit` | internal/raft/rpc.go:153-166 | The commit index becomes that of the effect, exactly the larger of the old one and as much of the leader's as the request covered (`LogRepair.LearnsExactly`); what that allows is applied, and the waiters are answered. |
| `RaftServer.Node.ApplyCommitted` | internal/raft/apply.go:8-34 | Applies entries in order until none is left or one fails, each with its checkpoint, and answers exactly their waiters. |
| `RaftServer.Node.HandleAppendResponse` | internal/raft/replication.go:61-89 | Performs exactly the append-reply effect with exactly its durable writes; a failed call does nothing. |
| `RaftServer.Node.BackupNextIndex` | internal/raft/replication.go:93-110 | nextIndex is where the hints lead, at 1 or more. |
| `RaftServer.Node.CommitCandidate` | internal/raft/replication.go:115-135 | The sorted, quorum-th largest match index, if it is news and of this term. |
| `RaftServer.Node.AdvanceCommit` | internal/raft/replication.go:115-145 | Performs exactly the commit, apply and broadcast effect. |
| `RaftServer.Node.HandlePropose` | internal/raft/waiters.go:71-90 | A leader appends the command at the end of its log, registers the waiter there and replicates; others change nothing and say so. |
| `RaftServer.Node.DeregisterWaiter` | internal/raft/node.go:365-366 | Forgets whoever waits on the index, and nothing else. |
| `RaftServer.Node.FailWaiters` | internal/raft/waiters.go:102-107 | Every waiter is told, and none is left. |
| `RaftStore.PutAppends` | internal/storage/raft_store.go:102-122 | Entries put under the indexes that continue the log extend the sequence the bucket holds. |
| `RaftStore.BelowCuts` | internal/storage/raft_store.go:227-240 | Deleting every key from an index on cuts the sequence there. |
| `RaftStore.OneLog` | internal/storage/raft_store.go:100-122 | A bucket holds at most one sequence. |
| `RaftServer.OverwriteRepairs` | internal/storage/raft_store.go:202-225 | Cutting and appending by key is the merge of the sequences. |
| `RaftStore.Store.AppendEntries` | internal/storage/raft_store.go:105-122 | Each entry is stored under its own index, later ones winning. |
| `RaftStore.Store.Entry` | internal/storage/raft_store.go:125-144 | The entry at that index of the sequence, if it reaches so far. |
| `RaftStore.Store.Entries` | internal/storage/raft_store.go:147-167 | Exactly the slice of the sequence between the bounds, in order. |
| `RaftStore.Store.LastIndex` | internal/storage/raft_store.go:181-189 | The last position of the sequence. |
| `RaftStore.Store.TruncateSuffix` | internal/storage/raft_store.go:227-240 | Exactly the keys before the index remain. |
| `RaftStore.Store.OverwriteEntries` | internal/storage/raft_store.go:202-225 | Truncation and append take effect together. |
| `RaftStore.Store.SetTermAndVote` | internal/storage/raft_store.go:60-74 | Term and vote take effect together. |
| `Encoding.ParseOfU64` | internal/storage/encoding.go:12-25 | Parsing an encoded index gives it back. |
| `Encoding.U64OfParse` | internal/storage/encoding.go:12-25 | Encoding a parsed 8-byte key gives it back. |
| `Encoding.U64Order` | internal/storage/encoding.go:12-17 | Keys sort, byte by byte, as their indexes do. |
| `Encoding.CompositeKey` | internal/storage/encoding.go:32-48 | The length-prefixed concatenation of the parts, or an error exactly when a part is too long. |
| `Encoding.SplitCompositeKey` | internal/storage/encoding.go:51-66 | The parts a key is made of, or an error exactly when it is malformed. |
| `Encoding.SplitOfComposite` | internal/storage/encoding.go:27-66 | Parsing undoes building. |
| `Encoding.CompositeOfSplit` | internal/storage/encoding.go:27-66 | Building undoes parsing, on every key that parses. |
| `Encoding.FirstPartIsPrefix` | internal/storage/state_store.go:200-206 | A pair's key extends the key of one part exactly when that part is its first. |
| `Encoding.PrefixRange` | internal/storage/state_store.go:200-206 | Keys with a prefix come at or after it and before any later key without it, so a scan may stop at the first such key. |
| `StateStore.StateTx.ForEachTokenBucketByPolicy` | internal/storage/state_store.go:200-219 | Visits every bucket of the policy, each once, and no other. |
| `StateStore.StateTx.ForEachIdempotency` | internal/storage/state_store.go:223-227 | Every record once, with its raw key. |
| `StateStore.StateTx.ForEachAudit` | internal/storage/state_store.go:236-240 | Every audited index once, in ascending order. |
| `StateStore.StateTx.GetTokenBucket` | internal/storage/state_store.go:150-157 | The bucket of that policy and subject, or none, or an error when the key cannot be built. |
| `StateStore.StateTx.PutTokenBucket` | internal/storage/state_store.go:160-166 | Changes the bucket of its own policy and subject, and nothing else. |
| `StateStore.StateTx.GetIdempotency` | internal/storage/state_store.go:169-176 | The record of that client and request, or none, or an error. |
| `StateStore.StateTx.PutIdempotency` | internal/storage/state_store.go:179-185 | Changes the record of that client and request, and nothing else. |
| `StateStore.StateTx.PutAudit` | internal/storage/state_store.go:188-190 | Changes the audit under that log index, and nothing else. |
| `Int64Math.CheckedMulExact` | internal/limiter/token_bucket.go:7-16 | On non-negative operands the overflow flag is raised exactly when the product leaves 64 bits; otherwise the product is exact. |
| `Int64Math.CheckedAddExact` | internal/limiter/token_bucket.go:19-25 | The same for sums. |
| `TokenBucket.ComputeAddedExact` | internal/limiter/token_bucket.go:37-51 | The earned milli-tokens and remainder are the exact quotient and remainder whenever the numerator fits, and overflow is reported exactly when it does not. |
| `TokenBucket.OverflowFills` | internal/limiter/token_bucket.go:64-73 | Whenever an intermediate value leaves 64 bits, the exact result fills the bucket. |
| `TokenBucket.RefillIsExact` | internal/limiter/token_bucket.go:53-84 | For every validated rate, admissible bucket and timestamp the 64-bit refill is min(capacity, tokens + floor) with the exact remainder, on unbounded integers. |
| `BucketLaws.RefillSplits` | internal/limiter/token_bucket.go:53-84 | Refilling at t1 and then at t2 is refilling once at the later of the two, in any order and through capacity. |
| `BucketLaws.RefillConserves` | internal/limiter/token_bucket.go:58-84 | A refill grants the accrual of the elapsed time, fraction included, or less at capacity, never more. |
| `BucketLaws.SpendIsExact` | internal/limiter/token_bucket.go:90-108 | Spending deducts exactly the cost when the balance holds it, and otherwise changes nothing. |
| `BucketLaws.RetryIsCeiling` | internal/limiter/token_bucket.go:96-107 | The estimate is the exact ceiling of shortfall over rate, at least 1, with no overflow on the way. |
| `BucketLaws.WaitSuffices` | internal/limiter/token_bucket.go:86-108 | A wait makes the cost affordable if and only if its accrual, with the remainder, covers the shortfall. |
| `BucketLaws.RetrySuffices` | internal/limiter/token_bucket.go:86-108 | Waiting as long as estimated always suffices; no wait whose plain accrual is a whole milli-token short does. |
| `BucketCell.Cell.RefillBucket` | internal/limiter/token_bucket.go:58-84 | Updated in place, the bucket is the refilled value. |
| `BucketCell.Cell.SpendTokens` | internal/limiter/token_bucket.go:90-108 | Updated in place, the bucket, verdict and estimate are those of the spending function. |
| `StoreInvariant.CommandKeepsStore` | internal/limiter/state_machine.go:124-145 | Every command keeps the store invariant: buckets within their policy's current bounds, versions no newer than the policy's, prefix index and client table exact inverses, records filed under the request they answer. |
| `StoreInvariant.StoreAlwaysOk` | internal/limiter/state_machine.go:86-118 | The store invariant holds after every log. |
| `Ledger.Conservation` | internal/limiter/state_machine.go:223-259 | For every log and bucket, what was spent plus what is left, fraction included, is at most what was there plus each policy rate over the bucket time it was in force; so an update grants no credit and applies no rate to past time. |
| `Ledger.Budget` | internal/limiter/state_machine.go:461-474 | No log from an empty store charges a bucket more than it was granted. |
| `Ledger.BudgetAtOneRate` | internal/limiter/state_machine.go:461-474 | Under an unchanging rate, at most one capacity plus the refill of the bucket time since its first decision. |
| `Ledger.ConvertBalances` | internal/limiter/state_machine.go:228-246 | Carrying a bucket across a policy change grants at most what the old rate earned up to it; `Windows.ConvertKeeps` says that it loses no more than it must. |
| `Neutrality.DenialsAreNeutral` | internal/limiter/state_machine.go:461-474 | In every log, replacing a denied decision by a no-op leaves the answer to every later entry unchanged, through policy updates, if later timestamps are no earlier and its key is not reused; only a prune's counts may differ. |
| `Neutrality.AlikeRefill` | internal/limiter/token_bucket.go:58-84 | A bucket and the same bucket refilled earlier cannot be told apart from then on. |
| `Neutrality.SameRateIsNeutral` | internal/limiter/state_machine.go:223-259 | In every log, replacing an applied update that keeps the policy's rate by a no-op leaves the answer to every later entry unchanged, verdicts, balances and estimates, if later timestamps are no earlier and no later change names a version of that policy. |
| `Windows.ConvertKeeps` | internal/limiter/state_machine.go:234-246 | A conversion keeps all that was earned up to it: exactly when the interval stays, less than one milli-token aside when it changes; where more is lost the balance is the old or the new capacity. |
| `Windows.FirstDecision` | internal/limiter/state_machine.go:597-615 | The first request of a subject is allowed, and leaves it the policy's capacity less the cost, from the time of the request. |
| `Windows.ExactWindow` | internal/limiter/token_bucket.go:58-84 | While a policy keeps its rate, some window of the bucket's history is exact: what was charged in it and what is left are one capacity and the refill of that window. |
| `Windows.EveryWindow` | internal/limiter/token_bucket.go:58-84 | And none has more: charges and balance never exceed one capacity and the refill of the window. |
| `Windows.AllowedExactly` | internal/limiter/state_machine.go:461-474 | While a policy keeps its rate, a fresh request is allowed if and only if, with its cost, every window of the bucket's history stays within one capacity and the refill of that window; it is denied only when one has really been used up. |
| `Idempotency.DigestInjective` | internal/limiter/state_machine.go:663-672 | On validated fields two requests have the same digest input exactly when they have the same content. |
| `Idempotency.RecordStays` | internal/limiter/state_machine.go:547-566 | An entry removes a record if and only if it is a prune at or after the record's expiry, and nothing overwrites it. |
| `Idempotency.RetryAnswer` | internal/limiter/state_machine.go:409-427 | Asking again under a recorded key changes nothing: the original record answers the same content, anything else is refused. |
| `Idempotency.RetriesReturnOriginal` | internal/limiter/state_machine.go:409-427 | In every log, however much lies between, a retry gets the original record and other content under the key is refused, while no prune has removed the record; the state does not change. |
| `Idempotency.RetriesAreNoops` | internal/limiter/state_machine.go:409-427 | While the record stands, a log with any number of repeats runs to the same state as the log with them blanked out. |
| `CommandLaws.FreshDecisions` | internal/limiter/state_machine.go:389-532 | A request is decided afresh exactly when it is well-formed, new and authorized; it is allowed exactly when the refilled bucket holds the cost, its record says so, and the bucket is stored with the balance, clock, policy version and log index of the decision. |
| `CommandLaws.RejectionsChangeNothing` | internal/limiter/state_machine.go:100-122 | A rejected, repeated or empty entry leaves the state exactly as it was. |
| `CommandLaws.RevocationIsFinal` | internal/limiter/state_machine.go:357-385 | Once a client is revoked, no later entry of any log is decided afresh for it. |
| `CommandLaws.OneChangePerVersion` | internal/limiter/state_machine.go:203-205 | Of two changes in a log that expect the same version of a policy, once one is applied the other is refused with a version conflict. |
| `CommandLaws.ConditionalChange` | internal/limiter/state_machine.go:190-300 | A conditional change is applied if and only if the policy exists, its version is the expected one and an update's fields are valid, and each refusal has its own exact condition; applied, it stores and reports what was asked for, an update leaving activity alone and an activation the rate and buckets, and nothing else moves. |
| `CommandOutcomes.FreshRefusals` | internal/limiter/state_machine.go:429-459 | A new request is refused, or decided, with each answer if and only if its own condition holds: no such client, a revoked one, a policy it may not use, no such policy, an inactive one, a cost above the maximum. |
| `CommandOutcomes.SeenRefusals` | internal/limiter/state_machine.go:391-427 | A malformed request is refused as invalid; a repeated one is answered from its record if its content is the same and refused as a conflict if not, whatever has become of client and policy. |
| `CommandOutcomes.PolicyCreations` | internal/limiter/state_machine.go:149-188 | A policy is created if and only if its fields are valid and its id is new, each refusal with its exact condition; it starts as given, at version 1. |
| `CommandOutcomes.ClientCreations` | internal/limiter/state_machine.go:304-355 | A client is created if and only if its fields are valid, its id and key prefix are new and the policies it names exist, each refusal with its exact condition; it starts active, with its prefix indexed. |
| `CommandOutcomes.Revocations` | internal/limiter/state_machine.go:357-385 | A revocation is refused exactly when there is no such client; an active one becomes inactive at that time, an inactive one is reported unchanged, and nothing else moves. |
| `CommandOutcomes.Prunings` | internal/limiter/state_machine.go:536-593 | A prune leaves exactly the records not yet expired and, of the audits, as many as asked for, all newer than any it drops; the counts are of what is gone, and nothing else moves. |
| `LogLaws.PoliciesAreTheirChanges` | internal/limiter/state_machine.go:149-302 | After any log, a policy is what the last change to it reported, and its version is the number of its changes. |
| `LogLaws.ClientsAreAsCreated` | internal/limiter/state_machine.go:304-387 | After any log, a client is as some entry created it, and inactive exactly if a later entry revoked it. |
| `CommandLaws.VersionsRise` | internal/limiter/state_machine.go:270-300 | A policy never disappears, and whatever changes it raises its version by one and keeps its identity and creation time. |
| `CommandLaws.EveryChangeIsAudited` | internal/limiter/state_machine.go:617-635 | Every entry that changes the state, pruning apart, adds exactly one audit, under its own log index, with its term, time, kind of event, policy and actor, and for a decision all that its record tells. |
| `LogLaws.AuditsAreTheChanges` | internal/limiter/state_machine.go:498-525 | After any log without a prune, the audits are exactly the entries that changed something, each under its log index with its term, time and kind of event. |
| `StateMachineTx.ApplyEntry` | internal/limiter/state_machine.go:86-118 | On the byte-keyed store: effects and applied checkpoint move together and are those of the state machine as a function; a failing entry leaves both alone. |
| `StateMachineTx.CreatePolicy` | internal/limiter/state_machine.go:149-188 | State and result are those of the function, rejections included. |
| `StateMachineTx.UpdatePolicy` | internal/limiter/state_machine.go:190-268 | The collect-then-write loops convert every bucket of the policy, each once, and no other. |
| `StateMachineTx.ConvertBuckets` | internal/limiter/state_machine.go:231-259 | After the loops the bucket table is the whole-table conversion, whose worth is that of `Windows.ConvertKeeps`. |
| `StateMachineTx.SetPolicyActive` | internal/limiter/state_machine.go:270-300 | State and result are those of the function, whose every outcome `CommandLaws.ConditionalChange` decides. |
| `StateMachineTx.CreateClient` | internal/limiter/state_machine.go:304-355 | State and result are those of the function, with client and prefix index written together. |
| `StateMachineTx.RefuseClient` | internal/limiter/state_machine.go:309-332 | The checks, in order, find the first reason to refuse. |
| `StateMachineTx.RevokeClient` | internal/limiter/state_machine.go:357-385 | State and result are those of the function; a repeat writes nothing. |
| `StateMachineTx.Decide` | internal/limiter/state_machine.go:389-532 | State and result are those of the function; an over-long client id aborts with nothing written. |
| `StateMachineTx.RefuseRequest` | internal/limiter/state_machine.go:429-459 | The checks, in order, find the first reason to refuse. |
| `StateMachineTx.AllowsPolicy` | internal/limiter/models.go:42-49 | Whether the list holds the policy or the wildcard. |
| `StateMachineTx.LoadOrInitBucket` | internal/limiter/state_machine.go:597-615 | The stored bucket, or one that holds the policy's capacity for a new subject (`Windows.FirstDecision`). |
| `StateMachineTx.Prune` | internal/limiter/state_machine.go:536-593 | State and counts are those of the function. |
| `Pruning.DropExpired` | internal/limiter/state_machine.go:547-566 | Exactly the records not yet expired remain, and the count is of those removed. |
| `Pruning.KeptAreNewer` | internal/limiter/state_machine.go:568-586 | Every audit that a prune keeps is newer than every one it drops. |
| `Pruning.TrimAudits` | internal/limiter/state_machine.go:568-586 | Exactly the newest audits remain, as many as asked for, and the count is of those removed. |
| `Validation.ValidateAllowedPolicies` | internal/limiter/validation.go:105-129 | True exactly for the lone wildcard, or 1 to 100 different valid policy ids. |
| `Validation.TrimmedName` | internal/limiter/validation.go:39-45 | Trimming removes the white space at both ends, all of it and nothing else. |

## Left out

- HTTP handlers, forwarding, transport, middleware, the dashboard and the Go client: plumbing.
- Real timers, randomised timeouts, goroutines and channels: a timeout is a step that may happen at any time, and a handler runs to its end or to a crash.
- Timing: `Availability.MajorityServes` shows that a majority can always come to serve, not when timers and the network let it.
- Sessions, CSRF, API-key hashing and login throttling: calls into cryptographic libraries.
- Metrics, health, logging, configuration, deployment, contact times of peers.
- Schema migrations beyond the sentinel entry that a fresh store holds.
- JSON decoding errors other than a command that does not decode, which fails to apply.
- Limits that the embedded database itself puts on keys (no empty key, 32768 bytes): only the two-byte length prefix of composite keys is modelled.
- The texts of rejections, the command type echoed in results, and the subject hash in audits.
- Read-only accessors for the dashboard (`RecentAudits`, `listValues`, `DebugDump`).
- Overflow of terms, indexes and policy versions at 64 bits.
- RaftServer.Node.HandleAppendEntries: requires that a request's entries carry consecutive indexes, which `RaftServer.RequestsContinue` shows of every request in every run; the program does not check it.
- RaftServer.Node.RepairLog: requires the same of the entries it merges.
- ClusterHolders.HolderKeeps: for clusters of any size, and one way only; with at most four members the condition on the term is not needed (`SmallClusters.NeverTruncated`), and with more `ClusterHolders.StepCutsIff` says of each step whether it cuts.
- RaftServer.Node.Recover: replays through the same loop as normal operation, with no waiters registered; the error texts of a failed replay are not modelled.
- GlobalBudget.NeverOverAllows: requires that no proposal was stamped with a negative time, which is what the leaders' clocks supply.
- Durability.CrashAnywhere: a message that the model's step sends together with a write may be in the network before the program hands it out; that is a message which has not arrived yet.
