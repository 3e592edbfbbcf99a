# pylog: Raft, the segmented log and their join

A Dafny model of the core of pylog, with proofs of the properties it is built for. Two
layers and the join between them:

- **Raft** (`pylog/raft.py`). Each handler and timer is a function on a node's state
  (`raft_steps.dfy`); the class in `raft_node.dfy` does the same in place, with the source's
  loops, and is proved to do exactly that. A cluster (`cluster.dfy`) is a transition system:
  the messages ever sent are a set, so they may be lost, doubled, delayed and reordered; any
  timer may fire at any time; a restart keeps term, vote and log, and a node may also go down in
  the middle of a merge and keep a log in between. The safety properties of
  the Raft paper (Ongaro and Ousterhout, extended version, Figure 3) are proved over whole
  runs, by an invariant that relates each node, message and applied entry to a growing
  history of votes, bids, leaders and acknowledgements (`history.dfy`, `completeness.dfy`,
  `steps_*.dfy`, `handlers_keep.dfy`, `raft_safety.dfy`).
- **The segmented commit log** (`pylog/log.py`). Files are byte sequences, the directory a
  map from base offset to bytes, the checksum any function. The segments, with their sparse
  indexes and cached counters, are one plain sequence of records, before and after any
  crash (`record.dfy` to `commit_log.dfy`). The disk keeps a journal of its operations, so
  that "a crash anywhere" is a statement about every prefix of them and every byte of a write.
- **The join** (`pylog/durable_log.py`). The second implementation of merge refines the
  first and keeps the disk an exact image of memory (`durable_log.dfy`, `durable_join.dfy`).
  Retention (`pylog/broker.py`) is a client of the log (`retention.dfy`).

## Main results

A run is any sequence of the code's own steps; it is guarded when neither of two things
happens in it, each visible in the state before the step: a candidate adds a pre-vote grant to its votes
without winning on it, and (with three members or more) a follower commits past the entries an
append has just matched.

1. The exact conditions. Election safety, log matching, true match indexes and the agreement of a
   repaired follower with its leader each hold in every run **if and only if** pre-vote is off or
   there are at most three members, whatever the batch bound. Leader completeness, state machine
   safety, replica agreement, commit durability and the keeping of committed entries each hold in
   every run **if and only if**, besides, batches are unlimited or there are at most two members
   (`RaftLimits`).
2. `RaftSafety.GuardedRunsAreSafe`: with any parameters every guarded run is safe. The first of the
   two guards alone is enough for election safety, log matching and true match indexes.
3. `RaftRepair.RunsCanRepair`: in every state of every run a leader's exchange with a member of no
   later term is accepted within one refusal more than that member's log has distinct terms.
4. `CommitLogs.CommitLog.AppendMany`, `Read`, `TruncateFrom`: the log refines a plain sequence;
   a crash at any byte of an addition leaves the old log and a prefix of the batch; a crash while
   opening changes nothing.
5. `LogCrashes.TruncationCrash`, `TruncatesSafely`: a crash in a truncation leaves a log exactly when
   it did not come between two deletions, and then the old log, the log up to the end of the
   segment that holds the offset, or the finished one. So all crash points are safe exactly when
   at most one segment lies behind the one that holds the offset.
6. `DurableLogs.DurableRaftLog.Merge` and `DurableJoin.RunsMergeAlike`: the durable merge is the
   in-memory merge on every append (of payloads within the limit) that any run can deliver, and a crash anywhere in it, under the
   condition of result 5, leaves every entry before the first gap and then some old or some new
   ones. `DurableJoin.CrashedMergeIsAStep`: coming up with such a log is a step of the runs that
   results 1 to 3 are about.
7. `HandlerLaws`: what each handler owes, over node and message alone: a vote or pre-vote is granted
   exactly when it must be, a leader commits exactly the greatest index it may, everything committed
   is applied once and in order, an append is taken, answered and backed off exactly so far.
   `Replicas.ReadsAnswerLastWrites`: in every guarded run every read answers the last write before it.

## Where the code and its documentation differ

The model follows the code.

- `ARCHITECTURE.md` presents pre-vote and batches of up to 256 entries, the constructor's
  defaults (`pylog/raft.py:159-160`), as keeping Raft's guarantees. Pre-vote grants are added to the
  same set as real votes (`pylog/raft.py:274`, `pylog/raft.py:423`), and a follower commits up
  to its last index, not up to the entry just matched (`pylog/raft.py:481`). `PrevoteLimit`,
  `UnevenLimit` and `BatchLimit` give the runs; result 1 gives the exact conditions.
- `pylog/log.py` says a crash cannot corrupt earlier records. For additions that is result 4;
  for a truncation across segments result 5 says when it holds.
- A payload over 64 MiB is written without complaint and can never be read back
  (`pylog/log.py:31`, `pylog/log.py:60`): `Records.RoundTripExactly`. `Oversized` says what it
  does to the log; adding to it is stated for payloads within that limit.
- `retention_sweep` counts one for a turn that drops two segments (`pylog/broker.py:75-76`):
  `Retention.ShrunkBy` says when the count is right.

## Model

| member | source | states |
|---|---|---|
| RaftLogs.RaftLog.AppendEntry | pylog/raft.py:61-64 | the log grows by exactly one entry, of the given term, numbered one past the last, and stays contiguous |
| RaftLogs.ConflictTermFirstIndex | pylog/raft.py:80-86 | the two back-scans compute the conflict hint that `ConflictHintMeans` characterises |
| RaftLogs.RaftLog.Merge | pylog/raft.py:88-112 | the loop with its in-place cut and appends computes the outcome and the log that `MergeTakesLeader` and `RefusalHint` are about, and keeps the log contiguous |
| LogMerges.FirstGapMeans | pylog/raft.py:96-105 | the insertion point is the first incoming entry the log does not hold by term: everything before it is held, and it is not |
| LogMerges.MergedMeans | pylog/raft.py:88-112 | entry by entry, for any two logs: untouched when everything incoming is held by term, otherwise the log up to the first entry that is missing or differs, then exactly the incoming entries, numbered on, and nothing behind |
| LogMerges.MergeTakesLeader | pylog/raft.py:88-112 | merging a slice of a log that agrees wherever terms meet leaves a log that starts with the sender's up to the end of the slice, is either untouched or exactly that prefix, and keeps every prefix the two already shared |
| StateMachine.KVStore.Apply | pylog/statemachine.py:11-17 | one command changes the store and answers as `WriteFrame` and `ReadFrame` say |
| StateMachine.WriteFrame | pylog/statemachine.py:11-16 | a write sets its key, answers it, counts once, and leaves every other key's presence and value as they were |
| StateMachine.ReadFrame | pylog/statemachine.py:11-17 | a command without `=` changes no key, counts once, and answers what its key holds, or that it holds nothing |
| Replicas.OnlyCommandsExecute | pylog/raft.py:676-709 | the no-op, configuration entries and the empty payload change nothing and are not answered; everything else is executed |
| Replicas.LastWriteIsRead | pylog/statemachine.py:11-17 | after any log a key reads as the value of the last write to it |
| Replicas.NeverWrittenIsNone | pylog/statemachine.py:11-17 | and as nothing when there is no such write |
| Replicas.CommandsAreCounted | pylog/statemachine.py:9-12 | the count is the number of commands in the log |
| Replicas.ReadsAnswerLastWrites | pylog/raft.py:668-709 | in every guarded run every read ever applied answered the last write before it, in the log of every node that has committed that far |
| StateMachine.WriteThenRead | pylog/statemachine.py:11-17 | a value written under a key without `=` is read back whole, even when it contains `=` |
| StateMachine.KVStore.Restore | pylog/statemachine.py:25-27 | the store becomes what the snapshot records, a missing field its initial value |
| StateMachine.CarryOver | pylog/statemachine.py:22-27 | a snapshot of one store restored into another, whatever that held, makes both equal, and the next command leaves them equal with the same answer |
| RaftNodes.DurableState.Save | pylog/raft.py:133-143 | term and vote are both replaced |
| RaftNodes.RaftNode.constructor | pylog/raft.py:168-205 | a node starts, or restarts, as a follower with commit and applied index 0 and only its persisted term, vote and log |
| RaftNodes.RaftNode.SendAppend | pylog/raft.py:592-624 | sends the peer the entries from its next index on, the term before them and the commit index; nothing else changes |
| HandlerLaws.AppendCarries | pylog/raft.py:592-624 | the message carries exactly the entries from the next index on that the bound allows, the term before them and the commit index |
| RaftNodes.RaftNode.CountHolders | pylog/raft.py:652-658 | counts the tracked members whose match index reaches the candidate |
| RaftNodes.RaftNode.AdvanceCommit | pylog/raft.py:626-666 | the downward scan takes the step that `CommitIsGreatest` characterises, or changes nothing |
| HandlerLaws.CommitIsGreatest | pylog/raft.py:628-666 | in every state the new commit index is the greatest above the old one whose entry is of the leader's term and that the leader and the members known to hold it, more than half, have; or the old one if there is none |
| RaftNodes.RaftNode.ApplyCommitted | pylog/raft.py:668-713 | the loop applies and reports what `AppliesAllCommitted` says |
| HandlerLaws.AppliesAllCommitted | pylog/raft.py:668-713 | everything committed is applied once and in order; each entry but configuration entries is reported with the answer that replaying all before it gives; the store is the replay of the committed prefix |
| RaftNodes.RaftNode.Propose | pylog/raft.py:347-354 | a leader not handing over appends, tries to commit and sends to every peer; anyone else changes nothing and returns nothing |
| HandlerLaws.ProposalIsTaken | pylog/raft.py:347-354 | a leader not handing over gains exactly the entry, in its own term, and sends to every other member; anyone else does nothing |
| RaftNodes.RaftNode.TransferLeadership | pylog/raft.py:356-362 | only a leader, and only to a peer, records the transfer and sends the hand-over message |
| HandlerLaws.TransferStopsProposals | pylog/raft.py:347-362 | a leader that hands over tells the target and proposes nothing meanwhile |
| HandlerLaws.ExpiredTransferEnds | pylog/raft.py:241-248 | a leader whose transfer has expired sends to every other member and can propose again |
| RaftNodes.RaftNode.StartPrevoteOrElection | pylog/raft.py:268-290 | asks for pre-votes first when the flag is on and none is running, otherwise stands for election |
| RaftNodes.RaftNode.StartElection | pylog/raft.py:292-311 | opens a new term with its own vote, asks every peer, and leads at once when alone |
| HandlerLaws.ElectionIsOpened | pylog/raft.py:292-311 | among two members or more: the next term, one's own vote alone, no leader, and one request to every other member with the term and index of one's last entry |
| RaftNodes.RaftNode.TrackPeers | pylog/raft.py:324-328 | exactly the peers are tracked, each from match 0 and the end of the log |
| RaftNodes.RaftNode.BecomeLeader | pylog/raft.py:317-332 | takes office, proposes the no-op of its term and sends to every peer |
| RaftNodes.RaftNode.StepDown | pylog/raft.py:336-342 | becomes a follower; the vote is cleared only with a later term |
| RaftNodes.RaftNode.Tick | pylog/raft.py:239-256 | what each timer does to a leader and to the others, whichever are due |
| HandlerLaws.LeaderTimers | pylog/raft.py:249-255 | a heartbeat goes to every other member; a lost quorum makes the leader a follower of its own term; with nothing due nothing happens |
| HandlerLaws.ElectionTimer | pylog/raft.py:255-290 | with pre-vote the node first asks in the next term's name without leaving its own; asked already, or without pre-vote, it stands |
| RaftNodes.RaftNode.OnPrevote | pylog/raft.py:406-417 | answers as `PrevoteIsGrantedExactly` says and changes nothing |
| HandlerLaws.PrevoteIsGrantedExactly | pylog/raft.py:406-417 | a pre-vote is granted if and only if its term is later, the candidate's log is fresh enough, and the node does not follow a leader it has heard from lately |
| HandlerLaws.LiveLeaderIsNotDisturbed | pylog/raft.py:410-413 | a follower that hears a live leader never grants one |
| RaftNodes.RaftNode.OnPrevoteResp | pylog/raft.py:419-428 | a grant of the running pre-vote is counted, and a majority starts the election |
| RaftNodes.RaftNode.OnVote | pylog/raft.py:430-451 | answers and votes as `VoteIsGrantedExactly` says, saved before it is answered; older terms are refused |
| HandlerLaws.FreshnessIsLexicographic | pylog/raft.py:438-439 | a later last term is fresh enough whatever the lengths, an equal one if and only if the index is not smaller, an earlier one never |
| HandlerLaws.FreshnessIsTotal | pylog/raft.py:260-266 | of any two logs at least one is fresh enough for the other, and both are exactly when last term and length are equal |
| HandlerLaws.VoteIsGrantedExactly | pylog/raft.py:436-451 | at its own term or a later one a node grants its vote if and only if that comparison holds and no vote for another stands, answers once in that term, and then its vote stands |
| HandlerLaws.OldVoteIsDenied | pylog/raft.py:432-435 | a request of an earlier term is denied and changes nothing |
| RaftNodes.RaftNode.OnVoteResp | pylog/raft.py:453-458 | a candidate counts a grant of its term and leads with a majority |
| HandlerLaws.MajorityTakesOffice | pylog/raft.py:313-332 | a candidate with more than half of the votes leads, with a no-op of its term in its log and sent to every other member, each tracked from 0 and the end of the log; short of that it only counts |
| HandlerLaws.MajorityOpensElection | pylog/raft.py:419-428 | a grant of the running pre-vote that makes more than half opens the election; any other answer counts at most |
| RaftNodes.RaftNode.OnAppend | pylog/raft.py:460-493 | refuses older terms; otherwise follows, merges, takes over the commit index as far as its log reaches and answers |
| HandlerLaws.AppendIsTaken | pylog/raft.py:472-493 | an append of no earlier term makes the node a follower of its sender; it is merged if and only if what it follows is there, and then the commit index rises to the sender's as far as the log reaches; the one answer says which and how far the logs agree |
| RaftNodes.RaftNode.OnAppendResp | pylog/raft.py:495-509 | records, backs off or steps down as `SuccessIsRecorded`, `RefusalBacksOff` and `AnswersOfOtherTerms` say |
| HandlerLaws.SuccessIsRecorded | pylog/raft.py:502-505 | what is known of that peer rises and never falls, nothing else is recorded, and a commit is tried |
| HandlerLaws.RefusalBacksOff | pylog/raft.py:506-509 | the peer's next index goes exactly to the hint when that is behind it, otherwise one back but not below the first entry, and the next request goes out at once |
| HandlerLaws.AnswersOfOtherTerms | pylog/raft.py:495-499 | an answer of a later term ends leadership or candidacy, one of an earlier term means nothing |
| RaftNodes.RaftNode.OnTimeoutNow | pylog/raft.py:525-527 | a non-leader told to take over stands for election |
| RaftNodes.RaftNode.Handle | pylog/raft.py:403-404 | each message is given to its handler: the object's step is the step the cluster proofs are about |
| Completeness.UpToDateHolds | pylog/raft.py:260-266 | a log judged at least as up to date as one that holds an entry of term t holds it too, when every leader since t started with it |
| Completeness.VoterHadIt | pylog/raft.py:430-451 | a vote for a later leader by a node that acknowledged a chosen entry: the winner's log held that entry |
| Completeness.ChosenIsKept | pylog/raft.py:626-666 | whatever a majority acknowledged in the leader's own term is in the starting log of every later leader |
| LeaderKeeps.NoSecondLeader | pylog/raft.py:313-334 | a candidate with a majority of votes for its term is the first leader of that term |
| HandlersKeep.NextKeeps | pylog/sim.py:133-157 | every step in which no candidate keeps a pre-vote grant, restarts and crashes inside a merge included, keeps the invariant that relates nodes, messages and applied entries to the history, and history only grows; what the invariant says of commitment lasts exactly as long as no follower has committed past its match |
| HandlersKeep.CrashKeeps | pylog/durable_log.py:60-89 | so does a node that comes up again in the message's term with what a crash inside a merge left of its log: all entries before the first gap, then some of what was there or of what was to come |
| RaftSafety.ElectionSafety | pylog/raft.py:430-458 | with any batch bound, over every run in which no candidate keeps a pre-vote grant among its votes, at most one node ever leads a term, restarts and forced elections included |
| RaftSafety.LogMatching | pylog/raft.py:88-112 | in the same runs any two logs at any two moments with the same term at an index are identical up to it, payloads included |
| RaftSafety.LeaderCompleteness | pylog/raft.py:626-666 | in every guarded run what a node has committed in a term is in the log of every leader of a later term |
| RaftSafety.StateMachineSafety | pylog/raft.py:668-709 | in every guarded run no two applications of one index, by any nodes or by one node before and after a restart, differ in payload or answer |
| RaftSafety.ReplicaAgreement | pylog/statemachine.py:11-17 | in every guarded run applied <= commit <= last index, and every replica equals the replay of its log up to its applied index, so replicas at the same applied index are equal |
| RaftSafety.CommitDurability | pylog/raft.py:651-666 | at every moment of a guarded run a majority holds everything that any node has committed |
| RaftSafety.TruthfulReplication | pylog/raft.py:495-503 | in the same runs a leader's match index for a peer is within the leader's log, and the peer agrees with the leader up to it unless it has moved to a later term |
| RaftSafety.GuardedRunsAreSafe | pylog/sim.py:133-157 | all seven properties hold of every guarded run: no candidate keeps a pre-vote grant among its votes and (with three members or more) no follower commits past the append it matched |
| RaftSafety.SeparateRunsAreApart | pylog/raft.py:268-290 | without pre-vote, or with at most three members, no run keeps a pre-vote grant among a candidate's votes |
| RaftSafety.PlainRunsAreSafe | pylog/raft.py:159-160 | with unlimited batches (or at most two members) and no pre-vote (or at most three members) every run is safe |
| RaftProgress.RunsKeepVotes | pylog/raft.py:430-451 | in every run, whatever its parameters, no step lowers a term or changes a vote within a term, not even a restart or a crash inside a merge |
| RaftProgress.RunsKeepGround | pylog/raft.py:460-493 | in every guarded run no step deletes an entry at or below its node's commit index, not even a restart or a crash inside a merge, and between restarts commit and applied index never fall |
| Bookkeeping.MergedSound | pylog/raft.py:88-112 | merging a well-numbered append whose terms are in order into such a log leaves such a log |
| Bookkeeping.RunsStaySound | pylog/raft.py:592-624 | in every run logs are numbered from 1 and ordered by term up to their node's own, appends are so too, and no leader tracks, is sent or has sent an index past its own log |
| PrevoteLimit.PrevoteElectsTwo | pylog/raft.py:419-428 | with pre-vote and four members or more, some run has two leaders of one term |
| PrevoteLimit.PrevoteForksLogs | pylog/raft.py:419-428 | in some such run the two leaders hold different entries of one term at one index |
| PrevoteLimit.PrevoteMisleads | pylog/raft.py:495-503 | with any batch bound, in some such run a leader counts as matched an entry that the follower holds otherwise, because merge compares terms only |
| PrevoteLimit.PrevoteMisrepairs | pylog/raft.py:495-509 | in such a run a repair ends with the follower holding other entries than the leader |
| PrevoteLimit.PrevoteTears | pylog/raft.py:96-105 | with unlimited batches, in some such run both leaders get their entry acknowledged by all others and apply it |
| UnevenLimit.PrevoteErases | pylog/raft.py:460-493 | with pre-vote, four members or more and any batch bound, in some run a leader that has committed an entry deletes it on an append of the other leader of its term |
| BatchLimit.BoundedBatchesDiverge | pylog/raft.py:479-482 | with any batch bound and three members or more, in some run a follower applies a stale entry where the leader has applied its own |
| BatchLimit.BoundedBatchesErase | pylog/raft.py:96-112 | and the leader's next append makes the follower delete it again |
| Rifts.TornBreaks | pylog/raft.py:668-709 | the state such a run ends in refutes leader completeness, state machine safety, replica agreement and commit durability at once |
| RaftLimits.ElectionSafeExactly | pylog/raft.py:159-160 | every run is election safe if and only if pre-vote is off or there are at most three members |
| RaftLimits.LogsMatchExactly | pylog/raft.py:159-160 | log matching holds in every run under exactly the same condition |
| RaftLimits.MatchesAreTrueExactly | pylog/raft.py:159-160 | match indexes are true in every run under exactly the same condition |
| RaftLimits.RepairsAgreeExactly | pylog/raft.py:495-509 | that a repaired follower's log starts with the leader's holds in every run under that condition too |
| RaftLimits.CommitmentExactly | pylog/raft.py:159-160 | leader completeness, state machine safety, replica agreement and commit durability each hold in every run if and only if, besides, batches are unlimited or there are at most two members |
| RaftLimits.GroundKeptExactly | pylog/raft.py:460-493 | that committed entries stay and indexes rise between restarts holds in every run under exactly that condition |
| RaftLimits.SafeExactlyWhenPlain | pylog/raft.py:159-160 | all seven hold together in every run under exactly that condition |
| RaftRepair.ConflictHintMeans | pylog/raft.py:80-86 | in a log of ordered terms the hint for the term at an index is the first index of that term |
| RaftRepair.ReplyIsSent | pylog/raft.py:483-493 | the one message an append makes its receiver send is the reply the repair loop is about |
| RaftRepair.RefusalHint | pylog/raft.py:90-94 | a refusal leaves the log alone and its hint is past a log that is too short, or below every entry of the conflicting term |
| RaftRepair.RefusalStep | pylog/raft.py:495-509 | a refusal changes neither log, takes at least one term out of question and makes the leader send the next, lower, request |
| RaftRepair.NextProbe | pylog/raft.py:506-509 | after a refusal the leader goes back exactly to the end of a log that was too short, otherwise to just before the first entry of the conflicting term |
| RaftRepair.LaggingIsSentRest | pylog/raft.py:592-624 | a follower whose log is a prefix of the leader's is refused at most once and is then sent exactly the entries it lacks, as many as the bound allows |
| RaftRepair.AcceptanceStep | pylog/raft.py:592-624 | once a request is accepted the leader's match index says how far it reached, all of the log with unlimited batches; where the two logs agreed wherever terms meet, the follower's then starts with that much of the leader's |
| RaftRepair.RepairBound | pylog/raft.py:495-509 | in-order exchange is accepted after at most one refusal more than the follower's log has distinct terms, however the two logs relate |
| RaftRepair.RunsCanRepair | pylog/raft.py:585-590 | in every state of every run, whatever its parameters, the bound holds for any leader and any member of no later term |
| RaftRepair.MatchingRepairsAgree | pylog/raft.py:592-624 | with log matching the repaired follower's log starts with the leader's as far as the accepted request reached |
| Records.RoundTripExactly | pylog/log.py:47-67 | a packed record followed by any bytes is read back with its own size if and only if its payload is within the limit; beyond it the record is unreadable |
| Records.RecordLayout | pylog/log.py:26-48 | byte by byte: the magic, then, low byte first, length, offset, timestamp in two's complement and checksum of the payload, then the payload |
| Records.TornRecord | pylog/log.py:51-67 | no proper prefix of an encoded record is read as a record |
| Oversized.OversizedLost | pylog/log.py:132-168 | a record over the limit in the last segment: the next time the directory is opened it and everything written behind it are gone, and the log is what it was before |
| Oversized.OversizedGap | pylog/log.py:339-351 | with segments opened behind it, the directory is no log any more |
| Records.ParsedIsEncoded | pylog/log.py:51-67 | whatever is read is a storable record, and the bytes read are its encoding |
| Records.LittleEndianRoundTrip | pylog/log.py:28 | a number that fits the header field is read back |
| Scans.ScanEncoded | pylog/log.py:147-159 | a file of whole records scans back to them and goes on with whatever follows |
| Scans.TornTailDropped | pylog/log.py:147-163 | whole records and any proper prefix of one more recover to exactly the whole records |
| Scans.WholeRecordsSurvive | pylog/log.py:147-163 | whatever bytes follow whole records, recovery keeps all of those records |
| Scans.IntactIsWhole | pylog/log.py:161-163 | what recovery keeps is a prefix of the file, scans to the same records, and is kept whole by a second recovery |
| Scans.CutScansToPrefix | pylog/log.py:147-163 | a file of whole records cut at any byte scans to a prefix of them |
| Scans.ParseAt | pylog/log.py:147-159 | reading at the start of record k gives record k, and past the last one gives nothing |
| SegmentModel.BuiltIndexOk | pylog/log.py:123-130 | the sparse index points at record starts, begins at the first record, has its entries an interval apart or more, and leaves every record less than an interval after the entry before it |
| SegmentModel.CutIndexIsBuilt | pylog/log.py:284-287 | filtering the index at a truncation gives the index recovery would build from the shortened file |
| SegmentModel.CoherentGrows | pylog/log.py:175-192 | adding a record keeps the cached fields equal to what the file's records make them, and adds exactly that record |
| SegmentModel.TruncatedIsCoherent | pylog/log.py:266-291 | so does truncating at any record; the file becomes a prefix of itself |
| SegmentModel.CoherentIsRecovered | pylog/log.py:156-167 | a segment's index, last indexed position, size and next offset are those recovery would rebuild; its timestamp bound is at least recovery's |
| SegmentModel.RecoveredAgain | pylog/log.py:132-168 | recovering twice gives what recovering once gives |
| SegmentModel.LinearScanFinds | pylog/log.py:194-236 | a linear scan from byte 0 finds the record at an offset, the same that the indexed read returns |
| Segments.Segment.MaybeIndex | pylog/log.py:123-130 | an entry is added exactly when the index is empty or the last indexed record is an interval away |
| Segments.Segment.Recover | pylog/log.py:132-168 | for any file at all: everything is rebuilt from its intact records and the file is cut to them |
| Segments.Segment.Append | pylog/log.py:175-192 | one write, and every cached field as the reference function has it |
| Segments.Segment.AppendChunk | pylog/log.py:399-406 | one write for several records, then each indexed and counted as if added singly |
| Segments.Segment.Bisect | pylog/log.py:197-204 | the binary search counts the index entries at or before a record |
| Segments.Segment.SeekStart | pylog/log.py:197-205 | the scan starts at the start of a record at or before the target, less than an interval of bytes before it |
| Segments.Segment.Read | pylog/log.py:194-236 | the record at the offset, or none outside the segment |
| Segments.Segment.PositionOf | pylog/log.py:238-264 | the byte where the record at the offset starts, or none outside the segment |
| Segments.Segment.TruncateFrom | pylog/log.py:266-291 | exactly the records before the offset stay; reports whether that changed anything; the file is only shortened, by at most one operation |
| LogModel.ContentsShape | pylog/log.py:317-337 | the segments' records have consecutive offsets from the first base to the last segment's next offset, without a gap |
| LogModel.LookupFinds | pylog/log.py:417-425 | the last segment whose base is not after an offset has its record if any segment has; the fallback to the one before finds nothing more |
| LogModel.RecordAtMeans | pylog/log.py:417-425 | what is read at an offset is the one record of the log with that offset |
| LogModel.KeptMeans | pylog/log.py:438-457 | truncation keeps exactly the records before the offset, and all when it is before the first |
| CommitLogs.RangeMeans | pylog/log.py:427-436 | a range is as many records as limit and end allow, the first of them at its start |
| LogModel.ReopenedSame | pylog/log.py:339-351 | reopening the files of a log gives its records back |
| LogModel.HalfReopens | pylog/log.py:132-168 | a directory some of whose files are already cut to their intact records opens exactly as the uncut one |
| LogModel.ReopenedTail | pylog/log.py:339-351 | reopening when the last file was being continued gives the log and some first records of what was being written |
| LogModel.TailDropped | pylog/log.py:438-457 | cutting the segment that holds an offset and dropping the later ones leaves exactly the records before it |
| LogCrashes.MidwayWrites | pylog/log.py:399-406 | a crash at any byte of a chunk's write leaves the old log and some first records of the batch |
| LogCrashes.MidwayRolls | pylog/log.py:410-412 | so does a crash before or after a new segment's file is created |
| LogCrashes.InterruptedTruncation | pylog/log.py:445-449 | after k of m deletions the directory is a log if and only if k is 0 or m, then with all its records or those up to the end of the segment that is to be cut; otherwise reopening finds a gap |
| LogCrashes.TruncationCrash | pylog/log.py:445-457 | a crash anywhere in a whole truncation, its final cut included, leaves a log if and only if it did not come between two deletions, and then the old log, the log up to the end of the segment that holds the offset, or the finished one |
| LogCrashes.TruncatesSafely | pylog/log.py:438-457 | read before the call: every crash point of a truncation leaves a log if and only if at most one segment lies behind the one that holds the offset |
| LogCrashes.FrontCrash | pylog/log.py:459-473 | a crash anywhere while segments in front are deleted leaves the log without some first segments |
| CommitLogs.CommitLog.constructor | pylog/log.py:320-331 | for any directory: the segments are what recovery makes of its files in the order of their bases; a log when those tile; a crash anywhere in between leaves a directory that opens in the same way |
| CommitLogs.CommitLog.Recover | pylog/log.py:339-351 | each file is replayed, and an empty directory gets an empty segment at 0 |
| CommitLogs.CommitLog.Gather | pylog/log.py:387-398 | one write takes the first record in any case and then exactly as many as keep the segment within its limit |
| CommitLogs.CommitLog.Append | pylog/log.py:356-366 | the contents grow by exactly the record; a new segment is opened exactly when the last one has reached its limit; a crash anywhere leaves the old log or the new one |
| CommitLogs.CommitLog.AppendMany | pylog/log.py:368-415 | the contents grow by exactly the batch, each payload with its own timestamp at the next offset; a crash anywhere leaves the old log and some first records of the batch |
| CommitLogs.CommitLog.SegmentFor | pylog/log.py:418-419 | the last segment whose base is not after the offset, or none |
| CommitLogs.CommitLog.Read | pylog/log.py:417-425 | the record of the plain sequence at the offset, or none outside it |
| CommitLogs.CommitLog.ReadRange | pylog/log.py:427-436 | the records of the plain sequence from the offset on, up to the limit or the end |
| CommitLogs.CommitLog.TruncateFrom | pylog/log.py:438-457 | exactly the records before the offset stay, all of them when it is before the first; reports a change if and only if a record or a segment went; a crash anywhere leaves what `TruncationCrash` and `TruncatesSafely` say |
| CommitLogs.CommitLog.TruncateSegmentsBefore | pylog/log.py:459-473 | a suffix of the segments stays, never without the last; its records and the next offset are unchanged; a crash anywhere leaves a log without some of the segments to go |
| DurableLogs.PayloadRoundTrip | pylog/durable_log.py:22-28 | term and payload are read back from the prefixed blob |
| DurableLogs.PayloadLayout | pylog/durable_log.py:19-24 | byte by byte: the term in eight bytes, high byte first, then the payload |
| DurableLogs.PayloadOnto | pylog/durable_log.py:22-28 | every blob of eight bytes or more is the encoding of what it decodes to |
| DurableLogs.DurableRefines | pylog/durable_log.py:51-93 | on correctly numbered entries the second merge returns the same result and leaves the same log as the first |
| DurableLogs.MisnumberedEntryLost | pylog/durable_log.py:75-84 | numbering matters: an entry with too low an index is dropped by the one merge and kept by the other |
| DurableJoin.RunsMergeAlike | pylog/durable_log.py:51-93 | in every run, whatever its parameters, every append sent is correctly numbered and every log is, so a node on a durable log merges it as the in-memory node does |
| DurableJoin.CrashedMergeIsAStep | pylog/durable_log.py:60-89 | in every run, whatever log a crash inside such a merge leaves on disk, other than between two deletions, coming up with it is a step of the protocol model, so the theorems about runs cover it |
| DurableLogs.DurableRaftLog.Coherence | pylog/durable_log.py:41-45 | next offset == number of entries == last index; entry i is at offset i - 1 as exactly its encoding |
| DurableLogs.DurableRaftLog.constructor | pylog/durable_log.py:32-39 | opening a directory gives the entries its records encode; a crash anywhere in between leaves a directory that opens in the same way |
| DurableLogs.DurableRaftLog.Reopens | pylog/durable_log.py:32-39 | at any time the files on disk would reopen to exactly the entries in memory |
| DurableLogs.DurableRaftLog.AppendEntry | pylog/durable_log.py:41-45 | memory and disk grow by the entry; a crash anywhere reopens to the old entries or the new ones |
| DurableLogs.DurableRaftLog.CutAtGap | pylog/durable_log.py:60-72 | memory and disk are cut at the first entry that is missing or differs by term; a crash anywhere leaves what `TruncationCrash` says |
| DurableLogs.DurableRaftLog.AddFresh | pylog/durable_log.py:74-89 | the incoming entries past the end are added to memory and disk; a crash anywhere reopens to the kept entries and some first new ones |
| DurableLogs.MergeRecovers | pylog/durable_log.py:60-89 | a truncation and an addition that each withstand crashes make a merge that does; every crash point of it leaves a log if and only if at most one segment lies behind the one that the first gap falls into |
| DurableLogs.DurableRaftLog.Merge | pylog/durable_log.py:51-93 | the result and log of the merge as written, equal to the in-memory merge on correctly numbered entries; memory and disk stay coherent; a crash anywhere leaves a directory that opens if and only if it did not come between two deletions, and then with every entry before the first gap, followed by some that were there or by some first new ones |
| Retention.DroppedAreOld | pylog/broker.py:57-68 | every record of the expired leading segments is older than the limit, because the segment's timestamp bound covers its records |
| Retention.TotalIsBytes | pylog/broker.py:70-74 | the sizes the segments keep add up to the bytes of their records on disk |
| Retention.Partition.Size | pylog/broker.py:70-74 | the total is the length of the encoding of all records of the log |
| Retention.Partition.ReadAfter | pylog/broker.py:40-49 | the records after an offset, or from 0 on for a negative one, up to the limit or the end |
| Retention.Partition.AgePass | pylog/broker.py:57-68 | exactly the expired leading segments go; no record within the age limit is dropped |
| Retention.Partition.DropPair | pylog/broker.py:75-76 | one turn of the size loop drops two segments, or one when there are two, though it counts one |
| Retention.ShrunkBy | pylog/broker.py:70-77 | the count of the size loop equals the number of segments dropped if and only if the log was within the budget or had at most two segments |
| Retention.Partition.BudgetPass | pylog/broker.py:70-77 | ends with the bytes of the log's records within the budget or with one segment; drops twice what it counts or all but the last segment, whichever is less; at every turn the bytes left were over the budget |
| Retention.Partition.RetentionSweep | pylog/broker.py:51-77 | what stays is a suffix of the segments with its records and the next offset unchanged, the active one included, its bytes within the budget or in one segment; the expired segments go, counted one by one, and only they when the rest is within the budget or none is set; beyond them the size loop's count and drop are as exact as `BudgetPass` states |

## Left out

- Snapshots, log compaction and InstallSnapshot: `first_index` is 1 throughout.
- Membership change: the members are fixed, clients propose no configuration entries, and the joint-majority branches are not modelled.
- Lease reads and the clock: which timers are due, whether a leader was heard recently and whether a quorum was lost are choices of the environment.
- A node without a state machine (`state_machine=None`): it would propose no no-op and report nothing.
- The simulator's own restart, which sets the commit index to the whole saved log (`pylog/sim.py:89`): restart is the constructor's.
- StateMachine.KVStore.Apply: payloads are bytes; decoding them as text, and the error that invalid text raises, are not modelled. Names are numbers.
- RaftNodes.DurableState.Save: how term and vote reach the file system (temporary file, fsync, rename) is not modelled; saving is one step.
- RaftNodes.RaftNode.ApplyCommitted: an applied configuration entry changes no membership, and no snapshot is taken automatically.
- RaftNodes.RaftNode.OnAppendResp: an answer from an untracked sender raises KeyError after noting the time; here it leaves the node unchanged.
- RaftNodes.RaftNode.Handle: InstallSnapshot messages have no case.
- The index sidecar file, which is written but never read back; memory mapping, file handles and fsync timing.
- Real CRC-32: the checksum is an arbitrary function, so detecting a corrupted payload is not claimed.
- Corruption inside sealed segments, and junk after the intact records that happens to parse as further records of other offsets: recovery of the segment is stated for all files, reading it only for consecutive offsets.
- CommitLogs.CommitLog.Append: payloads over 64 MiB, which the code writes and can never read back (`Records.RoundTripExactly`), are not covered; `Oversized` says what they do when the directory is next opened.
- CommitLogs.CommitLog.AppendMany: likewise; wall-clock timestamps are parameters, one for each payload; offsets must fit 64 bits and timestamps a signed 64-bit field, as packing demands.
- DurableLogs.DurableRaftLog.constructor: requires that the directory opens as a log from offset 0 whose payloads decode; the crash clauses of `AppendEntry` and `Merge` say that every directory the class leaves is such, also after a crash, unless it came between two deletions of one truncation.
- DurableLogs.DurableRaftLog.AppendEntry: payloads over 64 MiB less the 8 bytes of the term are not covered, for the same reason; terms must fit 64 bits, as packing demands.
- DurableLogs.DurableRaftLog.AddFresh: likewise, for every incoming entry.
- DurableLogs.DurableRaftLog.Merge: likewise, for every incoming entry.
- RaftRepair.RepairBound: is about in-order exchange with no new proposals meanwhile; with bounded batches it bounds the refusals, not the number of batches.
- Liveness under message loss, and election timing.
- Retention.Partition.AgePass: a truncated segment keeps an older, greater timestamp bound, so that it may be kept longer than its records require.
- Topics, routing, consumer groups, HTTP, sockets, metrics and the command line.
