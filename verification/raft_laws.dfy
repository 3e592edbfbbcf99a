/**
 What each handler owes its callers, over the fields of the node and of the message alone: when
 a vote must be granted and when not, how far a leader commits, what is proposed, sent and applied.
 */
module HandlerLaws {
  import opened Basics
  import opened RaftLogs
  import opened RaftSteps
  import opened Histories
  import opened LeaderKeeps
  import opened HandlersKeep

  // ------------------------------------------------------------------------ freshness

  function TermOfLast(log: seq<Entry>): nat {
    if |log| == 0 then 0 else log[|log| - 1].term
  }

  /** A later last term is fresh enough whatever the lengths, an earlier one never, and at an equal one
      the lengths decide. */
  lemma FreshnessIsLexicographic(lastTerm: nat, lastIndex: nat, log: seq<Entry>)
    requires Contiguous(log)
    ensures lastTerm > TermOfLast(log) ==> UpToDate(lastTerm, lastIndex, log)
    ensures lastTerm == TermOfLast(log) ==> (UpToDate(lastTerm, lastIndex, log) <==> lastIndex >= |log|)
    ensures lastTerm < TermOfLast(log) ==> !UpToDate(lastTerm, lastIndex, log)
  {
  }

  /** Of two logs at least one is fresh enough for the other, and both are only with equal ends. */
  lemma FreshnessIsTotal(x: seq<Entry>, y: seq<Entry>)
    requires Contiguous(x) && Contiguous(y)
    ensures var xy, yx := UpToDate(TermOfLast(x), |x|, y), UpToDate(TermOfLast(y), |y|, x);
            (xy || yx) && (xy && yx <==> TermOfLast(x) == TermOfLast(y) && |x| == |y|)
  {
    FreshnessIsLexicographic(TermOfLast(x), |x|, y);
    FreshnessIsLexicographic(TermOfLast(y), |y|, x);
  }

  /** `(lastTerm, lastIndex)` is at least the pair of the log's last term and length. */
  predicate AtLeast(lastTerm: nat, lastIndex: nat, log: seq<Entry>) {
    lastTerm > TermOfLast(log) || (lastTerm == TermOfLast(log) && lastIndex >= |log|)
  }

  // ----------------------------------------------------------------------------- votes

  /** The vote that still stands when a request of `term` arrives. */
  function StandingVote(s: Node, term: nat): Option<NodeId> {
    if term > s.term then None else s.votedFor
  }

  /** At its own term or a later one a node grants its vote if and only if the candidate's log is fresh
      enough and no vote for another stands; it answers in the new term, once, and keeps its vote. */
  lemma VoteIsGrantedExactly(s: Node, m: Msg)
    requires m.Vote? && m.term >= s.term && Contiguous(s.log)
    ensures var o := OnVote(Fx(s, {}, []), m);
            var grant := AtLeast(m.lastTerm, m.lastIndex, s.log)
                         && (StandingVote(s, m.term) == None || StandingVote(s, m.term) == Some(m.candidate));
            o.sent == {Packet(m.candidate, VoteResp(m.term, s.id, grant))} && o.done == []
            && o.node.term == m.term && o.node.votedFor == (if grant then Some(m.candidate) else StandingVote(s, m.term))
            && o.node.role == (if m.term > s.term then Follower else s.role)
            && o.node.log == s.log && o.node.commit == s.commit && o.node.applied == s.applied && o.node.kv == s.kv
  {
    FreshnessIsLexicographic(m.lastTerm, m.lastIndex, s.log);
  }

  /** A request of an earlier term is denied and changes nothing. */
  lemma OldVoteIsDenied(s: Node, m: Msg)
    requires m.Vote? && m.term < s.term
    ensures OnVote(Fx(s, {}, []), m) == Fx(s, {Packet(m.candidate, VoteResp(s.term, s.id, false))}, [])
  {
  }

  /** A pre-vote changes nothing and is granted if and only if the term is later, the log fresh enough, and
      the node does not follow a leader that it has heard from lately. */
  lemma PrevoteIsGrantedExactly(s: Node, m: Msg, alive: bool)
    requires m.Prevote? && Contiguous(s.log)
    ensures var grant := m.term > s.term && AtLeast(m.lastTerm, m.lastIndex, s.log)
                         && (s.role != Follower || s.leaderId == None || !alive);
            OnPrevote(Fx(s, {}, []), m, alive) == Fx(s, {Packet(m.candidate, PrevoteResp(m.term, s.id, grant))}, [])
  {
    FreshnessIsLexicographic(m.lastTerm, m.lastIndex, s.log);
  }

  /** So a follower with a live leader never grants one. */
  lemma LiveLeaderIsNotDisturbed(s: Node, m: Msg)
    requires m.Prevote? && Contiguous(s.log) && s.role == Follower && s.leaderId.Some?
    ensures forall k | k in OnPrevote(Fx(s, {}, []), m, true).sent :: k.msg == PrevoteResp(m.term, s.id, false)
  {
    PrevoteIsGrantedExactly(s, m, true);
  }

  // ------------------------------------------------------------------------- elections

  /** Standing for election: a new term with one's own vote, and a request to every other member that
      carries the end of one's log. */
  lemma ElectionIsOpened(p: Params, s: Node)
    requires Contiguous(s.log) && s.id in p.servers && |p.servers| >= 2
    ensures var o := StartElection(p, Fx(s, {}, []));
            o.done == [] && o.node.term == s.term + 1 && o.node.votedFor == Some(s.id) && o.node.votes == {s.id}
            && o.node.role == Candidate && o.node.leaderId == None && o.node.log == s.log
            && o.sent == set q | q in p.servers && q != s.id :: Packet(q, Vote(s.term + 1, s.id, |s.log|, TermOfLast(s.log)))
  {
    hide BecomeLeader;
    assert LastIndex(s.log) == |s.log| && LastTerm(s.log) == TermOfLast(s.log);
    var o1 := StandForElection(Fx(s, {}, []));
    assert Peers(p, s.id) == set q | q in p.servers && q != s.id;
  }

  /** A candidate with more than half of the members' votes, its own included, takes office: it proposes a
      no-op of its term and sends to every other member; short of that it only counts. */
  lemma MajorityTakesOffice(p: Params, s: Node, m: Msg)
    requires m.VoteResp? && s.role == Candidate && m.term == s.term && m.granted && |p.servers| >= 2
    requires Contiguous(s.log) && s.commit <= |s.log|
    ensures var o, votes := OnVoteResp(p, Fx(s, {}, []), m), s.votes + {m.from};
            if 2 * |votes| > |p.servers|
            then o.node.role == Leader && o.node.term == s.term && o.node.leaderId == Some(s.id)
                 && o.node.log == s.log + [Entry(|s.log| + 1, s.term, NOOP)] && o.node.commit == s.commit
                 && o.node.matchIndex.Keys == p.servers - {s.id} == o.node.nextIndex.Keys
                 && (forall q | q in p.servers && q != s.id ::
                       o.node.matchIndex[q] == 0 && o.node.nextIndex[q] == |s.log| + 1
                       && Packet(q, AppendFor(p, o.node, q)) in o.sent)
            else o == Fx(s.(votes := votes), {}, [])
  {
    hide AppendFor;
    var o1 := Fx(s.(votes := s.votes + {m.from}), {}, []);
    if 2 * |o1.node.votes| > |p.servers| {
      assert LastIndex(s.log) == |s.log|;
      OfficeTaken(p, o1);
    }
  }

  /** Denials, answers of other terms and answers to nobody's candidacy mean nothing. */
  lemma OtherVotesMeanNothing(p: Params, s: Node, m: Msg)
    requires m.VoteResp? && (s.role != Candidate || m.term != s.term || !m.granted)
    ensures OnVoteResp(p, Fx(s, {}, []), m) == Fx(s, {}, [])
  {
    hide BecomeLeader;
  }

  lemma OfficeTaken(p: Params, o: Fx)
    requires |p.servers| >= 2 && o.done == [] && o.sent == {}
    ensures var s, o' := o.node, BecomeLeader(p, o);
            o'.node.role == Leader && o'.node.term == s.term && o'.node.leaderId == Some(s.id)
            && o'.node.log == s.log + [Entry(LastIndex(s.log) + 1, s.term, NOOP)] && o'.node.commit == s.commit
            && o'.node.matchIndex.Keys == Peers(p, s.id) == o'.node.nextIndex.Keys
            && forall q | q in Peers(p, s.id) ::
                 o'.node.matchIndex[q] == 0 && o'.node.nextIndex[q] == LastIndex(s.log) + 1
                 && Packet(q, AppendFor(p, o'.node, q)) in o'.sent
  {
    hide AppendFor, AdvanceCommit;
    var o1 := AppendEntry(TakeOffice(p, o), NOOP);
    NothingMatched(p, o1);
  }

  lemma NothingMatched(p: Params, o: Fx)
    requires |p.servers| >= 2 && forall q | q in o.node.matchIndex :: o.node.matchIndex[q] == 0
    ensures AdvanceCommit(p, o) == o
  {
    var s := o.node;
    forall c | s.commit < c <= LastIndex(s.log)
      ensures !CanCommit(p, s, c)
    {
      assert Holders(p, s, c) == {};
    }
    CommitPointMeans(p, s, LastIndex(s.log));
  }

  /** A pre-vote grant of the running pre-vote that makes a majority opens the election; other answers
      count at most. */
  lemma MajorityOpensElection(p: Params, s: Node, m: Msg)
    requires m.PrevoteResp?
    ensures var o := OnPrevoteResp(p, Fx(s, {}, []), m);
            var votes := if m.granted then s.votes + {m.from} else s.votes;
            if !s.preCandidate || m.term != s.prevoteTerm then o == Fx(s, {}, [])
            else if 2 * |votes| > |p.servers|
            then o == StartElection(p, Fx(s.(votes := votes, preCandidate := false), {}, []))
            else o == Fx(s.(votes := votes), {}, [])
  {
    hide StartElection;
  }

  // ------------------------------------------------------------------------- committing

  /** Entry `c` is in the log, of the current term, and the leader with the members known to hold it are
      more than half. */
  predicate MayBeCommitted(servers: set<NodeId>, s: Node, c: nat) {
    1 <= c <= |s.log| && s.log[c - 1].term == s.term
    && 2 * (1 + |set q | q in servers && q in s.matchIndex && s.matchIndex[q] >= c|) > |servers|
  }

  /** The new commit index is the greatest such index above the old one, or the old one if there is none;
      nothing but commit, applied and the store changes. */
  lemma CommitIsGreatest(p: Params, o: Fx)
    requires Contiguous(o.node.log)
    ensures var s, s' := o.node, AdvanceCommit(p, o).node;
            s.commit <= s'.commit
            && (s.commit < s'.commit ==> MayBeCommitted(p.servers, s, s'.commit))
            && (forall c | s'.commit < c :: !MayBeCommitted(p.servers, s, c))
            && s' == s.(commit := s'.commit, applied := s'.applied, kv := s'.kv)
            && AdvanceCommit(p, o).sent == o.sent
            && (s.commit == s'.commit ==> AdvanceCommit(p, o) == o)
  {
    hide ApplyCommitted, CanCommit, MayBeCommitted;
    var s := o.node;
    CommitPointMeans(p, s, LastIndex(s.log));
    assert LastIndex(s.log) == |s.log|;
    var k := CommitPoint(p, s, LastIndex(s.log));
    forall c | k < c
      ensures !MayBeCommitted(p.servers, s, c)
    {
      CommitTest(p, s, c);
    }
    CommitTest(p, s, k);
    if k > s.commit {
      ApplyCommittedFrame(o.(node := s.(commit := k)));
    }
  }

  lemma CommitTest(p: Params, s: Node, c: nat)
    ensures 1 <= c <= |s.log| ==> (CanCommit(p, s, c) <==> MayBeCommitted(p.servers, s, c))
    ensures c > |s.log| ==> !MayBeCommitted(p.servers, s, c)
  {
    assert Holders(p, s, c) == set q | q in p.servers && q in s.matchIndex && s.matchIndex[q] >= c;
  }

  // --------------------------------------------------------------------------- applying

  /** What applying the entries after `from` up to `upto` reports: each but configuration entries, in
      order, with the answer that replaying everything before it gives. */
  function Reports(id: NodeId, log: seq<Entry>, from: nat, upto: nat): seq<Applied>
    requires upto <= |log|
    decreases upto
  {
    if from >= upto then [] else Reports(id, log, from, upto - 1) + Report(id, log, upto - 1)
  }

  function Report(id: NodeId, log: seq<Entry>, k: nat): seq<Applied>
    requires k < |log|
  {
    if CONFIG <= log[k].payload then []
    else [Applied(id, log[k].index, log[k].payload, ApplyEntry(Replay(log[..k]), log[k]).1)]
  }

  lemma {:induction false} ReportsFirst(id: NodeId, log: seq<Entry>, from: nat, upto: nat)
    requires from < upto <= |log|
    ensures Reports(id, log, from, upto) == Report(id, log, from) + Reports(id, log, from + 1, upto)
    decreases upto
  {
    hide Report;
    if upto > from + 1 {
      ReportsFirst(id, log, from, upto - 1);
    }
  }

  /** Everything committed is applied, exactly once and in order; the store is then what replaying the
      committed prefix gives. */
  lemma {:induction false} AppliesAllCommitted(o: Fx)
    requires o.node.applied <= o.node.commit <= |o.node.log| && o.node.kv == Replay(o.node.log[..o.node.applied])
    ensures var s, o' := o.node, ApplyCommitted(o);
            o'.node == s.(applied := s.commit, kv := Replay(s.log[..s.commit])) && o'.sent == o.sent
            && o'.done == o.done + Reports(s.id, s.log, s.applied, s.commit)
    decreases o.node.commit - o.node.applied
  {
    hide ApplyOne, Replay, Reports, Report;
    var s := o.node;
    if s.applied < s.commit {
      ApplyOneReports(o);
      AppliesAllCommitted(ApplyOne(o));
      ReportsFirst(s.id, s.log, s.applied, s.commit);
    } else {
      ReportsNone(s.id, s.log, s.applied, s.commit);
    }
  }

  lemma ReportsNone(id: NodeId, log: seq<Entry>, from: nat, upto: nat)
    requires upto <= |log| && upto <= from
    ensures Reports(id, log, from, upto) == []
  {
  }

  lemma ApplyOneReports(o: Fx)
    requires o.node.applied < |o.node.log| && o.node.kv == Replay(o.node.log[..o.node.applied])
    ensures var s, o' := o.node, ApplyOne(o);
            o'.node == s.(applied := s.applied + 1, kv := Replay(s.log[..s.applied + 1])) && o'.sent == o.sent
            && o'.done == o.done + Report(s.id, s.log, s.applied)
  {
    hide ApplyEntry, Replay;
    ReplayOne(o.node.log, o.node.applied);
  }

  // --------------------------------------------------------------------------- appends

  /** The append fits: what it follows is in the log, with the term it says. */
  predicate FitsLog(s: Node, m: Msg)
    requires m.Append?
  {
    m.prevIndex <= |s.log| && m.prevTerm == if m.prevIndex == 0 then 0 else s.log[m.prevIndex - 1].term
  }

  /** An append of an earlier term is answered with a refusal in the node's own term and changes nothing. */
  lemma OldAppendIsRefused(s: Node, m: Msg)
    requires m.Append? && m.term < s.term
    ensures OnAppend(Fx(s, {}, []), m) == Fx(s, {Packet(m.leader, AppendResp(s.term, s.id, false, 0, 0))}, [])
  {
  }

  /** Any other makes the node a follower of its sender in that term. One that fits is merged, and the
      commit index rises to the sender's as far as the log then reaches; one that does not leaves log and
      commit index as they were. The one answer says which, and how far the logs are known to agree. */
  lemma AppendIsTaken(s: Node, m: Msg) returns (hint: nat)
    requires m.Append? && m.term >= s.term && Contiguous(s.log)
    ensures var o, fits := OnAppend(Fx(s, {}, []), m), FitsLog(s, m);
            var s' := o.node;
            s'.id == s.id && s'.role == Follower && s'.term == m.term && s'.leaderId == Some(m.leader)
            && s'.votedFor == (if m.term > s.term then None else s.votedFor)
            && (m.term > s.term || s.role != Follower ==> !s'.preCandidate && s'.transfer == None)
            && s'.log == (if fits then Merged(s.log, m.prevIndex, m.entries) else s.log)
            && s'.commit == (if fits && m.commit > s.commit then Min(m.commit, |s'.log|) else s.commit)
            && (s'.commit == s.commit && !(fits && m.commit > s.commit) ==> s'.applied == s.applied && s'.kv == s.kv && o.done == [])
            && o.sent == {Packet(m.leader, AppendResp(m.term, s.id, fits, if fits then m.prevIndex + |m.entries| else 0, hint))}
            && (hint == 0 <==> fits)
  {
    hide Merged, FollowCommit, ConflictHint;
    OutcomeContiguous(s.log, m.prevIndex, m.prevTerm, m.entries);
    var o1 := Follow(Fx(s, {}, []), m.term, m.leader);
    var (o2, r) := MergeAppend(o1, m);
    assert LastIndex(s.log) == |s.log| && LastIndex(o2.node.log) == |o2.node.log|;
    assert r.ok <==> FitsLog(s, m);
    if r.ok {
      CommitFollowed(o2, m.commit);
    } else {
      HintIsPositive(s.log, TermAt(s.log, m.prevIndex), m.prevIndex);
    }
    ReplyFor(s, m, r);
    hint := r.hint;
  }

  lemma ReplyFor(s: Node, m: Msg, r: MergeResult)
    requires m.Append? && m.term >= s.term && r == MergeOutcome(s.log, m.prevIndex, m.prevTerm, m.entries).1
    ensures OnAppend(Fx(s, {}, []), m).sent
            == {Packet(m.leader, AppendResp(m.term, s.id, r.ok, if r.ok then r.matchIndex else 0, r.hint))}
  {
    hide ApplyCommitted, MergeOutcome;
    var (o1, r') := MergeAppend(Follow(Fx(s, {}, []), m.term, m.leader), m);
    if r'.ok && m.commit > o1.node.commit {
      ApplyCommittedFrame(o1.(node := o1.node.(commit := Min(m.commit, LastIndex(o1.node.log)))));
    }
  }

  lemma HintIsPositive(log: seq<Entry>, term: int, from: nat)
    ensures ConflictHint(log, term, from) >= 1
  {
  }

  lemma CommitFollowed(o: Fx, commit: nat)
    requires Contiguous(o.node.log)
    ensures var s, o' := o.node, FollowCommit(o, commit);
            o'.node == s.(commit := o'.node.commit, applied := o'.node.applied, kv := o'.node.kv) && o'.sent == o.sent
            && o'.node.commit == (if commit > s.commit then Min(commit, |s.log|) else s.commit)
            && (commit <= s.commit ==> o' == o)
  {
    hide ApplyCommitted;
    if commit > o.node.commit {
      ApplyCommittedFrame(o.(node := o.node.(commit := Min(commit, LastIndex(o.node.log)))));
    }
  }

  // ------------------------------------------------------------------- acknowledgements

  /** A success raises what the leader knows of that peer, never lowers it, leaves what it knows of the
      others, and is followed by a commit attempt. */
  lemma SuccessIsRecorded(p: Params, s: Node, m: Msg)
    requires m.AppendResp? && m.success && s.role == Leader && m.term == s.term
    requires m.from in s.matchIndex && m.from in s.nextIndex
    ensures var o := OnAppendResp(p, Fx(s, {}, []), m);
            var reached := if m.matchIndex > s.matchIndex[m.from] then m.matchIndex else s.matchIndex[m.from];
            var s1 := s.(matchIndex := s.matchIndex[m.from := reached], nextIndex := s.nextIndex[m.from := reached + 1]);
            o == AdvanceCommit(p, Fx(s1, {}, []))
  {
    hide AdvanceCommit;
  }

  /** A refusal moves only that peer's next index: to the hint, at least one back, never below the first
      entry; the next request goes out at once. */
  lemma RefusalBacksOff(p: Params, s: Node, m: Msg)
    requires m.AppendResp? && !m.success && s.role == Leader && m.term == s.term
    requires m.from in s.matchIndex && m.from in s.nextIndex
    ensures var o := OnAppendResp(p, Fx(s, {}, []), m);
            m.from in o.node.nextIndex
            && o.node == s.(nextIndex := s.nextIndex[m.from := o.node.nextIndex[m.from]]) && o.done == []
            && o.sent == {Packet(m.from, AppendFor(p, o.node, m.from))}
            && (1 <= m.conflict < s.nextIndex[m.from] ==> o.node.nextIndex[m.from] == m.conflict)
            && (m.conflict == 0 || m.conflict >= s.nextIndex[m.from] ==>
                  o.node.nextIndex[m.from] == if s.nextIndex[m.from] == 1 then 1 else s.nextIndex[m.from] - 1)
  {
    hide AppendFor;
  }

  /** An answer of a later term ends the leadership, or the candidacy; one of an earlier term means nothing. */
  lemma AnswersOfOtherTerms(p: Params, s: Node, m: Msg)
    requires m.AppendResp? && m.term != s.term
    ensures var o := OnAppendResp(p, Fx(s, {}, []), m);
            if m.term < s.term then o == Fx(s, {}, [])
            else o == Fx(s.(term := m.term, votedFor := None, role := Follower, preCandidate := false, transfer := None), {}, [])
  {
  }

  // -------------------------------------------------------------------------- proposals

  /** A leader that is not handing over appends the entry in its own term, sends to every other member, and
      commits what can then be committed; anyone else does nothing. */
  lemma ProposalIsTaken(p: Params, s: Node, payload: Bytes)
    requires Contiguous(s.log)
    ensures var o := Propose(p, Fx(s, {}, []), payload);
            if s.role != Leader || s.transfer.Some? then o == Fx(s, {}, [])
            else o.node.role == Leader && o.node.term == s.term
                 && o.node.log == s.log + [Entry(|s.log| + 1, s.term, payload)]
                 && o.node.matchIndex == s.matchIndex && o.node.nextIndex == s.nextIndex
                 && o.sent == set q | q in p.servers && q != s.id :: Packet(q, AppendFor(p, o.node, q))
  {
    hide AppendFor, AdvanceCommit;
    if s.role == Leader && s.transfer.None? {
      AdvanceCommitFrame(p, AppendEntry(Fx(s, {}, []), payload));
      AdvanceSendsNothing(p, AppendEntry(Fx(s, {}, []), payload));
      assert LastIndex(s.log) == |s.log|;
      assert Peers(p, s.id) == set q | q in p.servers && q != s.id;
    }
  }

  lemma AdvanceSendsNothing(p: Params, o: Fx)
    ensures AdvanceCommit(p, o).sent == o.sent
  {
    hide ApplyCommitted;
    var c := CommitPoint(p, o.node, LastIndex(o.node.log));
    if c > o.node.commit {
      ApplyCommittedFrame(o.(node := o.node.(commit := c)));
    }
  }

  // -------------------------------------------------------------- transfer and timers

  /** A leader hands over to another member by telling it so, and proposes nothing meanwhile. */
  lemma TransferStopsProposals(p: Params, s: Node, target: NodeId, payload: Bytes)
    requires s.role == Leader && target in p.servers && target != s.id
    ensures var o := TransferLeadership(p, Fx(s, {}, []), target);
            o == Fx(s.(transfer := Some(target)), {Packet(target, TimeoutNow(s.term))}, [])
            && Propose(p, Fx(o.node, {}, []), payload) == Fx(o.node, {}, [])
  {
  }

  /** To nobody else is leadership handed over, and only by a leader. */
  lemma NoOtherTransfer(p: Params, s: Node, target: NodeId)
    requires s.role != Leader || target !in p.servers || target == s.id
    ensures TransferLeadership(p, Fx(s, {}, []), target) == Fx(s, {}, [])
  {
  }

  /** The member told to take over stands for election at once, whatever it has heard of a leader. */
  lemma HandOverIsTaken(p: Params, s: Node, m: Msg)
    requires m.TimeoutNow?
    ensures OnTimeoutNow(p, Fx(s, {}, []), m)
            == if m.term >= s.term && s.role != Leader then StartElection(p, Fx(s, {}, [])) else Fx(s, {}, [])
  {
    hide StartElection;
  }

  /** A leader whose transfer has expired can propose again, and has sent to every other member. */
  lemma ExpiredTransferEnds(p: Params, s: Node, beat: bool, payload: Bytes)
    requires s.role == Leader && s.transfer.Some? && Contiguous(s.log)
    ensures var o := LeaderTick(p, Fx(s, {}, []), true, beat, false);
            o.node == s.(transfer := None) && o.done == []
            && o.sent == (set q | q in p.servers && q != s.id :: Packet(q, AppendFor(p, o.node, q)))
            && Propose(p, Fx(o.node, {}, []), payload).node.log == s.log + [Entry(|s.log| + 1, s.term, payload)]
  {
    hide AppendFor, Propose;
    assert Peers(p, s.id) == set q | q in p.servers && q != s.id;
    ProposalIsTaken(p, s.(transfer := None), payload);
  }

  /** A due heartbeat goes to every other member; with the quorum lost a leader becomes a follower of its
      own term, keeping its vote; with nothing due nothing happens. */
  lemma LeaderTimers(p: Params, s: Node, beat: bool, lost: bool)
    requires s.role == Leader
    ensures var o := LeaderTick(p, Fx(s, {}, []), false, beat, lost);
            o.done == []
            && o.node == (if lost then s.(role := Follower, preCandidate := false, transfer := None) else s)
            && o.sent == (if beat then set q | q in p.servers && q != s.id :: Packet(q, AppendFor(p, s, q)) else {})
  {
    hide AppendFor;
    assert Peers(p, s.id) == set q | q in p.servers && q != s.id;
  }

  /** When the election timer of a node that does not lead goes off: with pre-vote it first asks, in the
      next term's name, without leaving its own; asked already, or without pre-vote, it stands. */
  lemma ElectionTimer(p: Params, s: Node)
    requires s.role != Leader && Contiguous(s.log)
    ensures var o := ElectionTick(p, Fx(s, {}, []));
            if p.usePrevote && !s.preCandidate
            then o.node == s.(preCandidate := true, prevoteTerm := s.term + 1, votes := {s.id}) && o.done == []
                 && o.sent == set q | q in p.servers && q != s.id ::
                                Packet(q, Prevote(s.term + 1, s.id, |s.log|, TermOfLast(s.log)))
            else o == StartElection(p, Fx(s.(preCandidate := false), {}, []))
  {
    hide StartElection;
    assert LastIndex(s.log) == |s.log| && LastTerm(s.log) == TermOfLast(s.log);
    assert Peers(p, s.id) == set q | q in p.servers && q != s.id;
  }

  // ------------------------------------------------------------------- what is sent

  /** An append carries the entries from the peer's next index on, as many as the bound allows, what comes
      before them, and the commit index. */
  lemma AppendCarries(p: Params, s: Node, q: NodeId)
    requires q in s.nextIndex && s.nextIndex[q] <= |s.log| + 1
    ensures var m, prev := AppendFor(p, s, q), s.nextIndex[q] as int - 1;
            m.Append? && m.term == s.term && m.leader == s.id && m.commit == s.commit && m.prevIndex == prev
            && m.prevTerm == (if prev == 0 then 0 else s.log[prev - 1].term)
            && |m.entries| == (if p.maxBatch == 0 then |s.log| - prev else Min(p.maxBatch, |s.log| - prev))
            && m.entries == s.log[prev..prev + |m.entries|]
  {
  }
}
