/** Every handler and timer keeps the invariant; so does every step of the cluster that keeps pre-votes apart. */
module HandlersKeep {
  import opened Basics
  import opened RaftLogs
  import opened RaftSteps
  import opened Clusters
  import opened Histories
  import opened Completeness
  import opened StepsKeep
  import opened LeaderKeeps
  import opened FollowerKeeps

  lemma GrowsFurther(h: History, h1: History, h2: History)
    requires Grows(h, h1) && Grows(h1, h2)
    ensures Grows(h, h2)
  {
    forall t | t in h.reigns
      ensures h.reigns[t].log <= h2.reigns[t].log
    {
      assert h.reigns[t].log <= h1.reigns[t].log <= h2.reigns[t].log;
    }
  }

  lemma GrowsSame(h: History)
    ensures Grows(h, h)
  {
  }

  /** Applying touches only what has been applied. */
  lemma {:induction false} ApplyCommittedFrame(o: Fx)
    ensures var o' := ApplyCommitted(o);
            o'.node == o.node.(applied := o'.node.applied, kv := o'.node.kv) && o'.sent == o.sent && o.done <= o'.done
    decreases o.node.commit - o.node.applied
  {
    if o.node.applied < o.node.commit && o.node.applied < |o.node.log| {
      ApplyCommittedFrame(ApplyOne(o));
    }
  }

  lemma AdvanceCommitFrame(p: Params, o: Fx)
    ensures var s, s' := o.node, AdvanceCommit(p, o).node;
            s' == s.(commit := s'.commit, applied := s'.applied, kv := s'.kv)
  {
    var c := CommitPoint(p, o.node, LastIndex(o.node.log));
    if c > o.node.commit {
      ApplyCommittedFrame(o.(node := o.node.(commit := c)));
    }
  }

  // ------------------------------------------------------------------- proposals

  lemma ProposeKeeps(p: Params, c: Cluster, v: NodeId, o: Fx, payload: Bytes, h: History) returns (h': History)
    requires Mid(p, c, v, o, h)
    ensures Mid(p, c, v, Propose(p, o, payload), h') && Grows(h, h') && h'.matched == h.matched
    ensures o.node.role == Leader ==> Propose(p, o, payload).node.role == Leader
  {
    hide Mid, Grows, AdvanceCommit;
    if o.node.role != Leader || o.node.transfer.Some? {
      h' := h;
      GrowsSame(h);
    } else {
      var o1 := AppendEntry(o, payload);
      h' := AppendEntryKeeps(p, c, v, o, payload, h);
      AdvanceCommitKeeps(p, c, v, o1, h');
      AdvanceCommitFrame(p, o1);
      SendAllKeeps(p, c, v, AdvanceCommit(p, o1), h');
    }
  }

  lemma BecomeLeaderKeeps(p: Params, c: Cluster, v: NodeId, o: Fx, h: History) returns (h': History)
    requires Mid(p, c, v, o, h) && o.node.role == Candidate && Majority(p, o.node.votes)
    ensures Mid(p, c, v, BecomeLeader(p, o), h') && Grows(h, h') && h'.matched == h.matched
  {
    hide Mid, Grows, Propose, SendAllAppends;
    var h1 := TakeOfficeKeeps(p, c, v, o, h);
    h' := ProposeKeeps(p, c, v, TakeOffice(p, o), NOOP, h1);
    GrowsFurther(h, h1, h');
    SendAllKeeps(p, c, v, Propose(p, TakeOffice(p, o), NOOP), h');
  }

  // ------------------------------------------------------------------- elections

  lemma StartElectionKeeps(p: Params, c: Cluster, v: NodeId, o: Fx, h: History) returns (h': History)
    requires Mid(p, c, v, o, h)
    ensures Mid(p, c, v, StartElection(p, o), h') && Grows(h, h') && h'.matched == h.matched
  {
    hide Mid, Grows, BecomeLeader, VoterOk, CandidateOk, LeaderOk, KeepsAcks, CommitOk, HistoryOk;
    MidNode(p, c, v, o, h);
    TracedContiguous(h, o.node.log);
    var o1 := StandForElection(o);
    var h1 := StandForElectionKeeps(p, c, v, o, h);
    var o2 := Broadcast(p, o1, VoteRequest(o1.node));
    assert forall q | q in Peers(p, o1.node.id) :: PacketOk(p, h1, Packet(q, VoteRequest(o1.node)));
    BroadcastKeeps(p, c, v, o1, VoteRequest(o1.node), h1);
    if Majority(p, o2.node.votes) {
      h' := BecomeLeaderKeeps(p, c, v, o2, h1);
      GrowsFurther(h, h1, h');
    } else {
      h' := h1;
    }
  }

  lemma CandidacyKeeps(p: Params, c: Cluster, v: NodeId, o: Fx, s: Node, h: History)
    requires Mid(p, c, v, o, h)
    requires s == o.node.(preCandidate := s.preCandidate, prevoteTerm := s.prevoteTerm, votes := s.votes, transfer := s.transfer)
    requires s.preCandidate ==> p.usePrevote && v in s.votes
    requires s.role == Candidate ==> s.votes <= o.node.votes && v in s.votes
    ensures Mid(p, c, v, o.(node := s), h)
  {
    hide Mid, HistoryOk, VoterOk, LeaderOk, KeepsAcks, CommitOk, Traced;
    MidNode(p, c, v, o, h);
    assert CandidateOk(p, h, v, s);
    SameFieldsOk(p, h, v, o.node, s);
    QuietKeeps(p, c, v, o, s, h);
  }

  /** What the invariant says of a node's identity and of its pre-vote state. */
  lemma MidFacts(p: Params, c: Cluster, v: NodeId, o: Fx, h: History)
    requires Mid(p, c, v, o, h)
    ensures o.node.id == v && v in p.servers
    ensures o.node.preCandidate ==> p.usePrevote && v in o.node.votes
    ensures o.node.role == Candidate ==> v in o.node.votes
  {
    hide Mid, HistoryOk, VoterOk, LeaderOk, KeepsAcks, CommitOk, Traced;
    MidNode(p, c, v, o, h);
  }

  lemma StartPrevoteKeeps(p: Params, c: Cluster, v: NodeId, o: Fx, h: History)
    requires Mid(p, c, v, o, h) && p.usePrevote
    ensures Mid(p, c, v, StartPrevote(p, o), h)
  {
    hide Mid;
    MidFacts(p, c, v, o, h);
    var s := o.node;
    var s' := s.(preCandidate := true, prevoteTerm := s.term + 1, votes := {s.id});
    CandidacyKeeps(p, c, v, o, s', h);
    BroadcastKeeps(p, c, v, o.(node := s'), Prevote(s.term + 1, s.id, LastIndex(s.log), LastTerm(s.log)), h);
  }

  lemma StartPrevoteOrElectionKeeps(p: Params, c: Cluster, v: NodeId, o: Fx, h: History) returns (h': History)
    requires Mid(p, c, v, o, h)
    ensures Mid(p, c, v, StartPrevoteOrElection(p, o), h') && Grows(h, h') && h'.matched == h.matched
  {
    hide Mid, Grows, StartElection, StartPrevote;
    if p.usePrevote && !o.node.preCandidate {
      StartPrevoteKeeps(p, c, v, o, h);
      h' := h;
      GrowsSame(h);
    } else {
      MidFacts(p, c, v, o, h);
      CandidacyKeeps(p, c, v, o, o.node.(preCandidate := false), h);
      h' := StartElectionKeeps(p, c, v, o.(node := o.node.(preCandidate := false)), h);
    }
  }

  // ---------------------------------------------------------------------- timers

  lemma TransferStateKeeps(p: Params, c: Cluster, v: NodeId, o: Fx, target: Option<NodeId>, h: History)
    requires Mid(p, c, v, o, h)
    ensures Mid(p, c, v, o.(node := o.node.(transfer := target)), h)
  {
    hide Mid;
    MidFacts(p, c, v, o, h);
    CandidacyKeeps(p, c, v, o, o.node.(transfer := target), h);
  }

  lemma LeaderTickKeeps(p: Params, c: Cluster, v: NodeId, o: Fx, expired: bool, beat: bool, lost: bool, h: History)
    requires Mid(p, c, v, o, h)
    ensures Mid(p, c, v, LeaderTick(p, o, expired, beat, lost), h)
  {
    hide Mid, AppendFor;
    if o.node.role == Leader {
      var o1 := if expired && o.node.transfer.Some?
                then SendAllAppends(p, o.(node := o.node.(transfer := None))) else o;
      if expired && o.node.transfer.Some? {
        TransferStateKeeps(p, c, v, o, None, h);
        SendAllKeeps(p, c, v, o.(node := o.node.(transfer := None)), h);
      }
      var o2 := if beat then SendAllAppends(p, o1) else o1;
      if beat {
        SendAllKeeps(p, c, v, o1, h);
      }
      if lost {
        StepDownKeeps(p, c, v, o2, o2.node.term, h);
      }
    }
  }

  lemma TransferKeeps(p: Params, c: Cluster, v: NodeId, o: Fx, target: NodeId, h: History)
    requires Mid(p, c, v, o, h)
    ensures Mid(p, c, v, TransferLeadership(p, o, target), h)
  {
    hide Mid;
    if o.node.role == Leader && target in Peers(p, o.node.id) {
      TransferStateKeeps(p, c, v, o, Some(target), h);
      SendKeeps(p, c, v, o.(node := o.node.(transfer := Some(target))), target, TimeoutNow(o.node.term), h);
    }
  }

  // -------------------------------------------------------------------- messages

  lemma OnPrevoteKeeps(p: Params, c: Cluster, v: NodeId, o: Fx, m: Msg, leaderAlive: bool, h: History)
    requires Mid(p, c, v, o, h) && m.Prevote? && PacketOk(p, h, Packet(v, m))
    ensures Mid(p, c, v, OnPrevote(o, m, leaderAlive), h)
  {
    hide Mid, UpToDate;
    MidFacts(p, c, v, o, h);
    var s := o.node;
    var grant := m.term > s.term && UpToDate(m.lastTerm, m.lastIndex, s.log)
                 && !(s.role == Follower && s.leaderId.Some? && leaderAlive);
    SendKeeps(p, c, v, o, m.candidate, PrevoteResp(m.term, s.id, grant), h);
  }

  lemma OnPrevoteRespKeeps(p: Params, c: Cluster, v: NodeId, o: Fx, m: Msg, h: History) returns (h': History)
    requires Mid(p, c, v, o, h) && m.PrevoteResp? && !KeepsPrevote(p, o.node, m)
    ensures Mid(p, c, v, OnPrevoteResp(p, o, m), h') && Grows(h, h') && h'.matched == h.matched
  {
    hide Mid, Grows, BecomeLeader;
    var s := o.node;
    h' := h;
    GrowsSame(h);
    MidFacts(p, c, v, o, h);
    if s.preCandidate && m.term == s.prevoteTerm {
      var votes := if m.granted then s.votes + {m.from} else s.votes;
      if Majority(p, votes) {
        CandidacyKeeps(p, c, v, o, s.(preCandidate := false), h);
        h' := StartElectionKeeps(p, c, v, o.(node := s.(preCandidate := false)), h);
        assert StandForElection(o.(node := s.(votes := votes, preCandidate := false)))
            == StandForElection(o.(node := s.(preCandidate := false)));
      } else {
        CandidacyKeeps(p, c, v, o, s.(votes := votes), h);
      }
    }
  }

  lemma OnVoteKeeps(p: Params, c: Cluster, v: NodeId, o: Fx, m: Msg, h: History) returns (h': History)
    requires Mid(p, c, v, o, h) && m.Vote? && PacketOk(p, h, Packet(v, m))
    ensures Mid(p, c, v, OnVote(o, m), h') && Grows(h, h') && h'.matched == h.matched
  {
    hide Mid, Grows, UpToDate;
    MidFacts(p, c, v, o, h);
    h' := h;
    GrowsSame(h);
    if m.term < o.node.term {
      SendKeeps(p, c, v, o, m.candidate, VoteResp(o.node.term, o.node.id, false), h);
    } else {
      var o1 := if m.term > o.node.term then StepDown(o, m.term) else o;
      if m.term > o.node.term {
        StepDownKeeps(p, c, v, o, m.term, h);
      }
      var s := o1.node;
      var grant := (s.votedFor == None || s.votedFor == Some(m.candidate)) && UpToDate(m.lastTerm, m.lastIndex, s.log);
      if grant {
        h' := GrantKeeps(p, c, v, o1, m.candidate, h);
        SendKeeps(p, c, v, o1.(node := s.(votedFor := Some(m.candidate))), m.candidate, VoteResp(s.term, s.id, true), h');
      } else {
        SendKeeps(p, c, v, o1, m.candidate, VoteResp(s.term, s.id, false), h);
      }
    }
  }

  lemma OnVoteRespKeeps(p: Params, c: Cluster, v: NodeId, o: Fx, m: Msg, h: History) returns (h': History)
    requires Mid(p, c, v, o, h) && m.VoteResp? && PacketOk(p, h, Packet(v, m))
    ensures Mid(p, c, v, OnVoteResp(p, o, m), h') && Grows(h, h') && h'.matched == h.matched
  {
    hide Mid, Grows, BecomeLeader;
    h' := h;
    GrowsSame(h);
    if o.node.role == Candidate && m.term == o.node.term && m.granted {
      var o1 := o.(node := o.node.(votes := o.node.votes + {m.from}));
      CountKeeps(p, c, v, o, m.from, h);
      if Majority(p, o1.node.votes) {
        h' := BecomeLeaderKeeps(p, c, v, o1, h);
      }
    }
  }

  /** The accepted branch of an append: merge, then commit within the matched prefix. */
  lemma AcceptKeeps(p: Params, c: Cluster, v: NodeId, o: Fx, m: Msg, h: History) returns (h': History)
    requires Mid(p, c, v, o, h) && o.node.role == Follower && m.Append? && AppendOk(p, h, m) && m.term == o.node.term
    requires Accepts(o.node.log, m.prevIndex, m.prevTerm) && (h.matched ==> MayCommit(p, o.node, m))
    ensures Mid(p, c, v, FollowCommit(MergeAppend(o, m).0, m.commit), h') && Grows(h, h') && h'.matched == h.matched
    ensures At(m.term, v) in h'.acked && m.prevIndex + |m.entries| <= h'.acked[At(m.term, v)]
  {
    hide Mid, Grows, Accepts, Merged, FollowCommit;
    var n := m.prevIndex + |m.entries|;
    var o1 := MergeAppend(o, m).0;
    h' := MergeKeeps(p, c, v, o, m, h);
    AppendGrows(p, h, h', m);
    MergeReaches(o.node.log, h.reigns[m.term].log, n, o1.node.log);
    hide AppendOk, MergeFits;
    FollowCommitKeeps(p, c, v, o1, m, n, h');
  }

  lemma AppendGrows(p: Params, h: History, h': History, m: Msg)
    requires Grows(h, h') && m.Append? && AppendOk(p, h, m)
    ensures AppendOk(p, h', m)
    ensures forall n | 0 <= n <= |h.reigns[m.term].log| ::
              n <= |h'.reigns[m.term].log| && h'.reigns[m.term].log[..n] == h.reigns[m.term].log[..n]
  {
    PacketGrows(p, h, h', Packet(0, m));
    assert h.reigns[m.term].log <= h'.reigns[m.term].log;
  }

  lemma OnAppendKeeps(p: Params, c: Cluster, v: NodeId, o: Fx, m: Msg, h: History) returns (h': History)
    requires Mid(p, c, v, o, h) && m.Append? && PacketOk(p, h, Packet(v, m)) && (h.matched ==> MayCommit(p, o.node, m))
    ensures Mid(p, c, v, OnAppend(o, m), h') && Grows(h, h') && h'.matched == h.matched
  {
    hide Mid, Grows, AppendOk, FollowCommit, Merged, ConflictHint;
    MidFacts(p, c, v, o, h);
    h' := h;
    GrowsSame(h);
    if m.term < o.node.term {
      SendKeeps(p, c, v, o, m.leader, AppendResp(o.node.term, o.node.id, false, 0, 0), h);
    } else {
      var o1 := Follow(o, m.term, m.leader);
      FollowKeeps(p, c, v, o, m.term, m.leader, h);
      var (o2, r) := MergeAppend(o1, m);
      if r.ok {
        h' := AcceptKeeps(p, c, v, o1, m, h);
        var o3 := FollowCommit(o2, m.commit);
        FollowCommitFrame(o2, m.commit);
        SendKeeps(p, c, v, o3, m.leader, AppendResp(o3.node.term, o3.node.id, true, r.matchIndex, r.hint), h');
      } else {
        assert o2 == o1;
        SendKeeps(p, c, v, o1, m.leader, AppendResp(o1.node.term, o1.node.id, false, 0, r.hint), h);
      }
    }
  }

  lemma FollowCommitFrame(o: Fx, commit: nat)
    ensures var s, s' := o.node, FollowCommit(o, commit).node;
            s' == s.(commit := s'.commit, applied := s'.applied, kv := s'.kv)
  {
    if commit > o.node.commit {
      ApplyCommittedFrame(o.(node := o.node.(commit := Min(commit, LastIndex(o.node.log)))));
    }
  }

  lemma OnAppendRespKeeps(p: Params, c: Cluster, v: NodeId, o: Fx, m: Msg, h: History)
    requires Mid(p, c, v, o, h) && m.AppendResp? && PacketOk(p, h, Packet(v, m))
    ensures Mid(p, c, v, OnAppendResp(p, o, m), h)
  {
    hide Mid, AdvanceCommit, AppendFor;
    MidFacts(p, c, v, o, h);
    var s := o.node;
    if s.role != Leader || m.term != s.term {
      if m.term > s.term {
        StepDownKeeps(p, c, v, o, m.term, h);
      }
    } else if m.from in s.matchIndex && m.from in s.nextIndex {
      LeaderPeers(p, c, v, o, h);
      if m.success {
        var reached := Max(s.matchIndex[m.from], m.matchIndex);
        RecordAckKeeps(p, c, v, o, m.from, m.matchIndex, h);
        AdvanceCommitKeeps(p, c, v, o.(node := s.(matchIndex := s.matchIndex[m.from := reached],
                                                  nextIndex := s.nextIndex[m.from := reached + 1])), h);
      } else {
        var next: int := s.nextIndex[m.from];
        var hint: int := if m.conflict != 0 then m.conflict else next - 1;
        var back: Pos := Max(1, Min(next - 1, hint));
        BackOffKeeps(p, c, v, o, m.from, back, h);
        SendAppendKeeps(p, c, v, o.(node := s.(nextIndex := s.nextIndex[m.from := back])), m.from, h);
      }
    }
  }

  lemma LeaderPeers(p: Params, c: Cluster, v: NodeId, o: Fx, h: History)
    requires Mid(p, c, v, o, h) && o.node.role == Leader
    ensures o.node.matchIndex.Keys == Peers(p, v) && o.node.nextIndex.Keys == Peers(p, v)
  {
    hide Mid, HistoryOk, VoterOk, CandidateOk, KeepsAcks, CommitOk, Traced;
    MidNode(p, c, v, o, h);
  }

  lemma HandleKeeps(p: Params, c: Cluster, v: NodeId, o: Fx, m: Msg, alive: bool, h: History) returns (h': History)
    requires Mid(p, c, v, o, h) && PacketOk(p, h, Packet(v, m))
    requires !KeepsPrevote(p, o.node, m) && (h.matched ==> MayCommit(p, o.node, m))
    ensures Mid(p, c, v, Handle(p, o, m, alive), h') && Grows(h, h') && h'.matched == h.matched
  {
    hide Mid, Grows, PacketOk, KeepsPrevote, MayCommit;
    hide OnPrevote, OnPrevoteResp, OnVote, OnVoteResp, OnAppend, OnAppendResp, StartElection;
    h' := h;
    GrowsSame(h);
    match m
    case Prevote(_, _, _, _) => OnPrevoteKeeps(p, c, v, o, m, alive, h);
    case PrevoteResp(_, _, _) => h' := OnPrevoteRespKeeps(p, c, v, o, m, h);
    case Vote(_, _, _, _) => h' := OnVoteKeeps(p, c, v, o, m, h);
    case VoteResp(_, _, _) => h' := OnVoteRespKeeps(p, c, v, o, m, h);
    case Append(_, _, _, _, _, _) => h' := OnAppendKeeps(p, c, v, o, m, h);
    case AppendResp(_, _, _, _, _) => OnAppendRespKeeps(p, c, v, o, m, h);
    case TimeoutNow(_) =>
      if m.term >= o.node.term && o.node.role != Leader {
        h' := StartElectionKeeps(p, c, v, o, h);
      }
  }

  // -------------------------------------------------------------------- restarts

  lemma FreshOk(p: Params, h: History, v: NodeId, s: Node)
    requires NodeOk(p, h, v, s)
    ensures NodeOk(p, h, v, Fresh(s.id, s.term, s.votedFor, s.log))
  {
    var s' := Fresh(s.id, s.term, s.votedFor, s.log);
    LaterKeepsAcks(h, v, s, s');
    assert s'.log[..0] == [];
    hide KeepsAcks, Traced;
  }

  lemma RestartKeeps(p: Params, c: Cluster, v: NodeId, o: Fx, h: History)
    requires Mid(p, c, v, o, h)
    ensures Mid(p, c, v, o.(node := Fresh(o.node.id, o.node.term, o.node.votedFor, o.node.log)), h)
  {
    hide Mid, NodeOk, HistoryOk;
    MidNode(p, c, v, o, h);
    FreshOk(p, h, v, o.node);
    QuietKeeps(p, c, v, o, Fresh(o.node.id, o.node.term, o.node.votedFor, o.node.log), h);
  }

  /** A crash inside a merge: the term is already the message's, the log is in between. */
  lemma CrashKeeps(p: Params, c: Cluster, v: NodeId, o: Fx, m: Msg, log: seq<Entry>, h: History)
    requires Mid(p, c, v, o, h) && m.Append? && AppendOk(p, h, m) && m.term >= o.node.term && MidMerge(o.node.log, m, log)
    ensures var s := Follow(o, m.term, m.leader).node;
            Mid(p, c, v, o.(node := Fresh(s.id, s.term, s.votedFor, log)), h)
  {
    hide Mid, NodeOk, BallotsOk, BidsOk, ReignsOk, AcksOk, VotesRemember, AppendOk, MidMerge, CutFits;
    var o1 := Follow(o, m.term, m.leader);
    var s := o1.node;
    FollowKeeps(p, c, v, o, m.term, m.leader, h);
    RestartKeeps(p, c, v, o1, h);
    var o2 := o1.(node := Fresh(s.id, s.term, s.votedFor, s.log));
    MidNode(p, c, v, o2, h);
    AppendTerm(p, h, v, o2.node, m);
    MidMergeFits(p, h, v, o2.node, m, log);
    CutOk(p, h, v, o2.node, o2.node.(log := log));
    QuietKeeps(p, c, v, o2, o2.node.(log := log), h);
  }

  lemma AppendTerm(p: Params, h: History, v: NodeId, s: Node, m: Msg)
    requires m.Append? && AppendOk(p, h, m) && NodeOk(p, h, v, s)
    ensures m.term in h.reigns && LogOk(p, h, v, s)
  {
  }

  // ----------------------------------------------------------------------- steps

  lemma MidStart(p: Params, c: Cluster, v: NodeId, h: History)
    requires Inv(p, c, h) && v in c.nodes
    ensures Mid(p, c, v, Fx(c.nodes[v], {}, []), h)
  {
    hide HistoryOk, Fits;
    var o := Fx(c.nodes[v], {}, []);
    assert Put(c, v, o) == c by {
      assert c.nodes[v := c.nodes[v]] == c.nodes;
    }
  }

  lemma ReactKeeps(p: Params, c: Cluster, a: Action, h: History) returns (h': History)
    requires Inv(p, c, h) && Enabled(c, a) && VotesApart(p, c, a) && (h.matched ==> CommitsMatched(p, c, a))
    ensures Mid(p, c, Actor(a), React(p, c.nodes[Actor(a)], a), h') && Grows(h, h') && h'.matched == h.matched
  {
    hide HistoryOk, NodesOk, TraceOk, Grows, Mid, PacketOk, KeepsPrevote, MayCommit;
    hide Handle, LeaderTick, Propose, TransferLeadership, StartPrevoteOrElection, Fresh;
    var v := Actor(a);
    var o := Fx(c.nodes[v], {}, []);
    MidStart(p, c, v, h);
    h' := h;
    GrowsSame(h);
    match a
    case Deliver(packet, alive) =>
      assert packet == Packet(v, packet.msg) && PacketOk(p, h, packet);
      h' := HandleKeeps(p, c, v, o, packet.msg, alive, h);
    case ElectionTimeout(_) =>
      if o.node.role != Leader {
        h' := StartPrevoteOrElectionKeeps(p, c, v, o, h);
      }
    case LeaderTimer(_, expired, beat, lost) =>
      LeaderTickKeeps(p, c, v, o, expired, beat, lost, h);
    case Request(_, payload) =>
      h' := ProposeKeeps(p, c, v, o, payload, h);
    case Transfer(_, target) =>
      TransferKeeps(p, c, v, o, target, h);
    case Restart(_) =>
      RestartKeeps(p, c, v, o, h);
    case CrashInMerge(packet, log) =>
      assert packet == Packet(v, packet.msg) && PacketOk(p, h, packet);
      AppendIsOk(p, h, packet);
      CrashKeeps(p, c, v, o, packet.msg, log, h);
  }

  lemma AppendIsOk(p: Params, h: History, k: Packet)
    requires PacketOk(p, h, k) && k.msg.Append?
    ensures AppendOk(p, h, k.msg)
  {
  }

  /** Every step that keeps pre-votes apart keeps the invariant; what it says of commitment lasts
      as long as followers commit what they matched. */
  lemma NextKeeps(p: Params, c: Cluster, a: Action, h: History) returns (h': History)
    requires Inv(p, c, h) && VotesApart(p, c, a)
    ensures Inv(p, Next(p, c, a), h') && Grows(h, h')
    ensures h'.matched == (h.matched && CommitsMatched(p, c, a))
  {
    hide Inv, Grows, VotesApart, CommitsMatched, React;
    var h1 := h;
    if CommitsMatched(p, c, a) {
      GrowsSame(h);
    } else {
      h1 := h.(matched := false);
      Unmatch(p, c, h);
    }
    if Enabled(c, a) {
      h' := ReactKeeps(p, c, a, h1);
      GrowsFurther(h, h1, h');
    } else {
      h' := h1;
    }
  }

  lemma InitOk(p: Params)
    ensures Inv(p, Init(p), NO_HISTORY)
  {
    var c := Init(p);
    forall v | v in c.nodes
      ensures NodeOk(p, NO_HISTORY, v, c.nodes[v])
    {
      var s := c.nodes[v];
      assert s.log[..0] == [];
    }
  }
}
