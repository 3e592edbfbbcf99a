/**
 Every part of every handler keeps the invariant. Each lemma takes one node `v` in the
 middle of a handler, in state `o`, and one thing it does next; where the step adds to
 the history, the lemma returns the new history.
 */
module StepsKeep {
  import opened Basics
  import opened RaftLogs
  import opened RaftSteps
  import opened Clusters
  import opened Histories
  import opened Completeness
  import opened HistoryMoves

  /** The invariant while node `v` of cluster `c` is inside a handler. */
  ghost predicate Mid(p: Params, c: Cluster, v: NodeId, o: Fx, h: History) {
    v in c.nodes && Inv(p, Put(c, v, o), h)
  }

  lemma MidNode(p: Params, c: Cluster, v: NodeId, o: Fx, h: History)
    requires Mid(p, c, v, o, h)
    ensures NodeOk(p, h, v, o.node) && HistoryOk(p, h)
  {
    hide NodeOk, HistoryOk, NetOk, TraceOk;
    assert Put(c, v, o).nodes[v] == o.node;
  }

  /** A step that changes only the node's own state, within the same history. */
  lemma QuietKeeps(p: Params, c: Cluster, v: NodeId, o: Fx, s: Node, h: History)
    requires Mid(p, c, v, o, h) && NodeOk(p, h, v, s)
    ensures Mid(p, c, v, o.(node := s), h)
  {
    hide NodeOk, HistoryOk, PacketOk, AppliedOk;
    SameHistory(h, v);
    StepKeeps(p, c, v, o, o.(node := s), h, h);
  }

  /** A step that changes the node's state and adds to the history. */
  lemma MoveKeeps(p: Params, c: Cluster, v: NodeId, o: Fx, s: Node, h: History, h': History)
    requires Mid(p, c, v, o, h) && NodeOk(p, h', v, s) && HistoryOk(p, h') && Grows(h, h') && By(h, h', v)
    ensures Mid(p, c, v, o.(node := s), h')
  {
    hide NodeOk, HistoryOk, PacketOk, AppliedOk, Grows, By;
    StepKeeps(p, c, v, o, o.(node := s), h, h');
  }

  lemma SendsKeep(p: Params, c: Cluster, v: NodeId, o: Fx, more: set<Packet>, h: History)
    requires Mid(p, c, v, o, h) && NetOk(p, h, more)
    ensures Mid(p, c, v, o.(sent := o.sent + more), h)
  {
    hide NodeOk, HistoryOk, PacketOk, AppliedOk;
    SameHistory(h, v);
    MidNode(p, c, v, o, h);
    StepKeeps(p, c, v, o, o.(sent := o.sent + more), h, h);
  }

  lemma SendKeeps(p: Params, c: Cluster, v: NodeId, o: Fx, dest: NodeId, m: Msg, h: History)
    requires Mid(p, c, v, o, h) && PacketOk(p, h, Packet(dest, m))
    ensures Mid(p, c, v, Send(o, dest, m), h)
  {
    hide Mid, PacketOk;
    SendsKeep(p, c, v, o, {Packet(dest, m)}, h);
  }

  lemma BroadcastKeeps(p: Params, c: Cluster, v: NodeId, o: Fx, m: Msg, h: History)
    requires Mid(p, c, v, o, h) && forall q | q in Peers(p, o.node.id) :: PacketOk(p, h, Packet(q, m))
    ensures Mid(p, c, v, Broadcast(p, o, m), h)
  {
    hide Mid, PacketOk;
    SendsKeep(p, c, v, o, set q | q in Peers(p, o.node.id) :: Packet(q, m), h);
  }

  // ------------------------------------------------------------------- step down

  lemma LaterKeepsAcks(h: History, v: NodeId, s: Node, s': Node)
    requires KeepsAcks(h, v, s) && s'.log == s.log && s'.term >= s.term
    ensures KeepsAcks(h, v, s')
  {
    forall t: nat | At(t, v) in h.acked
      ensures t in h.reigns && h.acked[At(t, v)] <= |h.reigns[t].log| && t <= s'.term
      ensures forall i | 0 <= i <= h.acked[At(t, v)] && HeldBetween(h, t, i, s'.term + 1) :: h.reigns[t].log[..i] <= s'.log
    {
      forall i | 0 <= i <= h.acked[At(t, v)] && HeldBetween(h, t, i, s'.term + 1)
        ensures h.reigns[t].log[..i] <= s'.log
      {
        assert HeldBetween(h, t, i, s.term + 1);
      }
    }
  }

  lemma LaterCommitOk(p: Params, h: History, s: Node, s': Node)
    requires CommitOk(p, h, s) && s'.log == s.log && s'.term >= s.term
    requires s'.commit == s.commit && s'.applied == s.applied && s'.kv == s.kv
    ensures CommitOk(p, h, s')
  {
    if h.matched {
      BackedGrows(p, h, h, s.term, s'.term, s.log[..s.commit]);
    }
  }

  /** Becoming or staying a follower, in the same or a later term. */
  lemma FollowerOk(p: Params, h: History, v: NodeId, s: Node, s': Node)
    requires NodeOk(p, h, v, s) && s'.role == Follower && s'.id == s.id && s'.log == s.log
    requires s'.commit == s.commit && s'.applied == s.applied && s'.kv == s.kv
    requires s'.preCandidate ==> s.preCandidate && s'.votes == s.votes
    requires if s'.term == s.term then s'.votedFor == s.votedFor else s'.term > s.term && s'.votedFor == None
    ensures NodeOk(p, h, v, s')
  {
    assert LogOk(p, h, v, s') && VoterOk(h, v, s') && CandidateOk(p, h, v, s') && LeaderOk(p, h, v, s') by {
      hide KeepsAcks, CommitOk, Traced;
    }
    LaterKeepsAcks(h, v, s, s');
    LaterCommitOk(p, h, s, s');
  }

  lemma StepDownKeeps(p: Params, c: Cluster, v: NodeId, o: Fx, term: nat, h: History)
    requires Mid(p, c, v, o, h) && term >= o.node.term
    ensures Mid(p, c, v, StepDown(o, term), h)
  {
    hide Mid, NodeOk;
    MidNode(p, c, v, o, h);
    FollowerOk(p, h, v, o.node, StepDown(o, term).node);
    QuietKeeps(p, c, v, o, StepDown(o, term).node, h);
  }

  lemma FollowKeeps(p: Params, c: Cluster, v: NodeId, o: Fx, term: nat, leader: NodeId, h: History)
    requires Mid(p, c, v, o, h) && term >= o.node.term
    ensures Mid(p, c, v, Follow(o, term, leader), h) && Follow(o, term, leader).node.term == term
  {
    hide Mid, NodeOk;
    var o1 := if term > o.node.term || o.node.role != Follower then StepDown(o, term) else o;
    StepDownKeeps(p, c, v, o, term, h);
    MidNode(p, c, v, o1, h);
    FollowerOk(p, h, v, o1.node, Follow(o, term, leader).node);
    QuietKeeps(p, c, v, o1, Follow(o, term, leader).node, h);
  }

  // ---------------------------------------------------------------------- voting

  lemma GrantedVoter(p: Params, h: History, v: NodeId, s: Node, choice: NodeId)
    requires VoterOk(h, v, s) && CandidateOk(p, h, v, s) && LeaderOk(p, h, v, s) && s.votedFor == None
    ensures At(s.term, v) !in h.ballots
    ensures var h' := Voted(h, At(s.term, v), Ballot(choice, s.log));
            var s' := s.(votedFor := Some(choice));
            VoterOk(h', v, s') && CandidateOk(p, h', v, s') && LeaderOk(p, h', v, s')
  {
    assert At(s.term, v) !in h.ballots;
  }

  lemma GrantedOk(p: Params, h: History, v: NodeId, s: Node, choice: NodeId)
    requires NodeOk(p, h, v, s) && s.votedFor == None
    ensures At(s.term, v) !in h.ballots
    ensures var h' := Voted(h, At(s.term, v), Ballot(choice, s.log));
            Grows(h, h') && By(h, h', v) && NodeOk(p, h', v, s.(votedFor := Some(choice)))
  {
    hide VoterOk, CandidateOk, LeaderOk, KeepsAcks, Traced, Grows, By, Backed;
    var h' := Voted(h, At(s.term, v), Ballot(choice, s.log));
    var s' := s.(votedFor := Some(choice));
    GrantedVoter(p, h, v, s, choice);
    VotedGrows(h, At(s.term, v), Ballot(choice, s.log));
    TracedGrows(h, h', s.log);
    if h.matched {
      BackedGrows(p, h, h', s.term, s.term, s.log[..s.commit]);
    }
    LaterKeepsAcks(h, v, s, s');
    KeepsAcksSameReigns(h, h', v, s');
  }

  lemma KeepsAcksSameReigns(h: History, h': History, v: NodeId, s: Node)
    requires KeepsAcks(h, v, s) && h'.reigns == h.reigns && h'.acked == h.acked
    ensures KeepsAcks(h', v, s)
  {
    forall t: nat | At(t, v) in h'.acked
      ensures forall i | 0 <= i <= h'.acked[At(t, v)] && HeldBetween(h', t, i, s.term + 1) :: h'.reigns[t].log[..i] <= s.log
    {
      forall i | 0 <= i <= h'.acked[At(t, v)] && HeldBetween(h', t, i, s.term + 1)
        ensures h'.reigns[t].log[..i] <= s.log
      {
        assert HeldBetween(h, t, i, s.term + 1);
      }
    }
  }

  /** Granting a vote to a candidate whose bid is up to date. */
  lemma GrantKeeps(p: Params, c: Cluster, v: NodeId, o: Fx, choice: NodeId, h: History) returns (h': History)
    requires Mid(p, c, v, o, h) && (o.node.votedFor == None || o.node.votedFor == Some(choice))
    requires At(o.node.term, choice) in h.bids
    requires var bid := h.bids[At(o.node.term, choice)]; UpToDate(LastTerm(bid), |bid|, o.node.log)
    ensures Mid(p, c, v, o.(node := o.node.(votedFor := Some(choice))), h') && Grows(h, h') && h'.matched == h.matched
    ensures At(o.node.term, v) in h'.ballots && h'.ballots[At(o.node.term, v)].choice == choice
  {
    hide HistoryOk, LogOk, CandidateOk, LeaderOk, KeepsAcks, CommitOk, Mid;
    var s := o.node;
    MidNode(p, c, v, o, h);
    if s.votedFor == None {
      h' := Voted(h, At(s.term, v), Ballot(choice, s.log));
      GrantedOk(p, h, v, s, choice);
      VoteKeeps(p, h, v, s, choice);
      MoveKeeps(p, c, v, o, s.(votedFor := Some(choice)), h, h');
    } else {
      h' := h;
      SameHistory(h, v);
      assert o.(node := s.(votedFor := Some(choice))) == o;
    }
  }

  lemma StandingFresh(h: History, v: NodeId, s: Node)
    requires VoterOk(h, v, s)
    ensures At(s.term + 1, v) !in h.bids && At(s.term + 1, v) !in h.ballots
    ensures var h' := Voted(Stood(h, At(s.term + 1, v), s.log), At(s.term + 1, v), Ballot(v, s.log));
            Grows(h, h') && By(h, h', v)
  {
  }

  lemma StandingVoter(p: Params, h: History, v: NodeId, s: Node)
    requires VoterOk(h, v, s) && v in p.servers && s.id == v && (s.preCandidate ==> p.usePrevote)
    ensures var h' := Voted(Stood(h, At(s.term + 1, v), s.log), At(s.term + 1, v), Ballot(v, s.log));
            var s' := StandForElection(Fx(s, {}, [])).node;
            VoterOk(h', v, s') && CandidateOk(p, h', v, s') && LeaderOk(p, h', v, s')
  {
  }

  /** Opening a term as its candidate: a bid with the node's log, and its own vote for it. */
  lemma StandingOk(p: Params, h: History, v: NodeId, s: Node)
    requires NodeOk(p, h, v, s)
    ensures At(s.term + 1, v) !in h.bids && At(s.term + 1, v) !in h.ballots
    ensures var h' := Voted(Stood(h, At(s.term + 1, v), s.log), At(s.term + 1, v), Ballot(v, s.log));
            Grows(h, h') && By(h, h', v) && NodeOk(p, h', v, StandForElection(Fx(s, {}, [])).node)
  {
    hide VoterOk, LeaderOk, KeepsAcks, Traced, Grows, By, Backed;
    var h' := Voted(Stood(h, At(s.term + 1, v), s.log), At(s.term + 1, v), Ballot(v, s.log));
    var s' := StandForElection(Fx(s, {}, [])).node;
    StandingFresh(h, v, s);
    TracedGrows(h, h', s.log);
    StandingVoter(p, h, v, s);
    LaterKeepsAcks(h, v, s, s');
    KeepsAcksSameReigns(h, h', v, s');
    if h.matched {
      BackedGrows(p, h, h', s.term, s'.term, s'.log[..s'.commit]);
    }
  }

  lemma StandForElectionKeeps(p: Params, c: Cluster, v: NodeId, o: Fx, h: History) returns (h': History)
    requires Mid(p, c, v, o, h)
    ensures Mid(p, c, v, StandForElection(o), h') && Grows(h, h') && h'.matched == h.matched
    ensures At(o.node.term + 1, v) in h'.bids && h'.bids[At(o.node.term + 1, v)] == o.node.log
  {
    hide Mid, HistoryOk, VoterOk, CandidateOk, LeaderOk, CommitOk;
    var s := o.node;
    var at := At(s.term + 1, v);
    MidNode(p, c, v, o, h);
    StandingOk(p, h, v, s);
    var h1 := Stood(h, at, s.log);
    h' := Voted(h1, at, Ballot(v, s.log));
    StandKeepsBid(p, h, v, s);
    TracedContiguous(h, s.log);
    var s1 := s.(term := s.term + 1);
    VoteKeeps(p, h1, v, s1, v);
    MoveKeeps(p, c, v, o, StandForElection(o).node, h, h');
  }

  lemma StandKeepsBid(p: Params, h: History, v: NodeId, s: Node)
    requires HistoryOk(p, h) && NodeOk(p, h, v, s) && At(s.term + 1, v) !in h.bids
    ensures var h1 := Stood(h, At(s.term + 1, v), s.log);
            HistoryOk(p, h1) && LogOk(p, h1, v, s.(term := s.term + 1)) && KeepsAcks(h1, v, s.(term := s.term + 1))
  {
    hide HistoryOk, VoterOk, CandidateOk, LeaderOk, CommitOk;
    var at := At(s.term + 1, v);
    StandKeeps(p, h, at, s.log);
    StoodGrows(h, at, s.log);
    TracedGrows(h, Stood(h, at, s.log), s.log);
    LaterKeepsAcks(h, v, s, s.(term := s.term + 1));
    KeepsAcksSameReigns(h, Stood(h, at, s.log), v, s.(term := s.term + 1));
  }

  /** A candidate counts a vote that was granted to it in its term. */
  lemma CountKeeps(p: Params, c: Cluster, v: NodeId, o: Fx, from: NodeId, h: History)
    requires Mid(p, c, v, o, h) && o.node.role == Candidate
    requires At(o.node.term, from) in h.ballots && h.ballots[At(o.node.term, from)].choice == v
    ensures Mid(p, c, v, o.(node := o.node.(votes := o.node.votes + {from})), h)
  {
    hide Mid, VotesRemember, BidsOk, ReignsOk, AcksOk;
    var s' := o.node.(votes := o.node.votes + {from});
    MidNode(p, c, v, o, h);
    assert from in p.servers;
    assert CandidateOk(p, h, v, s') by {
      hide BallotsOk, LogOk, VoterOk, LeaderOk, KeepsAcks, CommitOk;
    }
    SameFieldsOk(p, h, v, o.node, s');
    QuietKeeps(p, c, v, o, s', h);
  }

  /** The parts of `NodeOk` that do not look at the votes. */
  lemma SameFieldsOk(p: Params, h: History, v: NodeId, s: Node, s': Node)
    requires NodeOk(p, h, v, s) && CandidateOk(p, h, v, s')
    requires s'.id == s.id && s'.term == s.term && s'.votedFor == s.votedFor && s'.log == s.log && s'.role == s.role
    requires s'.nextIndex == s.nextIndex && s'.matchIndex == s.matchIndex
    requires s'.commit == s.commit && s'.applied == s.applied && s'.kv == s.kv
    ensures NodeOk(p, h, v, s')
  {
    hide Traced, CandidateOk, Backed;
  }
}
