/**
 The parts of the handlers that only a winning candidate or a leader runs keep the
 invariant: taking office, appending, replicating, committing and applying.
 */
module LeaderKeeps {
  import opened Basics
  import opened RaftLogs
  import opened RaftSteps
  import opened Clusters
  import opened Histories
  import opened Completeness
  import opened HistoryMoves
  import opened StepsKeep

  // ----------------------------------------------------------------- taking office

  /** Election safety: a term that already has a leader gives no other node a majority. */
  lemma NoSecondLeader(p: Params, h: History, v: NodeId, s: Node)
    requires BallotsOk(p, h) && ReignsOk(p, h) && CandidateOk(p, h, v, s)
    requires s.role == Candidate && Majority(p, s.votes)
    ensures s.term !in h.reigns
  {
    if s.term in h.reigns {
      assert ReignOk(p, h, s.term);
      var w := QuorumsMeet(p, s.votes, h.reigns[s.term].quorum);
      assert false;
    }
  }

  function Office(v: NodeId, s: Node): Reign {
    Reign(v, s.votes, s.log, s.log)
  }

  lemma CrownedVoter(p: Params, h: History, v: NodeId, s: Node)
    requires VoterOk(h, v, s) && s.term !in h.reigns && v in p.servers && s.id == v
    ensures var h' := Crowned(h, s.term, Office(v, s));
            var s' := TakeOffice(p, Fx(s, {}, [])).node;
            VoterOk(h', v, s') && CandidateOk(p, h', v, s')
  {
  }

  lemma CrownedLeader(p: Params, h: History, v: NodeId, s: Node)
    requires s.term !in h.reigns && v in p.servers && s.id == v && LastIndex(s.log) == |s.log|
    ensures LeaderOk(p, Crowned(h, s.term, Office(v, s)), v, TakeOffice(p, Fx(s, {}, [])).node)
  {
  }

  lemma CrownedKeepsAcks(h: History, h': History, v: NodeId, s: Node)
    requires KeepsAcks(h, v, s) && s.term !in h.reigns
    requires h' == Crowned(h, s.term, Office(v, s)) && Grows(h, h')
    ensures KeepsAcks(h', v, s)
  {
    forall t: nat | At(t, v) in h'.acked
      ensures t in h'.reigns && h'.acked[At(t, v)] <= |h'.reigns[t].log| && t <= s.term
      ensures forall i | 0 <= i <= h'.acked[At(t, v)] && HeldBetween(h', t, i, s.term + 1) :: h'.reigns[t].log[..i] <= s.log
    {
      if t != s.term {
        assert At(t, v) in h.acked;
        forall i | 0 <= i <= h'.acked[At(t, v)] && HeldBetween(h', t, i, s.term + 1)
          ensures h'.reigns[t].log[..i] <= s.log
        {
          HeldBetweenGrows(h, h', t, i, s.term + 1);
        }
      }
    }
  }

  lemma OfficeOk(p: Params, h: History, v: NodeId, s: Node)
    requires NodeOk(p, h, v, s) && HistoryOk(p, h) && s.term !in h.reigns
    ensures var h' := Crowned(h, s.term, Office(v, s));
            Grows(h, h') && By(h, h', v) && NodeOk(p, h', v, TakeOffice(p, Fx(s, {}, [])).node)
  {
    hide VoterOk, CandidateOk, LeaderOk, KeepsAcks, Traced, Grows, By, Backed, BallotsOk, BidsOk, ReignsOk,
      AcksOk, VotesRemember;
    var h' := Crowned(h, s.term, Office(v, s));
    var s' := TakeOffice(p, Fx(s, {}, [])).node;
    CrownedAcks(p, h, s.term, Office(v, s));
    CrownedGrows(h, s.term, Office(v, s));
    TracedContiguous(h, s.log);
    TracedGrows(h, h', s.log);
    CrownedVoter(p, h, v, s);
    CrownedLeader(p, h, v, s);
    CrownedKeepsAcks(h, h', v, s);
    LaterKeepsAcks(h', v, s, s');
    if h.matched {
      BackedGrows(p, h, h', s.term, s.term, s.log[..s.commit]);
    }
  }

  lemma CandidateCrown(p: Params, h: History, v: NodeId, s: Node)
    requires HistoryOk(p, h) && NodeOk(p, h, v, s) && s.role == Candidate && Majority(p, s.votes)
    ensures s.term !in h.reigns && HistoryOk(p, Crowned(h, s.term, Office(v, s)))
  {
    NoSecondLeader(p, h, v, s);
    hide BallotsOk, BidsOk, ReignsOk, AcksOk, VotesRemember, LeaderOk, KeepsAcks, Traced, Backed;
    assert forall b | b in h.ballots && b.node == v :: b == At(b.term, v);
    CrownKeeps(p, h, s.term, Office(v, s));
  }

  lemma TakeOfficeKeeps(p: Params, c: Cluster, v: NodeId, o: Fx, h: History) returns (h': History)
    requires Mid(p, c, v, o, h) && o.node.role == Candidate && Majority(p, o.node.votes)
    ensures Mid(p, c, v, TakeOffice(p, o), h') && Grows(h, h') && h'.matched == h.matched
  {
    hide Mid, HistoryOk, NodeOk, Grows, By;
    MidNode(p, c, v, o, h);
    CandidateCrown(p, h, v, o.node);
    OfficeOk(p, h, v, o.node);
    h' := Crowned(h, o.node.term, Office(v, o.node));
    MoveKeeps(p, c, v, o, TakeOffice(p, o).node, h, h');
  }

  // -------------------------------------------------------------------- appending

  function Proposal(s: Node, payload: Bytes): Entry {
    Entry(LastIndex(s.log) + 1, s.term, payload)
  }

  lemma ExtendedVoter(p: Params, h: History, v: NodeId, s: Node, s': Node, e: Entry)
    requires VoterOk(h, v, s) && CandidateOk(p, h, v, s) && s.role == Leader && s.term in h.reigns
    requires s' == s.(log := s.log + [e])
    ensures VoterOk(Extended(h, s.term, e), v, s') && CandidateOk(p, Extended(h, s.term, e), v, s')
  {
  }

  lemma ExtendedLeader(p: Params, h: History, v: NodeId, s: Node, s': Node, e: Entry)
    requires LeaderOk(p, h, v, s) && s.role == Leader && s' == s.(log := s.log + [e])
    ensures LeaderOk(p, Extended(h, s.term, e), v, s')
  {
    var h' := Extended(h, s.term, e);
    forall q | q in Peers(p, v)
      ensures PeerOk(h', s', q)
    {
      assert PeerOk(h, s, q);
    }
  }

  lemma ExtendedKeepsAcks(h: History, h': History, v: NodeId, s: Node, s': Node, e: Entry)
    requires KeepsAcks(h, v, s) && s.term in h.reigns && h.reigns[s.term].id == v && s.log == h.reigns[s.term].log
    requires s' == s.(log := s.log + [e]) && h' == Extended(h, s.term, e) && Grows(h, h')
    ensures KeepsAcks(h', v, s')
  {
    forall t: nat | At(t, v) in h'.acked
      ensures t in h'.reigns && h'.acked[At(t, v)] <= |h'.reigns[t].log| && t <= s'.term
      ensures forall i | 0 <= i <= h'.acked[At(t, v)] && HeldBetween(h', t, i, s'.term + 1) :: h'.reigns[t].log[..i] <= s'.log
    {
      if t != s.term {
        assert At(t, v) in h.acked;
        forall i | 0 <= i <= h'.acked[At(t, v)] && HeldBetween(h', t, i, s'.term + 1)
          ensures h'.reigns[t].log[..i] <= s'.log
        {
          HeldBetweenGrows(h, h', t, i, s.term + 1);
          assert h.reigns[t].log[..i] <= s.log <= s'.log;
        }
      }
    }
  }

  lemma LongerCommitOk(p: Params, h: History, h': History, s: Node, s': Node)
    requires CommitOk(p, h, s) && Grows(h, h') && s.term <= s'.term
    requires s'.commit == s.commit && s'.applied == s.applied && s'.kv == s.kv
    requires h.matched ==> KeepsCommitted(s, s')
    ensures CommitOk(p, h', s')
  {
    if h.matched {
      BackedGrows(p, h, h', s.term, s'.term, s.log[..s.commit]);
      assert s'.log[..s.applied] == s.log[..s.commit][..s.applied] == s.log[..s.applied];
    }
  }

  /** What the node had committed is still there. */
  predicate KeepsCommitted(s: Node, s': Node) {
    s.commit <= |s.log| && s.commit <= |s'.log| && s'.log[..s.commit] == s.log[..s.commit]
  }

  lemma ProposedOk(p: Params, h: History, v: NodeId, s: Node, s': Node, e: Entry)
    requires NodeOk(p, h, v, s) && s.role == Leader && e.term == s.term && e.index == |s.log| + 1
    requires s' == s.(log := s.log + [e])
    ensures s.term in h.reigns && h.reigns[s.term].id == v
    ensures var h' := Extended(h, s.term, e);
            Grows(h, h') && By(h, h', v) && NodeOk(p, h', v, s')
  {
    hide VoterOk, CandidateOk, KeepsAcks, Traced, By, CommitOk;
    assert s.term in h.reigns && h.reigns[s.term].id == v;
    ExtendedGrows(h, s.term, e);
    hide Grows;
    ExtendedTraced(h, s.term, e);
    ExtendedVoter(p, h, v, s, s', e);
    ExtendedLeader(p, h, v, s, s', e);
    ExtendedKeepsAcks(h, Extended(h, s.term, e), v, s, s', e);
    ProposedCommit(p, h, Extended(h, s.term, e), s, s', e);
    hide LeaderOk;
  }

  lemma ProposedCommit(p: Params, h: History, h': History, s: Node, s': Node, e: Entry)
    requires CommitOk(p, h, s) && Grows(h, h') && s' == s.(log := s.log + [e])
    ensures CommitOk(p, h', s')
  {
    hide Backed, Grows;
    LongerCommitOk(p, h, h', s, s');
  }

  lemma AppendEntryKeeps(p: Params, c: Cluster, v: NodeId, o: Fx, payload: Bytes, h: History) returns (h': History)
    requires Mid(p, c, v, o, h) && o.node.role == Leader
    ensures Mid(p, c, v, AppendEntry(o, payload), h') && Grows(h, h') && h'.matched == h.matched
  {
    hide Mid, HistoryOk, CandidateOk, KeepsAcks, Traced, Grows, By, CommitOk;
    var s, e := o.node, Proposal(o.node, payload);
    MidNode(p, c, v, o, h);
    TracedContiguous(h, s.log);
    ProposedOk(p, h, v, s, AppendEntry(o, payload).node, e);
    h' := Extended(h, s.term, e);
    assert forall b | b in h.ballots && b.node == v :: b == At(b.term, v);
    ExtendKeeps(p, h, s.term, e);
    MoveKeeps(p, c, v, o, AppendEntry(o, payload).node, h, h');
  }

  // ---------------------------------------------------------------------- sending

  lemma SliceFrom(log: seq<Entry>, ni: Pos, limit: nat)
    requires ni <= |log| + 1
    ensures var es := EntriesFrom(log, ni, limit);
            ni - 1 + |es| <= |log| && es == log[ni - 1..ni - 1 + |es|] && (limit == 0 ==> ni - 1 + |es| == |log|)
  {
  }

  lemma AppendForOk(p: Params, h: History, v: NodeId, s: Node, q: NodeId)
    requires NodeOk(p, h, v, s) && s.role == Leader && q in Peers(p, v)
    ensures AppendOk(p, h, AppendFor(p, s, q))
  {
    assert PeerOk(h, s, q);
    hide VoterOk, CandidateOk, KeepsAcks, Backed;
    TracedContiguous(h, s.log);
    SliceFrom(s.log, s.nextIndex[q], p.maxBatch);
  }

  lemma SendAppendKeeps(p: Params, c: Cluster, v: NodeId, o: Fx, q: NodeId, h: History)
    requires Mid(p, c, v, o, h) && o.node.role == Leader && q in Peers(p, v)
    ensures Mid(p, c, v, SendAppend(p, o, q), h)
  {
    hide Mid, HistoryOk, NodeOk, AppendOk;
    MidNode(p, c, v, o, h);
    AppendForOk(p, h, v, o.node, q);
    SendKeeps(p, c, v, o, q, AppendFor(p, o.node, q), h);
  }

  lemma SendAllKeeps(p: Params, c: Cluster, v: NodeId, o: Fx, h: History)
    requires Mid(p, c, v, o, h) && o.node.role == Leader
    ensures Mid(p, c, v, SendAllAppends(p, o), h)
  {
    hide Mid, HistoryOk, AppendOk, VoterOk, CandidateOk, LeaderOk, KeepsAcks, CommitOk;
    MidNode(p, c, v, o, h);
    var more := set q | q in Peers(p, o.node.id) :: Packet(q, AppendFor(p, o.node, q));
    forall k | k in more
      ensures PacketOk(p, h, k)
    {
      AppendForOk(p, h, v, o.node, k.dest);
    }
    SendsKeep(p, c, v, o, more, h);
  }

  // ------------------------------------------------------------------- committing

  lemma {:induction false} CommitPointMeans(p: Params, s: Node, c: nat)
    ensures var k := CommitPoint(p, s, c);
            k >= s.commit && (k > s.commit ==> k <= c && CanCommit(p, s, k))
            && forall j | k < j <= c :: !CanCommit(p, s, j)
  {
    if c > s.commit && !CanCommit(p, s, c) {
      CommitPointMeans(p, s, c - 1);
    }
  }

  /** Enough acknowledgements make an entry of the leader's own term chosen. */
  lemma CommitChosen(p: Params, h: History, v: NodeId, s: Node, k: nat)
    requires LogOk(p, h, v, s) && LeaderOk(p, h, v, s) && s.role == Leader && 1 <= k && CanCommit(p, s, k)
    ensures Chosen(p, h, s.term, k) && k <= |s.log|
  {
    var holders := Holders(p, s, k);
    forall q | q in holders
      ensures q in Ackers(p, h, s.term, k)
    {
      assert PeerOk(h, s, q);
    }
    assert holders + {v} <= Ackers(p, h, s.term, k);
    assert |holders + {v}| == |holders| + 1;
    SubsetSize(holders + {v}, Ackers(p, h, s.term, k));
  }

  lemma CommittedOk(p: Params, h: History, v: NodeId, s: Node, commit: nat)
    requires NodeOk(p, h, v, s)
    requires h.matched ==> s.commit <= commit <= |s.log| && Backed(p, h, s.term, s.log[..commit])
    ensures NodeOk(p, h, v, s.(commit := commit))
  {
    var s' := s.(commit := commit);
    assert VoterOk(h, v, s') && CandidateOk(p, h, v, s') && LogOk(p, h, v, s') by {
      hide Traced, KeepsAcks, LeaderOk;
    }
    assert LeaderOk(p, h, v, s') by {
      forall q | s.role == Leader && q in Peers(p, v)
        ensures PeerOk(h, s', q)
      {
        assert PeerOk(h, s, q);
      }
    }
    LaterKeepsAcks(h, v, s, s');
    hide VoterOk, CandidateOk, LeaderOk, KeepsAcks, Traced, Backed;
  }

  lemma SetCommitKeeps(p: Params, c: Cluster, v: NodeId, o: Fx, commit: nat, h: History)
    requires Mid(p, c, v, o, h)
    requires h.matched ==> o.node.commit <= commit <= |o.node.log| && Backed(p, h, o.node.term, o.node.log[..commit])
    ensures Mid(p, c, v, o.(node := o.node.(commit := commit)), h)
  {
    hide Mid, NodeOk, HistoryOk, Backed;
    MidNode(p, c, v, o, h);
    CommittedOk(p, h, v, o.node, commit);
    QuietKeeps(p, c, v, o, o.node.(commit := commit), h);
  }

  // --------------------------------------------------------------------- applying

  lemma ReplayOne(log: seq<Entry>, k: nat)
    requires k < |log|
    ensures Replay(log[..k + 1]) == ApplyEntry(Replay(log[..k]), log[k]).0
  {
    assert log[..k + 1][..k] == log[..k];
  }

  lemma ApplyOneOk(p: Params, h: History, v: NodeId, s: Node, s': Node)
    requires NodeOk(p, h, v, s) && s.applied < s.commit && s.applied < |s.log|
    requires s' == s.(applied := s.applied + 1, kv := ApplyEntry(s.kv, s.log[s.applied]).0)
    ensures NodeOk(p, h, v, s')
  {
    ReplayOne(s.log, s.applied);
    assert CommitOk(p, h, s') by {
      hide Backed;
    }
    assert LeaderOk(p, h, v, s') by {
      forall q | s.role == Leader && q in Peers(p, v)
        ensures PeerOk(h, s', q)
      {
        assert PeerOk(h, s, q);
      }
    }
    LaterKeepsAcks(h, v, s, s');
    hide CommitOk, LeaderOk, KeepsAcks, Traced;
  }

  /** What a node applies next is an entry of a chosen prefix, answered as replaying that prefix answers. */
  lemma AppliedIsChosen(p: Params, h: History, s: Node, term: nat)
    requires h.matched && CommitOk(p, h, s) && s.applied < s.commit && Contiguous(s.log)
    ensures AppliedOk(p, h, Applied(s.id, s.log[s.applied].index, s.log[s.applied].payload,
                                    ApplyEntry(s.kv, s.log[s.applied]).1))
  {
    var prefix, k := s.log[..s.commit], s.applied;
    var t: nat, i: nat :| Chosen(p, h, t, i) && t <= s.term && prefix <= h.reigns[t].log[..i];
    var log := h.reigns[t].log[..i];
    assert log[k] == prefix[k] == s.log[k];
    assert log[..k] == prefix[..k] == s.log[..k];
    assert Explains(log, Applied(s.id, s.log[k].index, s.log[k].payload, ApplyEntry(s.kv, s.log[k]).1));
  }

  lemma ApplyOneKeeps(p: Params, c: Cluster, v: NodeId, o: Fx, h: History)
    requires Mid(p, c, v, o, h) && o.node.applied < o.node.commit && o.node.applied < |o.node.log|
    ensures Mid(p, c, v, ApplyOne(o), h)
  {
    hide HistoryOk, PacketOk, AppliedOk, ApplyEntry, IsConfig, Traced, VoterOk, CandidateOk, LeaderOk,
      KeepsAcks, Backed;
    var s := o.node;
    MidNode(p, c, v, o, h);
    TracedContiguous(h, s.log);
    ApplyOneOk(p, h, v, s, ApplyOne(o).node);
    if h.matched {
      AppliedIsChosen(p, h, s, s.term);
    }
    SameHistory(h, v);
    hide NodeOk, Grows, By;
    StepKeeps(p, c, v, o, ApplyOne(o), h, h);
  }

  lemma {:induction false} ApplyCommittedKeeps(p: Params, c: Cluster, v: NodeId, o: Fx, h: History)
    requires Mid(p, c, v, o, h)
    ensures Mid(p, c, v, ApplyCommitted(o), h)
    decreases o.node.commit - o.node.applied
  {
    hide Mid;
    if o.node.applied < o.node.commit && o.node.applied < |o.node.log| {
      ApplyOneKeeps(p, c, v, o, h);
      ApplyCommittedKeeps(p, c, v, ApplyOne(o), h);
    }
  }

  lemma AdvanceCommitKeeps(p: Params, c: Cluster, v: NodeId, o: Fx, h: History)
    requires Mid(p, c, v, o, h) && o.node.role == Leader
    ensures Mid(p, c, v, AdvanceCommit(p, o), h)
  {
    hide Mid, HistoryOk, VoterOk, CandidateOk, KeepsAcks, CommitOk, CanCommit, ApplyCommitted;
    var s := o.node;
    var k := CommitPoint(p, s, LastIndex(s.log));
    CommitPointMeans(p, s, LastIndex(s.log));
    MidNode(p, c, v, o, h);
    if k > s.commit {
      CommitChosen(p, h, v, s, k);
      assert s.log[..k] <= h.reigns[s.term].log[..k];
      SetCommitKeeps(p, c, v, o, k, h);
      ApplyCommittedKeeps(p, c, v, o.(node := s.(commit := k)), h);
    }
  }

  // ------------------------------------------------------------- replication state

  lemma TrackingOk(p: Params, h: History, v: NodeId, s: Node, s': Node)
    requires NodeOk(p, h, v, s) && s' == s.(nextIndex := s'.nextIndex, matchIndex := s'.matchIndex)
    requires LeaderOk(p, h, v, s')
    ensures NodeOk(p, h, v, s')
  {
    LaterKeepsAcks(h, v, s, s');
    hide LeaderOk, KeepsAcks, Traced, Backed;
  }

  /** A success reply raises what the leader believes the peer holds. */
  lemma RecordAckKeeps(p: Params, c: Cluster, v: NodeId, o: Fx, q: NodeId, n: nat, h: History)
    requires Mid(p, c, v, o, h) && o.node.role == Leader && q in o.node.matchIndex && q in o.node.nextIndex
    requires At(o.node.term, q) in h.acked && n <= h.acked[At(o.node.term, q)]
    ensures var s := o.node; var m := Max(s.matchIndex[q], n);
            Mid(p, c, v, o.(node := s.(matchIndex := s.matchIndex[q := m], nextIndex := s.nextIndex[q := m + 1])), h)
  {
    hide Mid, VoterOk, CandidateOk, KeepsAcks, CommitOk, BallotsOk, BidsOk, ReignsOk, VotesRemember;
    var s := o.node;
    var m := Max(s.matchIndex[q], n);
    var s' := s.(matchIndex := s.matchIndex[q := m], nextIndex := s.nextIndex[q := m + 1]);
    MidNode(p, c, v, o, h);
    assert q in Peers(p, v) && PeerOk(h, s, q);
    forall x | x in Peers(p, v)
      ensures PeerOk(h, s', x)
    {
      assert PeerOk(h, s, x);
    }
    assert LeaderOk(p, h, v, s');
    TrackingOk(p, h, v, s, s');
    QuietKeeps(p, c, v, o, s', h);
  }

  /** A refusal moves the peer's next index back, never below 1. */
  lemma BackOffKeeps(p: Params, c: Cluster, v: NodeId, o: Fx, q: NodeId, back: Pos, h: History)
    requires Mid(p, c, v, o, h) && o.node.role == Leader && q in o.node.matchIndex && q in o.node.nextIndex
    requires back <= o.node.nextIndex[q]
    ensures Mid(p, c, v, o.(node := o.node.(nextIndex := o.node.nextIndex[q := back])), h)
  {
    hide Mid, VoterOk, CandidateOk, KeepsAcks, CommitOk, HistoryOk;
    var s := o.node;
    var s' := s.(nextIndex := s.nextIndex[q := back]);
    MidNode(p, c, v, o, h);
    forall x | x in Peers(p, v)
      ensures PeerOk(h, s', x)
    {
      assert PeerOk(h, s, x);
    }
    assert LeaderOk(p, h, v, s');
    TrackingOk(p, h, v, s, s');
    QuietKeeps(p, c, v, o, s', h);
  }
}
