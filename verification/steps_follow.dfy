/** The parts of the handlers that a follower runs keep the invariant: merging and committing. */
module FollowerKeeps {
  import opened Basics
  import opened RaftLogs
  import opened LogMerges
  import opened RaftSteps
  import opened Clusters
  import opened Histories
  import opened Completeness
  import opened HistoryMoves
  import opened StepsKeep
  import opened LeaderKeeps

  /** What a merge may do to a log that shares a prefix with the leader's. */
  ghost predicate MergeFits(log: seq<Entry>, lead: seq<Entry>, n: nat, log': seq<Entry>) {
    n <= |lead| && lead[..n] <= log' && (log' == log || log' == lead[..n])
    && forall i | 0 <= i <= |log| && i <= |lead| && log[..i] == lead[..i] :: lead[..i] <= log'
  }

  /** A prefix the leader has is kept. */
  lemma MergeKeepsPrefix(log: seq<Entry>, lead: seq<Entry>, n: nat, log': seq<Entry>, prefix: seq<Entry>)
    requires MergeFits(log, lead, n, log') && prefix <= log && prefix <= lead
    ensures prefix <= log'
  {
    assert log[..|prefix|] == prefix == lead[..|prefix|];
  }

  lemma MergedLogOk(p: Params, h: History, v: NodeId, s: Node, s': Node, n: nat)
    requires LogOk(p, h, v, s) && s.term in h.reigns && Traced(h, h.reigns[s.term].log)
    requires TermsBelow(h.reigns[s.term].log, s.term + 1)
    requires s' == s.(log := s'.log) && MergeFits(s.log, h.reigns[s.term].log, n, s'.log)
    ensures LogOk(p, h, v, s')
  {
    if s'.log != s.log {
      TracedPrefix(h, h.reigns[s.term].log, s'.log);
    }
  }

  /** A follower never loses what it acknowledged to a leader whose log its new leader started from. */
  lemma MergedKeepsAcks(h: History, h': History, v: NodeId, s: Node, s': Node, n: nat)
    requires KeepsAcks(h, v, s) && s.term in h.reigns
    requires h.reigns[s.term].start <= h.reigns[s.term].log
    requires s' == s.(log := s'.log) && MergeFits(s.log, h.reigns[s.term].log, n, s'.log)
    requires h' == Acked(h, At(s.term, v), n)
    ensures KeepsAcks(h', v, s')
  {
    hide MergeFits;
    var lead := h.reigns[s.term].log;
    forall t: nat | At(t, v) in h'.acked
      ensures t in h'.reigns && h'.acked[At(t, v)] <= |h'.reigns[t].log| && t <= s'.term
      ensures forall i | 0 <= i <= h'.acked[At(t, v)] && HeldBetween(h', t, i, s'.term + 1) :: h'.reigns[t].log[..i] <= s'.log
    {
      assert n <= |lead| && lead[..n] <= s'.log by {
        assert MergeFits(s.log, lead, n, s'.log);
        MergeReaches(s.log, lead, n, s'.log);
      }
      forall i | 0 <= i <= h'.acked[At(t, v)] && HeldBetween(h', t, i, s'.term + 1)
        ensures h'.reigns[t].log[..i] <= s'.log
      {
        if t == s.term && i <= n {
          assert lead[..i] == lead[..n][..i];
        } else {
          assert At(t, v) in h.acked && i <= h.acked[At(t, v)];
          assert HeldBetween(h, t, i, s.term + 1);
          assert t < s.term ==> h.reigns[t].log[..i] <= h.reigns[s.term].start;
          MergeKeepsPrefix(s.log, lead, n, s'.log, h.reigns[t].log[..i]);
        }
      }
    }
  }

  lemma MergeReaches(log: seq<Entry>, lead: seq<Entry>, n: nat, log': seq<Entry>)
    requires MergeFits(log, lead, n, log')
    ensures n <= |lead| && lead[..n] <= log'
  {
  }

  lemma AckedVoter(p: Params, h: History, v: NodeId, s: Node, s': Node, n: nat)
    requires VoterOk(h, v, s) && CandidateOk(p, h, v, s) && s.role == Follower && s' == s.(log := s'.log)
    ensures var h' := Acked(h, At(s.term, v), n);
            VoterOk(h', v, s') && CandidateOk(p, h', v, s') && LeaderOk(p, h', v, s')
  {
  }

  /** Merging a leader's slice never deletes an entry at or below the commit index. */
  lemma MergedCommitOk(p: Params, h: History, h': History, s: Node, s': Node, n: nat)
    requires HistoryOk(p, h) && CommitOk(p, h, s) && s.term in h.reigns && Grows(h, h')
    requires s' == s.(log := s'.log) && MergeFits(s.log, h.reigns[s.term].log, n, s'.log)
    ensures CommitOk(p, h', s') && (h.matched ==> KeepsCommitted(s, s'))
  {
    hide HistoryOk, MergeFits, Backed, Grows;
    if h.matched {
      var prefix := s.log[..s.commit];
      BackedInLeader(p, h, s.term, prefix, s.term);
      MergeKeepsPrefix(s.log, h.reigns[s.term].log, n, s'.log, prefix);
    }
    LongerCommitOk(p, h, h', s, s');
  }

  lemma MergedOk(p: Params, h: History, v: NodeId, s: Node, s': Node, n: nat)
    requires HistoryOk(p, h) && NodeOk(p, h, v, s) && s.role == Follower && s.term in h.reigns
    requires s' == s.(log := s'.log) && MergeFits(s.log, h.reigns[s.term].log, n, s'.log)
    ensures var h' := Acked(h, At(s.term, v), n);
            Grows(h, h') && By(h, h', v) && NodeOk(p, h', v, s') && (h.matched ==> KeepsCommitted(s, s'))
  {
    hide BallotsOk, BidsOk, ReignsOk, AcksOk, VotesRemember, VoterOk, CandidateOk, KeepsAcks, MergeFits, Grows,
      By, Traced;
    var h' := Acked(h, At(s.term, v), n);
    AckedGrows(h, At(s.term, v), n);
    ReignTerms(p, h, s.term);
    ReignStarts(p, h, s.term);
    ReignTraced(p, h, s.term);
    MergedLogOk(p, h, v, s, s', n);
    TracedGrows(h, h', s'.log);
    MergedKeepsAcks(h, h', v, s, s', n);
    AckedVoter(p, h, v, s, s', n);
    MergedCommitOk(p, h, h', s, s', n);
    hide LeaderOk, CommitOk;
  }

  lemma ReignTraced(p: Params, h: History, t: nat)
    requires ReignsOk(p, h) && t in h.reigns
    ensures Traced(h, h.reigns[t].log)
  {
    assert ReignOk(p, h, t);
  }

  lemma AppendMergeFits(p: Params, h: History, v: NodeId, s: Node, m: Msg)
    requires ReignsOk(p, h) && LogOk(p, h, v, s) && m.Append? && AppendOk(p, h, m) && m.term == s.term
    requires Accepts(s.log, m.prevIndex, m.prevTerm)
    ensures MergeFits(s.log, h.reigns[s.term].log, m.prevIndex + |m.entries|, Merged(s.log, m.prevIndex, m.entries))
  {
    hide ReignsOk, Backed, Merged, Traced, Accepts;
    ReignTraced(p, h, s.term);
    MergeFollowsLeader(h, s.log, h.reigns[s.term].log, m.prevIndex, m.prevTerm, |m.entries|);
  }

  // ------------------------------------------------------------ crashes inside a merge

  /** What a crash inside a merge may do to a log: it keeps every prefix shared with the leader's. */
  ghost predicate CutFits(log: seq<Entry>, lead: seq<Entry>, log': seq<Entry>) {
    (log' <= log || log' <= lead)
    && forall i | 0 <= i <= |log| && i <= |lead| && log[..i] == lead[..i] :: lead[..i] <= log'
  }

  lemma CutKeepsPrefix(log: seq<Entry>, lead: seq<Entry>, log': seq<Entry>, prefix: seq<Entry>)
    requires CutFits(log, lead, log') && prefix <= log && prefix <= lead
    ensures prefix <= log'
  {
    assert log[..|prefix|] == prefix == lead[..|prefix|];
  }

  lemma FitsFollow(log: seq<Entry>, lead: seq<Entry>, n: nat, log': seq<Entry>)
    requires MergeFits(log, lead, n, log')
    ensures log' == log || log' <= lead
  {
  }

  /** Where a slice of the leader's log first differs, nothing further is shared. */
  lemma SharedBeforeGap(log: seq<Entry>, lead: seq<Entry>, prev: nat, slice: seq<Entry>, g: nat, i: nat)
    requires prev + |slice| <= |lead| && slice == lead[prev..prev + |slice|] && g < |slice|
    requires TermAt(log, prev + 1 + g) != slice[g].term
    requires i <= |log| && i <= |lead| && log[..i] == lead[..i]
    ensures i <= prev + g
  {
    assert forall j | 0 <= j < i :: log[..i][j] == log[j] && lead[..i][j] == lead[j];
  }

  lemma MidMergeFits(p: Params, h: History, v: NodeId, s: Node, m: Msg, log': seq<Entry>)
    requires ReignsOk(p, h) && LogOk(p, h, v, s) && m.Append? && AppendOk(p, h, m) && m.term == s.term
    requires MidMerge(s.log, m, log')
    ensures CutFits(s.log, h.reigns[s.term].log, log')
  {
    hide ReignsOk, CarriesCommit, LogOk, Merged, MergeFits, Accepts, CutFits, TermAt;
    var log, lead, prev := s.log, h.reigns[s.term].log, m.prevIndex;
    AppendMergeFits(p, h, v, s, m);
    FitsFollow(log, lead, prev + |m.entries|, Merged(log, prev, m.entries));
    FirstGapMeans(log, prev, m.entries, 0);
    var g := FirstGap(log, prev, m.entries, 0);
    if g < |m.entries| {
      GapFits(log, lead, prev, m.entries, g, log');
    } else {
      SameFits(log, lead);
    }
  }

  lemma SameFits(log: seq<Entry>, lead: seq<Entry>)
    ensures CutFits(log, lead, log)
  {
  }

  lemma GapFits(log: seq<Entry>, lead: seq<Entry>, prev: nat, slice: seq<Entry>, g: nat, log': seq<Entry>)
    requires prev + |slice| <= |lead| && slice == lead[prev..prev + |slice|] && g < |slice|
    requires TermAt(log, prev + 1 + g) != slice[g].term
    requires log[..Min(prev + g, |log|)] <= log' && (log' <= log || log' <= lead)
    ensures CutFits(log, lead, log')
  {
    hide TermAt;
    forall i | 0 <= i <= |log| && i <= |lead| && log[..i] == lead[..i]
      ensures lead[..i] <= log'
    {
      SharedBeforeGap(log, lead, prev, slice, g, i);
      assert lead[..i] == log[..Min(prev + g, |log|)][..i];
    }
  }

  lemma CutIsPrefix(log: seq<Entry>, lead: seq<Entry>, log': seq<Entry>)
    requires CutFits(log, lead, log')
    ensures log' <= log || log' <= lead
  {
  }

  lemma CutKeepsAcks(h: History, v: NodeId, s: Node, s': Node)
    requires KeepsAcks(h, v, s) && s.term in h.reigns && h.reigns[s.term].start <= h.reigns[s.term].log
    requires s' == s.(log := s'.log) && CutFits(s.log, h.reigns[s.term].log, s'.log)
    ensures KeepsAcks(h, v, s')
  {
    hide CutFits;
    var lead := h.reigns[s.term].log;
    forall t: nat | At(t, v) in h.acked
      ensures t in h.reigns && h.acked[At(t, v)] <= |h.reigns[t].log| && t <= s'.term
      ensures forall i | 0 <= i <= h.acked[At(t, v)] && HeldBetween(h, t, i, s'.term + 1) :: h.reigns[t].log[..i] <= s'.log
    {
      forall i | 0 <= i <= h.acked[At(t, v)] && HeldBetween(h, t, i, s'.term + 1)
        ensures h.reigns[t].log[..i] <= s'.log
      {
        assert HeldBetween(h, t, i, s.term + 1);
        assert t < s.term ==> h.reigns[t].log[..i] <= h.reigns[s.term].start;
        CutKeepsPrefix(s.log, lead, s'.log, h.reigns[t].log[..i]);
      }
    }
  }

  /** A node just restarted may do with the log that a crash inside a merge left. */
  lemma CutOk(p: Params, h: History, v: NodeId, s: Node, s': Node)
    requires HistoryOk(p, h) && NodeOk(p, h, v, s) && s == Fresh(s.id, s.term, s.votedFor, s.log) && s.term in h.reigns
    requires s' == s.(log := s'.log) && CutFits(s.log, h.reigns[s.term].log, s'.log)
    ensures NodeOk(p, h, v, s')
  {
    hide BallotsOk, BidsOk, ReignsOk, AcksOk, VotesRemember, VoterOk, KeepsAcks, CutFits, Traced;
    var lead := h.reigns[s.term].log;
    ReignTerms(p, h, s.term);
    ReignStarts(p, h, s.term);
    ReignTraced(p, h, s.term);
    CutKeepsAcks(h, v, s, s');
    CutIsPrefix(s.log, lead, s'.log);
    TracedPrefix(h, if s'.log <= s.log then s.log else lead, s'.log);
    CutVoter(h, v, s, s');
    assert s'.log[..0] == [];
  }

  lemma CutVoter(h: History, v: NodeId, s: Node, s': Node)
    requires VoterOk(h, v, s) && s' == s.(log := s'.log)
    ensures VoterOk(h, v, s')
  {
  }

  // --------------------------------------------------------------------------- steps

  lemma MergeKeeps(p: Params, c: Cluster, v: NodeId, o: Fx, m: Msg, h: History) returns (h': History)
    requires Mid(p, c, v, o, h) && o.node.role == Follower && m.Append? && AppendOk(p, h, m) && m.term == o.node.term
    requires Accepts(o.node.log, m.prevIndex, m.prevTerm)
    ensures var o' := MergeAppend(o, m).0; Mid(p, c, v, o', h') && (h.matched ==> KeepsCommitted(o.node, o'.node))
    ensures Grows(h, h') && h'.matched == h.matched
    ensures At(m.term, v) in h'.acked && m.prevIndex + |m.entries| <= h'.acked[At(m.term, v)]
    ensures m.term in h.reigns
    ensures MergeFits(o.node.log, h.reigns[m.term].log, m.prevIndex + |m.entries|, MergeAppend(o, m).0.node.log)
  {
    hide Mid, BallotsOk, BidsOk, AcksOk, VotesRemember, CandidateOk, KeepsAcks, Traced, MergeFits, Grows, By, Backed;
    var s, n := o.node, m.prevIndex + |m.entries|;
    var s' := MergeAppend(o, m).0.node;
    h' := Acked(h, At(s.term, v), n);
    MidNode(p, c, v, o, h);
    assert forall b | b in h.ballots && b.node == v :: b == At(b.term, v);
    hide ReignsOk;
    AppendMergeFits(p, h, v, s, m);
    MergeReaches(s.log, h.reigns[s.term].log, n, s'.log);
    MergedOk(p, h, v, s, s', n);
    AckKeeps(p, h, At(s.term, v), n);
    AckedGrows(h, At(s.term, v), n);
    MoveKeeps(p, c, v, o, s', h, h');
  }

  /** In at most two members every member has acknowledged what is chosen, and still holds it. */
  lemma PairHolds(p: Params, h: History, v: NodeId, s: Node, term: nat, prefix: seq<Entry>)
    requires HistoryOk(p, h) && KeepsAcks(h, v, s) && v in p.servers && |p.servers| <= 2
    requires Backed(p, h, term, prefix)
    ensures prefix <= s.log
  {
    hide HistoryOk, KeepsAcks;
    if prefix != [] {
      var t: nat, i: nat :| Chosen(p, h, t, i) && t <= term && prefix <= h.reigns[t].log[..i];
      var ackers := Ackers(p, h, t, i);
      if v !in ackers {
        SubsetSize(ackers, p.servers - {v});
        assert false;
      }
      AckerHolds(p, h, v, s, t, i);
    }
  }

  /** A follower that agrees with the leader as far as it commits takes over a backed commit index. */
  lemma FollowCommitKeeps(p: Params, c: Cluster, v: NodeId, o: Fx, m: Msg, n: nat, h: History)
    requires Mid(p, c, v, o, h) && m.Append? && AppendOk(p, h, m) && m.term == o.node.term
    requires n <= |h.reigns[m.term].log| && h.reigns[m.term].log[..n] <= o.node.log
    requires h.matched && m.commit > o.node.commit && |p.servers| > 2 ==> Min(m.commit, LastIndex(o.node.log)) <= n
    ensures Mid(p, c, v, FollowCommit(o, m.commit), h)
  {
    hide Mid, HistoryOk, VoterOk, CandidateOk, LeaderOk, KeepsAcks, ApplyCommitted, Backed;
    var s, lead := o.node, h.reigns[m.term].log;
    MidNode(p, c, v, o, h);
    if m.commit > s.commit {
      TracedContiguous(h, s.log);
      var commit := Min(m.commit, LastIndex(s.log));
      if h.matched {
        assert s.log[..commit] == lead[..m.commit][..commit] by {
          if |p.servers| > 2 {
            assert s.log[..commit] == lead[..n][..commit] == lead[..commit];
          } else {
            PairHolds(p, h, v, s, m.term, lead[..m.commit]);
          }
        }
        BackedShorter(p, h, m.term, lead[..m.commit], s.log[..commit]);
      }
      SetCommitKeeps(p, c, v, o, commit, h);
      ApplyCommittedKeeps(p, c, v, o.(node := s.(commit := commit)), h);
    }
  }
}
