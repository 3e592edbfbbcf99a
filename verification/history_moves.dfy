/**
 The five ways a node adds to the history: voting, standing for election, taking office,
 extending its log as leader, acknowledging a leader. Each keeps the history sound.
 */
module HistoryMoves {
  import opened RaftLogs
  import opened RaftSteps
  import opened Histories

  lemma SameHistory(h: History, v: NodeId)
    ensures Grows(h, h) && By(h, h, v)
  {
  }

  // ------------------------------------------------- what growth leaves untouched

  lemma BallotsGrow(p: Params, h: History, h': History)
    requires Grows(h, h') && BallotsOk(p, h) && h'.ballots == h.ballots
    ensures BallotsOk(p, h')
  {
    forall b | b in h'.ballots
      ensures Traced(h', h'.ballots[b].log)
    {
      TracedGrows(h, h', h.ballots[b].log);
    }
  }

  lemma BidsGrow(p: Params, h: History, h': History)
    requires Grows(h, h') && BidsOk(p, h) && h'.bids == h.bids
    ensures BidsOk(p, h')
  {
    forall b | b in h'.bids
      ensures Traced(h', h'.bids[b])
    {
      TracedGrows(h, h', h.bids[b]);
    }
  }

  lemma ReignGrows(p: Params, h: History, h': History, t: nat)
    requires Grows(h, h') && t in h.reigns && ReignOk(p, h, t) && h'.reigns[t] == h.reigns[t]
    ensures ReignOk(p, h', t)
  {
    TracedGrows(h, h', h.reigns[t].log);
  }

  lemma ReignsGrow(p: Params, h: History, h': History)
    requires Grows(h, h') && ReignsOk(p, h) && h'.reigns == h.reigns
    ensures ReignsOk(p, h')
  {
    forall t | t in h'.reigns
      ensures ReignOk(p, h', t)
    {
      ReignGrows(p, h, h', t);
    }
  }

  lemma CountsBefore(h: History, h': History, b: At)
    requires Grows(h, h') && Counts(h', b)
    ensures Counts(h, b)
  {
  }

  lemma RemembersGrows(h: History, h': History, a: At, b: At)
    requires Grows(h, h')
    requires a in h.acked && a.term in h.reigns && h.acked[a] <= |h.reigns[a.term].log| && b in h.ballots
    requires h'.acked[a] == h.acked[a] && Remembers(h, a, b)
    ensures h'.acked[a] <= |h'.reigns[a.term].log| && Remembers(h', a, b)
  {
    assert h.reigns[a.term].log <= h'.reigns[a.term].log;
    forall i | 0 <= i <= h'.acked[a] && HeldBetween(h', a.term, i, b.term)
      ensures h'.reigns[a.term].log[..i] <= h'.ballots[b].log
    {
      HeldBetweenGrows(h, h', a.term, i, b.term);
    }
  }

  /** Acknowledging more cannot spoil votes when the acknowledging node has not voted since. */
  lemma VotesRememberGrow(p: Params, h: History, h': History)
    requires Grows(h, h') && AcksOk(p, h) && VotesRemember(p, h) && AcksOk(p, h') && h'.ballots == h.ballots
    requires forall a, b | a in h'.acked && b in h'.ballots && a.node == b.node && a.term < b.term ::
               a in h.acked && h'.acked[a] == h.acked[a]
    ensures VotesRemember(p, h')
  {
    forall a, b | a in h'.acked && b in h'.ballots && a.node == b.node && a.term < b.term && Counts(h', b)
      ensures Remembers(h', a, b)
    {
      CountsBefore(h, h', b);
      RemembersGrows(h, h', a, b);
    }
  }

  // ----------------------------------------------------------------------- votes

  function Voted(h: History, at: At, ballot: Ballot): History {
    h.(ballots := h.ballots[at := ballot])
  }

  lemma VotedGrows(h: History, at: At, ballot: Ballot)
    requires at !in h.ballots
    ensures Grows(h, Voted(h, at, ballot)) && By(h, Voted(h, at, ballot), at.node)
  {
  }

  /** A first vote in a term that already has a leader is none of that leader's majority. */
  lemma LateVote(p: Params, h: History, at: At)
    requires ReignsOk(p, h) && at !in h.ballots && at.term in h.reigns
    ensures at.node !in h.reigns[at.term].quorum
  {
    assert ReignOk(p, h, at.term);
  }

  lemma KeptWhenVoting(h: History, v: NodeId, s: Node, a: At, ballot: Ballot)
    requires KeepsAcks(h, v, s) && a in h.acked && a.node == v && ballot.log == s.log
    requires s.term !in h.reigns && At(s.term, v) !in h.ballots
    ensures a.term in h.reigns && h.acked[a] <= |h.reigns[a.term].log|
    ensures Remembers(Voted(h, At(s.term, v), ballot), a, At(s.term, v))
  {
    var h' := Voted(h, At(s.term, v), ballot);
    assert a == At(a.term, v);
    forall i | 0 <= i <= h'.acked[a] && HeldBetween(h', a.term, i, s.term)
      ensures h'.reigns[a.term].log[..i] <= s.log
    {
      assert HeldBetween(h, a.term, i, s.term + 1);
    }
  }

  lemma VoteRemembers(p: Params, h: History, v: NodeId, s: Node, choice: NodeId)
    requires HistoryOk(p, h) && KeepsAcks(h, v, s)
    requires At(s.term, v) !in h.ballots
    requires AcksOk(p, Voted(h, At(s.term, v), Ballot(choice, s.log)))
    ensures VotesRemember(p, Voted(h, At(s.term, v), Ballot(choice, s.log)))
  {
    var at := At(s.term, v);
    var h' := Voted(h, at, Ballot(choice, s.log));
    VotedGrows(h, at, Ballot(choice, s.log));
    forall a, b | a in h'.acked && b in h'.ballots && a.node == b.node && a.term < b.term && Counts(h', b)
      ensures Remembers(h', a, b)
    {
      if b != at {
        CountsBefore(h, h', b);
        RemembersGrows(h, h', a, b);
      } else {
        if s.term in h.reigns {
          LateVote(p, h, at);
        }
        KeptWhenVoting(h, v, s, a, Ballot(choice, s.log));
      }
    }
  }

  lemma VotedBallots(p: Params, h: History, v: NodeId, s: Node, choice: NodeId)
    requires BallotsOk(p, h) && LogOk(p, h, v, s) && At(s.term, choice) in h.bids
    requires UpToDate(LastTerm(h.bids[At(s.term, choice)]), |h.bids[At(s.term, choice)]|, s.log)
    ensures BallotsOk(p, Voted(h, At(s.term, v), Ballot(choice, s.log)))
  {
  }

  lemma VotedAcks(p: Params, h: History, at: At, ballot: Ballot)
    requires AcksOk(p, h)
    ensures AcksOk(p, Voted(h, at, ballot))
  {
  }

  /** A vote is sound when the candidate stood with a log at least as up to date as the voter's,
      and the voter still holds what it acknowledged. */
  lemma VoteKeeps(p: Params, h: History, v: NodeId, s: Node, choice: NodeId)
    requires HistoryOk(p, h) && LogOk(p, h, v, s) && KeepsAcks(h, v, s)
    requires At(s.term, v) !in h.ballots && At(s.term, choice) in h.bids
    requires UpToDate(LastTerm(h.bids[At(s.term, choice)]), |h.bids[At(s.term, choice)]|, s.log)
    ensures HistoryOk(p, Voted(h, At(s.term, v), Ballot(choice, s.log)))
  {
    hide BallotsOk, BidsOk, ReignsOk, AcksOk, VotesRemember;
    var h' := Voted(h, At(s.term, v), Ballot(choice, s.log));
    VotedGrows(h, At(s.term, v), Ballot(choice, s.log));
    VotedBallots(p, h, v, s, choice);
    BidsGrow(p, h, h');
    ReignsGrow(p, h, h');
    VotedAcks(p, h, At(s.term, v), Ballot(choice, s.log));
    VoteRemembers(p, h, v, s, choice);
  }

  // ------------------------------------------------------------------------ bids

  function Stood(h: History, at: At, log: seq<Entry>): History {
    h.(bids := h.bids[at := log])
  }

  lemma StoodGrows(h: History, at: At, log: seq<Entry>)
    requires at !in h.bids
    ensures Grows(h, Stood(h, at, log)) && By(h, Stood(h, at, log), at.node)
  {
  }

  lemma StoodBids(p: Params, h: History, at: At, log: seq<Entry>)
    requires BidsOk(p, h) && at !in h.bids && at.node in p.servers && Traced(h, log) && TermsBelow(log, at.term)
    ensures BidsOk(p, Stood(h, at, log))
  {
  }

  lemma StoodAcks(p: Params, h: History, at: At, log: seq<Entry>)
    requires AcksOk(p, h)
    ensures AcksOk(p, Stood(h, at, log))
  {
  }

  lemma StandKeeps(p: Params, h: History, at: At, log: seq<Entry>)
    requires HistoryOk(p, h) && at !in h.bids && at.node in p.servers
    requires Traced(h, log) && TermsBelow(log, at.term)
    ensures HistoryOk(p, Stood(h, at, log))
  {
    hide BallotsOk, BidsOk, ReignsOk, AcksOk, VotesRemember;
    var h' := Stood(h, at, log);
    StoodGrows(h, at, log);
    BallotsGrow(p, h, h');
    StoodBids(p, h, at, log);
    ReignsGrow(p, h, h');
    StoodAcks(p, h, at, log);
    VotesRememberGrow(p, h, h');
  }

  // ---------------------------------------------------------------------- reigns

  function Crowned(h: History, t: nat, r: Reign): History {
    h.(reigns := h.reigns[t := r], acked := h.acked[At(t, r.id) := |r.log|])
  }

  lemma CrownedGrows(h: History, t: nat, r: Reign)
    requires t !in h.reigns && forall a | a in h.acked :: a.term in h.reigns
    ensures Grows(h, Crowned(h, t, r)) && By(h, Crowned(h, t, r), r.id)
  {
  }

  lemma CrownedReigns(p: Params, h: History, t: nat, r: Reign)
    requires ReignsOk(p, h) && BidsOk(p, h) && t !in h.reigns && Grows(h, Crowned(h, t, r))
    requires r.id in p.servers && Majority(p, r.quorum) && At(t, r.id) in h.bids
    requires r.start == r.log == h.bids[At(t, r.id)]
    requires forall v | v in r.quorum :: v in p.servers && At(t, v) in h.ballots && h.ballots[At(t, v)].choice == r.id
    ensures ReignsOk(p, Crowned(h, t, r))
  {
    var h' := Crowned(h, t, r);
    forall u | u in h'.reigns
      ensures ReignOk(p, h', u)
    {
      if u != t {
        ReignGrows(p, h, h', u);
      } else {
        TracedGrows(h, h', r.log);
      }
    }
  }

  lemma CrownedAcks(p: Params, h: History, t: nat, r: Reign)
    requires AcksOk(p, h) && t !in h.reigns && r.id in p.servers
    ensures AcksOk(p, Crowned(h, t, r)) && forall a | a in h.acked :: a.term in h.reigns
  {
  }

  /** A majority of votes for one's own bid, in a term without a leader, makes a leader. */
  lemma CrownKeeps(p: Params, h: History, t: nat, r: Reign)
    requires HistoryOk(p, h) && t !in h.reigns
    requires r.id in p.servers && Majority(p, r.quorum) && At(t, r.id) in h.bids
    requires r.start == r.log == h.bids[At(t, r.id)]
    requires forall v | v in r.quorum :: v in p.servers && At(t, v) in h.ballots && h.ballots[At(t, v)].choice == r.id
    requires forall b | b in h.ballots && b.node == r.id :: b.term <= t
    ensures HistoryOk(p, Crowned(h, t, r))
  {
    hide BallotsOk, BidsOk, ReignsOk, AcksOk, VotesRemember;
    var h' := Crowned(h, t, r);
    CrownedAcks(p, h, t, r);
    CrownedGrows(h, t, r);
    BallotsGrow(p, h, h');
    BidsGrow(p, h, h');
    CrownedReigns(p, h, t, r);
    VotesRememberGrow(p, h, h');
  }

  // ------------------------------------------------------------------- leader log

  function Extended(h: History, t: nat, e: Entry): History
    requires t in h.reigns
  {
    var r := h.reigns[t];
    h.(reigns := h.reigns[t := r.(log := r.log + [e])], acked := h.acked[At(t, r.id) := |r.log| + 1])
  }

  lemma ExtendedGrows(h: History, t: nat, e: Entry)
    requires t in h.reigns && (At(t, h.reigns[t].id) in h.acked ==> h.acked[At(t, h.reigns[t].id)] <= |h.reigns[t].log|)
    ensures Grows(h, Extended(h, t, e)) && By(h, Extended(h, t, e), h.reigns[t].id)
  {
  }

  lemma ExtendedTraced(h: History, t: nat, e: Entry)
    requires t in h.reigns && Grows(h, Extended(h, t, e))
    requires Traced(h, h.reigns[t].log) && e.term == t && e.index == |h.reigns[t].log| + 1
    ensures Traced(Extended(h, t, e), h.reigns[t].log + [e])
  {
    var h' := Extended(h, t, e);
    var log, log' := h.reigns[t].log, h.reigns[t].log + [e];
    TracedGrows(h, h', log);
    forall i | 0 <= i < |log'|
      ensures log'[i].index == i + 1 && log'[i].term in h'.reigns && log'[..i + 1] <= h'.reigns[log'[i].term].log
    {
      if i < |log| {
        assert log'[..i + 1] == log[..i + 1];
      }
    }
  }

  lemma ExtendedReigns(p: Params, h: History, t: nat, e: Entry)
    requires ReignsOk(p, h) && t in h.reigns && e.term == t && e.index == |h.reigns[t].log| + 1
    requires Grows(h, Extended(h, t, e))
    ensures ReignsOk(p, Extended(h, t, e))
  {
    var h' := Extended(h, t, e);
    forall u | u in h'.reigns
      ensures ReignOk(p, h', u)
    {
      assert ReignOk(p, h, u);
      if u != t {
        ReignGrows(p, h, h', u);
      } else {
        ExtendedTraced(h, t, e);
      }
    }
  }

  lemma ExtendedAcks(p: Params, h: History, t: nat, e: Entry)
    requires ReignsOk(p, h) && AcksOk(p, h) && t in h.reigns
    ensures AcksOk(p, Extended(h, t, e))
    ensures At(t, h.reigns[t].id) in h.acked ==> h.acked[At(t, h.reigns[t].id)] <= |h.reigns[t].log|
  {
    assert ReignOk(p, h, t);
  }

  lemma ExtendKeeps(p: Params, h: History, t: nat, e: Entry)
    requires HistoryOk(p, h) && t in h.reigns && e.term == t && e.index == |h.reigns[t].log| + 1
    requires forall b | b in h.ballots && b.node == h.reigns[t].id :: b.term <= t
    ensures HistoryOk(p, Extended(h, t, e))
  {
    hide BallotsOk, BidsOk, ReignsOk, AcksOk, VotesRemember;
    var h' := Extended(h, t, e);
    ExtendedAcks(p, h, t, e);
    ExtendedGrows(h, t, e);
    BallotsGrow(p, h, h');
    BidsGrow(p, h, h');
    ExtendedReigns(p, h, t, e);
    VotesRememberGrow(p, h, h');
  }

  // ------------------------------------------------------------- acknowledgements

  function Acked(h: History, at: At, n: nat): History {
    h.(acked := h.acked[at := if at in h.acked && h.acked[at] > n then h.acked[at] else n])
  }

  lemma AckedGrows(h: History, at: At, n: nat)
    ensures Grows(h, Acked(h, at, n)) && By(h, Acked(h, at, n), at.node)
  {
  }

  lemma AckedAcks(p: Params, h: History, at: At, n: nat)
    requires AcksOk(p, h) && at.node in p.servers && at.term in h.reigns && n <= |h.reigns[at.term].log|
    ensures AcksOk(p, Acked(h, at, n))
  {
  }

  /** A node acknowledges a leader before it votes in any later term. */
  lemma AckKeeps(p: Params, h: History, at: At, n: nat)
    requires HistoryOk(p, h) && at.node in p.servers && at.term in h.reigns && n <= |h.reigns[at.term].log|
    requires forall b | b in h.ballots && b.node == at.node :: b.term <= at.term
    ensures HistoryOk(p, Acked(h, at, n))
  {
    hide BallotsOk, BidsOk, ReignsOk, AcksOk, VotesRemember;
    var h' := Acked(h, at, n);
    AckedGrows(h, at, n);
    BallotsGrow(p, h, h');
    BidsGrow(p, h, h');
    ReignsGrow(p, h, h');
    AckedAcks(p, h, at, n);
    VotesRememberGrow(p, h, h');
  }
}
