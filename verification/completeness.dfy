/**
 What follows from the history alone: log matching, the leader completeness argument
 (section 5.4 of the extended Raft paper), and what a merge with a slice of a leader's
 log can do to a follower's log.
 */
module Completeness {
  import opened RaftLogs
  import opened LogMerges
  import opened RaftSteps
  import opened Histories

  lemma TracedContiguous(h: History, log: seq<Entry>)
    requires Traced(h, log)
    ensures Contiguous(log) && LastIndex(log) == |log|
  {
  }

  lemma TracedPrefix(h: History, log: seq<Entry>, short: seq<Entry>)
    requires Traced(h, log) && short <= log
    ensures Traced(h, short)
  {
    forall i | 0 <= i < |short|
      ensures short[i].index == i + 1 && short[i].term in h.reigns && short[..i + 1] <= h.reigns[short[i].term].log
    {
      assert short[i] == log[i] && short[..i + 1] == log[..i + 1];
    }
  }

  /** Log matching: the same term at one index means the same entries up to it. */
  lemma SameTermSamePrefix(h: History, a: seq<Entry>, b: seq<Entry>, i: nat)
    requires Traced(h, a) && Traced(h, b)
    requires i < |a| && i < |b| && a[i].term == b[i].term
    ensures a[..i + 1] == b[..i + 1]
  {
    var log := h.reigns[a[i].term].log;
    assert a[..i + 1] == log[..i + 1];
    assert b[..i + 1] == log[..i + 1];
  }

  lemma ReignTerms(p: Params, h: History, t: nat)
    requires BidsOk(p, h) && ReignsOk(p, h) && t in h.reigns
    ensures TermsBelow(h.reigns[t].log, t + 1) && TermsBelow(h.reigns[t].start, t)
  {
    var r := h.reigns[t];
    assert ReignOk(p, h, t);
    assert At(t, r.id) in h.bids;
    forall i | 0 <= i < |r.log|
      ensures r.log[i].term < t + 1
    {
      if i < |r.start| {
        assert r.log[i] == r.start[i];
      }
    }
  }

  lemma ReignStarts(p: Params, h: History, t: nat)
    requires ReignsOk(p, h) && t in h.reigns
    ensures h.reigns[t].start <= h.reigns[t].log
  {
    assert ReignOk(p, h, t);
  }

  /** A traced log is a prefix of the log of the leader of its last term. */
  lemma TracedWhole(h: History, log: seq<Entry>)
    requires Traced(h, log) && log != []
    ensures LastTerm(log) in h.reigns && log <= h.reigns[LastTerm(log)].log
  {
    assert log[..|log| - 1 + 1] == log;
  }

  /** No entry of a traced log is of a later term than its last one. */
  lemma LastTermTops(p: Params, h: History, log: seq<Entry>)
    requires BidsOk(p, h) && ReignsOk(p, h) && Traced(h, log) && log != []
    ensures TermsBelow(log, LastTerm(log) + 1)
  {
    var t := LastTerm(log);
    assert log[..|log| - 1 + 1] == log;
    ReignTerms(p, h, t);
  }

  lemma LaterEntryBeyond(prefix: seq<Entry>, log: seq<Entry>, t: nat, k: nat)
    requires prefix <= log && TermsBelow(prefix, t + 1) && k < |log| && log[k].term > t
    ensures |prefix| <= k
  {
    assert forall j | 0 <= j < |prefix| :: log[j] == prefix[j];
  }

  /** A log judged at least as up to date as one that holds an entry of term `t` holds it too,
      when every leader elected since `t` started from a log that holds it. */
  lemma UpToDateHolds(p: Params, h: History, t: nat, i: nat, bid: seq<Entry>, bound: nat, voter: seq<Entry>)
    requires BidsOk(p, h) && ReignsOk(p, h) && Traced(h, bid) && Traced(h, voter) && TermsBelow(bid, bound)
    requires t in h.reigns && 1 <= i <= |h.reigns[t].log| && h.reigns[t].log[i - 1].term == t
    requires HeldBetween(h, t, i, bound)
    requires h.reigns[t].log[..i] <= voter
    requires UpToDate(LastTerm(bid), |bid|, voter)
    ensures h.reigns[t].log[..i] <= bid
  {
    hide BidsOk, ReignsOk;
    var entry := h.reigns[t].log[..i];
    TracedContiguous(h, voter);
    LastTermTops(p, h, voter);
    assert voter[i - 1] == entry[i - 1];
    var u := LastTerm(bid);
    TracedWhole(h, bid);
    TracedWhole(h, voter);
    hide Traced;
    if u != LastTerm(voter) {
      ReignStarts(p, h, u);
      ReignTerms(p, h, t);
      LaterEntryBeyond(entry, h.reigns[u].log, t, |bid| - 1);
    }
  }

  /** Two majorities of the same membership share a member. */
  lemma QuorumsMeet(p: Params, a: set<NodeId>, b: set<NodeId>) returns (w: NodeId)
    requires a <= p.servers && b <= p.servers && Majority(p, a) && Majority(p, b)
    ensures w in a && w in b
  {
    if a * b == {} {
      assert |a + b| == |a| + |b|;
      SubsetSize(a + b, p.servers);
      assert false;
    }
    w :| w in a * b;
  }

  /** A vote for the leader of a later term by a node that had acknowledged `i` in term `t`:
      the voter still held it, and so the winner's log did. */
  lemma VoterHadIt(p: Params, h: History, t: nat, i: nat, t': nat, w: NodeId)
    requires HistoryOk(p, h) && Chosen(p, h, t, i) && t' in h.reigns && t < t' && HeldBetween(h, t, i, t')
    requires w in Ackers(p, h, t, i) && w in h.reigns[t'].quorum
    ensures h.reigns[t].log[..i] <= h.reigns[t'].start
  {
    hide UpToDate, Traced;
    var a, b, r := At(t, w), At(t', w), h.reigns[t'];
    assert ReignOk(p, h, t');
    assert a in h.acked && b in h.ballots && Counts(h, b) && Remembers(h, a, b);
    assert HeldBetween(h, a.term, i, b.term);
    assert At(t', r.id) in h.bids && At(b.term, h.ballots[b].choice) == At(t', r.id);
    UpToDateHolds(p, h, t, i, r.start, t', h.ballots[b].log);
  }

  lemma ReignQuorum(p: Params, h: History, t: nat)
    requires ReignsOk(p, h) && t in h.reigns
    ensures h.reigns[t].quorum <= p.servers && Majority(p, h.reigns[t].quorum)
  {
    assert ReignOk(p, h, t);
  }

  /** Leader completeness: what a majority acknowledged to the leader of term `t`, for an entry
      of that term, every leader of a later term was elected with. */
  lemma {:induction false} ChosenIsKept(p: Params, h: History, t: nat, i: nat, t': nat)
    requires HistoryOk(p, h) && Chosen(p, h, t, i) && t' in h.reigns && t < t'
    ensures h.reigns[t].log[..i] <= h.reigns[t'].start
    decreases t'
  {
    hide BallotsOk, BidsOk, ReignsOk, AcksOk, VotesRemember;
    forall u | u in h.reigns && t < u < t'
      ensures h.reigns[t].log[..i] <= h.reigns[u].start
    {
      ChosenIsKept(p, h, t, i, u);
    }
    ReignQuorum(p, h, t');
    var w := QuorumsMeet(p, Ackers(p, h, t, i), h.reigns[t'].quorum);
    VoterHadIt(p, h, t, i, t', w);
  }

  lemma ChosenInLeader(p: Params, h: History, t: nat, i: nat, t': nat)
    requires HistoryOk(p, h) && Chosen(p, h, t, i) && t <= t' && t' in h.reigns
    ensures h.reigns[t].log[..i] <= h.reigns[t'].log
  {
    hide BallotsOk, BidsOk, ReignsOk, AcksOk, VotesRemember;
    if t < t' {
      ChosenIsKept(p, h, t, i, t');
      ReignStarts(p, h, t');
    }
  }

  /** A backed prefix is a prefix of every leader's log from its term on. */
  lemma BackedInLeader(p: Params, h: History, term: nat, prefix: seq<Entry>, t': nat)
    requires HistoryOk(p, h) && Backed(p, h, term, prefix) && term <= t' && t' in h.reigns
    ensures prefix <= h.reigns[t'].log
  {
    hide HistoryOk;
    if prefix != [] {
      var t: nat, i: nat :| Chosen(p, h, t, i) && t <= term && prefix <= h.reigns[t].log[..i];
      ChosenInLeader(p, h, t, i, t');
    }
  }

  /** Of two backed prefixes one is a prefix of the other. */
  lemma BackedAgree(p: Params, h: History, term1: nat, a: seq<Entry>, term2: nat, b: seq<Entry>)
    requires HistoryOk(p, h) && Backed(p, h, term1, a) && Backed(p, h, term2, b)
    ensures a <= b || b <= a
  {
    hide HistoryOk;
    if a != [] && b != [] {
      var t: nat, i: nat :| Chosen(p, h, t, i) && t <= term1 && a <= h.reigns[t].log[..i];
      var u: nat, j: nat :| Chosen(p, h, u, j) && u <= term2 && b <= h.reigns[u].log[..j];
      var top := if t < u then u else t;
      assert Backed(p, h, t, a) && Backed(p, h, u, b);
      BackedInLeader(p, h, t, a, top);
      BackedInLeader(p, h, u, b, top);
    }
  }

  /** A node that acknowledged a chosen entry still holds it. */
  lemma AckerHolds(p: Params, h: History, v: NodeId, s: Node, t: nat, i: nat)
    requires HistoryOk(p, h) && KeepsAcks(h, v, s) && Chosen(p, h, t, i) && v in Ackers(p, h, t, i)
    ensures h.reigns[t].log[..i] <= s.log
  {
    hide HistoryOk;
    forall u | u in h.reigns && t < u < s.term + 1
      ensures h.reigns[t].log[..i] <= h.reigns[u].start
    {
      ChosenIsKept(p, h, t, i, u);
    }
    assert HeldBetween(h, t, i, s.term + 1);
  }

  // ----------------------------------------------------------------------- merge

  lemma TracedMeet(h: History, a: seq<Entry>, b: seq<Entry>)
    requires Traced(h, a) && Traced(h, b)
    ensures SameLogsWhereTermsMeet(a, b)
  {
    forall i | 0 <= i < |a| && i < |b| && a[i].term == b[i].term
      ensures a[..i + 1] == b[..i + 1]
    {
      SameTermSamePrefix(h, a, b, i);
    }
  }

  /** A merge with a slice of a leader's log, in a traced history. */
  lemma MergeFollowsLeader(h: History, log: seq<Entry>, lead: seq<Entry>, prev: nat, prevTerm: int, n: nat)
    requires Traced(h, log) && Traced(h, lead) && prev + n <= |lead| && prevTerm == TermAt(lead, prev)
    requires Accepts(log, prev, prevTerm)
    ensures var log' := Merged(log, prev, lead[prev..prev + n]);
            lead[..prev + n] <= log'
            && (log' == log || log' == lead[..prev + n])
            && forall i | 0 <= i <= |log| && i <= |lead| && log[..i] == lead[..i] :: lead[..i] <= log'
  {
    TracedMeet(h, log, lead);
    TracedContiguous(h, log);
    TracedContiguous(h, lead);
    MergeTakesLeader(log, lead, prev, prevTerm, n);
  }
}
