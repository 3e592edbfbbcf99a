/**
 What a run has made true for good: who voted for whom and with which log, who stood for
 election with which log, who led each term, and how far each node has acknowledged each
 leader. The invariant relates every node, message and applied entry to this history
 only, never to another node, so a step of one node leaves the others' part alone.
 */
module Histories {
  import opened Basics
  import opened RaftLogs
  import opened StateMachine
  import opened RaftSteps
  import opened Clusters

  datatype At = At(term: nat, node: NodeId)

  /** A vote, and the voter's log when it was cast. */
  datatype Ballot = Ballot(choice: NodeId, log: seq<Entry>)

  /** A leader of a term: its votes, the log it was elected with, and its log so far. */
  datatype Reign = Reign(id: NodeId, quorum: set<NodeId>, start: seq<Entry>, log: seq<Entry>)

  /** `matched`: so far no follower has committed past what it had matched. */
  datatype History = History(
    ballots: map<At, Ballot>,
    bids: map<At, seq<Entry>>,
    reigns: map<nat, Reign>,
    acked: map<At, nat>,
    matched: bool)

  const NO_HISTORY := History(map[], map[], map[], map[], true)

  /** What the state machine holds after a log has been applied to it. */
  function Replay(log: seq<Entry>): KV {
    if log == [] then EMPTY_KV else ApplyEntry(Replay(log[..|log| - 1]), log[|log| - 1]).0
  }

  // ------------------------------------------------------------ logs and history

  /** Every entry was created by the leader of its term, and up to it the log is that leader's. */
  ghost predicate Traced(h: History, log: seq<Entry>) {
    forall i | 0 <= i < |log| ::
      log[i].index == i + 1 && log[i].term in h.reigns && log[..i + 1] <= h.reigns[log[i].term].log
  }

  predicate TermsBelow(log: seq<Entry>, term: nat) {
    forall i | 0 <= i < |log| :: log[i].term < term
  }

  /** Every leader elected in a term strictly between `term` and `bound` started with
      the first `i` entries of the leader of `term`. */
  ghost predicate HeldBetween(h: History, term: nat, i: nat, bound: nat)
    requires term in h.reigns && i <= |h.reigns[term].log|
  {
    forall u | u in h.reigns && term < u < bound :: h.reigns[term].log[..i] <= h.reigns[u].start
  }

  ghost predicate BallotsOk(p: Params, h: History) {
    forall b | b in h.ballots ::
      b.node in p.servers
      && At(b.term, h.ballots[b].choice) in h.bids
      && Traced(h, h.ballots[b].log)
      && UpToDate(LastTerm(h.bids[At(b.term, h.ballots[b].choice)]), |h.bids[At(b.term, h.ballots[b].choice)]|, h.ballots[b].log)
  }

  ghost predicate BidsOk(p: Params, h: History) {
    forall b | b in h.bids ::
      b.node in p.servers && Traced(h, h.bids[b]) && TermsBelow(h.bids[b], b.term)
  }

  ghost predicate ReignOk(p: Params, h: History, t: nat)
    requires t in h.reigns
  {
    var r := h.reigns[t];
    r.id in p.servers
    && Majority(p, r.quorum)
    && (forall v | v in r.quorum :: v in p.servers && At(t, v) in h.ballots && h.ballots[At(t, v)].choice == r.id)
    && At(t, r.id) in h.bids && h.bids[At(t, r.id)] == r.start
    && r.start <= r.log
    && Traced(h, r.log)
    && (forall i | |r.start| <= i < |r.log| :: r.log[i].term == t)
  }

  ghost predicate ReignsOk(p: Params, h: History) {
    forall t | t in h.reigns :: ReignOk(p, h, t)
  }

  ghost predicate AcksOk(p: Params, h: History) {
    forall a: At | a in h.acked ::
      a.node in p.servers && a.term in h.reigns && h.acked[a] <= |h.reigns[a.term].log|
  }

  /** The vote `b` is for the leader of its term or for no leader yet. */
  ghost predicate Counts(h: History, b: At) {
    b.term in h.reigns ==> b.node in h.reigns[b.term].quorum
  }

  /** When the voter of `b` cast it, it held what it had acknowledged in `a`, as long as every
      leader in between held it. */
  ghost predicate Remembers(h: History, a: At, b: At)
    requires a in h.acked && a.term in h.reigns && h.acked[a] <= |h.reigns[a.term].log| && b in h.ballots
  {
    forall i | 0 <= i <= h.acked[a] && HeldBetween(h, a.term, i, b.term) ::
      h.reigns[a.term].log[..i] <= h.ballots[b].log
  }

  ghost predicate VotesRemember(p: Params, h: History)
    requires AcksOk(p, h)
  {
    forall a, b | a in h.acked && b in h.ballots && a.node == b.node && a.term < b.term && Counts(h, b) ::
      Remembers(h, a, b)
  }

  ghost predicate HistoryOk(p: Params, h: History) {
    BallotsOk(p, h) && BidsOk(p, h) && ReignsOk(p, h) && AcksOk(p, h) && VotesRemember(p, h)
  }

  // ---------------------------------------------------------------- commitment

  function Ackers(p: Params, h: History, t: nat, i: nat): set<NodeId> {
    set v | v in p.servers && At(t, v) in h.acked && h.acked[At(t, v)] >= i
  }

  /** Entry `i` of the leader of term `t` is of that term and a majority has acknowledged it in that term. */
  ghost predicate Chosen(p: Params, h: History, t: nat, i: nat) {
    t in h.reigns && 1 <= i <= |h.reigns[t].log| && h.reigns[t].log[i - 1].term == t
    && Majority(p, Ackers(p, h, t, i))
  }

  /** A log prefix that a leader of a term up to `term` has got chosen. */
  ghost predicate Backed(p: Params, h: History, term: nat, prefix: seq<Entry>) {
    prefix == [] || exists t: nat, i: nat :: Chosen(p, h, t, i) && t <= term && prefix <= h.reigns[t].log[..i]
  }

  /** An applied entry is one of a chosen prefix, with the answer that replaying that prefix gives. */
  ghost predicate Explains(log: seq<Entry>, r: Applied) {
    1 <= r.index <= |log|
    && r.payload == log[r.index - 1].payload
    && r.answer == ApplyEntry(Replay(log[..r.index - 1]), log[r.index - 1]).1
  }

  ghost predicate AppliedOk(p: Params, h: History, r: Applied) {
    exists t: nat, i: nat :: Chosen(p, h, t, i) && Explains(h.reigns[t].log[..i], r)
  }

  // ---------------------------------------------------------------------- nodes

  ghost predicate LogOk(p: Params, h: History, v: NodeId, s: Node) {
    s.id == v && v in p.servers && Traced(h, s.log) && TermsBelow(s.log, s.term + 1)
  }

  ghost predicate VoterOk(h: History, v: NodeId, s: Node) {
    (forall t: nat | At(t, v) in h.ballots :: t <= s.term && (t == s.term ==> s.votedFor == Some(h.ballots[At(t, v)].choice)))
    && (s.votedFor.Some? ==> At(s.term, v) in h.ballots)
    && (forall t: nat | At(t, v) in h.bids :: t <= s.term)
    && (forall t | t in h.reigns && h.reigns[t].id == v :: t <= s.term)
  }

  ghost predicate CandidateOk(p: Params, h: History, v: NodeId, s: Node) {
    (s.preCandidate ==> p.usePrevote && v in s.votes)
    && (s.role == Candidate ==>
          At(s.term, v) in h.bids && s.log == h.bids[At(s.term, v)] && v in s.votes
          && (forall x | x in s.votes :: x in p.servers && At(s.term, x) in h.ballots && h.ballots[At(s.term, x)].choice == v)
          && !(s.term in h.reigns && h.reigns[s.term].id == v))
  }

  ghost predicate PeerOk(h: History, s: Node, q: NodeId)
    requires q in s.matchIndex && q in s.nextIndex
  {
    s.nextIndex[q] <= |s.log| + 1
    && (s.matchIndex[q] > 0 ==> At(s.term, q) in h.acked && s.matchIndex[q] <= h.acked[At(s.term, q)])
  }

  ghost predicate LeaderOk(p: Params, h: History, v: NodeId, s: Node) {
    s.role == Leader ==>
      s.term in h.reigns && h.reigns[s.term].id == v && s.log == h.reigns[s.term].log
      && At(s.term, v) in h.acked && h.acked[At(s.term, v)] == |s.log|
      && s.matchIndex.Keys == Peers(p, v) && s.nextIndex.Keys == Peers(p, v)
      && (forall q | q in Peers(p, v) :: PeerOk(h, s, q))
  }

  /** A node still holds what it acknowledged, as long as every leader since held it. */
  ghost predicate KeepsAcks(h: History, v: NodeId, s: Node) {
    forall t: nat | At(t, v) in h.acked ::
      t in h.reigns && h.acked[At(t, v)] <= |h.reigns[t].log| && t <= s.term
      && (forall i | 0 <= i <= h.acked[At(t, v)] && HeldBetween(h, t, i, s.term + 1) ::
            h.reigns[t].log[..i] <= s.log)
  }

  ghost predicate Committed(p: Params, h: History, s: Node) {
    s.applied <= s.commit <= |s.log|
    && Backed(p, h, s.term, s.log[..s.commit])
    && s.kv == Replay(s.log[..s.applied])
  }

  ghost predicate CommitOk(p: Params, h: History, s: Node) {
    h.matched ==> Committed(p, h, s)
  }

  ghost predicate NodeOk(p: Params, h: History, v: NodeId, s: Node) {
    LogOk(p, h, v, s) && VoterOk(h, v, s) && CandidateOk(p, h, v, s) && LeaderOk(p, h, v, s)
    && KeepsAcks(h, v, s) && CommitOk(p, h, s)
  }

  // ------------------------------------------------------------------- messages

  /** An append is a slice of its term leader's log, with a commit index backed in that log. */
  ghost predicate AppendOk(p: Params, h: History, m: Msg)
    requires m.Append?
  {
    m.term in h.reigns && IsSlice(h.reigns[m.term].log, m)
    && (h.matched ==> CarriesCommit(p, h, m))
  }

  predicate IsSlice(log: seq<Entry>, m: Msg)
    requires m.Append?
  {
    m.prevIndex + |m.entries| <= |log|
    && m.prevTerm == TermAt(log, m.prevIndex)
    && m.entries == log[m.prevIndex..m.prevIndex + |m.entries|]
  }

  ghost predicate CarriesCommit(p: Params, h: History, m: Msg)
    requires m.Append? && m.term in h.reigns
  {
    var log := h.reigns[m.term].log;
    m.commit <= |log|
    && Backed(p, h, m.term, log[..m.commit])
    && (p.maxBatch == 0 ==> m.commit <= m.prevIndex + |m.entries|)
  }

  ghost predicate PacketOk(p: Params, h: History, k: Packet) {
    match k.msg
    case Prevote(_, candidate, _, _) => candidate in p.servers && candidate != k.dest
    case PrevoteResp(_, from, _) => from in p.servers && from != k.dest
    case Vote(t, candidate, lastIndex, lastTerm) =>
      At(t, candidate) in h.bids
      && lastIndex == |h.bids[At(t, candidate)]| && lastTerm == LastTerm(h.bids[At(t, candidate)])
    case VoteResp(t, from, granted) =>
      granted ==> At(t, from) in h.ballots && h.ballots[At(t, from)].choice == k.dest
    case Append(_, _, _, _, _, _) => AppendOk(p, h, k.msg)
    case AppendResp(t, from, success, matchIndex, _) =>
      success ==> At(t, from) in h.acked && matchIndex <= h.acked[At(t, from)]
    case TimeoutNow(_) => true
  }

  ghost predicate NodesOk(p: Params, h: History, nodes: map<NodeId, Node>) {
    nodes.Keys == p.servers && forall v | v in nodes :: NodeOk(p, h, v, nodes[v])
  }

  ghost predicate NetOk(p: Params, h: History, net: set<Packet>) {
    forall k | k in net :: PacketOk(p, h, k)
  }

  ghost predicate TraceOk(p: Params, h: History, trace: seq<Applied>) {
    h.matched ==> forall r | r in trace :: AppliedOk(p, h, r)
  }

  /** Every node, every message and every applied entry fits the history. */
  ghost predicate Fits(p: Params, c: Cluster, h: History) {
    NodesOk(p, h, c.nodes) && NetOk(p, h, c.net) && TraceOk(p, h, c.trace)
  }

  ghost predicate Inv(p: Params, c: Cluster, h: History) {
    HistoryOk(p, h) && Fits(p, c, h)
  }

  // --------------------------------------------------------------------- growth

  /** History only grows: facts are added, a leader's log is extended, acknowledgements rise. */
  ghost predicate Grows(h: History, h': History) {
    (forall b | b in h.ballots :: b in h'.ballots && h'.ballots[b] == h.ballots[b])
    && (forall b | b in h.bids :: b in h'.bids && h'.bids[b] == h.bids[b])
    && (forall t | t in h.reigns ::
          t in h'.reigns && h'.reigns[t].id == h.reigns[t].id && h'.reigns[t].quorum == h.reigns[t].quorum
          && h'.reigns[t].start == h.reigns[t].start && h.reigns[t].log <= h'.reigns[t].log)
    && (forall a | a in h.acked :: a in h'.acked && h.acked[a] <= h'.acked[a])
    && (h'.matched ==> h.matched)
  }

  /** Whatever is new in `h'` is about node `v`. */
  ghost predicate By(h: History, h': History, v: NodeId) {
    (forall b | b in h'.ballots && b !in h.ballots :: b.node == v)
    && (forall b | b in h'.bids && b !in h.bids :: b.node == v)
    && (forall t | t in h'.reigns && (t !in h.reigns || h'.reigns[t].log != h.reigns[t].log) :: h'.reigns[t].id == v)
    && (forall a | a in h'.acked && (a !in h.acked || h'.acked[a] != h.acked[a]) :: a.node == v)
  }

  lemma TracedGrows(h: History, h': History, log: seq<Entry>)
    requires Grows(h, h') && Traced(h, log)
    ensures Traced(h', log)
  {
    forall i | 0 <= i < |log|
      ensures log[i].index == i + 1 && log[i].term in h'.reigns && log[..i + 1] <= h'.reigns[log[i].term].log
    {
      assert log[..i + 1] <= h.reigns[log[i].term].log <= h'.reigns[log[i].term].log;
    }
  }

  lemma ChosenGrows(p: Params, h: History, h': History, t: nat, i: nat)
    requires Grows(h, h') && Chosen(p, h, t, i)
    ensures Chosen(p, h', t, i) && h'.reigns[t].log[..i] == h.reigns[t].log[..i]
  {
    var a, a' := Ackers(p, h, t, i), Ackers(p, h', t, i);
    assert a <= a';
    SubsetSize(a, a');
    assert h.reigns[t].log <= h'.reigns[t].log;
  }

  lemma SubsetSize<T>(a: set<T>, b: set<T>)
    requires a <= b
    ensures |a| <= |b|
  {
    assert b == a + (b - a);
  }

  lemma BackedGrows(p: Params, h: History, h': History, term: nat, term': nat, prefix: seq<Entry>)
    requires Grows(h, h') && Backed(p, h, term, prefix) && term <= term'
    ensures Backed(p, h', term', prefix)
  {
    if prefix != [] {
      var t: nat, i: nat :| Chosen(p, h, t, i) && t <= term && prefix <= h.reigns[t].log[..i];
      ChosenGrows(p, h, h', t, i);
    }
  }

  /** A shorter prefix of a backed prefix is backed. */
  lemma BackedShorter(p: Params, h: History, term: nat, long: seq<Entry>, short: seq<Entry>)
    requires Backed(p, h, term, long) && short <= long
    ensures Backed(p, h, term, short)
  {
    if short != [] {
      var t: nat, i: nat :| Chosen(p, h, t, i) && t <= term && long <= h.reigns[t].log[..i];
      assert short <= h.reigns[t].log[..i];
    }
  }

  lemma HeldBetweenGrows(h: History, h': History, t: nat, i: nat, bound: nat)
    requires Grows(h, h') && t in h.reigns && i <= |h.reigns[t].log|
    requires t in h'.reigns && i <= |h'.reigns[t].log|
    requires HeldBetween(h', t, i, bound)
    ensures HeldBetween(h, t, i, bound)
    ensures h'.reigns[t].log[..i] == h.reigns[t].log[..i]
  {
    assert h.reigns[t].log <= h'.reigns[t].log;
    forall u | u in h.reigns && t < u < bound
      ensures h.reigns[t].log[..i] <= h.reigns[u].start
    {
      assert u in h'.reigns;
    }
  }

  lemma AppliedGrows(p: Params, h: History, h': History, r: Applied)
    requires Grows(h, h') && AppliedOk(p, h, r)
    ensures AppliedOk(p, h', r)
  {
    var t: nat, i: nat :| Chosen(p, h, t, i) && Explains(h.reigns[t].log[..i], r);
    ChosenGrows(p, h, h', t, i);
  }

  lemma PacketGrows(p: Params, h: History, h': History, k: Packet)
    requires Grows(h, h') && PacketOk(p, h, k)
    ensures PacketOk(p, h', k)
  {
    if k.msg.Append? {
      var m := k.msg;
      var log, log' := h.reigns[m.term].log, h'.reigns[m.term].log;
      assert log <= log';
      assert log'[m.prevIndex..m.prevIndex + |m.entries|] == log[m.prevIndex..m.prevIndex + |m.entries|];
      if h'.matched {
        assert log'[..m.commit] == log[..m.commit];
        BackedGrows(p, h, h', m.term, m.term, log[..m.commit]);
      }
    }
  }

  lemma KeepsAcksFramed(h: History, h': History, v: NodeId, w: NodeId, s: Node)
    requires Grows(h, h') && By(h, h', v) && w != v
    requires KeepsAcks(h, w, s)
    ensures KeepsAcks(h', w, s)
  {
    forall t: nat | At(t, w) in h'.acked
      ensures t in h'.reigns && h'.acked[At(t, w)] <= |h'.reigns[t].log| && t <= s.term
      ensures forall i | 0 <= i <= h'.acked[At(t, w)] && HeldBetween(h', t, i, s.term + 1) ::
                h'.reigns[t].log[..i] <= s.log
    {
      assert At(t, w) in h.acked && h'.acked[At(t, w)] == h.acked[At(t, w)];
      assert h.reigns[t].log <= h'.reigns[t].log;
      forall i | 0 <= i <= h'.acked[At(t, w)] && HeldBetween(h', t, i, s.term + 1)
        ensures h'.reigns[t].log[..i] <= s.log
      {
        HeldBetweenGrows(h, h', t, i, s.term + 1);
      }
    }
  }

  lemma NodeFramed(p: Params, h: History, h': History, v: NodeId, w: NodeId, s: Node)
    requires Grows(h, h') && By(h, h', v) && w != v
    requires NodeOk(p, h, w, s)
    ensures NodeOk(p, h', w, s)
  {
    hide KeepsAcks;
    assert LogOk(p, h', w, s) by {
      TracedGrows(h, h', s.log);
    }
    assert CommitOk(p, h', s) by {
      if h'.matched {
        BackedGrows(p, h, h', s.term, s.term, s.log[..s.commit]);
      }
    }
    KeepsAcksFramed(h, h', v, w, s);
  }

  lemma NetGrows(p: Params, h: History, h': History, net: set<Packet>, more: set<Packet>)
    requires Grows(h, h') && NetOk(p, h, net) && NetOk(p, h', more)
    ensures NetOk(p, h', net + more)
  {
    forall k | k in net + more
      ensures PacketOk(p, h', k)
    {
      if k in net {
        PacketGrows(p, h, h', k);
      }
    }
  }

  lemma TraceGrows(p: Params, h: History, h': History, trace: seq<Applied>, more: seq<Applied>)
    requires Grows(h, h') && TraceOk(p, h, trace) && TraceOk(p, h', more)
    ensures TraceOk(p, h', trace + more)
  {
    forall r | h'.matched && r in trace + more
      ensures AppliedOk(p, h', r)
    {
      if r in trace {
        AppliedGrows(p, h, h', r);
      }
    }
  }

  lemma NodesFramed(p: Params, h: History, h': History, v: NodeId, nodes: map<NodeId, Node>, s: Node)
    requires Grows(h, h') && By(h, h', v) && v in nodes && NodesOk(p, h, nodes) && NodeOk(p, h', v, s)
    ensures NodesOk(p, h', nodes[v := s])
  {
    hide Grows, By, NodeOk;
    var nodes' := nodes[v := s];
    forall w | w in nodes'
      ensures NodeOk(p, h', w, nodes'[w])
    {
      if w != v {
        NodeFramed(p, h, h', v, w, nodes[w]);
      }
    }
  }

  lemma StepFits(p: Params, c: Cluster, v: NodeId, o: Fx, h: History, h': History)
    requires v in c.nodes && Fits(p, c, h)
    requires Grows(h, h') && By(h, h', v)
    requires NodeOk(p, h', v, o.node) && NetOk(p, h', o.sent) && TraceOk(p, h', o.done)
    ensures Fits(p, Put(c, v, o), h')
  {
    NodesFramed(p, h, h', v, c.nodes, o.node);
    NetGrows(p, h, h', c.net, o.sent);
    TraceGrows(p, h, h', c.trace, o.done);
  }

  lemma PutMore(c: Cluster, v: NodeId, o: Fx, o': Fx)
    requires o.sent <= o'.sent && o.done <= o'.done
    ensures Put(c, v, o') == Put(Put(c, v, o), v, Fx(o'.node, o'.sent - o.sent, o'.done[|o.done|..]))
  {
    assert o'.done == o.done + o'.done[|o.done|..];
    assert o'.sent == o.sent + (o'.sent - o.sent);
  }

  /** One node's step keeps the invariant when the new history is sound, the node's new state
      fits it, and so does all it sent and applied. */
  lemma StepKeeps(p: Params, c: Cluster, v: NodeId, o: Fx, o': Fx, h: History, h': History)
    requires v in c.nodes && Inv(p, Put(c, v, o), h)
    requires HistoryOk(p, h') && Grows(h, h') && By(h, h', v)
    requires NodeOk(p, h', v, o'.node)
    requires o.sent <= o'.sent && NetOk(p, h', o'.sent - o.sent)
    requires o.done <= o'.done && TraceOk(p, h', o'.done[|o.done|..])
    ensures Inv(p, Put(c, v, o'), h')
  {
    PutMore(c, v, o, o');
    StepFits(p, Put(c, v, o), v, Fx(o'.node, o'.sent - o.sent, o'.done[|o.done|..]), h, h');
  }

  /** When a follower is about to commit past its match, nothing more is claimed of commitment. */
  lemma Unmatch(p: Params, c: Cluster, h: History)
    requires Inv(p, c, h)
    ensures Inv(p, c, h.(matched := false)) && Grows(h, h.(matched := false))
  {
    hide HistoryOk, Grows, NodeOk, PacketOk;
    var h' := h.(matched := false);
    SameButMatched(p, h);
    forall v | v in c.nodes
      ensures NodeOk(p, h', v, c.nodes[v])
    {
      NodeUnmatched(p, h, v, c.nodes[v]);
    }
    forall k | k in c.net
      ensures PacketOk(p, h', k)
    {
      PacketGrows(p, h, h', k);
    }
  }

  lemma SameButMatched(p: Params, h: History)
    requires HistoryOk(p, h)
    ensures HistoryOk(p, h.(matched := false)) && Grows(h, h.(matched := false))
  {
    var h' := h.(matched := false);
    forall log | Traced(h, log)
      ensures Traced(h', log)
    {
    }
    assert ReignsOk(p, h') by {
      forall t | t in h'.reigns
        ensures ReignOk(p, h', t)
      {
        assert ReignOk(p, h, t);
      }
    }
    assert VotesRemember(p, h') by {
      forall a, b | a in h'.acked && b in h'.ballots && a.node == b.node && a.term < b.term && Counts(h', b)
        ensures Remembers(h', a, b)
      {
        assert Counts(h, b) && Remembers(h, a, b);
        RemembersStill(h, a, b);
      }
    }
  }

  lemma RemembersStill(h: History, a: At, b: At)
    requires a in h.acked && a.term in h.reigns && h.acked[a] <= |h.reigns[a.term].log| && b in h.ballots
    requires Remembers(h, a, b)
    ensures Remembers(h.(matched := false), a, b)
  {
    var h' := h.(matched := false);
    forall i | 0 <= i <= h'.acked[a] && HeldBetween(h', a.term, i, b.term)
      ensures h'.reigns[a.term].log[..i] <= h'.ballots[b].log
    {
      assert HeldBetween(h, a.term, i, b.term);
    }
  }

  lemma NodeUnmatched(p: Params, h: History, v: NodeId, s: Node)
    requires NodeOk(p, h, v, s)
    ensures NodeOk(p, h.(matched := false), v, s)
  {
    var h' := h.(matched := false);
    assert Traced(h', s.log);
    assert LeaderOk(p, h', v, s) by {
      forall q | s.role == Leader && q in Peers(p, v)
        ensures PeerOk(h', s, q)
      {
        assert PeerOk(h, s, q);
      }
    }
    assert KeepsAcks(h', v, s) by {
      forall t: nat, i | At(t, v) in h'.acked && 0 <= i <= h'.acked[At(t, v)] && HeldBetween(h', t, i, s.term + 1)
        ensures h'.reigns[t].log[..i] <= s.log
      {
        assert HeldBetween(h, t, i, s.term + 1);
      }
    }
  }
}
