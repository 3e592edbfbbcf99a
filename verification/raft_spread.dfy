/** More building blocks for exhibiting runs: proposing, spreading entries, gathering acknowledgements. */
module Spreading {
  import opened Basics
  import opened RaftLogs
  import opened StateMachine
  import opened RaftSteps
  import opened Clusters
  import opened HandlersKeep
  import opened RaftRuns

  /** What clients ask for in these runs; no key/value state is the same after either. */
  const ASK: Bytes := [1]
  const SET: Bytes := [EQUALS]

  /** A log of `n` entries of term 1. */
  predicate FirstTermLog(log: seq<Entry>, n: nat) {
    |log| == n && forall i | 0 <= i < n :: log[i].index == i + 1 && log[i].term == 1 && !IsConfig(log[i].payload)
  }

  // ------------------------------------------------------------------- proposing

  /** A leader that nobody has acknowledged anything to. */
  predicate Unheard(p: Params, s: Node, term: nat, next: nat) {
    s.role == Leader && s.term == term && s.transfer == None
    && s.matchIndex.Keys == Peers(p, s.id) && s.nextIndex.Keys == Peers(p, s.id)
    && forall q | q in Peers(p, s.id) :: s.matchIndex[q] == 0 && s.nextIndex[q] == next
  }

  lemma Offer(p: Params, c: Cluster, v: NodeId, term: nat, next: nat, payload: Bytes) returns (acts: seq<Action>)
    requires !IsConfig(payload) && Named(p, c) && |p.servers| >= 2 && v in c.nodes && Unheard(p, c.nodes[v], term, next)
    ensures var c', s := Play(p, c, acts), c.nodes[v];
            Follows(p, c, c') && Only(c, c', v) && c'.trace == c.trace && AppendsSent(p, c', v)
            && c'.nodes[v] == s.(log := s.log + [Entry(LastIndex(s.log) + 1, term, payload)])
  {
    hide AppendFor, AdvanceCommit;
    NamedNode(p, c, v);
    var o := AppendEntry(Fx(c.nodes[v], {}, []), payload);
    Unmatched(p, o);
    var c' := Act(p, c, Request(v, payload), SendAllAppends(p, o));
    acts := [Request(v, payload)];
  }

  /** A leader of term 1 brings its log to `n` entries, and has sent them to everyone. */
  lemma {:induction false} OfferUpTo(p: Params, c: Cluster, v: NodeId, n: nat) returns (acts: seq<Action>)
    requires Named(p, c) && |p.servers| >= 2 && v in c.nodes && Unheard(p, c.nodes[v], 1, 1) && AppendsSent(p, c, v)
    requires FirstTermLog(c.nodes[v].log, |c.nodes[v].log|) && |c.nodes[v].log| <= n
    ensures var c', s := Play(p, c, acts), c.nodes[v];
            Follows(p, c, c') && Only(c, c', v) && c'.trace == c.trace && AppendsSent(p, c', v)
            && c'.nodes[v] == s.(log := c'.nodes[v].log) && FirstTermLog(c'.nodes[v].log, n)
    decreases n - |c.nodes[v].log|
  {
    hide AppendFor, AppendsSent;
    if |c.nodes[v].log| == n {
      acts := [];
    } else {
      var first := Offer(p, c, v, 1, 1, ASK);
      var c1 := Play(p, c, first);
      FollowsNamed(p, c, c1);
      var more := OfferUpTo(p, c1, v, n);
      hide Follows, Named;
      acts := first + more;
      Chain(p, c, first, more);
      OnlyFurther(c, c1, Play(p, c1, more), v);
    }
  }

  // ------------------------------------------------------------------- spreading

  /** A follower that accepted `m` without a commit. */
  predicate Copied(s: Node, s': Node, m: Msg)
    requires m.Append?
  {
    s'.id == s.id && s'.log == Merged(s.log, m.prevIndex, m.entries) && s'.term == m.term && s'.role == Follower
    && s'.commit == s.commit && s'.applied == s.applied && s'.kv == s.kv
  }

  lemma AcceptsQuietly(s: Node, m: Msg)
    requires m.Append? && m.term >= s.term && Accepts(s.log, m.prevIndex, m.prevTerm) && m.commit == 0
    ensures var o := OnAppend(Fx(s, {}, []), m);
            Copied(s, o.node, m) && o.done == []
            && o.sent == {Packet(m.leader, AppendResp(m.term, s.id, true, m.prevIndex + |m.entries|, 0))}
  {
    hide Merged, ConflictHint, LastIndex;
  }

  /** One follower accepts an append that commits nothing, and says so. */
  lemma HearAppend(p: Params, c: Cluster, g: NodeId, m: Msg) returns (acts: seq<Action>)
    requires Named(p, c) && g in c.nodes && m.Append? && Packet(g, m) in c.net
    requires m.term >= c.nodes[g].term && Accepts(c.nodes[g].log, m.prevIndex, m.prevTerm) && m.commit == 0
    ensures var c' := Play(p, c, acts);
            Follows(p, c, c') && Only(c, c', g) && c'.trace == c.trace && Copied(c.nodes[g], c'.nodes[g], m)
            && Packet(m.leader, AppendResp(m.term, g, true, m.prevIndex + |m.entries|, 0)) in c'.net
  {
    hide Merged, OnAppend, Accepts;
    NamedNode(p, c, g);
    AcceptsQuietly(c.nodes[g], m);
    var a := Deliver(Packet(g, m), false);
    var c' := Act(p, c, a, OnAppend(Fx(c.nodes[g], {}, []), m));
    acts := [a];
  }

  /** The same append reaches every node of `ws`, all of which hold the same log. */
  ghost predicate Sent(p: Params, c: Cluster, ws: set<NodeId>, m: Msg, log: seq<Entry>)
    requires m.Append?
  {
    m.commit == 0 && Accepts(log, m.prevIndex, m.prevTerm)
    && forall g | g in ws :: g in c.nodes && Packet(g, m) in c.net && c.nodes[g].term <= m.term && c.nodes[g].log == log
  }

  ghost predicate Spread(c: Cluster, c': Cluster, ws: set<NodeId>, m: Msg)
    requires m.Append?
  {
    c'.trace == c.trace && c'.nodes.Keys == c.nodes.Keys
    && (forall v | v in c.nodes && v !in ws :: c'.nodes[v] == c.nodes[v])
    && forall g | g in ws && g in c.nodes ::
         Copied(c.nodes[g], c'.nodes[g], m)
         && Packet(m.leader, AppendResp(m.term, g, true, m.prevIndex + |m.entries|, 0)) in c'.net
  }

  lemma MergedIntoEmpty(log: seq<Entry>, n: nat)
    requires FirstTermLog(log, n) && n >= 1
    ensures Merged([], 0, log) == log && Accepts([], 0, 0)
  {
    assert FirstGap([], 0, log, 0) == 0;
    assert log[0..] == log;
    assert Renumbered(log, 0) == log;
    assert [] + log == log;
  }

  lemma SpreadMore(p: Params, c: Cluster, c1: Cluster, c2: Cluster, g: NodeId, ws: set<NodeId>, m: Msg)
    requires m.Append? && g in ws && Only(c, c1, g) && c1.trace == c.trace && Copied(c.nodes[g], c1.nodes[g], m)
    requires Packet(m.leader, AppendResp(m.term, g, true, m.prevIndex + |m.entries|, 0)) in c1.net
    requires Spread(c1, c2, ws - {g}, m) && c1.net <= c2.net
    ensures Spread(c, c2, ws, m)
  {
    hide Copied;
  }

  lemma {:induction false} SpreadTo(p: Params, c: Cluster, ws: set<NodeId>, m: Msg, log: seq<Entry>) returns (acts: seq<Action>)
    requires Named(p, c) && m.Append? && Sent(p, c, ws, m, log)
    ensures Follows(p, c, Play(p, c, acts)) && Spread(c, Play(p, c, acts), ws, m)
    decreases ws
  {
    hide Copied, Merged, Accepts;
    if ws == {} {
      acts := [];
    } else {
      var g :| g in ws;
      var first := HearAppend(p, c, g, m);
      var c1 := Play(p, c, first);
      FollowsNamed(p, c, c1);
      var more := SpreadTo(p, c1, ws - {g}, m, log);
      acts := first + more;
      SpreadMore(p, c, c1, Play(p, c1, more), g, ws, m);
      hide Spread, Named, Sent;
      Chain(p, c, first, more);
    }
  }

  // ------------------------------------------------------------------ committing

  /** Something of index `k` with payload `x` has been applied. */
  ghost predicate HasApplied(trace: seq<Applied>, k: nat, x: Bytes) {
    exists r :: r in trace && r.index == k && r.payload == x
  }

  lemma {:induction false} ApplyReaches(o: Fx)
    requires o.node.applied < o.node.commit <= |o.node.log| && Contiguous(o.node.log)
    requires !IsConfig(o.node.log[o.node.commit - 1].payload)
    ensures var o' := ApplyCommitted(o);
            HasApplied(o'.done, o.node.commit, o.node.log[o.node.commit - 1].payload) && o'.node.applied == o.node.commit
    decreases o.node.commit - o.node.applied
  {
    var o1 := ApplyOne(o);
    if o1.node.applied < o.node.commit {
      ApplyReaches(o1);
    } else {
      assert o1.done[|o1.done| - 1].index == o.node.commit;
      assert o1.done[|o1.done| - 1] in o1.done;
    }
  }

  /** A leader whose last entry `e` is of its own term: the nodes of `xs` have acknowledged it and
      nobody else anything. */
  predicate Awaiting(p: Params, s: Node, e: Entry, xs: set<NodeId>) {
    s.role == Leader && s.term == e.term && 1 <= e.index == |s.log| && Contiguous(s.log)
    && s.log[e.index - 1] == e && !IsConfig(e.payload)
    && s.commit == 0 && s.applied == 0
    && s.matchIndex.Keys == Peers(p, s.id) && s.nextIndex.Keys == Peers(p, s.id) && xs <= Peers(p, s.id)
    && forall q | q in Peers(p, s.id) :: s.matchIndex[q] == if q in xs then e.index else 0
  }

  predicate Enough(p: Params, xs: set<NodeId>) {
    1 + |xs| >= |p.servers| / 2 + 1
  }

  lemma AwaitingPoint(p: Params, s: Node, e: Entry, xs: set<NodeId>)
    requires Awaiting(p, s, e, xs)
    ensures CommitPoint(p, s, e.index) == if Enough(p, xs) then e.index else 0
  {
    forall k | 0 < k <= e.index
      ensures Holders(p, s, k) == xs
    {
    }
    if !Enough(p, xs) {
      NothingToCommit(p, s, e.index);
    }
  }

  predicate Settled(s: Node, s': Node, e: Entry) {
    s'.id == s.id && s'.role == Leader && s'.term == e.term && s'.log == s.log && s'.preCandidate == s.preCandidate
    && s'.commit == e.index && s'.applied == e.index
  }

  lemma NoopIsNoConfig()
    ensures !IsConfig(NOOP)
  {
    assert NOOP[2] != CONFIG[2];
  }

  lemma RecordedAwaits(p: Params, s: Node, g: NodeId, e: Entry, xs: set<NodeId>)
    requires Awaiting(p, s, e, xs) && g in Peers(p, s.id)
    ensures Awaiting(p, s.(matchIndex := s.matchIndex[g := e.index], nextIndex := s.nextIndex[g := e.index + 1]), e, xs + {g})
  {
  }

  lemma SettledBy(p: Params, s: Node, e: Entry, xs: set<NodeId>)
    requires Awaiting(p, s, e, xs) && Enough(p, xs)
    ensures var o := AdvanceCommit(p, Fx(s, {}, []));
            Settled(s, o.node, e) && HasApplied(o.done, e.index, e.payload)
  {
    hide ApplyCommitted, CommitPoint, Contiguous, Enough, IsConfig;
    AwaitingPoint(p, s, e, xs);
    assert LastIndex(s.log) == e.index by {
      assert Contiguous(s.log) && s.log[e.index - 1].index == e.index;
    }
    var o1 := Fx(s.(commit := e.index), {}, []);
    ApplyCommittedFrame(o1);
    ApplyReaches(o1);
    hide HasApplied;
  }

  /** What one more acknowledgement does to the leader: short of a majority it is only recorded,
      with a majority it commits. */
  lemma AckStep(p: Params, s: Node, g: NodeId, e: Entry, xs: set<NodeId>)
    requires Awaiting(p, s, e, xs) && g in Peers(p, s.id)
    ensures var o := OnAppendResp(p, Fx(s, {}, []), AppendResp(e.term, g, true, e.index, 0));
            o.node.id == s.id
            && if Enough(p, xs + {g}) then Settled(s, o.node, e) && HasApplied(o.done, e.index, e.payload)
               else Awaiting(p, o.node, e, xs + {g}) && o.node.log == s.log && o.node.preCandidate == s.preCandidate && o.done == []
  {
    hide ApplyCommitted, CommitPoint, Contiguous, Enough, AdvanceCommit, HasApplied, IsConfig;
    var s1 := s.(matchIndex := s.matchIndex[g := e.index], nextIndex := s.nextIndex[g := e.index + 1]);
    RecordedAwaits(p, s, g, e, xs);
    assert Max(s.matchIndex[g], e.index) == e.index;
    if Enough(p, xs + {g}) {
      SettledBy(p, s1, e, xs + {g});
    } else {
      NotYet(p, s1, e, xs + {g});
    }
  }

  lemma NotYet(p: Params, s: Node, e: Entry, xs: set<NodeId>)
    requires Awaiting(p, s, e, xs) && !Enough(p, xs)
    ensures AdvanceCommit(p, Fx(s, {}, [])) == Fx(s, {}, [])
  {
    hide Enough, CommitPoint;
    AwaitingPoint(p, s, e, xs);
    assert s.log[e.index - 1].index == e.index;
  }

  lemma HearAck(p: Params, c: Cluster, v: NodeId, g: NodeId, e: Entry, xs: set<NodeId>) returns (acts: seq<Action>)
    requires Named(p, c) && v in c.nodes && g in Peers(p, v) && Awaiting(p, c.nodes[v], e, xs)
    requires Packet(v, AppendResp(e.term, g, true, e.index, 0)) in c.net
    ensures var c' := Play(p, c, acts);
            Follows(p, c, c') && Only(c, c', v)
            && if Enough(p, xs + {g}) then Settled(c.nodes[v], c'.nodes[v], e) && HasApplied(c'.trace, e.index, e.payload)
               else Awaiting(p, c'.nodes[v], e, xs + {g}) && c'.nodes[v].log == c.nodes[v].log
                    && c'.nodes[v].preCandidate == c.nodes[v].preCandidate && c'.trace == c.trace
  {
    hide OnAppendResp, Enough, Awaiting, Settled;
    NamedNode(p, c, v);
    var s, m := c.nodes[v], AppendResp(e.term, g, true, e.index, 0);
    AckStep(p, s, g, e, xs);
    var o := OnAppendResp(p, Fx(s, {}, []), m);
    var c' := Act(p, c, Deliver(Packet(v, m), false), o);
    acts := [Deliver(Packet(v, m), false)];
    if Enough(p, xs + {g}) {
      AppliedStill(o.done, c'.trace, e.index, e.payload);
    }
  }

  lemma AppliedStill(done: seq<Applied>, trace: seq<Applied>, k: nat, x: Bytes)
    requires HasApplied(done, k, x) && forall r | r in done :: r in trace
    ensures HasApplied(trace, k, x)
  {
  }

  ghost predicate Acknowledged(c: Cluster, v: NodeId, e: Entry, ws: set<NodeId>) {
    forall g | g in ws :: Packet(v, AppendResp(e.term, g, true, e.index, 0)) in c.net
  }

  lemma {:induction false} HearAcks(p: Params, c: Cluster, v: NodeId, e: Entry, xs: set<NodeId>, ws: set<NodeId>)
    returns (acts: seq<Action>)
    requires Named(p, c) && v in c.nodes && ws <= Peers(p, v) && Awaiting(p, c.nodes[v], e, xs)
    requires !Enough(p, xs) && Enough(p, xs + ws) && Acknowledged(c, v, e, ws)
    ensures var c' := Play(p, c, acts);
            Follows(p, c, c') && Only(c, c', v) && Settled(c.nodes[v], c'.nodes[v], e) && HasApplied(c'.trace, e.index, e.payload)
    decreases ws
  {
    hide Awaiting, Enough, HasApplied;
    assert ws != {} by {
      assert xs + {} == xs;
    }
    var g :| g in ws;
    var first := HearAck(p, c, v, g, e, xs);
    if Enough(p, xs + {g}) {
      acts := first;
    } else {
      var c1 := Play(p, c, first);
      FollowsNamed(p, c, c1);
      assert xs + {g} + (ws - {g}) == xs + ws;
      assert Acknowledged(c1, v, e, ws - {g});
      hide Acknowledged;
      var more := HearAcks(p, c1, v, e, xs + {g}, ws - {g});
      hide Follows, Named;
      acts := first + more;
      Chain(p, c, first, more);
      OnlyFurther(c, c1, Play(p, c1, more), v);
    }
  }
}
