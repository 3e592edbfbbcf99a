/**
 A follower commits up to `min(leader's commit, its own last index)` (pylog/raft.py:481),
 not up to the last entry the append just matched. With bounded batches and three members
 or more it can so commit, and apply, a stale entry of its own.

 The run: F leads term 1 and spreads its first `b` entries, then appends one more that
 nobody else gets. B is elected in terms 2 and 3; in term 2 it gets its own entry at that
 index committed. In term 3 F refuses B's first append, is sent the first batch again,
 finds all of it in its log, and commits past it: its own stale entry. B is elected once
 more, so that a leader of a later term lacks what F has committed.
 */
module BatchLimit {
  import opened Basics
  import opened RaftLogs
  import opened RaftSteps
  import opened Clusters
  import opened Histories
  import opened HandlersKeep
  import opened RaftRuns
  import opened LeaderKeeps
  import opened RaftProgress
  import opened Spreading
  import opened Rifts

  /** Who plays which part: `f` keeps the stale entry, `b` leads later, `ws` follow it. */
  datatype Cast = Cast(f: NodeId, b: NodeId, ws: set<NodeId>)

  ghost predicate Casting(p: Params, k: Cast) {
    k.f in p.servers && k.b in p.servers && k.ws <= p.servers && k.f != k.b && k.f !in k.ws && k.b !in k.ws
    && |p.servers| >= 3 && |k.ws| == |p.servers| / 2 && p.maxBatch >= 1
  }

  lemma ThreeRoles(p: Params) returns (k: Cast)
    requires |p.servers| >= 3 && p.maxBatch >= 1
    ensures Casting(p, k)
  {
    var f :| f in p.servers;
    var rest := p.servers - {f};
    assert |rest| >= 2;
    var b :| b in rest;
    var others := rest - {b};
    assert |others| == |p.servers| - 2;
    var ws := if |p.servers| / 2 <= |others| then |p.servers| / 2 else |others|;
    var chosen := SomeOf(others, ws);
    k := Cast(f, b, chosen);
  }

  lemma CastCounts(p: Params, k: Cast)
    requires Casting(p, k)
    ensures k.f in p.servers && k.b in p.servers && k.f != k.b && k.f !in k.ws && k.b !in k.ws && |p.servers| >= 3
    ensures k.ws <= Peers(p, k.b) && Majority(p, k.ws + {k.b}) && Enough(p, {} + k.ws) && !Enough(p, {})
    ensures k.ws + {k.b} <= Peers(p, k.f) && Majority(p, k.ws + {k.b} + {k.f}) && |k.ws + {k.b}| == |p.servers| / 2 + 1
  {
    var voters := k.ws + {k.b};
    assert |voters| == |p.servers| / 2 + 1 && {} + k.ws == k.ws;
    SubsetSize(voters, voters + {k.f});
  }

  /** A follower of `term` that holds `log` and has committed nothing. */
  predicate Holds(s: Node, term: nat, log: seq<Entry>) {
    s.role == Follower && s.term == term && s.log == log && s.commit == 0 && s.applied == 0
  }

  /** `f` leads term 1 with `log`; `b` and the others hold it too. */
  ghost predicate Seeded(p: Params, c: Cluster, k: Cast, log: seq<Entry>) {
    Casting(p, k) && Named(p, c) && FirstTermLog(log, p.maxBatch)
    && Unheard(p, c.nodes[k.f], 1, 1) && c.nodes[k.f].log == log && c.nodes[k.f].commit == 0 && c.nodes[k.f].applied == 0
    && Holds(c.nodes[k.b], 1, log) && forall w | w in k.ws :: Holds(c.nodes[w], 1, log)
  }

  lemma FreshLeaderUnheard(p: Params, s: Node, s': Node)
    requires NewLeader(p, s, s', 1) && s.log == [] && s.commit == 0 && s.applied == 0
    ensures Unheard(p, s', 1, 1) && FirstTermLog(s'.log, 1) && s'.commit == 0 && s'.applied == 0
  {
    NoopIsNoConfig();
  }

  lemma WholeLogSent(p: Params, s: Node, q: NodeId)
    requires Unheard(p, s, 1, 1) && q in Peers(p, s.id) && FirstTermLog(s.log, p.maxBatch) && s.commit == 0
    ensures AppendFor(p, s, q) == Append(1, s.id, 0, 0, s.log, 0)
  {
    assert s.log[0..] == s.log;
  }

  lemma NothingIsUpToDate()
    ensures UpToDate(LastTerm([]), LastIndex([]), [])
  {
  }

  lemma ElectFirst(p: Params, k: Cast) returns (acts: seq<Action>)
    requires Casting(p, k)
    ensures var c := Play(p, Init(p), acts);
            Named(p, c) && AppendsSent(p, c, k.f) && Unheard(p, c.nodes[k.f], 1, 1) && FirstTermLog(c.nodes[k.f].log, 1)
            && c.nodes[k.f].commit == 0 && c.nodes[k.f].applied == 0
            && forall g | g in k.ws + {k.b} :: Holds(c.nodes[g], 1, [])
  {
    hide AppendsSent, Play, Majority, Enough, Peers, Unheard, FirstTermLog, NewLeader, UpToDate;
    CastCounts(p, k);
    var c0 := Init(p);
    var voters := k.ws + {k.b};
    assert UpToDate(LastTerm([]), LastIndex([]), []) by {
      NothingIsUpToDate();
    }
    acts := Elect(p, c0, k.f, voters);
    FreshLeaderUnheard(p, c0.nodes[k.f], Play(p, c0, acts).nodes[k.f]);
  }

  lemma Seed(p: Params, k: Cast) returns (acts: seq<Action>, log: seq<Entry>)
    requires Casting(p, k)
    ensures Seeded(p, Play(p, Init(p), acts), k, log)
  {
    hide Merged, Unheard, AppendFor, Accepts, Play, Sent, AppendsSent, FirstTermLog;
    var c0 := Init(p);
    var first := ElectFirst(p, k);
    var c1 := Play(p, c0, first);
    FirstTermLength(c1.nodes[k.f].log, 1);
    var second := OfferUpTo(p, c1, k.f, p.maxBatch);
    var c2 := Play(p, c1, second);
    log := c2.nodes[k.f].log;
    UnheardStill(p, c1.nodes[k.f], c2.nodes[k.f]);
    var ws, m := k.ws + {k.b}, Append(1, k.f, 0, 0, log, 0);
    SeedSent(p, c2, k, log);
    var third := SpreadTo(p, c2, ws, m, []);
    MergedIntoEmpty(log, p.maxBatch);
    acts := first + second + third;
    PlayMore(p, c0, first, second);
    PlayMore(p, c0, first + second, third);
  }

  lemma UnheardStill(p: Params, s: Node, s': Node)
    requires Unheard(p, s, 1, 1) && s' == s.(log := s'.log)
    ensures Unheard(p, s', 1, 1)
  {
  }

  lemma SeedSent(p: Params, c: Cluster, k: Cast, log: seq<Entry>)
    requires Casting(p, k) && Named(p, c) && AppendsSent(p, c, k.f) && Unheard(p, c.nodes[k.f], 1, 1)
    requires c.nodes[k.f].log == log && FirstTermLog(log, p.maxBatch) && c.nodes[k.f].commit == 0
    requires forall g | g in k.ws + {k.b} :: Holds(c.nodes[g], 1, [])
    ensures Sent(p, c, k.ws + {k.b}, Append(1, k.f, 0, 0, log, 0), [])
  {
    hide AppendFor;
    MergedIntoEmpty(log, p.maxBatch);
    forall g | g in k.ws + {k.b}
      ensures Packet(g, Append(1, k.f, 0, 0, log, 0)) in c.net
    {
      WholeLogSent(p, c.nodes[k.f], g);
    }
  }

  // --------------------------------------------------------- term 2: the lawful entry

  /** `f` alone has gone one entry further. */
  ghost predicate Stale(c: Cluster, k: Cast, log: seq<Entry>) {
    k.f in c.nodes
    && var s := c.nodes[k.f];
       s.id == k.f && s.role == Leader && s.term == 1 && s.log == log + [Entry(|log| + 1, 1, ASK)] && s.commit == 0 && s.applied == 0
  }

  lemma GoStale(p: Params, c: Cluster, k: Cast, log: seq<Entry>) returns (acts: seq<Action>)
    requires Seeded(p, c, k, log)
    ensures var c' := Play(p, c, acts);
            Follows(p, c, c') && Only(c, c', k.f) && Stale(c', k, log)
  {
    hide AppendFor;
    acts := Offer(p, c, k.f, 1, 1, ASK);
    NamedNode(p, c, k.f);
  }

  /** `b` leads term 2 with its no-op behind the shared entries, and the others have acknowledged all of it. */
  ghost predicate Answered(p: Params, c: Cluster, k: Cast, log: seq<Entry>) {
    Casting(p, k) && Named(p, c) && FirstTermLog(log, p.maxBatch) && Stale(c, k, log)
    && var lead := log + [Entry(|log| + 1, 2, NOOP)];
    c.nodes[k.b].log == lead && Awaiting(p, c.nodes[k.b], lead[|log|], {})
    && (forall w | w in k.ws :: Holds(c.nodes[w], 2, lead)) && Acknowledged(c, k.b, lead[|log|], k.ws)
  }

  lemma OneEntrySent(p: Params, s: Node, s': Node, q: NodeId, log: seq<Entry>)
    requires p.maxBatch >= 1 && FirstTermLog(log, p.maxBatch) && s.log == log
    requires s.commit == 0 && NewLeader(p, s, s', 2) && q in Peers(p, s.id)
    ensures AppendFor(p, s', q) == Append(2, s.id, |log|, 1, [Entry(|log| + 1, 2, NOOP)], 0)
  {
    var e := Entry(|log| + 1, 2, NOOP);
    assert s'.log == log + [e] && s'.nextIndex[q] == |log| + 1;
    assert s'.log[|log|..] == [e];
    assert s'.log[|log| - 1] == log[|log| - 1];
  }

  lemma MergedAtEnd(log: seq<Entry>, e: Entry, n: nat)
    requires FirstTermLog(log, n) && n >= 1 && e.index == n + 1
    ensures Merged(log, n, [e]) == log + [e] && Accepts(log, n, 1)
  {
    assert TermAt(log, n + 1) == -1;
    assert FirstGap(log, n, [e], 0) == 0;
    assert [e][0..] == [e];
    assert Renumbered([e], n) == [e];
    assert log[..n] == log;
  }

  lemma NewLeaderAwaits(p: Params, s: Node, s': Node, log: seq<Entry>)
    requires FirstTermLog(log, |log|) && s.log == log && s.commit == 0 && s.applied == 0 && NewLeader(p, s, s', 2)
    ensures Awaiting(p, s', Entry(|log| + 1, 2, NOOP), {}) && s'.log == log + [Entry(|log| + 1, 2, NOOP)]
  {
    NoopIsNoConfig();
    assert log != [] ==> LastIndex(log) == |log|;
  }

  lemma ElectSecond(p: Params, c: Cluster, k: Cast, log: seq<Entry>) returns (acts: seq<Action>)
    requires Casting(p, k) && Named(p, c) && FirstTermLog(log, p.maxBatch) && Stale(c, k, log)
    requires Holds(c.nodes[k.b], 1, log) && forall w | w in k.ws :: Holds(c.nodes[w], 1, log)
    ensures var c' := Play(p, c, acts);
            Follows(p, c, c') && Stale(c', k, log) && NewLeader(p, c.nodes[k.b], c'.nodes[k.b], 2)
            && AppendsSent(p, c', k.b) && forall w | w in k.ws :: Holds(c'.nodes[w], 2, log)
  {
    hide AppendsSent, NewLeader;
    assert k.ws + {k.b} == {k.b} + k.ws && |k.ws + {k.b}| == |p.servers| / 2 + 1;
    assert UpToDate(LastTerm(log), LastIndex(log), log);
    acts := Elect(p, c, k.b, k.ws);
  }

  lemma SecondSent(p: Params, c: Cluster, k: Cast, s: Node, log: seq<Entry>)
    requires Casting(p, k) && Named(p, c) && FirstTermLog(log, p.maxBatch) && s.log == log && s.commit == 0 && s.id == k.b
    requires NewLeader(p, s, c.nodes[k.b], 2) && AppendsSent(p, c, k.b)
    requires forall w | w in k.ws :: Holds(c.nodes[w], 2, log)
    ensures Sent(p, c, k.ws, Append(2, k.b, |log|, 1, [Entry(|log| + 1, 2, NOOP)], 0), log)
  {
    hide AppendFor, NewLeader;
    MergedAtEnd(log, Entry(|log| + 1, 2, NOOP), p.maxBatch);
    forall g | g in k.ws
      ensures Packet(g, Append(2, k.b, |log|, 1, [Entry(|log| + 1, 2, NOOP)], 0)) in c.net
    {
      OneEntrySent(p, s, c.nodes[k.b], g, log);
    }
  }

  lemma GatherAcks(p: Params, c: Cluster, k: Cast, log: seq<Entry>) returns (acts: seq<Action>)
    requires Casting(p, k) && Named(p, c) && FirstTermLog(log, p.maxBatch) && Stale(c, k, log)
    requires Holds(c.nodes[k.b], 1, log) && forall w | w in k.ws :: Holds(c.nodes[w], 1, log)
    ensures Follows(p, c, Play(p, c, acts)) && Answered(p, Play(p, c, acts), k, log)
  {
    hide Merged, AppendFor, NewLeader, Accepts, AppendsSent, Awaiting, IsConfig, Play, Sent, FirstTermLog;
    NamedNode(p, c, k.b);
    FirstTermLength(log, p.maxBatch);
    var first := ElectSecond(p, c, k, log);
    var c1 := Play(p, c, first);
    NewLeaderAwaits(p, c.nodes[k.b], c1.nodes[k.b], log);
    SecondSent(p, c1, k, c.nodes[k.b], log);
    var e := Entry(|log| + 1, 2, NOOP);
    MergedAtEnd(log, e, p.maxBatch);
    var m := Append(2, k.b, |log|, 1, [e], 0);
    var more := SpreadTo(p, c1, k.ws, m, log);
    acts := first + more;
    Chain(p, c, first, more);
  }

  // ---------------------------------------------------------- term 3: the stale entry

  /** `b`, no longer leader, has committed its entry of term 2. */
  ghost predicate Abdicated(p: Params, c: Cluster, k: Cast, log: seq<Entry>) {
    Casting(p, k) && Named(p, c) && FirstTermLog(log, p.maxBatch) && Stale(c, k, log)
    && var lead := log + [Entry(|log| + 1, 2, NOOP)];
    c.nodes[k.b].role == Follower && c.nodes[k.b].term == 2 && c.nodes[k.b].log == lead
    && c.nodes[k.b].commit == |lead| && c.nodes[k.b].applied == |lead|
    && (forall w | w in k.ws :: Holds(c.nodes[w], 2, lead)) && HasApplied(c.trace, |lead|, NOOP)
  }

  lemma CommitAndAbdicate(p: Params, c: Cluster, k: Cast, log: seq<Entry>) returns (acts: seq<Action>)
    requires Answered(p, c, k, log)
    ensures Follows(p, c, Play(p, c, acts)) && Abdicated(p, Play(p, c, acts), k, log)
  {
    hide Awaiting, HasApplied, FirstTermLog, Play, Enough, Majority, Peers;
    var e := Entry(|log| + 1, 2, NOOP);
    CastCounts(p, k);
    var first := HearAcks(p, c, k.b, e, {}, k.ws);
    hide Acknowledged;
    var c1 := Play(p, c, first);
    var more := Abdicate(p, c1, k.b);
    acts := first + more;
    Chain(p, c, first, more);
  }

  /** `b` leads term 3; its first append to `f` does not fit there. */
  ghost predicate Returned(p: Params, c: Cluster, k: Cast, log: seq<Entry>) {
    Reelected(p, c, k, log) && Stale(c, k, log)
    && var s := c.nodes[k.b];
    k.f in s.nextIndex && s.nextIndex[k.f] == |log| + 2 && Packet(k.f, AppendFor(p, s, k.f)) in c.net
  }

  /** `b` leads term 3, having committed its entry of term 2, which the others hold. */
  ghost predicate Reelected(p: Params, c: Cluster, k: Cast, log: seq<Entry>) {
    Casting(p, k) && Named(p, c) && FirstTermLog(log, p.maxBatch)
    && var lead, s := log + [Entry(|log| + 1, 2, NOOP), Entry(|log| + 2, 3, NOOP)], c.nodes[k.b];
    s.role == Leader && s.term == 3 && s.log == lead && s.commit == |log| + 1 && s.applied == |log| + 1
    && (forall w | w in k.ws :: Holds(c.nodes[w], 3, lead[..|log| + 1]))
    && k.f in s.matchIndex && s.matchIndex[k.f] == 0 && HasApplied(c.trace, |log| + 1, NOOP)
  }

  lemma LeadsThird(p: Params, s: Node, s': Node, k: Cast, log: seq<Entry>)
    requires Casting(p, k) && FirstTermLog(log, p.maxBatch) && s.id == k.b && NewLeader(p, s, s', 3)
    requires s.log == log + [Entry(|log| + 1, 2, NOOP)]
    ensures s'.log == log + [Entry(|log| + 1, 2, NOOP), Entry(|log| + 2, 3, NOOP)] && s.log == s'.log[..|log| + 1]
    ensures k.f in s'.nextIndex && s'.nextIndex[k.f] == |log| + 2 && k.f in s'.matchIndex && s'.matchIndex[k.f] == 0
  {
    assert LastIndex(s.log) == |log| + 1;
  }

  lemma ElectThird(p: Params, c: Cluster, k: Cast, log: seq<Entry>) returns (acts: seq<Action>)
    requires Abdicated(p, c, k, log)
    ensures Follows(p, c, Play(p, c, acts)) && Returned(p, Play(p, c, acts), k, log)
  {
    hide AppendFor, HasApplied, FirstTermLog, Play, Majority, Enough, Peers;
    NamedNode(p, c, k.b);
    CastCounts(p, k);
    var lead := c.nodes[k.b].log;
    assert UpToDate(LastTerm(lead), LastIndex(lead), lead);
    acts := Elect(p, c, k.b, k.ws);
    LeadsThird(p, c.nodes[k.b], Play(p, c, acts).nodes[k.b], k, log);
  }

  lemma ThirdAppend(p: Params, s: Node, k: Cast, log: seq<Entry>)
    requires s.term == 3 && s.id == k.b && FirstTermLog(log, p.maxBatch) && p.maxBatch >= 1 && s.commit == |log| + 1
    requires s.log == log + [Entry(|log| + 1, 2, NOOP), Entry(|log| + 2, 3, NOOP)]
    requires k.f in s.nextIndex && s.nextIndex[k.f] == |log| + 2
    ensures var m := AppendFor(p, s, k.f);
            m.Append? && m.term == 3 && m.leader == k.b && m.prevIndex == |log| + 1 && m.prevTerm == 2
  {
  }

  lemma {:induction false} RunOfFirstTerm(log: seq<Entry>, i: nat)
    requires 1 <= i <= |log| && forall j | 0 <= j < |log| :: log[j].term == 1
    ensures RunStart(log, 1, i) == 1
  {
    if i > 1 {
      RunOfFirstTerm(log, i - 1);
    }
  }

  predicate StaleNode(s: Node, k: Cast, log: seq<Entry>, term: nat) {
    s.id == k.f && s.term == term && s.log == log + [Entry(|log| + 1, 1, ASK)] && s.commit == 0 && s.applied == 0
  }

  /** `f` refuses the first append of term 3, pointing back to index 1. */
  lemma Refuses(s: Node, k: Cast, log: seq<Entry>, m: Msg)
    requires StaleNode(s, k, log, 1) && FirstTermLog(log, |log|)
    requires m.Append? && m.term == 3 && m.leader == k.b && m.prevIndex == |log| + 1 && m.prevTerm == 2
    ensures var o := OnAppend(Fx(s, {}, []), m);
            StaleNode(o.node, k, log, 3) && o.node.role == Follower
            && Packet(k.b, AppendResp(3, k.f, false, 0, 1)) in o.sent
  {
    hide Merged;
    RunOfFirstTerm(s.log, |log| + 1);
  }

  /** `b` answers by sending the first batch again, with its commit index. */
  lemma SendsFirstBatch(p: Params, s: Node, k: Cast, log: seq<Entry>)
    requires s.role == Leader && s.term == 3 && s.id == k.b && FirstTermLog(log, p.maxBatch) && p.maxBatch >= 1
    requires s.log == log + [Entry(|log| + 1, 2, NOOP), Entry(|log| + 2, 3, NOOP)] && s.commit == |log| + 1
    requires k.f in s.matchIndex && k.f in s.nextIndex && s.nextIndex[k.f] == |log| + 2
    ensures var o := OnAppendResp(p, Fx(s, {}, []), AppendResp(3, k.f, false, 0, 1));
            o.node == s.(nextIndex := o.node.nextIndex) && k.f in o.node.nextIndex && o.done == []
            && Packet(k.f, Append(3, k.b, 0, 0, log, |log| + 1)) in o.sent
  {
    assert s.log[0..][..p.maxBatch] == log;
  }

  predicate Misapplied(s: Node, k: Cast, log: seq<Entry>) {
    s.id == k.f && s.term == 3 && s.log == log + [Entry(|log| + 1, 1, ASK)] && s.commit == |log| + 1 && s.applied == |log| + 1
  }

  /** `f` finds the whole batch in its log and commits past it. */
  lemma CommitsStale(s: Node, k: Cast, log: seq<Entry>)
    requires StaleNode(s, k, log, 3) && s.role == Follower && FirstTermLog(log, |log|)
    ensures var o := OnAppend(Fx(s, {}, []), Append(3, k.b, 0, 0, log, |log| + 1));
            Misapplied(o.node, k, log) && HasApplied(o.done, |log| + 1, ASK)
            && Packet(k.b, AppendResp(3, k.f, true, |log|, 0)) in o.sent
  {
    hide Merged, ApplyCommitted, HasApplied;
    HoldsAll(s.log, log);
    var o := Fx(s.(leaderId := Some(k.b), commit := |log| + 1), {}, []);
    ApplyCommittedFrame(o);
    assert ASK[0] != CONFIG[0];
    ApplyReaches(o);
  }

  lemma HoldsAll(long: seq<Entry>, log: seq<Entry>)
    requires log <= long
    ensures Merged(long, 0, log) == long
  {
    GapAtEnd(long, log, 0);
  }

  lemma {:induction false} GapAtEnd(long: seq<Entry>, log: seq<Entry>, k: nat)
    requires log <= long && k <= |log|
    ensures FirstGap(long, 0, log, k) == |log|
    decreases |log| - k
  {
    if k < |log| {
      GapAtEnd(long, log, k + 1);
    }
  }

  /** `f` has applied its stale entry where `b`, still leader of term 3, has applied its own. */
  ghost predicate Split(p: Params, c: Cluster, k: Cast, log: seq<Entry>) {
    Reelected(p, c, k, log) && k.f in c.nodes && Misapplied(c.nodes[k.f], k, log) && HasApplied(c.trace, |log| + 1, ASK)
    && k.f in c.nodes[k.b].nextIndex && Packet(k.b, AppendResp(3, k.f, true, |log|, 0)) in c.net
  }

  /** What a step of `f`, or of `b` short of committing, leaves of `b`'s state. */
  lemma StillReelected(p: Params, c: Cluster, c': Cluster, k: Cast, log: seq<Entry>)
    requires Reelected(p, c, k, log) && Named(p, c') && (forall r | r in c.trace :: r in c'.trace)
    requires forall v | v in c.nodes && v != k.f && v != k.b :: c'.nodes[v] == c.nodes[v]
    requires c'.nodes[k.b] == c.nodes[k.b].(nextIndex := c'.nodes[k.b].nextIndex)
    ensures Reelected(p, c', k, log)
  {
    hide HasApplied, FirstTermLog;
    AppliedStill(c.trace, c'.trace, |log| + 1, NOOP);
  }

  /** `f` has heard of term 3 and refused; `b` is to learn of it. */
  ghost predicate Refused(p: Params, c: Cluster, k: Cast, log: seq<Entry>) {
    Reelected(p, c, k, log) && k.f in c.nodes && StaleNode(c.nodes[k.f], k, log, 3) && c.nodes[k.f].role == Follower
    && var s := c.nodes[k.b];
    k.f in s.matchIndex && k.f in s.nextIndex && s.nextIndex[k.f] == |log| + 2
    && Packet(k.b, AppendResp(3, k.f, false, 0, 1)) in c.net
  }

  lemma RefuseStep(p: Params, c: Cluster, k: Cast, log: seq<Entry>) returns (acts: seq<Action>)
    requires Returned(p, c, k, log)
    ensures Follows(p, c, Play(p, c, acts)) && Refused(p, Play(p, c, acts), k, log)
  {
    hide AppendFor, OnAppend, Play, FirstTermLog, HasApplied;
    NamedNode(p, c, k.b);
    FirstTermLength(log, p.maxBatch);
    var m := AppendFor(p, c.nodes[k.b], k.f);
    ThirdAppend(p, c.nodes[k.b], k, log);
    Refuses(c.nodes[k.f], k, log, m);
    var a := Deliver(Packet(k.f, m), false);
    var c' := Act(p, c, a, OnAppend(Fx(c.nodes[k.f], {}, []), m));
    acts := [a];
    StillReelected(p, c, c', k, log);
    hide Reelected, Named;
  }

  /** `b` has sent the first batch again. */
  ghost predicate Resent(p: Params, c: Cluster, k: Cast, log: seq<Entry>) {
    Reelected(p, c, k, log) && k.f in c.nodes && StaleNode(c.nodes[k.f], k, log, 3) && c.nodes[k.f].role == Follower
    && k.f in c.nodes[k.b].nextIndex && Packet(k.f, Append(3, k.b, 0, 0, log, |log| + 1)) in c.net
  }

  lemma ResendStep(p: Params, c: Cluster, k: Cast, log: seq<Entry>) returns (acts: seq<Action>)
    requires Refused(p, c, k, log)
    ensures Follows(p, c, Play(p, c, acts)) && Resent(p, Play(p, c, acts), k, log)
  {
    hide OnAppendResp, Play, FirstTermLog, HasApplied;
    NamedNode(p, c, k.b);
    SendsFirstBatch(p, c.nodes[k.b], k, log);
    var r := AppendResp(3, k.f, false, 0, 1);
    var a := Deliver(Packet(k.b, r), false);
    var c' := Act(p, c, a, OnAppendResp(p, Fx(c.nodes[k.b], {}, []), r));
    acts := [a];
    StillReelected(p, c, c', k, log);
    hide Reelected, Named;
  }

  lemma MisapplyStep(p: Params, c: Cluster, k: Cast, log: seq<Entry>) returns (acts: seq<Action>)
    requires Resent(p, c, k, log)
    ensures Follows(p, c, Play(p, c, acts)) && Split(p, Play(p, c, acts), k, log)
  {
    hide OnAppend, Play, FirstTermLog, HasApplied;
    FirstTermLength(log, p.maxBatch);
    var m := Append(3, k.b, 0, 0, log, |log| + 1);
    CommitsStale(c.nodes[k.f], k, log);
    var a := Deliver(Packet(k.f, m), false);
    var o := OnAppend(Fx(c.nodes[k.f], {}, []), m);
    var c' := Act(p, c, a, o);
    acts := [a];
    StillReelected(p, c, c', k, log);
    AppliedStill(o.done, c'.trace, |log| + 1, ASK);
    hide Reelected, Named;
  }

  lemma ApplyStale(p: Params, c: Cluster, k: Cast, log: seq<Entry>) returns (acts: seq<Action>)
    requires Returned(p, c, k, log)
    ensures Follows(p, c, Play(p, c, acts)) && Split(p, Play(p, c, acts), k, log)
  {
    hide Returned, Refused, Resent, Split, Play, Follows;
    var first := RefuseStep(p, c, k, log);
    var c1 := Play(p, c, first);
    var second := ResendStep(p, c1, k, log);
    var c2 := Play(p, c1, second);
    var third := MisapplyStep(p, c2, k, log);
    acts := first + second + third;
    Chain(p, c, first, second);
    Chain(p, c, first + second, third);
  }

  lemma FirstTermLength(log: seq<Entry>, n: nat)
    requires FirstTermLog(log, n)
    ensures |log| == n && FirstTermLog(log, |log|)
  {
  }

  // -------------------------------------------------------------- term 4: `b` again

  function BatchRift(p: Params, k: Cast, log: seq<Entry>): Rift {
    Rift(k.f, k.b, log + [Entry(|log| + 1, 1, ASK)], log + [Entry(|log| + 1, 2, NOOP)], k.ws + {k.b})
  }

  lemma ElectFourth(p: Params, c: Cluster, k: Cast, log: seq<Entry>) returns (acts: seq<Action>)
    requires Split(p, c, k, log)
    ensures Torn(p, Play(p, c, acts), BatchRift(p, k, log))
  {
    hide AppendFor, HasApplied, FirstTermLog, Torn, Play, Majority, Enough, Peers, UpToDate, Follows,
      AppendsSent, NewLeader, Misapplied;
    NamedNode(p, c, k.b);
    CastCounts(p, k);
    var first := Abdicate(p, c, k.b);
    var c1 := Play(p, c, first);
    FollowsNamed(p, c, c1);
    LeadIsUpToDate(log);
    var more := Elect(p, c1, k.b, k.ws);
    acts := first + more;
    Chain(p, c, first, more);
    var c2 := Play(p, c, acts);
    FollowsTrace(p, c, c2);
    FollowsNamed(p, c, c2);
    AppliedStill(c.trace, c2.trace, |log| + 1, NOOP);
    AppliedStill(c.trace, c2.trace, |log| + 1, ASK);
    LeadsFourth(p, c.nodes[k.b], c1.nodes[k.b], c2.nodes[k.b], log);
    BatchTorn(p, c2, k, log);
  }

  lemma LeadsFourth(p: Params, s: Node, s1: Node, s2: Node, log: seq<Entry>)
    requires s.log == log + [Entry(|log| + 1, 2, NOOP), Entry(|log| + 2, 3, NOOP)] && s.commit == |log| + 1 && s.applied == |log| + 1
    requires SameData(s, s1) && NewLeader(p, s1, s2, 4)
    ensures HasAppliedAll(s2, log + [Entry(|log| + 1, 2, NOOP)]) && s2.role == Leader && s2.term == 4
  {
  }

  lemma FollowsTrace(p: Params, c: Cluster, c': Cluster)
    requires Follows(p, c, c')
    ensures forall r | r in c.trace :: r in c'.trace
  {
  }

  lemma LeadIsUpToDate(log: seq<Entry>)
    ensures var lead := log + [Entry(|log| + 1, 2, NOOP), Entry(|log| + 2, 3, NOOP)];
            UpToDate(LastTerm(lead), LastIndex(lead), lead[..|log| + 1])
  {
  }

  lemma BatchTorn(p: Params, c: Cluster, k: Cast, log: seq<Entry>)
    requires Casting(p, k) && Named(p, c) && Misapplied(c.nodes[k.f], k, log)
    requires var r := BatchRift(p, k, log);
             HasAppliedAll(c.nodes[k.b], r.now) && c.nodes[k.b].role == Leader && c.nodes[k.b].term == 4
             && forall w | w in k.ws :: r.now <= c.nodes[w].log
    requires HasApplied(c.trace, |log| + 1, NOOP) && HasApplied(c.trace, |log| + 1, ASK)
    ensures Torn(p, c, BatchRift(p, k, log))
  {
    hide HasApplied, Replay, Lonely;
    DifferentReplays(log, Entry(|log| + 1, 1, ASK), Entry(|log| + 1, 2, NOOP));
    PastIsLonely(p, c, k, log);
  }

  lemma PastIsLonely(p: Params, c: Cluster, k: Cast, log: seq<Entry>)
    requires Casting(p, k) && k.b in c.nodes
    requires var r := BatchRift(p, k, log);
             r.now <= c.nodes[k.b].log && forall w | w in k.ws && w in c.nodes :: r.now <= c.nodes[w].log
    ensures Lonely(p, c, BatchRift(p, k, log).past, BatchRift(p, k, log).others)
  {
    CastCounts(p, k);
    var r := BatchRift(p, k, log);
    forall v | v in r.others && v in c.nodes
      ensures !(r.past <= c.nodes[v].log)
    {
      assert c.nodes[v].log[|log|] == r.now[|log|] != r.past[|log|];
    }
  }

  lemma DifferentReplays(log: seq<Entry>, e: Entry, f: Entry)
    requires e.payload == ASK && f.payload == NOOP
    ensures Replay(log + [e]) != Replay(log + [f]) && ASK != NOOP
  {
    assert ASK[0] != NOOP[0] && ASK[0] != CONFIG[0];
    assert (log + [e])[..|log|] == log && (log + [f])[..|log|] == log;
  }

  /** With bounded batches and at least three members, `f` can come to apply its stale entry. */
  lemma ReachSplit(p: Params) returns (acts: seq<Action>, k: Cast, log: seq<Entry>)
    requires p.maxBatch >= 1 && |p.servers| >= 3
    ensures Split(p, Play(p, Init(p), acts), k, log)
  {
    hide Seeded, Answered, Abdicated, Returned, Split, Play;
    k := ThreeRoles(p);
    var c0, acts1 := Init(p), [];
    acts1, log := Seed(p, k);
    var c1 := Play(p, c0, acts1);
    var acts2 := GoStaleAndGather(p, c1, k, log);
    var c2 := Play(p, c1, acts2);
    var acts3 := CommitAndAbdicate(p, c2, k, log);
    var c3 := Play(p, c2, acts3);
    var acts4 := ElectThird(p, c3, k, log);
    var c4 := Play(p, c3, acts4);
    var acts5 := ApplyStale(p, c4, k, log);
    acts := acts1 + acts2 + acts3 + acts4 + acts5;
    PlayMore(p, c0, acts1, acts2);
    PlayMore(p, c0, acts1 + acts2, acts3);
    PlayMore(p, c0, acts1 + acts2 + acts3, acts4);
    PlayMore(p, c0, acts1 + acts2 + acts3 + acts4, acts5);
  }

  /** So some run tears the cluster apart. */
  lemma BoundedBatchesDiverge(p: Params) returns (run: seq<Action>, r: Rift)
    requires p.maxBatch >= 1 && |p.servers| >= 3
    ensures Torn(p, Reach(p, run), r)
  {
    hide Split, Torn, Play;
    var first, k, log := ReachSplit(p);
    var more := ElectFourth(p, Play(p, Init(p), first), k, log);
    r := BatchRift(p, k, log);
    run := first + more;
    PlayMore(p, Init(p), first, more);
    PlayIsReach(p, run);
  }

  lemma GoStaleAndGather(p: Params, c: Cluster, k: Cast, log: seq<Entry>) returns (acts: seq<Action>)
    requires Seeded(p, c, k, log)
    ensures Answered(p, Play(p, c, acts), k, log)
  {
    hide Answered, Unheard, FirstTermLog, Stale;
    var first := GoStale(p, c, k, log);
    var c1 := Play(p, c, first);
    var more := GatherAcks(p, c1, k, log);
    acts := first + more;
    PlayMore(p, c, first, more);
  }

  // ------------------------------------------------------ term 3: the stale entry goes

  /** `b` knows that `f` holds the shared entries and will send it what follows them. */
  ghost predicate Counted(p: Params, c: Cluster, k: Cast, log: seq<Entry>) {
    Casting(p, k) && Named(p, c) && FirstTermLog(log, p.maxBatch) && k.f in c.nodes && Misapplied(c.nodes[k.f], k, log)
    && var s := c.nodes[k.b];
    s.role == Leader && s.term == 3 && s.log == log + [Entry(|log| + 1, 2, NOOP), Entry(|log| + 2, 3, NOOP)]
    && k.f in s.nextIndex && s.nextIndex[k.f] == |log| + 1
  }

  lemma CountsShared(p: Params, s: Node, k: Cast, log: seq<Entry>)
    requires s.role == Leader && s.term == 3 && s.id == k.b
    requires k.f in s.matchIndex && s.matchIndex[k.f] == 0 && k.f in s.nextIndex
    ensures var o := OnAppendResp(p, Fx(s, {}, []), AppendResp(3, k.f, true, |log|, 0));
            o.node.id == s.id && o.node.role == Leader && o.node.term == 3 && o.node.log == s.log
            && k.f in o.node.nextIndex && o.node.nextIndex[k.f] == |log| + 1
  {
    hide AdvanceCommit;
    AdvanceCommitFrame(p, Fx(s.(matchIndex := s.matchIndex[k.f := |log|], nextIndex := s.nextIndex[k.f := |log| + 1]), {}, []));
  }

  lemma CountStep(p: Params, c: Cluster, k: Cast, log: seq<Entry>) returns (acts: seq<Action>)
    requires Split(p, c, k, log)
    ensures Counted(p, Play(p, c, acts), k, log)
  {
    hide OnAppendResp, Play, FirstTermLog, HasApplied;
    NamedNode(p, c, k.b);
    CountsShared(p, c.nodes[k.b], k, log);
    var m := AppendResp(3, k.f, true, |log|, 0);
    var c' := Act(p, c, Deliver(Packet(k.b, m), false), OnAppendResp(p, Fx(c.nodes[k.b], {}, []), m));
    acts := [Deliver(Packet(k.b, m), false)];
  }

  lemma BeatStep(p: Params, c: Cluster, k: Cast, log: seq<Entry>) returns (acts: seq<Action>)
    requires Counted(p, c, k, log)
    ensures var c' := Play(p, c, acts);
            Counted(p, c', k, log) && Packet(k.f, AppendFor(p, c'.nodes[k.b], k.f)) in c'.net
  {
    hide AppendFor, Play, FirstTermLog;
    NamedNode(p, c, k.b);
    var o := SendAllAppends(p, Fx(c.nodes[k.b], {}, []));
    var c' := Act(p, c, LeaderTimer(k.b, false, true, false), o);
    acts := [LeaderTimer(k.b, false, true, false)];
  }

  /** What `b` sends begins with its entry of term 2. */
  lemma FollowingAppend(p: Params, s: Node, k: Cast, log: seq<Entry>)
    requires s.term == 3 && s.id == k.b && FirstTermLog(log, p.maxBatch) && p.maxBatch >= 1
    requires s.log == log + [Entry(|log| + 1, 2, NOOP), Entry(|log| + 2, 3, NOOP)]
    requires k.f in s.nextIndex && s.nextIndex[k.f] == |log| + 1
    ensures var m := AppendFor(p, s, k.f);
            m.Append? && m.term == 3 && m.leader == k.b && m.prevIndex == |log| && m.prevTerm == 1
            && m.entries != [] && m.entries[0] == Entry(|log| + 1, 2, NOOP)
  {
    assert s.log[|log|..][0] == Entry(|log| + 1, 2, NOOP);
  }

  /** `f` deletes the entry it has applied. */
  lemma Erases(s: Node, k: Cast, log: seq<Entry>, m: Msg)
    requires Misapplied(s, k, log) && FirstTermLog(log, |log|) && log != [] && m.Append? && m.term == 3 && m.leader == k.b
    requires m.prevIndex == |log| && m.prevTerm == 1 && m.entries != [] && m.entries[0] == Entry(|log| + 1, 2, NOOP)
    ensures OnAppend(Fx(s, {}, []), m).node.id == s.id && !KeepsCommitted(s, OnAppend(Fx(s, {}, []), m).node)
  {
    hide FollowCommit;
    var o1 := Follow(Fx(s, {}, []), m.term, m.leader);
    assert FirstGap(s.log, |log|, m.entries, 0) == 0;
    assert m.entries[0..] == m.entries && s.log[..|log|] == log;
    var merged := Merged(s.log, |log|, m.entries);
    assert merged == log + Renumbered(m.entries, |log|);
    assert merged[|log|].term == 2 && s.log[|log|].term == 1;
    FollowCommitFrame(MergeAppend(o1, m).0, m.commit);
    assert merged[..|log| + 1][|log|] != s.log[..|log| + 1][|log|];
  }

  /** With bounded batches and at least three members, some run deletes a committed entry. */
  lemma BoundedBatchesErase(p: Params) returns (run: seq<Action>)
    requires p.maxBatch >= 1 && |p.servers| >= 3
    ensures !GroundKept(p, run)
  {
    hide Split, Counted, Play, AppendFor, OnAppend, GroundKept, Next;
    var c0 := Init(p);
    var first, k, log := ReachSplit(p);
    var c1 := Play(p, c0, first);
    var second := CountStep(p, c1, k, log);
    var c2 := Play(p, c1, second);
    var third := BeatStep(p, c2, k, log);
    var c3 := Play(p, c2, third);
    var before := first + second + third;
    PlayMore(p, c0, first, second);
    PlayMore(p, c0, first + second, third);
    var a := EraseStep(p, c3, k, log);
    run := before + [a];
    PlayMore(p, c0, before, [a]);
    PlayIsReach(p, before);
    PlayIsReach(p, run);
    assert run[..|run| - 1] == before;
    LastStepLoses(p, run, k.f);
  }

  lemma EraseStep(p: Params, c: Cluster, k: Cast, log: seq<Entry>) returns (a: Action)
    requires Counted(p, c, k, log) && Packet(k.f, AppendFor(p, c.nodes[k.b], k.f)) in c.net
    ensures var c' := Play(p, c, [a]);
            k.f in c.nodes && k.f in c'.nodes && !KeepsCommitted(c.nodes[k.f], c'.nodes[k.f])
  {
    hide Play, AppendFor, OnAppend, FirstTermLog, KeepsCommitted;
    NamedNode(p, c, k.b);
    NamedNode(p, c, k.f);
    FirstTermLength(log, p.maxBatch);
    FollowingAppend(p, c.nodes[k.b], k, log);
    var m := AppendFor(p, c.nodes[k.b], k.f);
    Erases(c.nodes[k.f], k, log, m);
    a := Deliver(Packet(k.f, m), false);
    var c' := Act(p, c, a, OnAppend(Fx(c.nodes[k.f], {}, []), m));
  }
}
