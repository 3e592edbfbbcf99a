/**
 From four members on, counting pre-vote grants as votes gives two leaders in one term, and
 merge, which compares terms only, does not tell their entries apart.
 */
module PrevoteLimit {
  import opened Basics
  import opened RaftLogs
  import opened StateMachine
  import opened RaftSteps
  import opened Clusters
  import opened Histories
  import opened LogMerges
  import opened RaftRuns
  import opened MixedVotes
  import opened RaftSafety
  import opened Spreading
  import opened Rifts
  import opened RaftRepair

  predicate Blank(s: Node) {
    s.log == [] && s.commit == 0 && s.applied == 0
  }

  /** Nobody has begun a log and no term beyond the first has been opened. */
  ghost predicate Early(c: Cluster) {
    forall v | v in c.nodes :: Blank(c.nodes[v]) && c.nodes[v].term <= 1
  }

  lemma EarlyBackers(p: Params, c: Cluster, s: Node, term: nat, xs: set<NodeId>)
    requires Early(c) && s.log == [] && xs <= c.nodes.Keys && 1 <= term
    ensures Backers(c, s, term, xs)
  {
  }

  lemma EarlyStill(c: Cluster, c1: Cluster, v: NodeId, voter: NodeId)
    requires Early(c) && c1.nodes.Keys == c.nodes.Keys && v in c.nodes && voter in c.nodes && v != voter
    requires forall x | x in c.nodes && x != v && x != voter :: c1.nodes[x] == c.nodes[x]
    requires VotedIn(c.nodes[voter], c1.nodes[voter], 1) && SameData(c.nodes[v], c1.nodes[v]) && c1.nodes[v].term == 1
    ensures Early(c1)
  {
  }

  const START: seq<Entry> := [Entry(1, 1, NOOP)]

  /** A new leader of term 1 with nothing but its no-op, which it has sent to everyone. */
  ghost predicate Begins(p: Params, c: Cluster, v: NodeId) {
    v in c.nodes && AppendsSent(p, c, v) && Starts(p, c.nodes[v], START)
  }

  /** A leader of term 1 with `log` that nobody has acknowledged anything to. */
  predicate Starts(p: Params, s: Node, log: seq<Entry>) {
    Unheard(p, s, 1, 1) && s.log == log && s.commit == 0 && s.applied == 0
  }

  lemma BeginsNow(p: Params, c: Cluster, c': Cluster, v: NodeId)
    requires Named(p, c) && v in c.nodes && Blank(c.nodes[v]) && TookOver(p, c, c', v, 1)
    ensures Follows(p, c, c') && Only(c, c', v) && Begins(p, c', v)
  {
    hide AppendsSent;
    NamedNode(p, c, v);
  }

  lemma BeginsStill(p: Params, c: Cluster, c1: Cluster, v: NodeId)
    requires Begins(p, c, v) && c.net <= c1.net && v in c1.nodes && c1.nodes[v] == c.nodes[v]
    ensures Begins(p, c1, v)
  {
  }

  function Others(p: Params, a: NodeId, b: NodeId): set<NodeId> {
    p.servers - {a, b}
  }

  /** `a` and `b` both lead term 1; the other members have nothing. */
  ghost predicate TwoLead(p: Params, c: Cluster, a: NodeId, b: NodeId) {
    Named(p, c) && a in p.servers && b in p.servers && a != b && Begins(p, c, a) && Begins(p, c, b)
    && forall v | v in Others(p, a, b) :: Blank(c.nodes[v]) && c.nodes[v].term <= 1
  }

  /** Both are one vote short of office in term 1, and that vote is on its way. */
  ghost predicate BothShort(p: Params, c: Cluster, a: NodeId, w: NodeId, b: NodeId, x: NodeId, va: set<NodeId>, vb: set<NodeId>) {
    Named(p, c) && Early(c) && a in p.servers && b in p.servers && a != b
    && OneShort(p, c, a, w, va) && OneShort(p, c, b, x, vb) && c.nodes[a].term == 1 && c.nodes[b].term == 1
  }

  lemma MixTwo(p: Params, a: NodeId, w: NodeId, b: NodeId, x: NodeId)
    returns (acts: seq<Action>, va: set<NodeId>, vb: set<NodeId>)
    requires p.usePrevote && |p.servers| >= 4 && a in p.servers && w in p.servers && b in p.servers && x in p.servers
    requires a != w && a != b && a != x && w != b && w != x && b != x
    ensures Follows(p, Init(p), Play(p, Init(p), acts)) && BothShort(p, Play(p, Init(p), acts), a, w, b, x, va, vb)
  {
    hide OneShort, Play, Backers;
    var s0 := Init(p);
    EarlyBackers(p, s0, s0.nodes[a], 1, p.servers - {a, b});
    var first: seq<Action>;
    first, va := MixedCandidate(p, s0, a, w, b);
    var s1 := Play(p, s0, first);
    EarlyStill(s0, s1, a, w);
    EarlyBackers(p, s1, s1.nodes[b], 1, p.servers - {b, a});
    var more: seq<Action>;
    more, vb := MixedCandidate(p, s1, b, x, a);
    EarlyStill(s1, Play(p, s1, more), b, x);
    OneShortStill(p, s1, Play(p, s1, more), a, w, va);
    acts := first + more;
    Chain(p, s0, first, more);
  }

  lemma WinTwo(p: Params, c: Cluster, a: NodeId, w: NodeId, b: NodeId, x: NodeId, va: set<NodeId>, vb: set<NodeId>)
    returns (acts: seq<Action>)
    requires BothShort(p, c, a, w, b, x, va, vb) && |p.servers| >= 4
    ensures Follows(p, c, Play(p, c, acts)) && TwoLead(p, Play(p, c, acts), a, b)
  {
    hide OneShort, Play, Begins, TookOver;
    var first := Win(p, c, a, w, va);
    var c1 := Play(p, c, first);
    BeginsNow(p, c, c1, a);
    OneShortStill(p, c, c1, b, x, vb);
    var more := Win(p, c1, b, x, vb);
    BeginsNow(p, c1, Play(p, c1, more), b);
    BeginsStill(p, c1, Play(p, c1, more), a);
    acts := first + more;
    Chain(p, c, first, more);
  }

  /** With pre-vote and at least four members, two nodes can both be elected in term 1. */
  lemma ElectTwo(p: Params) returns (acts: seq<Action>, a: NodeId, b: NodeId)
    requires p.usePrevote && |p.servers| >= 4
    ensures Follows(p, Init(p), Play(p, Init(p), acts)) && TwoLead(p, Play(p, Init(p), acts), a, b)
  {
    hide BothShort, Play, TwoLead, Follows;
    var w, x;
    a, w, b, x := FourMembers(p.servers);
    var first, va, vb := MixTwo(p, a, w, b, x);
    var more := WinTwo(p, Play(p, Init(p), first), a, w, b, x, va, vb);
    acts := first + more;
    Chain(p, Init(p), first, more);
  }

  /** So election safety fails. */
  lemma PrevoteElectsTwo(p: Params) returns (run: seq<Action>)
    requires p.usePrevote && |p.servers| >= 4
    ensures !ElectionSafe(p, run)
  {
    hide Play;
    var a, b;
    run, a, b := ElectTwo(p);
    PlayIsReach(p, run);
    assert run[..|run|] == run;
    assert State(p, run, |run|) == Reach(p, run);
  }

  // ------------------------------------------------- the two leaders' own entries

  const ASKED: seq<Entry> := [Entry(1, 1, NOOP), Entry(2, 1, ASK)]
  const SETTING: seq<Entry> := [Entry(1, 1, NOOP), Entry(2, 1, SET)]

  /** Each leader has put another entry at index 2 and sent its log to everyone. */
  ghost predicate TwoOffers(p: Params, c: Cluster, a: NodeId, b: NodeId) {
    Named(p, c) && a in p.servers && b in p.servers && a != b && AppendsSent(p, c, a) && AppendsSent(p, c, b)
    && Starts(p, c.nodes[a], ASKED) && Starts(p, c.nodes[b], SETTING)
    && forall v | v in Others(p, a, b) :: Blank(c.nodes[v]) && c.nodes[v].term <= 1
  }

  lemma NotConfigs()
    ensures !IsConfig(NOOP) && !IsConfig(ASK) && !IsConfig(SET)
  {
    NoopIsNoConfig();
    assert ASK[0] != CONFIG[0] && SET[0] != CONFIG[0];
  }

  lemma OfferSecond(p: Params, c: Cluster, v: NodeId, payload: Bytes) returns (acts: seq<Action>)
    requires Named(p, c) && |p.servers| >= 2 && v in c.nodes && Starts(p, c.nodes[v], START) && !IsConfig(payload)
    ensures var c' := Play(p, c, acts);
            Follows(p, c, c') && Only(c, c', v) && AppendsSent(p, c', v)
            && Starts(p, c'.nodes[v], [Entry(1, 1, NOOP), Entry(2, 1, payload)])
  {
    hide AppendsSent, IsConfig;
    acts := Offer(p, c, v, 1, 1, payload);
    assert START + [Entry(2, 1, payload)] == [Entry(1, 1, NOOP), Entry(2, 1, payload)];
  }

  lemma AppendsStill(p: Params, c: Cluster, c1: Cluster, v: NodeId)
    requires AppendsSent(p, c, v) && c.net <= c1.net && v in c1.nodes && c1.nodes[v] == c.nodes[v]
    ensures AppendsSent(p, c1, v)
  {
  }

  lemma OfferBoth(p: Params) returns (acts: seq<Action>, a: NodeId, b: NodeId)
    requires p.usePrevote && |p.servers| >= 4
    ensures TwoOffers(p, Play(p, Init(p), acts), a, b)
  {
    hide Play, AppendsSent, Blank, Starts, IsConfig;
    var c0, acts1 := Init(p), [];
    acts1, a, b := ElectTwo(p);
    NotConfigs();
    var c1 := Play(p, c0, acts1);
    var acts2 := OfferSecond(p, c1, a, ASK);
    var c2 := Play(p, c1, acts2);
    FollowsNamed(p, c1, c2);
    var acts3 := OfferSecond(p, c2, b, SET);
    AppendsStill(p, c2, Play(p, c2, acts3), a);
    acts := acts1 + acts2 + acts3;
    PlayMore(p, c0, acts1, acts2);
    PlayMore(p, c0, acts1 + acts2, acts3);
  }

  /** So log matching fails. */
  lemma PrevoteForksLogs(p: Params) returns (run: seq<Action>)
    requires p.usePrevote && |p.servers| >= 4
    ensures !LogsMatch(p, run)
  {
    hide Play, AppendsSent, Unheard;
    var a, b;
    run, a, b := OfferBoth(p);
    PlayIsReach(p, run);
    assert run[..|run|] == run;
    var c := State(p, run, |run|);
    assert c == Reach(p, run);
    assert !SameLogsWhereTermsMeet(c.nodes[a].log, c.nodes[b].log) by {
      assert ASKED[..2][1] != SETTING[..2][1];
    }
  }

  // -------------------------------------- both leaders apply their entry at index 2

  lemma WholeSent(p: Params, c: Cluster, v: NodeId, ws: set<NodeId>, log: seq<Entry>, at: seq<Entry>)
    requires p.maxBatch == 0 && Named(p, c) && v in c.nodes && ws <= Peers(p, v) && AppendsSent(p, c, v) && Starts(p, c.nodes[v], log)
    requires forall w | w in ws :: c.nodes[w].term <= 1 && c.nodes[w].log == at
    ensures Sent(p, c, ws, Append(1, v, 0, 0, log, 0), at)
  {
    NamedNode(p, c, v);
    assert log[0..] == log;
    forall q | q in ws
      ensures AppendFor(p, c.nodes[v], q) == Append(1, v, 0, 0, log, 0)
    {
    }
    assert Accepts(at, 0, 0);
  }

  /** A leader sends its two entries to all others, which keep the second as `kept` has it. */
  lemma SpreadOwn(p: Params, c: Cluster, v: NodeId, ws: set<NodeId>, log: seq<Entry>, at: seq<Entry>, kept: seq<Entry>)
    returns (acts: seq<Action>)
    requires p.maxBatch == 0 && Named(p, c) && v in c.nodes && ws <= Peers(p, v)
    requires AppendsSent(p, c, v) && Starts(p, c.nodes[v], log) && FirstTermLog(log, 2) && Merged(at, 0, log) == kept
    requires forall w | w in ws :: c.nodes[w].term <= 1 && c.nodes[w].log == at
    ensures var c' := Play(p, c, acts);
            Follows(p, c, c') && (forall x | x in c.nodes && x !in ws :: c'.nodes[x] == c.nodes[x])
            && (forall w | w in ws :: c'.nodes[w].role == Follower && c'.nodes[w].term == 1 && c'.nodes[w].log == kept)
            && Acknowledged(c', v, log[1], ws)
  {
    hide Play, Merged, AppendsSent, Starts, IsConfig;
    WholeSent(p, c, v, ws, log, at);
    hide Sent;
    acts := SpreadTo(p, c, ws, Append(1, v, 0, 0, log, 0), at);
  }

  lemma StartsAwaits(p: Params, s: Node, log: seq<Entry>)
    requires Starts(p, s, log) && FirstTermLog(log, 2)
    ensures Awaiting(p, s, log[1], {})
  {
    hide IsConfig;
  }

  lemma SettledAll(s: Node, s': Node, log: seq<Entry>)
    requires s.log == log && FirstTermLog(log, 2) && Settled(s, s', log[1])
    ensures s'.role == Leader && s'.term == 1 && s'.log == log && HasAppliedAll(s', log)
  {
    hide IsConfig;
  }

  /** And it commits on their word. */
  lemma CommitOwn(p: Params, c: Cluster, v: NodeId, ws: set<NodeId>, log: seq<Entry>, at: seq<Entry>, kept: seq<Entry>)
    returns (acts: seq<Action>)
    requires p.maxBatch == 0 && Named(p, c) && v in c.nodes && ws <= Peers(p, v) && Enough(p, ws) && |p.servers| >= 4
    requires AppendsSent(p, c, v) && Starts(p, c.nodes[v], log) && FirstTermLog(log, 2) && Merged(at, 0, log) == kept
    requires forall w | w in ws :: c.nodes[w].term <= 1 && c.nodes[w].log == at
    ensures var c' := Play(p, c, acts);
            Follows(p, c, c') && (forall x | x in c.nodes && x != v && x !in ws :: c'.nodes[x] == c.nodes[x])
            && c'.nodes[v].role == Leader && c'.nodes[v].term == 1 && c'.nodes[v].log == log && HasAppliedAll(c'.nodes[v], log)
            && (forall w | w in ws :: c'.nodes[w].role == Follower && c'.nodes[w].term == 1 && c'.nodes[w].log == kept)
            && HasApplied(c'.trace, 2, log[1].payload)
  {
    hide Play, Merged, HasApplied, AppendsSent, Starts, Awaiting, Acknowledged, Settled, HasAppliedAll, Enough, IsConfig;
    var first := SpreadOwn(p, c, v, ws, log, at, kept);
    var c1 := Play(p, c, first);
    StartsAwaits(p, c.nodes[v], log);
    assert !Enough(p, {}) by {
      NoneIsTooFew(p);
    }
    assert {} + ws == ws;
    assert log[1].index == 2;
    var more := HearAcks(p, c1, v, log[1], {}, ws);
    acts := first + more;
    StartsLog(p, c.nodes[v], log);
    SettledAll(c1.nodes[v], Play(p, c1, more).nodes[v], log);
    Chain(p, c, first, more);
  }

  lemma StartsLog(p: Params, s: Node, log: seq<Entry>)
    requires Starts(p, s, log)
    ensures s.log == log
  {
  }

  lemma NoneIsTooFew(p: Params)
    requires |p.servers| >= 2
    ensures !Enough(p, {})
  {
  }

  lemma MergedSameTerms(at: seq<Entry>, log: seq<Entry>)
    requires FirstTermLog(at, 2) && FirstTermLog(log, 2)
    ensures Merged(at, 0, log) == at
  {
    assert FirstGap(at, 0, log, 2) == 2;
    assert FirstGap(at, 0, log, 1) == 2;
  }

  lemma FirstTermLogs()
    ensures FirstTermLog(ASKED, 2) && FirstTermLog(SETTING, 2) && FirstTermLog([], 0)
  {
    NotConfigs();
  }

  lemma DifferentReplays()
    ensures Replay(ASKED) != Replay(SETTING) && ASK != SET
  {
    NotConfigs();
    assert ASK[0] != SET[0] && ASK[0] != NOOP[0] && SET[0] != NOOP[0];
    var base := Replay(START);
    assert ASKED[..1] == START && SETTING[..1] == START;
    assert START[..0] == [] && Replay(START[..0]) == EMPTY_KV;
    assert START[0].payload == NOOP && base == EMPTY_KV;
    assert IndexOf(SET, EQUALS) == 0;
    assert [] in Replay(SETTING).data;
  }

  function PrevoteRift(p: Params, a: NodeId, b: NodeId): Rift {
    Rift(a, b, ASKED, SETTING, Others(p, a, b) + {a})
  }

  ghost predicate BothApplied(p: Params, c: Cluster, a: NodeId, b: NodeId) {
    Named(p, c) && a in p.servers && b in p.servers && a != b
    && c.nodes[a].term == 1 && HasAppliedAll(c.nodes[a], ASKED)
    && c.nodes[b].role == Leader && c.nodes[b].term == 1 && c.nodes[b].log == SETTING && HasAppliedAll(c.nodes[b], SETTING)
    && (forall w | w in Others(p, a, b) :: c.nodes[w].term == 1 && c.nodes[w].log == ASKED)
    && HasApplied(c.trace, 2, ASK) && HasApplied(c.trace, 2, SET)
  }

  lemma ManyOthers(p: Params, a: NodeId, b: NodeId)
    requires a in p.servers && b in p.servers && a != b && |p.servers| >= 4
    ensures var ws := Others(p, a, b);
            ws <= Peers(p, a) && ws <= Peers(p, b) && Enough(p, ws) && Majority(p, ws + {b}) && |ws + {a}| == |p.servers| - 1
  {
    var ws := Others(p, a, b);
    assert |ws| == |p.servers| - |{a, b}|;
    assert |ws + {a}| == |ws| + 1 && |ws + {b}| == |ws| + 1;
  }

  lemma ApplyBoth(p: Params, c: Cluster, a: NodeId, b: NodeId) returns (acts: seq<Action>)
    requires TwoOffers(p, c, a, b) && p.maxBatch == 0 && |p.servers| >= 4
    ensures BothApplied(p, Play(p, c, acts), a, b)
  {
    hide Play, Merged, HasApplied, AppendsSent, FirstTermLog, Starts, Enough, Majority;
    var ws := Others(p, a, b);
    ManyOthers(p, a, b);
    FirstTermLogs();
    MergedIntoEmpty(ASKED, 2);
    var first := CommitOwn(p, c, a, ws, ASKED, [], ASKED);
    var c1 := Play(p, c, first);
    AppendsStill(p, c, c1, b);
    MergedSameTerms(ASKED, SETTING);
    var more := CommitOwn(p, c1, b, ws, SETTING, ASKED, ASKED);
    acts := first + more;
    PlayMore(p, c, first, more);
    AppliedStill(c1.trace, Play(p, c, acts).trace, 2, ASK);
  }

  lemma FewHoldSetting(p: Params, c: Cluster, a: NodeId, b: NodeId)
    requires Named(p, c) && a in p.servers && b in p.servers && a != b && |p.servers| >= 4
    requires ASKED <= c.nodes[a].log && forall w | w in Others(p, a, b) :: c.nodes[w].log == ASKED
    ensures Lonely(p, c, SETTING, Others(p, a, b) + {a})
  {
    ManyOthers(p, a, b);
    assert ASK[0] != SET[0];
    forall v | v in Others(p, a, b) + {a}
      ensures !(SETTING <= c.nodes[v].log)
    {
      assert c.nodes[v].log[1] == ASKED[1] != SETTING[1];
    }
  }

  lemma BothTorn(p: Params, c: Cluster, a: NodeId, b: NodeId)
    requires Named(p, c) && a in p.servers && b in p.servers && a != b && |p.servers| >= 4
    requires c.nodes[a].term == 1 && HasAppliedAll(c.nodes[a], ASKED)
    requires c.nodes[b].role == Leader && c.nodes[b].term == 2 && HasAppliedAll(c.nodes[b], SETTING)
    requires forall w | w in Others(p, a, b) :: c.nodes[w].log == ASKED
    requires HasApplied(c.trace, 2, ASK) && HasApplied(c.trace, 2, SET)
    ensures Torn(p, c, PrevoteRift(p, a, b))
  {
    hide HasApplied, Replay, Lonely, Others;
    DifferentReplays();
    FewHoldSetting(p, c, a, b);
  }

  /** `b` loses its office and is elected again, for term 2. */
  lemma ElectAgain(p: Params, c: Cluster, a: NodeId, b: NodeId) returns (acts: seq<Action>)
    requires BothApplied(p, c, a, b) && |p.servers| >= 4
    ensures Torn(p, Play(p, c, acts), PrevoteRift(p, a, b))
  {
    hide Play, HasApplied, AppendsSent, Enough, Majority, Torn;
    var ws := Others(p, a, b);
    ManyOthers(p, a, b);
    var first := Abdicate(p, c, b);
    var c1 := Play(p, c, first);
    assert UpToDate(LastTerm(SETTING), LastIndex(SETTING), ASKED);
    var more := Elect(p, c1, b, ws);
    acts := first + more;
    Chain(p, c, first, more);
    var c2 := Play(p, c, acts);
    AppliedStill(c.trace, c2.trace, 2, ASK);
    AppliedStill(c.trace, c2.trace, 2, SET);
    BothTorn(p, c2, a, b);
  }

  /** So, with unlimited batches, some run tears the cluster apart. */
  lemma PrevoteTears(p: Params) returns (run: seq<Action>, r: Rift)
    requires p.usePrevote && |p.servers| >= 4 && p.maxBatch == 0
    ensures Torn(p, Reach(p, run), r)
  {
    hide Play, TwoOffers, BothApplied, Torn;
    var c0 := Init(p);
    var acts1, a, b := OfferBoth(p);
    var c1 := Play(p, c0, acts1);
    var acts2 := ApplyBoth(p, c1, a, b);
    var c2 := Play(p, c1, acts2);
    var acts3 := ElectAgain(p, c2, a, b);
    r := PrevoteRift(p, a, b);
    run := acts1 + acts2 + acts3;
    PlayMore(p, c0, acts1, acts2);
    PlayMore(p, c0, acts1 + acts2, acts3);
    PlayIsReach(p, run);
  }

  // ------------------------------------------- one follower acknowledges to both leaders

  /** A leader of term 1 with `log`, of which only `w` has acknowledged anything, its first `n` entries. */
  predicate OneAcked(p: Params, s: Node, w: NodeId, log: seq<Entry>, n: nat) {
    s.role == Leader && s.term == 1 && s.log == log && s.transfer == None && s.commit == 0 && s.applied == 0
    && s.matchIndex.Keys == Peers(p, s.id) && s.nextIndex.Keys == Peers(p, s.id) && w in Peers(p, s.id)
    && s.nextIndex[w] == n + 1 && s.matchIndex[w] == n
    && forall q | q in Peers(p, s.id) && q != w :: s.matchIndex[q] == 0
  }

  /** One acknowledgement is not enough to commit. */
  lemma OneIsTooFew(p: Params, o: Fx, w: NodeId, log: seq<Entry>, n: nat)
    requires |p.servers| >= 4 && OneAcked(p, o.node, w, log, n)
    ensures AdvanceCommit(p, o) == o
  {
    var s := o.node;
    forall k | 0 < k <= LastIndex(s.log)
      ensures !CanCommit(p, s, k)
    {
      SubsetSize(Holders(p, s, k), {w});
    }
    NothingToCommit(p, s, LastIndex(s.log));
  }

  /** The leader counts an acknowledgement from `w`. */
  lemma CountAck(p: Params, c: Cluster, v: NodeId, w: NodeId, log: seq<Entry>, was: nat, n: nat) returns (acts: seq<Action>)
    requires Named(p, c) && |p.servers| >= 4 && v in c.nodes && OneAcked(p, c.nodes[v], w, log, was) && was <= n
    requires Packet(v, AppendResp(1, w, true, n, 0)) in c.net
    ensures var c' := Play(p, c, acts);
            Follows(p, c, c') && Only(c, c', v) && OneAcked(p, c'.nodes[v], w, log, n)
  {
    hide AdvanceCommit, Play;
    NamedNode(p, c, v);
    var s, r := c.nodes[v], AppendResp(1, w, true, n, 0);
    var o := Fx(s.(matchIndex := s.matchIndex[w := n], nextIndex := s.nextIndex[w := n + 1]), {}, []);
    OneIsTooFew(p, o, w, log, n);
    var a := Deliver(Packet(v, r), false);
    var c' := Act(p, c, a, o);
    acts := [a];
  }

  /** `w` hears a leader's append and its acknowledgement is counted. */
  lemma Exchange(p: Params, c: Cluster, v: NodeId, w: NodeId, log: seq<Entry>, was: nat, m: Msg, n: nat)
    returns (acts: seq<Action>)
    requires Named(p, c) && |p.servers| >= 4 && v in c.nodes && w in c.nodes && v != w && c.nodes[w].term <= 1
    requires OneAcked(p, c.nodes[v], w, log, was) && was <= n
    requires m.Append? && m.term == 1 && m.leader == v && m.commit == 0 && Packet(w, m) in c.net
    requires Accepts(c.nodes[w].log, m.prevIndex, m.prevTerm) && m.prevIndex + |m.entries| == n
    ensures var c' := Play(p, c, acts);
            Follows(p, c, c') && OneAcked(p, c'.nodes[v], w, log, n) && Copied(c.nodes[w], c'.nodes[w], m)
            && forall x | x in c.nodes && x != v && x != w :: c'.nodes[x] == c.nodes[x]
  {
    hide Play, Copied, Accepts, OneAcked;
    var first := HearAppend(p, c, w, m);
    var c1 := Play(p, c, first);
    FollowsNamed(p, c, c1);
    var more := CountAck(p, c1, v, w, log, was, n);
    acts := first + more;
    Chain(p, c, first, more);
  }

  /** The leader takes one more entry and sends it to `w`. */
  lemma OfferOne(p: Params, c: Cluster, v: NodeId, w: NodeId, payload: Bytes) returns (acts: seq<Action>)
    requires Named(p, c) && |p.servers| >= 4 && v in c.nodes && OneAcked(p, c.nodes[v], w, START, 1) && !IsConfig(payload)
    ensures var c', e := Play(p, c, acts), Entry(2, 1, payload);
            Follows(p, c, c') && Only(c, c', v) && OneAcked(p, c'.nodes[v], w, START + [e], 1)
            && Packet(w, Append(1, v, 1, 1, [e], 0)) in c'.net
  {
    hide Play, AppendFor, AdvanceCommit, IsConfig;
    NamedNode(p, c, v);
    var e := Entry(2, 1, payload);
    var o := AppendEntry(Fx(c.nodes[v], {}, []), payload);
    OneIsTooFew(p, o, w, START + [e], 1);
    var c' := Act(p, c, Request(v, payload), SendAllAppends(p, o));
    SecondAppend(p, o.node, w, e);
    acts := [Request(v, payload)];
  }

  lemma SecondAppend(p: Params, s: Node, w: NodeId, e: Entry)
    requires OneAcked(p, s, w, START + [e], 1)
    ensures AppendFor(p, s, w) == Append(1, s.id, 1, 1, [e], 0)
  {
    assert s.log[1..] == [e];
  }

  lemma FirstSent(p: Params, c: Cluster, v: NodeId, w: NodeId)
    requires Named(p, c) && Begins(p, c, v) && w in Peers(p, v)
    ensures v in c.nodes && w in c.nodes && v != w
    ensures OneAcked(p, c.nodes[v], w, START, 0) && Packet(w, Append(1, v, 0, 0, START, 0)) in c.net
  {
    assert START[0..] == START;
    assert AppendFor(p, c.nodes[v], w) == Append(1, v, 0, 0, START, 0);
  }

  /** A new leader gets `w` to acknowledge two entries, whatever the batch bound; `w` ends with `kept`. */
  lemma Teach(p: Params, c: Cluster, v: NodeId, w: NodeId, payload: Bytes, kept: seq<Entry>) returns (acts: seq<Action>)
    requires Named(p, c) && |p.servers| >= 4 && w in Peers(p, v) && c.nodes[w].term <= 1 && !IsConfig(payload)
    requires Begins(p, c, v)
    requires var e := Entry(2, 1, payload);
             (c.nodes[w].log == [] && kept == START + [e]) || (c.nodes[w].log == kept && FirstTermLog(kept, 2))
    ensures var c', e := Play(p, c, acts), Entry(2, 1, payload);
            Follows(p, c, c') && OneAcked(p, c'.nodes[v], w, START + [e], 2)
            && c'.nodes[w].term == 1 && c'.nodes[w].log == kept
            && forall x | x in c.nodes && x != v && x != w :: c'.nodes[x] == c.nodes[x]
  {
    hide Play, Merged, Accepts, AppendFor, IsConfig, FirstTermLog, Begins, OneAcked;
    FirstSent(p, c, v, w);
    var e := Entry(2, 1, payload);
    TwoMerges(c.nodes[w].log, e, kept);
    var first := Exchange(p, c, v, w, START, 0, Append(1, v, 0, 0, START, 0), 1);
    var c1 := Play(p, c, first);
    var second := OfferOne(p, c1, v, w, payload);
    var c2 := Play(p, c1, second);
    FollowsNamed(p, c1, c2);
    var third := Exchange(p, c2, v, w, START + [e], 1, Append(1, v, 1, 1, [e], 0), 2);
    acts := first + second + third;
    Chain(p, c, first, second);
    Chain(p, c, first + second, third);
  }

  lemma TwoMerges(log: seq<Entry>, e: Entry, kept: seq<Entry>)
    requires e.index == 2 && e.term == 1
    requires (log == [] && kept == START + [e]) || (log == kept && FirstTermLog(kept, 2))
    ensures var log1 := Merged(log, 0, START);
            Accepts(log, 0, 0) && Accepts(log1, 1, 1) && Merged(log1, 1, [e]) == kept
  {
    if log == [] {
      assert FirstGap([], 0, START, 0) == 0;
      assert START[0..] == START && Renumbered(START, 0) == START;
      assert Merged(log, 0, START) == START;
      assert FirstGap(START, 1, [e], 0) == 0;
      assert [e][0..] == [e] && Renumbered([e], 1) == [e] && START[..1] == START;
    } else {
      assert FirstGap(log, 0, START, 1) == 1;
      assert FirstGap(log, 1, [e], 1) == 1;
    }
  }

  /** `b` counts two entries as matched that `w` holds otherwise. */
  ghost predicate Mistaken(p: Params, c: Cluster, b: NodeId, w: NodeId) {
    Named(p, c) && b in c.nodes && w in c.nodes && OneAcked(p, c.nodes[b], w, SETTING, 2)
    && c.nodes[w].term == 1 && c.nodes[w].log == ASKED
  }

  lemma TeachBoth(p: Params) returns (run: seq<Action>, b: NodeId, w: NodeId)
    requires p.usePrevote && |p.servers| >= 4
    ensures Mistaken(p, Reach(p, run), b, w)
  {
    hide Play, Begins, IsConfig, FirstTermLog, Peers;
    var c0 := Init(p);
    var acts1, a;
    acts1, a, b := ElectTwo(p);
    var c1 := Play(p, c0, acts1);
    ManyOthers(p, a, b);
    w :| w in Others(p, a, b);
    NotConfigs();
    FirstTermLogs();
    assert START + [Entry(2, 1, ASK)] == ASKED && START + [Entry(2, 1, SET)] == SETTING;
    var acts2 := Teach(p, c1, a, w, ASK, ASKED);
    var c2 := Play(p, c1, acts2);
    BeginsStill(p, c1, c2, b);
    FollowsNamed(p, c1, c2);
    var acts3 := Teach(p, c2, b, w, SET, ASKED);
    run := acts1 + acts2 + acts3;
    PlayMore(p, c0, acts1, acts2);
    PlayMore(p, c0, acts1 + acts2, acts3);
    PlayIsReach(p, run);
  }

  /** So a leader's match index can be untrue. */
  lemma PrevoteMisleads(p: Params) returns (run: seq<Action>)
    requires p.usePrevote && |p.servers| >= 4
    ensures !MatchesAreTrue(p, run)
  {
    var b, w;
    run, b, w := TeachBoth(p);
    Misled(p, run, b, w);
  }

  lemma Misled(p: Params, run: seq<Action>, b: NodeId, w: NodeId)
    requires Mistaken(p, Reach(p, run), b, w)
    ensures !MatchesAreTrue(p, run)
  {
    assert run[..|run|] == run;
    var c := State(p, run, |run|);
    assert c == Reach(p, run);
    assert ASKED[1] != SETTING[1];
    assert SETTING[..2] == SETTING;
    assert !MatchIsTrue(c.nodes[b], c.nodes[w]);
  }

  /** And a repair can leave the follower with other entries than the leader's. */
  lemma PrevoteMisrepairs(p: Params) returns (run: seq<Action>)
    requires p.usePrevote && |p.servers| >= 4
    ensures !RepairsAgree(p, run)
  {
    hide Mistaken, RepairedAfter, AgreesAfter;
    var b, w;
    run, b, w := TeachBoth(p);
    assert run[..|run|] == run;
    var c := State(p, run, |run|);
    assert c == Reach(p, run);
    MistakenPair(p, c, b, w);
    Misrepaired(p, Pair(c.nodes[b], c.nodes[w]));
  }

  lemma MistakenPair(p: Params, c: Cluster, b: NodeId, w: NodeId)
    requires Mistaken(p, c, b, w)
    ensures b in c.nodes && w in c.nodes && b != w && OneAcked(p, c.nodes[b], w, SETTING, 2)
    ensures c.nodes[w].id == w && c.nodes[w].term == 1 && c.nodes[w].log == ASKED
  {
  }

  lemma Misrepaired(p: Params, x: Pair)
    requires OneAcked(p, x.leader, x.follower.id, SETTING, 2) && x.follower.term == 1 && x.follower.log == ASKED
    ensures RepairedAfter(p, x, 0) && !AgreesAfter(p, x, 0)
  {
    hide OnAppendResp, OnAppend;
    ExchangesSplit(p, x, 0);
    var m := RaftRepair.Request(p, x);
    assert SETTING[2..] == [];
    assert m.prevIndex == 2 && m.prevTerm == 1 && m.entries == [];
    FollowerAfter(x.follower, m);
    assert FirstGap(ASKED, 2, [], 0) == 0;
    LeaderAfter(p, x.leader, Reply(x.follower, m));
    assert ASKED[1] != SETTING[1] && SETTING[..2] == SETTING;
  }
}
