/**
 Pre-vote with at least four members, whatever the batch bound: two leaders of one term that
 started with different logs. `b` has led term 1 and kept its no-op to itself; in term 2 both
 `b` and `c` come to office on pre-vote grants. `c` gets its own no-op at index 1 committed;
 then an append of `b`, which is of the same term, makes it delete that entry.
 */
module UnevenLimit {
  import opened RaftLogs
  import opened RaftSteps
  import opened Clusters
  import opened LeaderKeeps
  import opened HandlersKeep
  import opened RaftRuns
  import opened RaftProgress
  import opened Spreading
  import opened MixedVotes
  import opened PrevoteLimit

  const OLD := Entry(1, 1, NOOP)
  const NEW := Entry(1, 2, NOOP)
  const OLD_AND_ON := [OLD, Entry(2, 2, NOOP)]

  /** A follower of `term` with `log`, nothing of it committed. */
  predicate Idle(s: Node, term: nat, log: seq<Entry>) {
    s.role == Follower && s.term == term && s.log == log && s.commit == 0 && s.applied == 0
  }

  // ------------------------------------------------------------------------- term 1

  /** `b` has led term 1 and lost its office; nobody else has heard of its entry. */
  ghost predicate Alone(p: Params, c: Cluster, b: NodeId) {
    Named(p, c) && b in p.servers && Idle(c.nodes[b], 1, [OLD])
    && forall v | v in Peers(p, b) :: Idle(c.nodes[v], 1, [])
  }

  lemma AllPeers(p: Params, b: NodeId)
    requires b in p.servers && |p.servers| >= 2
    ensures Majority(p, Peers(p, b) + {b}) && UpToDate(LastTerm([]), LastIndex([]), [])
  {
    assert Peers(p, b) + {b} == p.servers;
  }

  lemma LeadFirst(p: Params, b: NodeId) returns (acts: seq<Action>)
    requires b in p.servers && |p.servers| >= 2
    ensures Alone(p, Play(p, Init(p), acts), b)
  {
    hide Majority, UpToDate, AppendsSent, Play, NewLeader;
    AllPeers(p, b);
    var c0 := Init(p);
    var first := Elect(p, c0, b, Peers(p, b));
    var c1 := Play(p, c0, first);
    LeadsOnly(p, c0.nodes[b], c1.nodes[b]);
    var more := Abdicate(p, c1, b);
    acts := first + more;
    PlayMore(p, c0, first, more);
  }

  lemma LeadsOnly(p: Params, s: Node, s': Node)
    requires NewLeader(p, s, s', 1) && s.log == [] && s.commit == 0 && s.applied == 0
    ensures s'.role == Leader && s'.term == 1 && s'.log == [OLD] && s'.commit == 0 && s'.applied == 0
  {
  }

  // ------------------------------------------------------------------------- term 2

  /** A new leader of term 2 with `log`, sent to everyone, nothing of it acknowledged. */
  ghost predicate Opens(p: Params, c: Cluster, v: NodeId, log: seq<Entry>) {
    v in c.nodes && AppendsSent(p, c, v) && log != []
    && Unheard(p, c.nodes[v], 2, |log|) && c.nodes[v].log == log && c.nodes[v].commit == 0 && c.nodes[v].applied == 0
  }

  /** `b` leads term 2 with its entry of term 1, `d` leads it without. */
  ghost predicate Uneven(p: Params, c: Cluster, b: NodeId, d: NodeId) {
    Named(p, c) && b in p.servers && d in p.servers && b != d
    && Opens(p, c, b, OLD_AND_ON) && Opens(p, c, d, [NEW])
    && forall v | v in Others(p, b, d) :: c.nodes[v].log == [] && c.nodes[v].term <= 2
  }

  lemma OpensNow(p: Params, c: Cluster, c': Cluster, v: NodeId, log: seq<Entry>, log': seq<Entry>)
    requires Named(p, c) && v in c.nodes && Unspent(c.nodes[v], log) && (log == [] || log == [OLD])
    requires TookOver(p, c, c', v, 2) && log' == log + [Entry(|log| + 1, 2, NOOP)]
    ensures Follows(p, c, c') && Only(c, c', v) && Opens(p, c', v, log')
  {
    hide AppendsSent;
    NamedNode(p, c, v);
  }

  lemma OpensStill(p: Params, c: Cluster, c1: Cluster, v: NodeId, log: seq<Entry>)
    requires Opens(p, c, v, log) && c.net <= c1.net && v in c1.nodes && c1.nodes[v] == c.nodes[v]
    ensures Opens(p, c1, v, log)
  {
  }

  /** Any log is good enough for nodes whose log is empty. */
  lemma EmptyBackers(c: Cluster, s: Node, term: nat, xs: set<NodeId>)
    requires forall x | x in xs :: x in c.nodes && c.nodes[x].log == [] && c.nodes[x].term <= term
    ensures Backers(c, s, term, xs)
  {
  }

  /** Both are one vote short of office in term 2, and that vote is on its way. */
  ghost predicate Poised(p: Params, c: Cluster, b: NodeId, w: NodeId, d: NodeId, x: NodeId, vb: set<NodeId>, vd: set<NodeId>) {
    Named(p, c) && b in p.servers && d in p.servers && b != d && OneShort(p, c, b, w, vb) && OneShort(p, c, d, x, vd)
    && Unspent(c.nodes[b], [OLD]) && Unspent(c.nodes[d], [])
    && forall v | v in Others(p, b, d) :: c.nodes[v].log == [] && c.nodes[v].term <= 2
  }

  predicate Unspent(s: Node, log: seq<Entry>) {
    s.term == 2 && s.log == log && s.commit == 0 && s.applied == 0
  }

  lemma MixBoth(p: Params, c0: Cluster, b: NodeId, w: NodeId, d: NodeId, x: NodeId)
    returns (acts: seq<Action>, vb: set<NodeId>, vd: set<NodeId>)
    requires Alone(p, c0, b) && p.usePrevote && |p.servers| >= 4
    requires w in p.servers && d in p.servers && x in p.servers && b != w && b != d && b != x && w != d && w != x && d != x
    ensures Poised(p, Play(p, c0, acts), b, w, d, x, vb, vd)
  {
    hide OneShort, Play, Backers, VotedIn;
    EmptyBackers(c0, c0.nodes[b], 2, p.servers - {b, d});
    var first: seq<Action>;
    first, vb := MixedCandidate(p, c0, b, w, d);
    var c1 := Play(p, c0, first);
    Voted(c0.nodes[w], c1.nodes[w], 2);
    EmptyBackers(c1, c1.nodes[d], 2, p.servers - {d, b});
    var more: seq<Action>;
    more, vd := MixedCandidate(p, c1, d, x, b);
    Voted(c1.nodes[x], Play(p, c1, more).nodes[x], 2);
    OneShortStill(p, c1, Play(p, c1, more), b, w, vb);
    acts := first + more;
    PlayMore(p, c0, first, more);
  }

  lemma WinBoth(p: Params, c0: Cluster, b: NodeId, w: NodeId, d: NodeId, x: NodeId, vb: set<NodeId>, vd: set<NodeId>)
    returns (acts: seq<Action>)
    requires Poised(p, c0, b, w, d, x, vb, vd) && |p.servers| >= 4
    ensures Uneven(p, Play(p, c0, acts), b, d)
  {
    hide OneShort, Play, Opens, TookOver;
    var first := Win(p, c0, b, w, vb);
    var c1 := Play(p, c0, first);
    OpensNow(p, c0, c1, b, [OLD], OLD_AND_ON);
    OneShortStill(p, c0, c1, d, x, vd);
    var more := Win(p, c1, d, x, vd);
    var c2 := Play(p, c1, more);
    OpensNow(p, c1, c2, d, [], [NEW]);
    OpensStill(p, c1, c2, b, OLD_AND_ON);
    acts := first + more;
    PlayMore(p, c0, first, more);
  }

  lemma Voted(s: Node, s': Node, term: nat)
    requires VotedIn(s, s', term)
    ensures s'.log == s.log && s'.term == term
  {
  }

  // -------------------------------------------------------- `d` commits its own entry

  /** `d` has committed its entry at index 1; `b` is as it was. */
  ghost predicate Ahead(p: Params, c: Cluster, b: NodeId, d: NodeId) {
    Named(p, c) && b in p.servers && d in p.servers && b != d && Opens(p, c, b, OLD_AND_ON)
    && c.nodes[d].term == 2 && c.nodes[d].log == [NEW] && c.nodes[d].commit == 1 && c.nodes[d].applied == 1
  }

  lemma NewSent(p: Params, c: Cluster, d: NodeId, ws: set<NodeId>)
    requires Named(p, c) && Opens(p, c, d, [NEW]) && ws <= Peers(p, d)
    requires forall v | v in ws :: c.nodes[v].log == [] && c.nodes[v].term <= 2
    ensures Sent(p, c, ws, Append(2, d, 0, 0, [NEW], 0), [])
  {
    NamedNode(p, c, d);
    assert [NEW][0..] == [NEW];
    forall q | q in ws
      ensures AppendFor(p, c.nodes[d], q) == Append(2, d, 0, 0, [NEW], 0)
    {
    }
    assert Accepts([], 0, 0);
  }

  lemma OthersAreEnough(p: Params, b: NodeId, d: NodeId)
    requires b in p.servers && d in p.servers && b != d && |p.servers| >= 4
    ensures var ws := Others(p, b, d); ws <= Peers(p, d) && !Enough(p, {}) && Enough(p, {} + ws)
  {
    var ws := Others(p, b, d);
    assert |ws| == |p.servers| - |{b, d}| && {} + ws == ws;
  }

  /** All but `b` have acknowledged the entry of `d`. */
  ghost predicate Heard(p: Params, c: Cluster, b: NodeId, d: NodeId) {
    Named(p, c) && b in p.servers && d in p.servers && b != d && Opens(p, c, b, OLD_AND_ON)
    && Awaiting(p, c.nodes[d], NEW, {}) && c.nodes[d].log == [NEW] && Acknowledged(c, d, NEW, Others(p, b, d))
  }

  lemma SpreadNew(p: Params, c: Cluster, b: NodeId, d: NodeId) returns (acts: seq<Action>)
    requires Uneven(p, c, b, d)
    ensures Heard(p, Play(p, c, acts), b, d)
  {
    hide Play, Merged, AppendsSent, Copied, Unheard;
    var ws, m := Others(p, b, d), Append(2, d, 0, 0, [NEW], 0);
    NewSent(p, c, d, ws);
    AwaitsNew(p, c, d);
    hide Awaiting, Sent;
    acts := SpreadTo(p, c, ws, m, []);
    OpensStill(p, c, Play(p, c, acts), b, OLD_AND_ON);
  }

  lemma AwaitsNew(p: Params, c: Cluster, d: NodeId)
    requires Opens(p, c, d, [NEW])
    ensures Awaiting(p, c.nodes[d], NEW, {}) && c.nodes[d].log == [NEW]
  {
    hide AppendsSent;
    NoopIsNoConfig();
  }

  lemma CommitNew(p: Params, c: Cluster, b: NodeId, d: NodeId) returns (acts: seq<Action>)
    requires Heard(p, c, b, d) && |p.servers| >= 4
    ensures Ahead(p, Play(p, c, acts), b, d)
  {
    hide Play, Awaiting, Acknowledged, HasApplied, Enough, Opens;
    OthersAreEnough(p, b, d);
    acts := HearAcks(p, c, d, NEW, {}, Others(p, b, d));
    OpensStill(p, c, Play(p, c, acts), b, OLD_AND_ON);
  }

  // ----------------------------------------------------------- `b` makes it delete that

  lemma FirstOfOld(p: Params, s: Node, d: NodeId)
    requires s.log == OLD_AND_ON && Unheard(p, s, 2, 2) && d in Peers(p, s.id) && s.commit == 0
    ensures AppendFor(p, s, d) == Append(2, s.id, 1, 1, [Entry(2, 2, NOOP)], 0)
  {
    assert s.log[1..] == [Entry(2, 2, NOOP)];
  }

  /** `d` refuses what follows an entry of term 1, and is a follower from there on. */
  lemma RefusesOld(s: Node, m: Msg)
    requires s.term == 2 && s.log == [NEW] && s.commit == 1 && s.applied == 1
    requires m.Append? && m == Append(2, m.leader, 1, 1, [Entry(2, 2, NOOP)], 0)
    ensures var o := OnAppend(Fx(s, {}, []), m);
            o.node.id == s.id && o.node.term == 2 && o.node.log == [NEW] && o.node.commit == 1 && o.node.applied == 1
            && Packet(m.leader, AppendResp(2, s.id, false, 0, 1)) in o.sent
  {
    hide Merged;
    assert RunStart(s.log, 2, 1) == 1;
  }

  /** `b` answers by sending its log from the start. */
  lemma SendsOld(p: Params, s: Node, d: NodeId)
    requires s.log == OLD_AND_ON && Unheard(p, s, 2, 2) && d in Peers(p, s.id) && s.commit == 0
    ensures var o, es := OnAppendResp(p, Fx(s, {}, []), AppendResp(2, d, false, 0, 1)), EntriesFrom(s.log, 1, p.maxBatch);
            o.node.id == s.id && Packet(d, Append(2, s.id, 0, 0, es, 0)) in o.sent && es != [] && es[0] == OLD
  {
    assert s.log[0..] == s.log;
  }

  lemma DeletesNew(s: Node, m: Msg)
    requires s.term == 2 && s.log == [NEW] && s.commit == 1
    requires m.Append? && m.term == 2 && m.prevIndex == 0 && m.prevTerm == 0 && m.entries != [] && m.entries[0] == OLD
    ensures OnAppend(Fx(s, {}, []), m).node.id == s.id && !KeepsCommitted(s, OnAppend(Fx(s, {}, []), m).node)
  {
    hide FollowCommit;
    var o1 := Follow(Fx(s, {}, []), m.term, m.leader);
    assert FirstGap(s.log, 0, m.entries, 0) == 0;
    assert m.entries[0..] == m.entries;
    var merged := Merged(s.log, 0, m.entries);
    assert merged == Renumbered(m.entries, 0);
    FollowCommitFrame(MergeAppend(o1, m).0, m.commit);
    assert merged[..1][0] != s.log[..1][0];
  }

  /** What is left is that `d` hears the second append. */
  ghost predicate Doomed(p: Params, c: Cluster, b: NodeId, d: NodeId, m: Msg) {
    Named(p, c) && d in c.nodes && Packet(d, m) in c.net
    && c.nodes[d].term == 2 && c.nodes[d].log == [NEW] && c.nodes[d].commit == 1
    && m.Append? && m.term == 2 && m.prevIndex == 0 && m.prevTerm == 0 && m.entries != [] && m.entries[0] == OLD
  }

  lemma Insist(p: Params, c: Cluster, b: NodeId, d: NodeId) returns (acts: seq<Action>, m: Msg)
    requires Ahead(p, c, b, d)
    ensures Doomed(p, Play(p, c, acts), b, d, m)
  {
    hide Play, AppendFor, OnAppend, OnAppendResp, EntriesFrom;
    NamedNode(p, c, b);
    NamedNode(p, c, d);
    FirstOfOld(p, c.nodes[b], d);
    var m1 := AppendFor(p, c.nodes[b], d);
    RefusesOld(c.nodes[d], m1);
    var a1 := Deliver(Packet(d, m1), false);
    var c1 := Act(p, c, a1, OnAppend(Fx(c.nodes[d], {}, []), m1));
    SendsOld(p, c1.nodes[b], d);
    var r := AppendResp(2, d, false, 0, 1);
    var a2 := Deliver(Packet(b, r), false);
    var c2 := Act(p, c1, a2, OnAppendResp(p, Fx(c1.nodes[b], {}, []), r));
    m := Append(2, b, 0, 0, EntriesFrom(c1.nodes[b].log, 1, p.maxBatch), 0);
    acts := [a1] + [a2];
    PlayMore(p, c, [a1], [a2]);
  }

  lemma Delete(p: Params, c: Cluster, b: NodeId, d: NodeId, m: Msg) returns (a: Action)
    requires Doomed(p, c, b, d, m)
    ensures var c' := Play(p, c, [a]);
            d in c.nodes && d in c'.nodes && !KeepsCommitted(c.nodes[d], c'.nodes[d])
  {
    hide Play, OnAppend, KeepsCommitted;
    NamedNode(p, c, d);
    DeletesNew(c.nodes[d], m);
    a := Deliver(Packet(d, m), false);
    var c' := Act(p, c, a, OnAppend(Fx(c.nodes[d], {}, []), m));
  }

  /** With pre-vote and at least four members, some run deletes a committed entry. */
  lemma PrevoteErases(p: Params) returns (run: seq<Action>)
    requires p.usePrevote && |p.servers| >= 4
    ensures !GroundKept(p, run)
  {
    hide Alone, Poised, Uneven, Heard, Ahead, Doomed, Play, GroundKept, Next;
    var b, w, d, x := FourMembers(p.servers);
    var c0 := Init(p);
    var acts1 := LeadFirst(p, b);
    var mixed, vb, vd := MixBoth(p, Play(p, c0, acts1), b, w, d, x);
    var won := WinBoth(p, Play(p, Play(p, c0, acts1), mixed), b, w, d, x, vb, vd);
    var acts2 := mixed + won;
    PlayMore(p, Play(p, c0, acts1), mixed, won);
    PlayMore(p, c0, acts1, acts2);
    var c2 := Play(p, c0, acts1 + acts2);
    var spread := SpreadNew(p, c2, b, d);
    var heard := CommitNew(p, Play(p, c2, spread), b, d);
    var acts3 := spread + heard;
    PlayMore(p, c2, spread, heard);
    PlayMore(p, c0, acts1 + acts2, acts3);
    var acts4, m := Insist(p, Play(p, c0, acts1 + acts2 + acts3), b, d);
    PlayMore(p, c0, acts1 + acts2 + acts3, acts4);
    var before := acts1 + acts2 + acts3 + acts4;
    var a := Delete(p, Play(p, c0, before), b, d, m);
    run := before + [a];
    PlayMore(p, c0, before, [a]);
    PlayIsReach(p, before);
    PlayIsReach(p, run);
    assert run[..|run| - 1] == before;
    LastStepLoses(p, run, d);
  }
}
