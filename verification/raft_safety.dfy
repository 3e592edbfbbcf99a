/**
 The safety properties of Raft (Ongaro and Ousterhout, extended version, Figure 3) over
 whole runs of the cluster: messages lost, duplicated, delayed and reordered, nodes
 restarting with what they had persisted. States are compared across time, so a node
 is also compared with itself before and after a restart.
 */
module RaftSafety {
  import opened RaftLogs
  import opened LogMerges
  import opened RaftSteps
  import opened Clusters
  import opened Histories
  import opened Completeness
  import opened HandlersKeep

  /** The cluster after the first `k` actions of a run. */
  function State(p: Params, run: seq<Action>, k: nat): Cluster
    requires k <= |run|
  {
    Reach(p, run[..k])
  }

  // ------------------------------------------------------------- what is promised

  /** At most one node ever leads a term. */
  ghost predicate ElectionSafe(p: Params, run: seq<Action>) {
    forall j: nat, k: nat, a, b |
      j <= |run| && k <= |run| && a in State(p, run, j).nodes && b in State(p, run, k).nodes ::
      var s, s' := State(p, run, j).nodes[a], State(p, run, k).nodes[b];
      s.role == Leader && s'.role == Leader && s.term == s'.term ==> a == b
  }

  /** Two logs with the same term at an index are the same up to it, payloads included. */
  ghost predicate LogsMatch(p: Params, run: seq<Action>) {
    forall j: nat, k: nat, a, b |
      j <= |run| && k <= |run| && a in State(p, run, j).nodes && b in State(p, run, k).nodes ::
      SameLogsWhereTermsMeet(State(p, run, j).nodes[a].log, State(p, run, k).nodes[b].log)
  }

  /** What a node has committed in a term is in the log of every leader of a later term. */
  ghost predicate LeadersComplete(p: Params, run: seq<Action>) {
    forall j: nat, k: nat, a, b |
      j <= |run| && k <= |run| && a in State(p, run, j).nodes && b in State(p, run, k).nodes ::
      var s, s' := State(p, run, j).nodes[a], State(p, run, k).nodes[b];
      s'.role == Leader && s.term < s'.term ==> s.commit <= |s.log| && s.log[..s.commit] <= s'.log
  }

  /** No two applications of an index, on any nodes or on one node before and after a restart,
      differ in payload or in the state machine's answer. */
  predicate AppliesAgree(trace: seq<Applied>) {
    forall x, y | x in trace && y in trace && x.index == y.index :: x.payload == y.payload && x.answer == y.answer
  }

  /** Nodes that have applied equally much hold equal key/value state. */
  ghost predicate ReplicasAgree(p: Params, run: seq<Action>) {
    forall j: nat, k: nat, a, b |
      j <= |run| && k <= |run| && a in State(p, run, j).nodes && b in State(p, run, k).nodes ::
      var s, s' := State(p, run, j).nodes[a], State(p, run, k).nodes[b];
      s.applied <= s.commit <= |s.log| && s.kv == Replay(s.log[..s.applied])
      && (s.applied == s'.applied ==> s.kv == s'.kv)
  }

  /** Whatever a node has committed, a majority of the members has in its log. */
  ghost predicate CommitsAreHeld(p: Params, run: seq<Action>) {
    forall k: nat, a | k <= |run| && a in State(p, run, k).nodes ::
      var c := State(p, run, k);
      c.nodes[a].commit <= |c.nodes[a].log|
      && Majority(p, Holding(c, c.nodes[a].log[..c.nodes[a].commit]))
  }

  function Holding(c: Cluster, prefix: seq<Entry>): set<NodeId> {
    set v | v in c.nodes && prefix <= c.nodes[v].log
  }

  /** A leader's `match_index` is true: the peer still agrees that far unless its term has moved on. */
  ghost predicate MatchesAreTrue(p: Params, run: seq<Action>) {
    forall k: nat, a, q | k <= |run| && a in State(p, run, k).nodes && q in State(p, run, k).nodes ::
      MatchIsTrue(State(p, run, k).nodes[a], State(p, run, k).nodes[q])
  }

  predicate MatchIsTrue(s: Node, peer: Node) {
    s.role == Leader && peer.id in s.matchIndex && s.matchIndex[peer.id] > 0 ==>
      var n := s.matchIndex[peer.id];
      n <= |s.log| && peer.term >= s.term
      && (peer.term == s.term ==> s.log[..n] <= peer.log)
  }

  ghost predicate Safe(p: Params, run: seq<Action>) {
    ElectionSafe(p, run) && LogsMatch(p, run) && LeadersComplete(p, run) && AppliesAgree(Reach(p, run).trace)
    && ReplicasAgree(p, run) && CommitsAreHeld(p, run) && MatchesAreTrue(p, run)
  }

  // -------------------------------------------------------------------- histories

  /** A history for every moment of the run, each an extension of the ones before. */
  ghost predicate Chronicle(p: Params, run: seq<Action>, hs: seq<History>) {
    |hs| == |run| + 1
    && (forall k | 0 <= k <= |run| :: Inv(p, State(p, run, k), hs[k]))
    && (forall k | 0 <= k < |hs| :: Grows(hs[k], hs[|run|]))
    && (MatchedRun(p, run) ==> hs[|run|].matched)
  }

  lemma {:induction false} ApartRunHasChronicle(p: Params, run: seq<Action>) returns (hs: seq<History>)
    requires ApartRun(p, run)
    ensures Chronicle(p, run, hs)
  {
    hide Chronicle, VotesApart, CommitsMatched, ApartRun, MatchedRun, Next, Grows;
    if run == [] {
      InitOk(p);
      hs := [NO_HISTORY];
      FirstChronicle(p, run);
    } else {
      var n := |run| - 1;
      ApartBefore(p, run);
      MatchedBefore(p, run);
      var hs0 := ApartRunHasChronicle(p, run[..n]);
      LastOfChronicle(p, run[..n], hs0);
      var h := NextKeeps(p, Reach(p, run[..n]), run[n], hs0[n]);
      hs := hs0 + [h];
      NextChronicle(p, run, hs0, h);
    }
  }

  lemma FirstChronicle(p: Params, run: seq<Action>)
    requires run == [] && Inv(p, Init(p), NO_HISTORY)
    ensures Chronicle(p, run, [NO_HISTORY])
  {
    hide Inv, Grows;
    GrowsSame(NO_HISTORY);
  }

  lemma LastOfChronicle(p: Params, run: seq<Action>, hs: seq<History>)
    requires Chronicle(p, run, hs)
    ensures |hs| == |run| + 1 && Inv(p, Reach(p, run), hs[|run|]) && (MatchedRun(p, run) ==> hs[|run|].matched)
  {
    hide Inv, Grows, MatchedRun;
    assert run[..|run|] == run && Inv(p, State(p, run, |run|), hs[|run|]);
  }

  lemma NextChronicle(p: Params, run: seq<Action>, hs0: seq<History>, h: History)
    requires run != [] && Chronicle(p, run[..|run| - 1], hs0)
    requires Inv(p, Reach(p, run), h) && Grows(hs0[|run| - 1], h)
    requires MatchedRun(p, run) ==> h.matched
    ensures Chronicle(p, run, hs0 + [h])
  {
    hide Inv, Grows, MatchedRun;
    var before, hs := run[..|run| - 1], hs0 + [h];
    GrowsSame(h);
    assert run[..|run|] == run;
    forall k | 0 <= k <= |run|
      ensures Inv(p, State(p, run, k), hs[k]) && Grows(hs[k], hs[|run|])
    {
      if k < |run| {
        assert before[..k] == run[..k] && State(p, before, k) == State(p, run, k);
        GrowsFurther(hs0[k], hs0[|run| - 1], h);
      }
    }
  }

  /** A run keeps a guard when it does without its last action and that action does. */
  lemma ApartBefore(p: Params, run: seq<Action>)
    requires run != []
    ensures var n := |run| - 1;
            ApartRun(p, run) <==> ApartRun(p, run[..n]) && VotesApart(p, Reach(p, run[..n]), run[n])
  {
    hide VotesApart, Reach;
    var before := run[..|run| - 1];
    forall k | 0 <= k < |before|
      ensures before[..k] == run[..k] && before[k] == run[k]
    {
    }
  }

  lemma MatchedBefore(p: Params, run: seq<Action>)
    requires run != []
    ensures var n := |run| - 1;
            MatchedRun(p, run) <==> MatchedRun(p, run[..n]) && CommitsMatched(p, Reach(p, run[..n]), run[n])
  {
    hide CommitsMatched, Reach;
    var before := run[..|run| - 1];
    forall k | 0 <= k < |before|
      ensures before[..k] == run[..k] && before[k] == run[k]
    {
    }
  }

  lemma GuardedRunHasChronicle(p: Params, run: seq<Action>) returns (hs: seq<History>)
    requires GuardedRun(p, run)
    ensures Chronicle(p, run, hs) && forall k | 0 <= k < |hs| :: hs[k].matched
  {
    hide ApartRun, MatchedRun, Inv;
    hs := ApartRunHasChronicle(p, run);
  }

  /** One node at one moment, against the history of the whole run. */
  lemma NodeInRun(p: Params, run: seq<Action>, hs: seq<History>, k: nat, v: NodeId)
    requires Chronicle(p, run, hs) && k <= |run| && v in State(p, run, k).nodes
    ensures NodeOk(p, hs[k], v, State(p, run, k).nodes[v]) && Grows(hs[k], hs[|run|])
    ensures HistoryOk(p, hs[|run|])
  {
    hide HistoryOk, NodeOk, Grows, NetOk, TraceOk;
    assert Inv(p, State(p, run, k), hs[k]) && Inv(p, State(p, run, |run|), hs[|run|]);
  }

  // --------------------------------------------------------------------- theorems

  lemma LeaderIsRecorded(p: Params, h: History, H: History, v: NodeId, s: Node)
    requires NodeOk(p, h, v, s) && Grows(h, H) && s.role == Leader
    ensures s.term in H.reigns && H.reigns[s.term].id == v && H.reigns[s.term].start <= s.log <= H.reigns[s.term].log
    requires ReignsOk(p, h)
  {
    ReignStarts(p, h, s.term);
  }

  lemma ElectionSafety(p: Params, run: seq<Action>)
    requires ApartRun(p, run)
    ensures ElectionSafe(p, run)
  {
    hide ApartRun, MatchedRun, HistoryOk, Grows, Inv, LogOk, VoterOk, CandidateOk, KeepsAcks, CommitOk;
    var hs := ApartRunHasChronicle(p, run);
    forall j: nat, k: nat, a, b |
      j <= |run| && k <= |run| && a in State(p, run, j).nodes && b in State(p, run, k).nodes
      ensures var s, s' := State(p, run, j).nodes[a], State(p, run, k).nodes[b];
              s.role == Leader && s'.role == Leader && s.term == s'.term ==> a == b
    {
      NodeInRun(p, run, hs, j, a);
      NodeInRun(p, run, hs, k, b);
      LeaderStays(p, hs[j], hs[|run|], a, State(p, run, j).nodes[a]);
      LeaderStays(p, hs[k], hs[|run|], b, State(p, run, k).nodes[b]);
    }
  }

  lemma LeaderStays(p: Params, h: History, H: History, v: NodeId, s: Node)
    requires LeaderOk(p, h, v, s) && Grows(h, H)
    ensures s.role == Leader ==> s.term in H.reigns && H.reigns[s.term].id == v && s.log <= H.reigns[s.term].log
  {
  }

  lemma LogMatching(p: Params, run: seq<Action>)
    requires ApartRun(p, run)
    ensures LogsMatch(p, run)
  {
    hide ApartRun, MatchedRun, HistoryOk, Grows, Inv, VoterOk, CandidateOk, LeaderOk, KeepsAcks, CommitOk, Traced;
    var hs := ApartRunHasChronicle(p, run);
    forall j: nat, k: nat, a, b |
      j <= |run| && k <= |run| && a in State(p, run, j).nodes && b in State(p, run, k).nodes
      ensures SameLogsWhereTermsMeet(State(p, run, j).nodes[a].log, State(p, run, k).nodes[b].log)
    {
      var x, y := State(p, run, j).nodes[a].log, State(p, run, k).nodes[b].log;
      NodeInRun(p, run, hs, j, a);
      NodeInRun(p, run, hs, k, b);
      TracedGrows(hs[j], hs[|run|], x);
      TracedGrows(hs[k], hs[|run|], y);
      TracedMeet(hs[|run|], x, y);
    }
  }

  /** What a node has committed, as the history of the whole run sees it. */
  lemma CommittedInRun(p: Params, run: seq<Action>, hs: seq<History>, k: nat, v: NodeId)
    requires Chronicle(p, run, hs) && hs[|run|].matched && k <= |run| && v in State(p, run, k).nodes
    ensures var s := State(p, run, k).nodes[v];
            s.applied <= s.commit <= |s.log| && Backed(p, hs[|run|], s.term, s.log[..s.commit])
            && s.kv == Replay(s.log[..s.applied])
    ensures HistoryOk(p, hs[|run|])
  {
    hide HistoryOk, LogOk, VoterOk, CandidateOk, LeaderOk, KeepsAcks, Grows, Backed;
    NodeInRun(p, run, hs, k, v);
    var s := State(p, run, k).nodes[v];
    assert hs[k].matched by {
      assert Grows(hs[k], hs[|run|]);
      GrowsMatched(hs[k], hs[|run|]);
    }
    BackedGrows(p, hs[k], hs[|run|], s.term, s.term, s.log[..s.commit]);
  }

  lemma GrowsMatched(h: History, h': History)
    requires Grows(h, h') && h'.matched
    ensures h.matched
  {
  }

  /** A backed prefix is where a leader of a later term starts. */
  lemma BackedStartsLeader(p: Params, h: History, term: nat, prefix: seq<Entry>, t': nat)
    requires HistoryOk(p, h) && Backed(p, h, term, prefix) && term < t' && t' in h.reigns
    ensures prefix <= h.reigns[t'].start
  {
    hide HistoryOk;
    if prefix != [] {
      var t: nat, i: nat :| Chosen(p, h, t, i) && t <= term && prefix <= h.reigns[t].log[..i];
      ChosenIsKept(p, h, t, i, t');
    }
  }

  lemma LeaderInRun(p: Params, run: seq<Action>, hs: seq<History>, k: nat, v: NodeId)
    requires Chronicle(p, run, hs) && k <= |run| && v in State(p, run, k).nodes
    requires State(p, run, k).nodes[v].role == Leader
    ensures var s := State(p, run, k).nodes[v];
            s.term in hs[|run|].reigns && hs[|run|].reigns[s.term].start <= s.log
  {
    hide NodeOk, BallotsOk, BidsOk, ReignsOk, AcksOk, VotesRemember, Grows, NetOk, TraceOk;
    assert Inv(p, State(p, run, k), hs[k]);
    LeaderIsRecorded(p, hs[k], hs[|run|], v, State(p, run, k).nodes[v]);
  }

  lemma LeaderCompleteness(p: Params, run: seq<Action>)
    requires GuardedRun(p, run)
    ensures LeadersComplete(p, run)
  {
    hide GuardedRun, HistoryOk, Chronicle, Backed;
    var hs := GuardedRunHasChronicle(p, run);
    forall j: nat, k: nat, a, b |
      j <= |run| && k <= |run| && a in State(p, run, j).nodes && b in State(p, run, k).nodes
      ensures var s, s' := State(p, run, j).nodes[a], State(p, run, k).nodes[b];
              s'.role == Leader && s.term < s'.term ==> s.commit <= |s.log| && s.log[..s.commit] <= s'.log
    {
      var s, s' := State(p, run, j).nodes[a], State(p, run, k).nodes[b];
      if s'.role == Leader && s.term < s'.term {
        ChronicleLength(p, run, hs);
        CommittedInRun(p, run, hs, j, a);
        LeaderInRun(p, run, hs, k, b);
        BackedStartsLeader(p, hs[|run|], s.term, s.log[..s.commit], s'.term);
      }
    }
  }

  lemma ChronicleLength(p: Params, run: seq<Action>, hs: seq<History>)
    requires Chronicle(p, run, hs)
    ensures |hs| == |run| + 1
  {
  }

  lemma {:induction false} ReplayOfPrefix(a: seq<Entry>, b: seq<Entry>, k: nat)
    requires k <= |a| && k <= |b| && (a <= b || b <= a)
    ensures a[..k] == b[..k]
  {
  }

  lemma ReplicaAgreement(p: Params, run: seq<Action>)
    requires GuardedRun(p, run)
    ensures ReplicasAgree(p, run)
  {
    hide GuardedRun, HistoryOk, Chronicle, Backed;
    var hs := GuardedRunHasChronicle(p, run);
    ChronicleLength(p, run, hs);
    forall j: nat, k: nat, a, b |
      j <= |run| && k <= |run| && a in State(p, run, j).nodes && b in State(p, run, k).nodes
      ensures var s, s' := State(p, run, j).nodes[a], State(p, run, k).nodes[b];
              s.applied <= s.commit <= |s.log| && s.kv == Replay(s.log[..s.applied])
              && (s.applied == s'.applied ==> s.kv == s'.kv)
    {
      var s, s' := State(p, run, j).nodes[a], State(p, run, k).nodes[b];
      CommittedInRun(p, run, hs, j, a);
      CommittedInRun(p, run, hs, k, b);
      BackedAgree(p, hs[|run|], s.term, s.log[..s.commit], s'.term, s'.log[..s'.commit]);
      if s.applied == s'.applied {
        ReplayOfPrefix(s.log[..s.commit], s'.log[..s'.commit], s.applied);
        assert s.log[..s.applied] == s.log[..s.commit][..s.applied];
        assert s'.log[..s.applied] == s'.log[..s'.commit][..s.applied];
      }
    }
  }

  /** Two explained applications of one index agree. */
  lemma ExplainedAgree(p: Params, h: History, x: Applied, y: Applied)
    requires HistoryOk(p, h) && AppliedOk(p, h, x) && AppliedOk(p, h, y) && x.index == y.index
    ensures x.payload == y.payload && x.answer == y.answer
  {
    hide HistoryOk;
    var t: nat, i: nat :| Chosen(p, h, t, i) && Explains(h.reigns[t].log[..i], x);
    var u: nat, j: nat :| Chosen(p, h, u, j) && Explains(h.reigns[u].log[..j], y);
    var a, b := h.reigns[t].log[..i], h.reigns[u].log[..j];
    assert Backed(p, h, t, a) && Backed(p, h, u, b);
    BackedAgree(p, h, t, a, u, b);
    ReplayOfPrefix(a, b, x.index);
    assert a[..x.index - 1] == a[..x.index][..x.index - 1] && b[..x.index - 1] == b[..x.index][..x.index - 1];
    assert a[x.index - 1] == a[..x.index][x.index - 1] && b[x.index - 1] == b[..x.index][x.index - 1];
  }

  lemma StateMachineSafety(p: Params, run: seq<Action>)
    requires GuardedRun(p, run)
    ensures AppliesAgree(Reach(p, run).trace)
  {
    hide GuardedRun, HistoryOk, NodesOk, NetOk, AppliedOk, Grows;
    var hs := GuardedRunHasChronicle(p, run);
    assert run[..|run|] == run;
    assert Inv(p, State(p, run, |run|), hs[|run|]);
    forall x, y | x in Reach(p, run).trace && y in Reach(p, run).trace && x.index == y.index
      ensures x.payload == y.payload && x.answer == y.answer
    {
      ExplainedAgree(p, hs[|run|], x, y);
    }
  }

  // ------------------------------------------------------------------- durability

  lemma BackedIsHeld(p: Params, c: Cluster, h: History, term: nat, prefix: seq<Entry>)
    requires HistoryOk(p, h) && NodesOk(p, h, c.nodes) && Backed(p, h, term, prefix) && p.servers != {}
    ensures Majority(p, Holding(c, prefix))
  {
    hide HistoryOk, LogOk, VoterOk, CandidateOk, LeaderOk, CommitOk;
    if prefix == [] {
      assert Holding(c, prefix) == p.servers;
    } else {
      var t: nat, i: nat :| Chosen(p, h, t, i) && t <= term && prefix <= h.reigns[t].log[..i];
      forall v | v in Ackers(p, h, t, i)
        ensures v in Holding(c, prefix)
      {
        AckerHolds(p, h, v, c.nodes[v], t, i);
      }
      SubsetSize(Ackers(p, h, t, i), Holding(c, prefix));
    }
  }

  lemma CommitDurability(p: Params, run: seq<Action>)
    requires GuardedRun(p, run)
    ensures CommitsAreHeld(p, run)
  {
    hide GuardedRun, HistoryOk, LogOk, VoterOk, CandidateOk, LeaderOk, KeepsAcks, Backed, NetOk, TraceOk, Grows,
      Majority, Holding;
    var hs := GuardedRunHasChronicle(p, run);
    forall k: nat, a | k <= |run| && a in State(p, run, k).nodes
      ensures var c := State(p, run, k);
              c.nodes[a].commit <= |c.nodes[a].log|
              && Majority(p, Holding(c, c.nodes[a].log[..c.nodes[a].commit]))
    {
      var c := State(p, run, k);
      assert Inv(p, c, hs[k]);
      assert NodeOk(p, hs[k], a, c.nodes[a]);
      BackedIsHeld(p, c, hs[k], c.nodes[a].term, c.nodes[a].log[..c.nodes[a].commit]);
    }
  }

  lemma MatchHolds(p: Params, h: History, a: NodeId, s: Node, q: NodeId, peer: Node)
    requires NodeOk(p, h, a, s) && NodeOk(p, h, q, peer)
    ensures MatchIsTrue(s, peer)
  {
    hide VoterOk, CandidateOk, CommitOk, Traced;
    if s.role == Leader && q in s.matchIndex && s.matchIndex[q] > 0 {
      assert PeerOk(h, s, q);
      if peer.term == s.term {
        assert HeldBetween(h, s.term, s.matchIndex[q], peer.term + 1);
      }
    }
  }

  lemma TruthfulReplication(p: Params, run: seq<Action>)
    requires ApartRun(p, run)
    ensures MatchesAreTrue(p, run)
  {
    hide ApartRun, MatchedRun, HistoryOk, NodeOk, NetOk, TraceOk, Grows, MatchIsTrue;
    var hs := ApartRunHasChronicle(p, run);
    forall k: nat, a, q | k <= |run| && a in State(p, run, k).nodes && q in State(p, run, k).nodes
      ensures MatchIsTrue(State(p, run, k).nodes[a], State(p, run, k).nodes[q])
    {
      assert Inv(p, State(p, run, k), hs[k]);
      MatchHolds(p, hs[k], a, State(p, run, k).nodes[a], q, State(p, run, k).nodes[q]);
    }
  }

  /** Every guarded run is safe. */
  lemma GuardedRunsAreSafe(p: Params, run: seq<Action>)
    requires GuardedRun(p, run)
    ensures Safe(p, run)
  {
    hide ApartRun, MatchedRun, ElectionSafe, LogsMatch, LeadersComplete, AppliesAgree, ReplicasAgree,
      CommitsAreHeld, MatchesAreTrue;
    ElectionSafety(p, run);
    LogMatching(p, run);
    LeaderCompleteness(p, run);
    StateMachineSafety(p, run);
    ReplicaAgreement(p, run);
    CommitDurability(p, run);
    TruthfulReplication(p, run);
  }

  // ------------------------------------------------------- which runs are guarded

  /** No pre-vote, or at most three members. */
  predicate Separate(p: Params) {
    !p.usePrevote || |p.servers| <= 3
  }

  /** Also unlimited batches, or at most two members. */
  predicate Plain(p: Params) {
    Separate(p) && (p.maxBatch == 0 || |p.servers| <= 2)
  }

  /** In at most three members one pre-vote grant is already a majority with one's own. */
  lemma NeverKeepsPrevote(p: Params, h: History, v: NodeId, s: Node, m: Msg)
    requires Separate(p) && CandidateOk(p, h, v, s) && PacketOk(p, h, Packet(v, m))
    ensures !KeepsPrevote(p, s, m)
  {
    if m.PrevoteResp? && s.preCandidate {
      assert {v, m.from} <= s.votes + {m.from};
      assert |{v, m.from}| == 2;
      SubsetSize({v, m.from}, s.votes + {m.from});
    }
  }

  /** With unlimited batches an append reaches as far as it commits. */
  lemma NeverOvertakes(p: Params, h: History, s: Node, k: Packet)
    requires Plain(p) && PacketOk(p, h, k) && h.matched
    ensures MayCommit(p, s, k.msg)
  {
    if k.msg.Append? {
      assert AppendOk(p, h, k.msg);
    }
  }

  lemma NodeAndPacket(p: Params, c: Cluster, h: History, a: Action)
    requires Inv(p, c, h) && Enabled(c, a) && a.Deliver?
    ensures var v := a.packet.dest;
            CandidateOk(p, h, v, c.nodes[v]) && PacketOk(p, h, a.packet) && a.packet == Packet(v, a.packet.msg)
  {
    hide HistoryOk, LogOk, VoterOk, CandidateOk, LeaderOk, KeepsAcks, CommitOk, PacketOk, TraceOk;
    assert NodeOk(p, h, a.packet.dest, c.nodes[a.packet.dest]);
  }

  lemma {:induction false} SeparateRunsAreApart(p: Params, run: seq<Action>)
    requires Separate(p)
    ensures ApartRun(p, run)
  {
    hide Inv, Chronicle, CandidateOk, PacketOk, KeepsPrevote;
    if run != [] {
      var n := |run| - 1;
      SeparateRunsAreApart(p, run[..n]);
      var hs := ApartRunHasChronicle(p, run[..n]);
      LastOfChronicle(p, run[..n], hs);
      var c, a := Reach(p, run[..n]), run[n];
      if Enabled(c, a) && a.Deliver? {
        NodeAndPacket(p, c, hs[n], a);
        NeverKeepsPrevote(p, hs[n], a.packet.dest, c.nodes[a.packet.dest], a.packet.msg);
      }
      ApartBefore(p, run);
    }
  }

  lemma {:induction false} PlainRunsAreMatched(p: Params, run: seq<Action>)
    requires Plain(p)
    ensures MatchedRun(p, run)
  {
    hide Inv, Chronicle, CandidateOk, PacketOk, MayCommit, ApartRun, VotesApart;
    if run != [] {
      var n := |run| - 1;
      PlainRunsAreMatched(p, run[..n]);
      SeparateRunsAreApart(p, run[..n]);
      var hs := ApartRunHasChronicle(p, run[..n]);
      LastOfChronicle(p, run[..n], hs);
      var c, a := Reach(p, run[..n]), run[n];
      if Enabled(c, a) && a.Deliver? {
        NodeAndPacket(p, c, hs[n], a);
        NeverOvertakes(p, hs[n], c.nodes[a.packet.dest], a.packet);
      }
      MatchedBefore(p, run);
    }
  }

  /** The Raft safety theorem: every run of a plain cluster is safe. */
  lemma PlainRunsAreSafe(p: Params, run: seq<Action>)
    requires Plain(p)
    ensures Safe(p, run)
  {
    hide Safe, ApartRun, MatchedRun;
    SeparateRunsAreApart(p, run);
    PlainRunsAreMatched(p, run);
    GuardedRunsAreSafe(p, run);
  }
}
