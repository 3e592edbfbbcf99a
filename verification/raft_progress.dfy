/**
 What one step may do to a node. In every run its term never falls and it never votes twice in
 a term, even across a restart; in every guarded run nothing at or below its commit index is ever
 deleted from its log, and between restarts its commit and applied indexes never fall.
 */
module RaftProgress {
  import opened Basics
  import opened RaftLogs
  import opened RaftSteps
  import opened Clusters
  import opened Histories
  import opened Completeness
  import opened StepsKeep
  import opened LeaderKeeps
  import opened FollowerKeeps
  import opened HandlersKeep
  import opened RaftSafety
  import opened Bookkeeping

  /** The persisted election state only moves on, and a vote once cast stands. */
  predicate KeepsVote(s: Node, s': Node) {
    s.term <= s'.term && (s'.term == s.term && s.votedFor.Some? ==> s'.votedFor == s.votedFor)
  }

  predicate KeepsGround(s: Node, s': Node) {
    s.commit <= s'.commit && s.applied <= s'.applied && KeepsCommitted(s, s')
  }

  /** The log is only extended and the indexes only rise. */
  predicate Extends(s: Node, s': Node) {
    s.log <= s'.log && s.commit <= s'.commit && s.applied <= s'.applied && KeepsVote(s, s')
  }

  lemma {:induction false} ApplyCommittedExtends(o: Fx)
    ensures Extends(o.node, ApplyCommitted(o).node)
    decreases o.node.commit - o.node.applied
  {
    if o.node.applied < o.node.commit && o.node.applied < |o.node.log| {
      ApplyCommittedExtends(ApplyOne(o));
    }
  }

  lemma AdvanceCommitExtends(p: Params, o: Fx)
    ensures Extends(o.node, AdvanceCommit(p, o).node)
  {
    hide ApplyCommitted;
    var c := CommitPoint(p, o.node, LastIndex(o.node.log));
    if c > o.node.commit {
      ApplyCommittedExtends(o.(node := o.node.(commit := c)));
    }
  }

  lemma ProposeExtends(p: Params, o: Fx, payload: Bytes)
    ensures Extends(o.node, Propose(p, o, payload).node)
  {
    hide AdvanceCommit;
    if o.node.role == Leader && o.node.transfer.None? {
      AdvanceCommitExtends(p, AppendEntry(o, payload));
    }
  }

  lemma StartElectionExtends(p: Params, o: Fx)
    ensures Extends(o.node, StartElection(p, o).node)
  {
    hide Propose, Broadcast;
    var o2 := Broadcast(p, StandForElection(o), VoteRequest(StandForElection(o).node));
    assert o2.node == StandForElection(o).node by {
      BroadcastFrame(p, StandForElection(o), VoteRequest(StandForElection(o).node));
    }
    if Majority(p, o2.node.votes) {
      ProposeExtends(p, TakeOffice(p, o2), NOOP);
    }
  }

  lemma BroadcastFrame(p: Params, o: Fx, m: Msg)
    ensures Broadcast(p, o, m).node == o.node
  {
  }

  lemma BecomeLeaderExtends(p: Params, o: Fx)
    ensures Extends(o.node, BecomeLeader(p, o).node)
  {
    hide Propose;
    ProposeExtends(p, TakeOffice(p, o), NOOP);
  }

  /** Every message but an append only extends the log. */
  lemma HandleExtends(p: Params, o: Fx, m: Msg, alive: bool)
    requires !m.Append?
    ensures Extends(o.node, Handle(p, o, m, alive).node)
  {
    hide StartElection, BecomeLeader, AdvanceCommit, UpToDate, AppendFor;
    match m
    case Prevote(_, _, _, _) =>
    case PrevoteResp(_, _, _) =>
      var votes := if m.granted then o.node.votes + {m.from} else o.node.votes;
      StartElectionExtends(p, o.(node := o.node.(votes := votes, preCandidate := false)));
    case Vote(_, _, _, _) =>
    case VoteResp(_, _, _) =>
      BecomeLeaderExtends(p, o.(node := o.node.(votes := o.node.votes + {m.from})));
    case Append(_, _, _, _, _, _) =>
    case AppendResp(_, _, _, _, _) =>
      if o.node.role == Leader && m.from in o.node.matchIndex {
        var reached := Max(o.node.matchIndex[m.from], m.matchIndex);
        AdvanceCommitExtends(p, o.(node := o.node.(matchIndex := o.node.matchIndex[m.from := reached],
                                                   nextIndex := o.node.nextIndex[m.from := reached + 1])));
      }
    case TimeoutNow(_) =>
      StartElectionExtends(p, o);
  }

  lemma OnAppendVote(o: Fx, m: Msg)
    requires m.Append?
    ensures KeepsVote(o.node, OnAppend(o, m).node)
  {
    hide Merged, FollowCommit, ConflictHint;
    if m.term >= o.node.term {
      FollowCommitFrame(MergeAppend(Follow(o, m.term, m.leader), m).0, m.commit);
    }
  }

  lemma FollowCommitGround(s: Node, o: Fx, commit: nat)
    requires KeepsCommitted(s, o.node) && o.node.commit == s.commit && o.node.applied == s.applied
    requires Contiguous(o.node.log)
    ensures KeepsGround(s, FollowCommit(o, commit).node)
  {
    hide ApplyCommitted;
    if commit > o.node.commit {
      var o' := o.(node := o.node.(commit := Min(commit, LastIndex(o.node.log))));
      ApplyCommittedExtends(o');
      ApplyCommittedFrame(o');
    }
  }

  /** Accepting an append never deletes an entry at or below the follower's commit index. */
  lemma OnAppendGround(p: Params, c: Cluster, v: NodeId, m: Msg, h: History)
    requires Inv(p, c, h) && h.matched && v in c.nodes && m.Append? && PacketOk(p, h, Packet(v, m))
    ensures KeepsGround(c.nodes[v], OnAppend(Fx(c.nodes[v], {}, []), m).node)
  {
    hide Inv, Mid, Merged, AppendOk, FollowCommit, ConflictHint, Accepts, MergeFits;
    var o := Fx(c.nodes[v], {}, []);
    MidStart(p, c, v, h);
    CommitInLog(p, c, v, o, h);
    if m.term >= o.node.term {
      var o1 := Follow(o, m.term, m.leader);
      FollowKeeps(p, c, v, o, m.term, m.leader, h);
      var (o2, r) := MergeAppend(o1, m);
      if r.ok {
        AcceptedMerge(o1, m);
        var h' := MergeKeeps(p, c, v, o1, m, h);
        CommitInLog(p, c, v, o2, h');
        FollowCommitGround(o.node, o2, m.commit);
      }
    }
  }

  lemma AcceptedMerge(o: Fx, m: Msg)
    requires m.Append?
    ensures MergeAppend(o, m).1.ok <==> Accepts(o.node.log, m.prevIndex, m.prevTerm)
  {
  }

  lemma CommitInLog(p: Params, c: Cluster, v: NodeId, o: Fx, h: History)
    requires Mid(p, c, v, o, h) && h.matched
    ensures o.node.commit <= |o.node.log| && Contiguous(o.node.log)
  {
    hide Mid, HistoryOk, VoterOk, CandidateOk, LeaderOk, KeepsAcks;
    MidNode(p, c, v, o, h);
  }

  lemma ReactVote(p: Params, s: Node, a: Action)
    ensures KeepsVote(s, React(p, s, a).node)
  {
    hide Handle, StartElection, Propose, StartPrevote;
    var o := Fx(s, {}, []);
    match a
    case Deliver(packet, alive) =>
      if packet.msg.Append? {
        OnAppendVote(o, packet.msg);
        assert Handle(p, o, packet.msg, alive) == OnAppend(o, packet.msg) by {
          HandleAppend(p, o, packet.msg, alive);
        }
      } else {
        HandleExtends(p, o, packet.msg, alive);
      }
    case ElectionTimeout(_) =>
      StartPrevoteFrame(p, o);
      StartElectionExtends(p, o.(node := o.node.(preCandidate := false)));
    case LeaderTimer(_, expired, beat, lost) =>
    case Request(_, payload) =>
      ProposeExtends(p, o, payload);
    case Transfer(_, target) =>
    case Restart(_) =>
    case CrashInMerge(_, _) =>
  }

  lemma HandleAppend(p: Params, o: Fx, m: Msg, alive: bool)
    requires m.Append?
    ensures Handle(p, o, m, alive) == OnAppend(o, m)
  {
    hide OnAppend;
  }

  lemma StartPrevoteFrame(p: Params, o: Fx)
    ensures Extends(o.node, StartPrevote(p, o).node)
  {
  }

  lemma ReactGround(p: Params, c: Cluster, a: Action, h: History)
    requires Inv(p, c, h) && h.matched && Enabled(c, a) && !Restarts(a)
    ensures KeepsGround(c.nodes[Actor(a)], React(p, c.nodes[Actor(a)], a).node)
  {
    hide Handle, StartElection, Propose, StartPrevote, HistoryOk, NodeOk, PacketOk, TraceOk, Mid;
    var v := Actor(a);
    var s := c.nodes[v];
    var o := Fx(s, {}, []);
    MidStart(p, c, v, h);
    CommitInLog(p, c, v, o, h);
    match a
    case Deliver(packet, alive) =>
      assert PacketOk(p, h, packet) && packet == Packet(v, packet.msg);
      if packet.msg.Append? {
        OnAppendGround(p, c, v, packet.msg, h);
        HandleAppend(p, o, packet.msg, alive);
      } else {
        HandleExtends(p, o, packet.msg, alive);
      }
    case ElectionTimeout(_) =>
      StartPrevoteFrame(p, o);
      StartElectionExtends(p, o.(node := o.node.(preCandidate := false)));
    case LeaderTimer(_, expired, beat, lost) =>
    case Request(_, payload) =>
      ProposeExtends(p, o, payload);
    case Transfer(_, target) =>
  }

  /** Not even a restart, or a crash inside a merge, loses a committed entry. */
  lemma RestartKeepsCommitted(p: Params, c: Cluster, a: Action, h: History)
    requires Inv(p, c, h) && h.matched && Enabled(c, a) && Restarts(a)
    ensures KeepsCommitted(c.nodes[Actor(a)], React(p, c.nodes[Actor(a)], a).node)
  {
    hide HistoryOk, NodeOk, PacketOk, TraceOk, Mid, MidMerge;
    var v := Actor(a);
    var s, o := c.nodes[v], Fx(c.nodes[v], {}, []);
    MidStart(p, c, v, h);
    CommitInLog(p, c, v, o, h);
    if a.CrashInMerge? {
      var m := a.packet.msg;
      assert PacketOk(p, h, a.packet);
      AppendIsOk(p, h, a.packet);
      FollowKeeps(p, c, v, o, m.term, m.leader, h);
      MidNode(p, c, v, Follow(o, m.term, m.leader), h);
      CrashKeepsCommitted(p, h, v, Follow(o, m.term, m.leader).node, m, a.log);
    }
  }

  lemma CrashKeepsCommitted(p: Params, h: History, v: NodeId, s: Node, m: Msg, log: seq<Entry>)
    requires HistoryOk(p, h) && NodeOk(p, h, v, s) && h.matched
    requires m.Append? && AppendOk(p, h, m) && m.term == s.term && MidMerge(s.log, m, log)
    ensures KeepsCommitted(s, s.(log := log))
  {
    hide BallotsOk, BidsOk, AcksOk, ReignsOk, VotesRemember, VoterOk, CandidateOk, KeepsAcks, Backed, CutFits,
      MidMerge, IsSlice, CarriesCommit;
    var prefix := s.log[..s.commit];
    BackedInLeader(p, h, s.term, prefix, s.term);
    MidMergeFits(p, h, v, s, m, log);
    CutKeepsPrefix(s.log, h.reigns[s.term].log, log, prefix);
  }

  /** In every run no node's term ever falls, and no vote changes within a term, restarts and
      crashes inside a merge included. */
  lemma RunsKeepVotes(p: Params, run: seq<Action>, k: nat, v: NodeId)
    requires k < |run| && v in p.servers
    ensures v in State(p, run, k).nodes && v in State(p, run, k + 1).nodes
    ensures KeepsVote(State(p, run, k).nodes[v], State(p, run, k + 1).nodes[v])
  {
    hide React, PacketSound, NodeSound;
    RunsStaySound(p, run[..k]);
    RunsStaySound(p, run[..k + 1]);
    NextState(p, run, k);
    var c, a := State(p, run, k), run[k];
    if Enabled(c, a) {
      ReactVote(p, c.nodes[Actor(a)], a);
    }
  }

  lemma NextState(p: Params, run: seq<Action>, k: nat)
    requires k < |run|
    ensures State(p, run, k + 1) == Next(p, State(p, run, k), run[k])
  {
    hide Next;
    assert run[..k + 1][..k] == run[..k];
  }

  /** What one step keeps of what a node has committed. */
  predicate Keeps(s: Node, s': Node, restarts: bool) {
    KeepsCommitted(s, s') && (!restarts ==> KeepsGround(s, s'))
  }

  /** No step of the run deletes an entry that its node has committed, and no commit or applied
      index falls but in a restart of its node. */
  ghost predicate GroundKept(p: Params, run: seq<Action>) {
    forall k: nat, v | k < |run| && v in State(p, run, k).nodes && v in State(p, run, k + 1).nodes ::
      Keeps(State(p, run, k).nodes[v], State(p, run, k + 1).nodes[v], Restarts(run[k]) && Actor(run[k]) == v)
  }

  lemma LastStepLoses(p: Params, run: seq<Action>, v: NodeId)
    requires run != [] && v in Reach(p, run[..|run| - 1]).nodes && v in Reach(p, run).nodes
    requires !KeepsCommitted(Reach(p, run[..|run| - 1]).nodes[v], Reach(p, run).nodes[v])
    ensures !GroundKept(p, run)
  {
    hide Reach, KeepsCommitted;
    var k := |run| - 1;
    assert run[..k + 1] == run;
    assert State(p, run, k) == Reach(p, run[..k]) && State(p, run, k + 1) == Reach(p, run);
    assert !Keeps(State(p, run, k).nodes[v], State(p, run, k + 1).nodes[v], Restarts(run[k]) && Actor(run[k]) == v);
  }

  lemma RunsKeepGround(p: Params, run: seq<Action>)
    requires GuardedRun(p, run)
    ensures GroundKept(p, run)
  {
    hide GuardedRun, HistoryOk, NodeOk, NetOk, TraceOk, React, KeepsGround, KeepsCommitted, Grows, Chronicle;
    var hs := GuardedRunHasChronicle(p, run);
    forall k: nat, v | k < |run| && v in State(p, run, k).nodes && v in State(p, run, k + 1).nodes
      ensures Keeps(State(p, run, k).nodes[v], State(p, run, k + 1).nodes[v], Restarts(run[k]) && Actor(run[k]) == v)
    {
      var c, a := State(p, run, k), run[k];
      assert Inv(p, c, hs[k]) && hs[k].matched by {
        ChronicleAt(p, run, hs, k);
      }
      NextState(p, run, k);
      StepKeepsGround(p, c, a, hs[k], v);
    }
  }

  lemma ChronicleAt(p: Params, run: seq<Action>, hs: seq<History>, k: nat)
    requires Chronicle(p, run, hs) && k <= |run|
    ensures k < |hs| && Inv(p, State(p, run, k), hs[k])
  {
    hide Inv, Grows;
  }

  lemma StepKeepsGround(p: Params, c: Cluster, a: Action, h: History, v: NodeId)
    requires Inv(p, c, h) && h.matched && v in c.nodes
    ensures v in Next(p, c, a).nodes && Keeps(c.nodes[v], Next(p, c, a).nodes[v], Restarts(a) && Actor(a) == v)
  {
    hide HistoryOk, NodeOk, NetOk, TraceOk, React, KeepsCommitted;
    if Enabled(c, a) && Actor(a) == v {
      if Restarts(a) {
        RestartKeepsCommitted(p, c, a, h);
      } else {
        ReactGround(p, c, a, h);
      }
    } else {
      Unmoved(p, h, v, c.nodes[v]);
    }
  }

  lemma Unmoved(p: Params, h: History, v: NodeId, s: Node)
    requires NodeOk(p, h, v, s) && h.matched
    ensures KeepsVote(s, s) && KeepsGround(s, s)
  {
    hide LogOk, VoterOk, CandidateOk, LeaderOk, KeepsAcks;
  }
}
