/**
 What holds in every run whatever becomes of elections: logs are numbered from 1 and ordered
 by term, appends are slices in that sense, and no leader keeps an index past its own log.
 No two nodes' logs are compared here.
 */
module Bookkeeping {
  import opened Basics
  import opened RaftLogs
  import opened LogMerges
  import opened RaftSteps
  import opened Clusters
  import opened HandlersKeep

  /** Numbered from 1, in the order of their terms, and none of a term later than `term`. */
  predicate Sound(log: seq<Entry>, term: nat) {
    Contiguous(log) && Ordered(log) && forall i | 0 <= i < |log| :: log[i].term <= term
  }

  predicate AppendSound(m: Msg)
    requires m.Append?
  {
    WellIndexed(m.prevIndex, m.entries) && Ordered(m.entries)
    && forall i | 0 <= i < |m.entries| :: m.prevTerm <= m.entries[i].term <= m.term
  }

  /** A leader tracks exactly its peers, none of them past its own log. */
  predicate NodeSound(p: Params, v: NodeId, s: Node) {
    s.id == v && Sound(s.log, s.term)
    && (s.role == Leader ==>
          s.matchIndex.Keys == Peers(p, v) && s.nextIndex.Keys == Peers(p, v)
          && forall q | q in Peers(p, v) :: s.matchIndex[q] <= |s.log| && s.nextIndex[q] <= |s.log| + 1)
  }

  /** Index `n` of a leader of `term` lies in its log, as long as it leads that term. */
  predicate Within(s: Node, term: nat, n: nat) {
    term <= s.term && (term == s.term ==> s.role != Candidate && (s.role == Leader ==> n <= |s.log|))
  }

  ghost predicate PacketSound(c: Cluster, k: Packet) {
    match k.msg
    case Append(term, leader, prevIndex, _, entries, _) =>
      AppendSound(k.msg) && leader in c.nodes && Within(c.nodes[leader], term, prevIndex + |entries|)
    case AppendResp(term, _, success, matchIndex, _) =>
      success ==> k.dest in c.nodes && Within(c.nodes[k.dest], term, matchIndex)
    case _ => true
  }

  ghost predicate ClusterSound(p: Params, c: Cluster) {
    c.nodes.Keys == p.servers && (forall v | v in c.nodes :: NodeSound(p, v, c.nodes[v]))
    && forall k | k in c.net :: PacketSound(c, k)
  }

  // ------------------------------------------------------------------ one node's doing

  /** How far a handler may take a node: to no earlier term; within a term no new candidacy,
      office only out of candidacy, and in office no entry is lost. */
  predicate Moves(s: Node, s': Node) {
    s'.id == s.id && s.term <= s'.term
    && (s'.term == s.term ==>
          (s'.role == Candidate ==> s.role == Candidate)
          && (s'.role == Leader ==> s.role == Candidate || (s.role == Leader && |s.log| <= |s'.log|)))
  }

  /** An append is its sender's own; an acknowledgement is of a leader's claim in `c`. */
  ghost predicate Says(c: Cluster, s: Node, k: Packet) {
    match k.msg
    case Append(term, leader, prevIndex, _, entries, _) =>
      AppendSound(k.msg) && leader == s.id && Within(s, term, prevIndex + |entries|)
    case AppendResp(term, _, success, matchIndex, _) =>
      success ==> k.dest in c.nodes && Within(c.nodes[k.dest], term, matchIndex)
    case _ => true
  }

  /** In the middle of a handler of node `s` of `c`. */
  ghost predicate Doing(p: Params, c: Cluster, s: Node, o: Fx) {
    NodeSound(p, s.id, o.node) && Moves(s, o.node) && forall k | k in o.sent :: Says(c, o.node, k)
  }

  lemma WithinKept(s: Node, s': Node, term: nat, n: nat)
    requires Within(s, term, n) && Moves(s, s')
    ensures Within(s', term, n)
  {
  }

  lemma MovesFurther(s: Node, s1: Node, s2: Node)
    requires Moves(s, s1) && Moves(s1, s2)
    ensures Moves(s, s2)
  {
  }

  lemma DoMove(p: Params, c: Cluster, s: Node, o: Fx, s': Node)
    requires Doing(p, c, s, o) && NodeSound(p, s.id, s') && Moves(o.node, s')
    ensures Doing(p, c, s, o.(node := s'))
  {
    hide NodeSound, AppendSound, Moves, Within;
    assert s'.id == o.node.id by {
      SameId(o.node, s');
    }
    MovesFurther(s, o.node, s');
    forall k | k in o.sent
      ensures Says(c, s', k)
    {
      assert Says(c, o.node, k);
      if k.msg.Append? {
        WithinKept(o.node, s', k.msg.term, k.msg.prevIndex + |k.msg.entries|);
      }
    }
  }

  lemma SameId(s: Node, s': Node)
    requires Moves(s, s')
    ensures s'.id == s.id
  {
  }

  lemma DoSend(p: Params, c: Cluster, s: Node, o: Fx, o': Fx)
    requires Doing(p, c, s, o) && o'.node == o.node && forall k | k in o'.sent :: k in o.sent || Says(c, o.node, k)
    ensures Doing(p, c, s, o')
  {
    hide NodeSound, Moves, Says;
  }

  /** The fields that this module is about. */
  predicate SameBook(s: Node, s': Node) {
    s'.id == s.id && s'.term == s.term && s'.log == s.log && s'.role == s.role
    && s'.matchIndex == s.matchIndex && s'.nextIndex == s.nextIndex
  }

  lemma DoQuiet(p: Params, c: Cluster, s: Node, o: Fx, o': Fx)
    requires Doing(p, c, s, o) && SameBook(o.node, o'.node) && o'.sent == o.sent
    ensures Doing(p, c, s, o')
  {
    DoMove(p, c, s, o, o'.node);
    DoSend(p, c, s, o.(node := o'.node), o');
  }

  // ---------------------------------------------------------------------- the parts

  lemma AppendForSound(p: Params, s: Node, q: NodeId)
    requires NodeSound(p, s.id, s) && s.role == Leader && q in Peers(p, s.id)
    ensures var m := AppendFor(p, s, q);
            m.Append? && AppendSound(m) && m.leader == s.id && Within(s, m.term, m.prevIndex + |m.entries|)
  {
    var m, log := AppendFor(p, s, q), s.log;
    var from := m.prevIndex;
    assert from <= |log| && m.entries <= log[from..];
    assert forall i | 0 <= i < |m.entries| :: m.entries[i] == log[from + i];
  }

  lemma SendAllDoes(p: Params, c: Cluster, s: Node, o: Fx)
    requires Doing(p, c, s, o) && o.node.role == Leader
    ensures Doing(p, c, s, SendAllAppends(p, o))
  {
    hide AppendFor, NodeSound, AppendSound, Within;
    assert o.node.id == s.id by {
      SameId(s, o.node);
    }
    forall q | q in Peers(p, o.node.id)
      ensures Says(c, o.node, Packet(q, AppendFor(p, o.node, q)))
    {
      AppendForSound(p, o.node, q);
    }
    DoSend(p, c, s, o, SendAllAppends(p, o));
  }

  lemma SendOneDoes(p: Params, c: Cluster, s: Node, o: Fx, q: NodeId)
    requires Doing(p, c, s, o) && o.node.role == Leader && q in Peers(p, s.id)
    ensures Doing(p, c, s, SendAppend(p, o, q))
  {
    hide AppendFor, NodeSound, AppendSound, Within;
    SameId(s, o.node);
    AppendForSound(p, o.node, q);
    DoSend(p, c, s, o, SendAppend(p, o, q));
  }

  lemma AdvanceCommitDoes(p: Params, c: Cluster, s: Node, o: Fx)
    requires Doing(p, c, s, o)
    ensures Doing(p, c, s, AdvanceCommit(p, o)) && SameBook(o.node, AdvanceCommit(p, o).node)
  {
    hide Doing, ApplyCommitted;
    var k := CommitPoint(p, o.node, LastIndex(o.node.log));
    if k > o.node.commit {
      ApplyCommittedFrame(o.(node := o.node.(commit := k)));
    }
    DoQuiet(p, c, s, o, AdvanceCommit(p, o));
  }

  lemma AppendEntryDoes(p: Params, c: Cluster, s: Node, o: Fx, payload: Bytes)
    requires Doing(p, c, s, o) && o.node.role == Leader
    ensures Doing(p, c, s, AppendEntry(o, payload))
  {
    DoMove(p, c, s, o, AppendEntry(o, payload).node);
  }

  lemma ProposeDoes(p: Params, c: Cluster, s: Node, o: Fx, payload: Bytes)
    requires Doing(p, c, s, o)
    ensures Doing(p, c, s, Propose(p, o, payload)) && Propose(p, o, payload).node.role == o.node.role
  {
    hide Doing, AdvanceCommit, SendAllAppends;
    if o.node.role == Leader && o.node.transfer.None? {
      var o1 := AppendEntry(o, payload);
      AppendEntryDoes(p, c, s, o, payload);
      AdvanceCommitDoes(p, c, s, o1);
      SendAllDoes(p, c, s, AdvanceCommit(p, o1));
      SendAllFrame(p, AdvanceCommit(p, o1));
    }
  }

  lemma SendAllFrame(p: Params, o: Fx)
    ensures SendAllAppends(p, o).node == o.node
  {
  }

  lemma TakeOfficeDoes(p: Params, c: Cluster, s: Node, o: Fx)
    requires Doing(p, c, s, o) && o.node.role == Candidate
    ensures Doing(p, c, s, TakeOffice(p, o))
  {
    DoMove(p, c, s, o, TakeOffice(p, o).node);
  }

  lemma BecomeLeaderDoes(p: Params, c: Cluster, s: Node, o: Fx)
    requires Doing(p, c, s, o) && o.node.role == Candidate
    ensures Doing(p, c, s, BecomeLeader(p, o))
  {
    hide Doing, Propose, SendAllAppends;
    TakeOfficeDoes(p, c, s, o);
    ProposeDoes(p, c, s, TakeOffice(p, o), NOOP);
    SendAllDoes(p, c, s, Propose(p, TakeOffice(p, o), NOOP));
  }

  lemma StartElectionDoes(p: Params, c: Cluster, s: Node, o: Fx)
    requires Doing(p, c, s, o)
    ensures Doing(p, c, s, StartElection(p, o))
  {
    var o1 := StandForElection(o);
    DoMove(p, c, s, o, o1.node);
    var o2 := Broadcast(p, o1, VoteRequest(o1.node));
    DoSend(p, c, s, o1, o2);
    hide Doing, BecomeLeader;
    if Majority(p, o2.node.votes) {
      BecomeLeaderDoes(p, c, s, o2);
    }
  }

  lemma StepDownDoes(p: Params, c: Cluster, s: Node, o: Fx, term: nat)
    requires Doing(p, c, s, o) && term >= o.node.term
    ensures Doing(p, c, s, StepDown(o, term)) && StepDown(o, term).node.term == term && StepDown(o, term).node.log == o.node.log
  {
    DoMove(p, c, s, o, StepDown(o, term).node);
  }

  lemma SayDoes(p: Params, c: Cluster, s: Node, o: Fx, dest: NodeId, m: Msg)
    requires Doing(p, c, s, o) && Says(c, o.node, Packet(dest, m))
    ensures Doing(p, c, s, Send(o, dest, m))
  {
    hide Says, NodeSound, Moves;
    DoSend(p, c, s, o, Send(o, dest, m));
  }

  // ---------------------------------------------------------------------- the merge

  lemma MergedSound(log: seq<Entry>, term: nat, m: Msg)
    requires Sound(log, term) && m.Append? && AppendSound(m) && m.term >= term && Accepts(log, m.prevIndex, m.prevTerm)
    ensures Sound(Merged(log, m.prevIndex, m.entries), m.term)
  {
    hide FirstGap, Sound, AppendSound, Renumbered, TermAt, Accepts;
    GapFacts(log, term, m);
    var g := FirstGap(log, m.prevIndex, m.entries, 0);
    if g < |m.entries| {
      SeamSound(log, term, m, g);
    } else {
      SoundPrefix(log, term, log, m.term);
    }
  }

  lemma GapFacts(log: seq<Entry>, term: nat, m: Msg)
    requires Sound(log, term) && m.Append? && Accepts(log, m.prevIndex, m.prevTerm)
    ensures var g := FirstGap(log, m.prevIndex, m.entries, 0);
            g <= |m.entries| && m.prevIndex + g <= |log|
            && forall j | 0 <= j < g :: TermAt(log, m.prevIndex + 1 + j) == m.entries[j].term
  {
    hide Ordered, TermAt;
    FirstGapMeans(log, m.prevIndex, m.entries, 0);
    GapInside(log, m.prevIndex, m.entries, 0);
  }

  lemma SoundPrefix(log: seq<Entry>, term: nat, prefix: seq<Entry>, term': nat)
    requires Sound(log, term) && prefix <= log && term <= term'
    ensures Sound(prefix, term')
  {
  }

  lemma SeamSound(log: seq<Entry>, term: nat, m: Msg, g: nat)
    requires Sound(log, term) && m.Append? && AppendSound(m) && m.term >= term && Accepts(log, m.prevIndex, m.prevTerm)
    requires g < |m.entries| && m.prevIndex + g <= |log|
    requires forall j | 0 <= j < g :: TermAt(log, m.prevIndex + 1 + j) == m.entries[j].term
    ensures var at := m.prevIndex + g; Sound(log[..at] + Renumbered(m.entries[g..], at), m.term)
  {
    SeamOrdered(log, m, g);
    hide Ordered;
  }

  /** What is kept and what is added to it are in order. */
  lemma SeamOrdered(log: seq<Entry>, m: Msg, g: nat)
    requires Contiguous(log) && Ordered(log) && m.Append? && AppendSound(m) && Accepts(log, m.prevIndex, m.prevTerm)
    requires g < |m.entries| && m.prevIndex + g <= |log|
    requires forall j | 0 <= j < g :: TermAt(log, m.prevIndex + 1 + j) == m.entries[j].term
    ensures var at := m.prevIndex + g;
            Ordered(log[..at] + Renumbered(m.entries[g..], at)) && Contiguous(log[..at] + Renumbered(m.entries[g..], at))
  {
    var at := m.prevIndex + g;
    var merged := log[..at] + Renumbered(m.entries[g..], at);
    assert forall j | at <= j < |merged| :: merged[j].term == m.entries[j - m.prevIndex].term;
    if at > 0 {
      assert log[at - 1].term <= m.entries[g].term by {
        if g > 0 {
          assert TermAt(log, m.prevIndex + 1 + (g - 1)) == m.entries[g - 1].term;
        }
      }
    }
    forall i, j | 0 <= i <= j < |merged|
      ensures merged[i].term <= merged[j].term
    {
      if i < at <= j {
        assert log[i].term <= log[at - 1].term;
      }
    }
  }

  lemma MergeDoes(p: Params, c: Cluster, s: Node, o: Fx, m: Msg)
    requires Doing(p, c, s, o) && o.node.role == Follower && m.Append? && AppendSound(m) && m.term == o.node.term
    ensures Doing(p, c, s, MergeAppend(o, m).0)
  {
    hide Merged, ConflictHint, Sound, AppendSound;
    if Accepts(o.node.log, m.prevIndex, m.prevTerm) {
      MergedSound(o.node.log, o.node.term, m);
    }
    DoMove(p, c, s, o, MergeAppend(o, m).0.node);
  }

  lemma FollowCommitDoes(p: Params, c: Cluster, s: Node, o: Fx, commit: nat)
    requires Doing(p, c, s, o)
    ensures Doing(p, c, s, FollowCommit(o, commit)) && SameBook(o.node, FollowCommit(o, commit).node)
  {
    hide Doing, ApplyCommitted;
    if commit > o.node.commit {
      ApplyCommittedFrame(o.(node := o.node.(commit := Min(commit, LastIndex(o.node.log)))));
    }
    DoQuiet(p, c, s, o, FollowCommit(o, commit));
  }

  // ------------------------------------------------------------------------ messages

  lemma OnAppendDoes(p: Params, c: Cluster, s: Node, o: Fx, k: Packet)
    requires Doing(p, c, s, o) && k.msg.Append? && PacketSound(c, k)
    ensures Doing(p, c, s, OnAppend(o, k.msg))
  {
    hide Doing, AppendSound, Within, Merged, FollowCommit, ConflictHint;
    var m := k.msg;
    if m.term < o.node.term {
      SayDoes(p, c, s, o, m.leader, AppendResp(o.node.term, o.node.id, false, 0, 0));
    } else {
      var o1 := Follow(o, m.term, m.leader);
      FollowDoes(p, c, s, o, m.term, m.leader);
      var (o2, r) := MergeAppend(o1, m);
      MergeDoes(p, c, s, o1, m);
      var o3 := if r.ok then FollowCommit(o2, m.commit) else o2;
      if r.ok {
        FollowCommitDoes(p, c, s, o2, m.commit);
      }
      SayDoes(p, c, s, o3, m.leader,
              AppendResp(o3.node.term, o3.node.id, r.ok, if r.ok then r.matchIndex else 0, r.hint));
    }
  }

  lemma FollowDoes(p: Params, c: Cluster, s: Node, o: Fx, term: nat, leader: NodeId)
    requires Doing(p, c, s, o) && term >= o.node.term
    ensures var o' := Follow(o, term, leader);
            Doing(p, c, s, o') && o'.node.role == Follower && o'.node.term == term && o'.node.log == o.node.log
  {
    hide Doing;
    var o1 := if term > o.node.term || o.node.role != Follower then StepDown(o, term) else o;
    StepDownDoes(p, c, s, o, term);
    DoQuiet(p, c, s, o1, Follow(o, term, leader));
  }

  lemma OnAppendRespDoes(p: Params, c: Cluster, s: Node, o: Fx, k: Packet)
    requires Doing(p, c, s, o) && o.node == s && k.msg.AppendResp? && PacketSound(c, k)
    requires k.dest == s.id && s.id in c.nodes && c.nodes[s.id] == s
    ensures Doing(p, c, s, OnAppendResp(p, o, k.msg))
  {
    hide AdvanceCommit, AppendFor, Doing, SendAppend;
    var m := k.msg;
    if s.role != Leader || m.term != s.term {
      if m.term > s.term {
        StepDownDoes(p, c, s, o, m.term);
      }
    } else if m.from in s.matchIndex && m.from in s.nextIndex {
      if m.success {
        var reached := Max(s.matchIndex[m.from], m.matchIndex);
        RecordDoes(p, c, s, o, m.from, reached, reached + 1);
        AdvanceCommitDoes(p, c, s, o.(node := s.(matchIndex := s.matchIndex[m.from := reached],
                                                 nextIndex := s.nextIndex[m.from := reached + 1])));
      } else {
        var next: int := s.nextIndex[m.from];
        var hint: int := if m.conflict != 0 then m.conflict else next - 1;
        var back: Pos := Max(1, Min(next - 1, hint));
        RecordDoes(p, c, s, o, m.from, s.matchIndex[m.from], back);
        var o1 := o.(node := s.(nextIndex := s.nextIndex[m.from := back]));
        assert s.matchIndex[m.from := s.matchIndex[m.from]] == s.matchIndex;
        SendOneDoes(p, c, s, o1, m.from);
      }
    }
  }

  /** A leader notes other indexes for a peer, inside its own log. */
  lemma RecordDoes(p: Params, c: Cluster, s: Node, o: Fx, q: NodeId, reached: nat, next: Pos)
    requires Doing(p, c, s, o) && o.node == s && s.role == Leader && q in s.matchIndex && q in s.nextIndex
    requires reached <= s.matchIndex[q] || reached <= |s.log|
    requires next <= s.nextIndex[q] || next <= s.matchIndex[q] + 1 || next <= |s.log| + 1
    ensures q in Peers(p, s.id)
    ensures Doing(p, c, s, o.(node := s.(matchIndex := s.matchIndex[q := reached], nextIndex := s.nextIndex[q := next])))
  {
    hide Sound;
    DoMove(p, c, s, o, s.(matchIndex := s.matchIndex[q := reached], nextIndex := s.nextIndex[q := next]));
  }

  lemma OnVoteDoes(p: Params, c: Cluster, s: Node, o: Fx, m: Msg)
    requires Doing(p, c, s, o) && m.Vote?
    ensures Doing(p, c, s, OnVote(o, m))
  {
    hide Doing, UpToDate;
    if m.term < o.node.term {
      SayDoes(p, c, s, o, m.candidate, VoteResp(o.node.term, o.node.id, false));
    } else {
      var o1 := if m.term > o.node.term then StepDown(o, m.term) else o;
      StepDownDoes(p, c, s, o, m.term);
      var grant := (o1.node.votedFor == None || o1.node.votedFor == Some(m.candidate))
                   && UpToDate(m.lastTerm, m.lastIndex, o1.node.log);
      var o2 := if grant then o1.(node := o1.node.(votedFor := Some(m.candidate))) else o1;
      DoQuiet(p, c, s, o1, o2);
      SayDoes(p, c, s, o2, m.candidate, VoteResp(o2.node.term, o2.node.id, grant));
    }
  }

  lemma HandleDoes(p: Params, c: Cluster, s: Node, o: Fx, k: Packet, alive: bool)
    requires Doing(p, c, s, o) && o.node == s && PacketSound(c, k)
    requires k.dest == s.id && s.id in c.nodes && c.nodes[s.id] == s
    ensures Doing(p, c, s, Handle(p, o, k.msg, alive))
  {
    hide Doing, PacketSound, OnVote, OnAppend, OnAppendResp, StartElection, BecomeLeader, UpToDate;
    var m := k.msg;
    match m
    case Prevote(_, _, _, _) =>
      var grant := m.term > s.term && UpToDate(m.lastTerm, m.lastIndex, s.log)
                   && !(s.role == Follower && s.leaderId.Some? && alive);
      SayDoes(p, c, s, o, m.candidate, PrevoteResp(m.term, s.id, grant));
    case PrevoteResp(_, _, _) =>
      var votes := if m.granted then s.votes + {m.from} else s.votes;
      var o1, o2 := o.(node := s.(votes := votes, preCandidate := false)), o.(node := s.(votes := votes));
      DoQuiet(p, c, s, o, o1);
      DoQuiet(p, c, s, o, o2);
      StartElectionDoes(p, c, s, o1);
    case Vote(_, _, _, _) =>
      OnVoteDoes(p, c, s, o, m);
    case VoteResp(_, _, _) =>
      var o1 := o.(node := s.(votes := s.votes + {m.from}));
      DoQuiet(p, c, s, o, o1);
      if s.role == Candidate {
        BecomeLeaderDoes(p, c, s, o1);
      }
    case Append(_, _, _, _, _, _) =>
      OnAppendDoes(p, c, s, o, k);
    case AppendResp(_, _, _, _, _) =>
      OnAppendRespDoes(p, c, s, o, k);
    case TimeoutNow(_) =>
      StartElectionDoes(p, c, s, o);
  }

  // -------------------------------------------------------------------------- timers

  lemma ElectionTickDoes(p: Params, c: Cluster, s: Node, o: Fx)
    requires Doing(p, c, s, o)
    ensures Doing(p, c, s, ElectionTick(p, o))
  {
    var s1 := o.node.(preCandidate := true, prevoteTerm := o.node.term + 1, votes := {o.node.id});
    DoQuiet(p, c, s, o, o.(node := s1));
    DoSend(p, c, s, o.(node := s1), StartPrevote(p, o));
    hide Doing, StartElection, StartPrevote;
    var o1 := o.(node := o.node.(preCandidate := false));
    DoQuiet(p, c, s, o, o1);
    StartElectionDoes(p, c, s, o1);
  }

  lemma LeaderTickDoes(p: Params, c: Cluster, s: Node, o: Fx, expired: bool, beat: bool, lost: bool)
    requires Doing(p, c, s, o)
    ensures Doing(p, c, s, LeaderTick(p, o, expired, beat, lost))
  {
    hide Doing, AppendFor;
    if o.node.role == Leader {
      var o0 := o.(node := o.node.(transfer := None));
      DoQuiet(p, c, s, o, o0);
      SendAllDoes(p, c, s, o0);
      var o1 := if expired && o.node.transfer.Some? then SendAllAppends(p, o0) else o;
      SendAllDoes(p, c, s, o1);
      var o2 := if beat then SendAllAppends(p, o1) else o1;
      StepDownDoes(p, c, s, o2, o2.node.term);
    }
  }

  lemma TransferDoes(p: Params, c: Cluster, s: Node, o: Fx, target: NodeId)
    requires Doing(p, c, s, o)
    ensures Doing(p, c, s, TransferLeadership(p, o, target))
  {
    hide Doing;
    var o1 := o.(node := o.node.(transfer := Some(target)));
    DoQuiet(p, c, s, o, o1);
    SayDoes(p, c, s, o1, target, TimeoutNow(o.node.term));
  }

  lemma RestartDoes(p: Params, c: Cluster, s: Node, o: Fx, term: nat, votedFor: Option<NodeId>, log: seq<Entry>)
    requires Doing(p, c, s, o) && o.node.term <= term && Sound(log, term)
    ensures Doing(p, c, s, o.(node := Fresh(o.node.id, term, votedFor, log)))
  {
    hide Sound;
    DoMove(p, c, s, o, Fresh(o.node.id, term, votedFor, log));
  }

  lemma CrashDoes(p: Params, c: Cluster, s: Node, o: Fx, m: Msg, votedFor: Option<NodeId>, log: seq<Entry>)
    requires Doing(p, c, s, o) && m.Append? && AppendSound(m) && o.node.term <= m.term && MidMerge(o.node.log, m, log)
    ensures Doing(p, c, s, o.(node := Fresh(o.node.id, m.term, votedFor, log)))
  {
    hide AppendSound, Sound, Moves, Says, Merged, Accepts;
    var was := o.node.log;
    MergedSound(was, o.node.term, m);
    if log <= was {
      SoundPrefix(was, o.node.term, log, m.term);
    } else {
      SoundPrefix(Merged(was, m.prevIndex, m.entries), m.term, log, m.term);
    }
    hide Doing;
    RestartDoes(p, c, s, o, m.term, votedFor, log);
  }

  // -------------------------------------------------------------------------- steps

  lemma StartDoing(p: Params, c: Cluster, v: NodeId)
    requires ClusterSound(p, c) && v in c.nodes
    ensures c.nodes[v].id == v && Doing(p, c, c.nodes[v], Fx(c.nodes[v], {}, []))
  {
    hide PacketSound, Sound;
    assert NodeSound(p, v, c.nodes[v]);
  }

  lemma ReactDoes(p: Params, c: Cluster, a: Action)
    requires ClusterSound(p, c) && Enabled(c, a)
    ensures Doing(p, c, c.nodes[Actor(a)], React(p, c.nodes[Actor(a)], a))
  {
    hide PacketSound, NodeSound, Doing, Handle, LeaderTick, Propose, TransferLeadership, ElectionTick, Fresh, MidMerge;
    var v := Actor(a);
    var s := c.nodes[v];
    var o := Fx(s, {}, []);
    StartDoing(p, c, v);
    match a
    case Deliver(packet, alive) => HandleDoes(p, c, s, o, packet, alive);
    case ElectionTimeout(_) => ElectionTickDoes(p, c, s, o);
    case LeaderTimer(_, expired, beat, lost) => LeaderTickDoes(p, c, s, o, expired, beat, lost);
    case Request(_, payload) => ProposeDoes(p, c, s, o, payload);
    case Transfer(_, target) => TransferDoes(p, c, s, o, target);
    case Restart(_) =>
      LogSound(p, v, s);
      RestartDoes(p, c, s, o, s.term, s.votedFor, s.log);
    case CrashInMerge(packet, log) =>
      PacketAppend(c, packet);
      CrashDoes(p, c, s, o, packet.msg, if packet.msg.term > s.term then None else s.votedFor, log);
  }

  lemma LogSound(p: Params, v: NodeId, s: Node)
    requires NodeSound(p, v, s)
    ensures Sound(s.log, s.term)
  {
  }

  lemma PacketAppend(c: Cluster, k: Packet)
    requires PacketSound(c, k) && k.msg.Append?
    ensures AppendSound(k.msg)
  {
  }

  /** What is in the network stays sound when a node moves, and what it says becomes so. */
  lemma PacketStays(c: Cluster, c': Cluster, v: NodeId, o: Fx, k: Packet)
    requires v in c.nodes && c'.nodes == c.nodes[v := o.node] && c.nodes[v].id == v && Moves(c.nodes[v], o.node)
    requires PacketSound(c, k) || Says(c, o.node, k)
    ensures PacketSound(c', k)
  {
    hide AppendSound, Within;
    SameId(c.nodes[v], o.node);
    if k.msg.Append? {
      var n := k.msg.prevIndex + |k.msg.entries|;
      if PacketSound(c, k) && k.msg.leader == v {
        WithinKept(c.nodes[v], o.node, k.msg.term, n);
      }
    } else if k.msg.AppendResp? && k.msg.success && k.dest == v {
      WithinKept(c.nodes[v], o.node, k.msg.term, k.msg.matchIndex);
    }
  }

  lemma NextStaysSound(p: Params, c: Cluster, a: Action)
    requires ClusterSound(p, c)
    ensures ClusterSound(p, Next(p, c, a))
  {
    hide PacketSound, NodeSound, Says, React, Moves;
    if Enabled(c, a) {
      var v := Actor(a);
      var o, c' := React(p, c.nodes[v], a), Next(p, c, a);
      StartDoing(p, c, v);
      ReactDoes(p, c, a);
      forall k | k in c'.net
        ensures PacketSound(c', k)
      {
        PacketStays(c, c', v, o, k);
      }
    }
  }

  /** In every run, whatever its parameters. */
  lemma {:induction false} RunsStaySound(p: Params, run: seq<Action>)
    ensures ClusterSound(p, Reach(p, run))
  {
    if run == [] {
      assert forall v | v in Init(p).nodes :: NodeSound(p, v, Init(p).nodes[v]);
    } else {
      RunsStaySound(p, run[..|run| - 1]);
      NextStaysSound(p, Reach(p, run[..|run| - 1]), run[|run| - 1]);
    }
  }
}
