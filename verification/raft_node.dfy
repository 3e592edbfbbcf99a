/**
 The Raft node itself (pylog/raft.py, class RaftNode): an object whose handlers update its
 fields, its log, its persisted term and vote and its state machine in place. Every method
 is proved to do to the object what the functions of raft_steps.dfy do to its value.
 */
module RaftNodes {
  import opened Basics
  import opened RaftLogs
  import opened StateMachine
  import opened RaftSteps
  import Steps = RaftSteps

  /** The term and vote, saved before they are used. */
  class DurableState {
    var currentTerm: nat
    var votedFor: Option<NodeId>

    constructor ()
      ensures currentTerm == 0 && votedFor == None
    {
      currentTerm, votedFor := 0, None;
    }

    method Save(term: nat, vote: Option<NodeId>)
      modifies this
      ensures currentTerm == term && votedFor == vote
    {
      currentTerm, votedFor := term, vote;
    }
  }

  class RaftNode {
    const id: NodeId
    const params: Params
    const peers: seq<NodeId>
    const persister: DurableState
    const log: RaftLog
    const stateMachine: KVStore

    var role: Role
    var leaderId: Option<NodeId>
    var preCandidate: bool
    var prevoteTerm: nat
    var votes: set<NodeId>
    var nextIndex: map<NodeId, Pos>
    var matchIndex: map<NodeId, nat>
    var transferTarget: Option<NodeId>
    var commitIndex: nat
    var appliedIndex: nat

    // What the node has handed to its transport and to its `on_apply` hook.
    var outbox: set<Packet>
    var calls: seq<Applied>

    /** A node starts, or restarts, from its persisted term, vote and log. */
    constructor (params: Params, id: NodeId, peers: seq<NodeId>, persister: DurableState, log: RaftLog, stateMachine: KVStore)
      requires id in params.servers && Contiguous(log.entries) && stateMachine.View() == EMPTY_KV
      requires (set q | q in peers) == Peers(params, id)
      ensures Valid() && this.params == params
      ensures Now() == Fx(Fresh(id, persister.currentTerm, persister.votedFor, log.entries), {}, [])
    {
      this.params, this.id, this.peers := params, id, peers;
      this.persister, this.log, this.stateMachine := persister, log, stateMachine;
      role, leaderId, preCandidate, prevoteTerm, votes := Follower, None, false, 0, {};
      nextIndex, matchIndex, transferTarget := map[], map[], None;
      commitIndex, appliedIndex := 0, 0;
      outbox, calls := {}, [];
    }

    ghost predicate Valid()
      reads this, log
    {
      (set q | q in peers) == Peers(params, id) && id in params.servers && Contiguous(log.entries)
    }

    ghost function View(): Node
      reads this, persister, log, stateMachine
    {
      Node(id, persister.currentTerm, persister.votedFor, log.entries,
           role, leaderId, preCandidate, prevoteTerm, votes, nextIndex, matchIndex, transferTarget,
           commitIndex, appliedIndex, stateMachine.View())
    }

    ghost function Now(): Fx
      reads this, persister, log, stateMachine
    {
      Fx(View(), outbox, calls)
    }

    predicate HasMajority(voters: set<NodeId>) {
      |voters| > |params.servers| / 2
    }

    method Transmit(dest: NodeId, m: Msg)
      modifies this`outbox
      ensures outbox == old(outbox) + {Packet(dest, m)}
    {
      outbox := outbox + {Packet(dest, m)};
    }

    method TransmitToPeers(m: Msg)
      requires Valid()
      modifies this`outbox
      ensures Valid() && Now() == Steps.Broadcast(params, old(Now()), m)
    {
      var i := 0;
      while i < |peers|
        invariant 0 <= i <= |peers|
        invariant outbox == old(outbox) + set q | q in peers[..i] :: Packet(q, m)
      {
        Transmit(peers[i], m);
        i := i + 1;
      }
      assert peers[..i] == peers;
      assert (set q | q in peers :: Packet(q, m)) == (set q | q in Peers(params, id) :: Packet(q, m));
    }

    // --------------------------------------------------------------- replication

    method SendAppend(peer: NodeId)
      requires Valid()
      modifies this`outbox
      ensures Valid() && Now() == Steps.SendAppend(params, old(Now()), peer)
    {
      var ni: Pos := if peer in nextIndex then nextIndex[peer] else LastIndex(log.entries) + 1;
      var prev := ni - 1;
      Transmit(peer, Append(persister.currentTerm, id, prev, TermAt(log.entries, prev),
                            EntriesFrom(log.entries, ni, params.maxBatch), commitIndex));
    }

    method SendAllAppends()
      requires Valid()
      modifies this`outbox
      ensures Valid() && Now() == Steps.SendAllAppends(params, old(Now()))
    {
      ghost var s := View();
      var i := 0;
      while i < |peers|
        invariant 0 <= i <= |peers| && View() == s
        invariant outbox == old(outbox) + set q | q in peers[..i] :: Packet(q, AppendFor(params, s, q))
      {
        SendAppend(peers[i]);
        i := i + 1;
      }
      assert peers[..i] == peers;
      assert (set q | q in peers :: Packet(q, AppendFor(params, s, q)))
          == (set q | q in Peers(params, id) :: Packet(q, AppendFor(params, s, q)));
    }

    /** Counts the tracked members known to hold index `candidate`. */
    method CountHolders(candidate: nat) returns (have: nat)
      ensures have == |Holders(params, View(), candidate)|
    {
      have := 0;
      var rest := matchIndex.Keys;
      ghost var counted: set<NodeId> := {};
      while rest != {}
        invariant rest <= matchIndex.Keys
        invariant counted == Holders(params, View(), candidate) - rest && have == |counted|
        decreases rest
      {
        var q :| q in rest;
        if matchIndex[q] >= candidate && q in params.servers {
          have := have + 1;
          counted := counted + {q};
        }
        rest := rest - {q};
      }
      assert counted == Holders(params, View(), candidate);
    }

    /** Scans down from the last index for the first one that may be committed. */
    method AdvanceCommit()
      requires Valid()
      modifies this, stateMachine
      ensures Valid() && Now() == Steps.AdvanceCommit(params, old(Now()))
    {
      ghost var s := View();
      var candidate: nat := LastIndex(log.entries);
      while candidate > commitIndex
        invariant Now() == old(Now())
        invariant CommitPoint(params, s, LastIndex(s.log)) == CommitPoint(params, s, candidate)
      {
        if TermAt(log.entries, candidate) == persister.currentTerm {
          var have := CountHolders(candidate);
          if 1 + have >= |params.servers| / 2 + 1 {
            commitIndex := candidate;
            ApplyCommitted();
            return;
          }
        }
        candidate := candidate - 1;
      }
    }

    method ApplyCommitted()
      requires Valid()
      modifies this`appliedIndex, this`calls, stateMachine
      ensures Valid() && Now() == Steps.ApplyCommitted(old(Now()))
    {
      hide ApplyOne, Contiguous;
      while appliedIndex < commitIndex
        invariant Valid() && Steps.ApplyCommitted(Now()) == Steps.ApplyCommitted(old(Now()))
        decreases commitIndex - appliedIndex
      {
        if appliedIndex + 1 > |log.entries| {
          break;
        }
        ApplyNext();
      }
    }

    /** Applies the next entry: configuration entries change nothing here, and the state machine
        sees neither the empty payload nor the no-op. */
    method ApplyNext()
      requires Valid() && appliedIndex < |log.entries|
      modifies this`appliedIndex, this`calls, stateMachine
      ensures Valid() && Now() == ApplyOne(old(Now())) && appliedIndex == old(appliedIndex) + 1
    {
      hide Execute, Contiguous;
      var entry := log.entries[appliedIndex];
      appliedIndex := appliedIndex + 1;
      if IsConfig(entry.payload) {
        return;
      }
      var answer := NoAnswer;
      if entry.payload != [] && !(NOOP <= entry.payload) {
        answer := stateMachine.Apply(entry.payload);
      }
      calls := calls + [Applied(id, entry.index, entry.payload, answer)];
    }

    method Propose(payload: Bytes) returns (index: Option<nat>)
      requires Valid()
      modifies this, log, stateMachine
      ensures Valid() && Now() == Steps.Propose(params, old(Now()), payload)
      ensures index == if old(role) == Leader && old(transferTarget) == None then Some(|old(log.entries)| + 1) else None
    {
      hide Steps.AdvanceCommit, Steps.SendAllAppends;
      if role != Leader || transferTarget.Some? {
        return None;
      }
      var entry := log.AppendEntry(persister.currentTerm, payload);
      AdvanceCommit();
      SendAllAppends();
      index := Some(entry.index);
    }

    // ----------------------------------------------------------------- elections

    method StepDown(term: nat)
      requires Valid()
      modifies this, persister
      ensures Valid() && Now() == Steps.StepDown(old(Now()), term)
    {
      if term > persister.currentTerm {
        persister.Save(term, None);
      }
      role, preCandidate, transferTarget := Follower, false, None;
    }

    /** Exactly the nodes of `done` are tracked, each from a fresh start. */
    ghost predicate Tracked(done: seq<NodeId>, next: Pos)
      reads this
    {
      && (forall q :: q in matchIndex <==> q in done)
      && (forall q :: q in nextIndex <==> q in done)
      && (forall q | q in done :: matchIndex[q] == 0 && nextIndex[q] == next)
    }

    /** Role, bookkeeping and fresh replication state of a new leader. */
    method EnterOffice()
      requires Valid()
      modifies this`role, this`leaderId, this`preCandidate, this`transferTarget, this`matchIndex, this`nextIndex
      ensures Valid() && Now() == TakeOffice(params, old(Now()))
    {
      hide NoMatches, NextForAll, Contiguous;
      role, leaderId, preCandidate, transferTarget := Leader, Some(id), false, None;
      TrackPeers();
    }

    method TrackPeers()
      requires Valid()
      modifies `matchIndex, `nextIndex
      ensures matchIndex == NoMatches(params, id) && nextIndex == NextForAll(params, id, LastIndex(log.entries) + 1)
    {
      matchIndex, nextIndex := map[], map[];
      var next: Pos := LastIndex(log.entries) + 1;
      var i := 0;
      while i < |peers|
        invariant 0 <= i <= |peers|
        invariant Tracked(peers[..i], next)
      {
        matchIndex := matchIndex[peers[i] := 0];
        nextIndex := nextIndex[peers[i] := next];
        i := i + 1;
      }
      assert peers[..i] == peers;
      assert forall q :: q in peers <==> q in Peers(params, id);
    }

    method BecomeLeader()
      requires Valid()
      modifies this, log, stateMachine
      ensures Valid() && Now() == Steps.BecomeLeader(params, old(Now()))
    {
      hide Steps.Propose, Steps.SendAllAppends, Contiguous, TakeOffice;
      EnterOffice();
      var _ := Propose(NOOP);
      SendAllAppends();
    }

    method StartElection()
      requires Valid()
      modifies this, persister, log, stateMachine
      ensures Valid() && Now() == Steps.StartElection(params, old(Now()))
    {
      hide Steps.BecomeLeader;
      persister.Save(persister.currentTerm + 1, Some(id));
      role, leaderId, votes := Candidate, None, {id};
      assert Now() == StandForElection(old(Now()));
      TransmitToPeers(Vote(persister.currentTerm, id, LastIndex(log.entries), LastTerm(log.entries)));
      if HasMajority(votes) {
        BecomeLeader();
      }
    }

    method StartPrevoteOrElection()
      requires Valid()
      modifies this, persister, log, stateMachine
      ensures Valid() && Now() == Steps.StartPrevoteOrElection(params, old(Now()))
    {
      if params.usePrevote && !preCandidate {
        preCandidate, prevoteTerm, votes := true, persister.currentTerm + 1, {id};
        TransmitToPeers(Prevote(prevoteTerm, id, LastIndex(log.entries), LastTerm(log.entries)));
        return;
      }
      preCandidate := false;
      StartElection();
    }

    /** `tick`: which timers are due is the caller's choice. */
    method Tick(electionDue: bool, transferExpired: bool, heartbeatDue: bool, quorumLost: bool)
      requires Valid()
      modifies this, persister, log, stateMachine
      ensures Valid()
      ensures old(role) == Leader ==> Now() == Steps.LeaderTick(params, old(Now()), transferExpired, heartbeatDue, quorumLost)
      ensures old(role) != Leader ==> Now() == if electionDue then Steps.ElectionTick(params, old(Now())) else old(Now())
    {
      if role == Leader {
        if transferExpired && transferTarget.Some? {
          transferTarget := None;
          SendAllAppends();
        }
        if heartbeatDue {
          SendAllAppends();
        }
        if quorumLost {
          StepDown(persister.currentTerm);
        }
        return;
      }
      if electionDue {
        StartPrevoteOrElection();
      }
    }

    method TransferLeadership(target: NodeId) returns (ok: bool)
      requires Valid()
      modifies this
      ensures Valid() && Now() == Steps.TransferLeadership(params, old(Now()), target)
      ensures ok == (old(role) == Leader && target in Peers(params, id))
    {
      if role != Leader || target !in peers {
        return false;
      }
      transferTarget := Some(target);
      Transmit(target, TimeoutNow(persister.currentTerm));
      ok := true;
    }

    // ------------------------------------------------------------------ messages

    method OnPrevote(m: Msg, leaderAlive: bool)
      requires Valid() && m.Prevote?
      modifies this`outbox
      ensures Valid() && Now() == Steps.OnPrevote(old(Now()), m, leaderAlive)
    {
      var grant := m.term > persister.currentTerm && UpToDate(m.lastTerm, m.lastIndex, log.entries)
                   && !(role == Follower && leaderId.Some? && leaderAlive);
      Transmit(m.candidate, PrevoteResp(m.term, id, grant));
    }

    method OnPrevoteResp(m: Msg)
      requires Valid() && m.PrevoteResp?
      modifies this, persister, log, stateMachine
      ensures Valid() && Now() == Steps.OnPrevoteResp(params, old(Now()), m)
    {
      if !preCandidate || m.term != prevoteTerm {
        return;
      }
      if m.granted {
        votes := votes + {m.from};
      }
      if HasMajority(votes) {
        preCandidate := false;
        StartElection();
      }
    }

    method OnVote(m: Msg)
      requires Valid() && m.Vote?
      modifies this, persister
      ensures Valid() && Now() == Steps.OnVote(old(Now()), m)
    {
      if m.term < persister.currentTerm {
        Transmit(m.candidate, VoteResp(persister.currentTerm, id, false));
        return;
      }
      if m.term > persister.currentTerm {
        StepDown(m.term);
      }
      var canVote := persister.votedFor == None || persister.votedFor == Some(m.candidate);
      var grant := canVote && UpToDate(m.lastTerm, m.lastIndex, log.entries);
      if grant {
        persister.Save(persister.currentTerm, Some(m.candidate));
      }
      Transmit(m.candidate, VoteResp(persister.currentTerm, id, grant));
    }

    method OnVoteResp(m: Msg)
      requires Valid() && m.VoteResp?
      modifies this, log, stateMachine
      ensures Valid() && Now() == Steps.OnVoteResp(params, old(Now()), m)
    {
      if role != Candidate || m.term != persister.currentTerm {
        return;
      }
      if m.granted {
        votes := votes + {m.from};
        if HasMajority(votes) {
          BecomeLeader();
        }
      }
    }

    /** Takes `leader` for the leader of `term`. */
    method Recognise(leader: NodeId, term: nat)
      requires Valid()
      modifies this, persister
      ensures Valid() && Now() == Follow(old(Now()), term, leader)
    {
      if term > persister.currentTerm || role != Follower {
        StepDown(term);
      }
      role, leaderId := Follower, Some(leader);
    }

    method OnAppend(m: Msg)
      requires Valid() && m.Append?
      modifies this, persister, log, stateMachine
      ensures Valid() && Now() == Steps.OnAppend(old(Now()), m)
    {
      hide Steps.ApplyCommitted, MergeOutcome, Follow, Contiguous;
      if m.term < persister.currentTerm {
        Transmit(m.leader, AppendResp(persister.currentTerm, id, false, 0, 0));
        return;
      }
      Recognise(m.leader, m.term);
      var r := log.Merge(m.prevIndex, m.prevTerm, m.entries);
      ghost var merged := Now();
      assert (merged, r) == MergeAppend(Follow(old(Now()), m.term, m.leader), m);
      if r.ok && m.commit > commitIndex {
        commitIndex := Min(m.commit, LastIndex(log.entries));
        ApplyCommitted();
      }
      assert Now() == if r.ok then FollowCommit(merged, m.commit) else merged;
      Transmit(m.leader, AppendResp(persister.currentTerm, id, r.ok, if r.ok then r.matchIndex else 0, r.hint));
    }

    method OnAppendResp(m: Msg)
      requires Valid() && m.AppendResp?
      modifies this, persister, stateMachine
      ensures Valid() && Now() == Steps.OnAppendResp(params, old(Now()), m)
    {
      hide Steps.AdvanceCommit, Steps.StepDown, Steps.SendAppend, Contiguous;
      if role != Leader || m.term != persister.currentTerm {
        if m.term > persister.currentTerm {
          StepDown(m.term);
        }
        return;
      }
      var peer := m.from;
      if peer !in matchIndex || peer !in nextIndex {
        return;  // the source raises KeyError here, before any modelled field changes
      }
      if m.success {
        matchIndex := matchIndex[peer := Max(matchIndex[peer], m.matchIndex)];
        nextIndex := nextIndex[peer := matchIndex[peer] + 1];
        AdvanceCommit();
      } else {
        var next: int := nextIndex[peer];
        var hint: int := if m.conflict != 0 then m.conflict else next - 1;
        nextIndex := nextIndex[peer := Max(1, Min(next - 1, hint))];
        SendAppend(peer);
      }
    }

    method OnTimeoutNow(m: Msg)
      requires Valid() && m.TimeoutNow?
      modifies this, persister, log, stateMachine
      ensures Valid() && Now() == Steps.OnTimeoutNow(params, old(Now()), m)
    {
      if m.term >= persister.currentTerm && role != Leader {
        StartElection();
      }
    }

    /** Delivers one message. */
    method Handle(m: Msg, leaderAlive: bool)
      requires Valid()
      modifies this, persister, log, stateMachine
      ensures Valid() && Now() == Steps.Handle(params, old(Now()), m, leaderAlive)
    {
      match m
      case Prevote(_, _, _, _) => OnPrevote(m, leaderAlive);
      case PrevoteResp(_, _, _) => OnPrevoteResp(m);
      case Vote(_, _, _, _) => OnVote(m);
      case VoteResp(_, _, _) => OnVoteResp(m);
      case Append(_, _, _, _, _, _) => OnAppend(m);
      case AppendResp(_, _, _, _, _) => OnAppendResp(m);
      case TimeoutNow(_) => OnTimeoutNow(m);
    }
  }
}
