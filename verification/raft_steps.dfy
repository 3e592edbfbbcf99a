/**
 What each handler and timer of a Raft node does (pylog/raft.py, class RaftNode), as
 functions from the node's state to its new state, the messages it sends and the
 entries it reports as applied. The class in raft_node.dfy is proved against these.

 Clocks are choices of the caller: any timer may fire at any time, and whether a
 leader was heard from recently is a parameter.
 */
module RaftSteps {
  import opened Basics
  import opened RaftLogs
  import opened StateMachine

  type NodeId = nat

  type Pos = n: nat | 1 <= n witness 1

  datatype Role = Follower | Candidate | Leader

  /** What stays fixed during a run: the members, the PreVote flag and the batch bound (0: no bound). */
  datatype Params = Params(servers: set<NodeId>, usePrevote: bool, maxBatch: nat)

  datatype Msg =
    | Prevote(term: nat, candidate: NodeId, lastIndex: nat, lastTerm: nat)
    | PrevoteResp(term: nat, from: NodeId, granted: bool)
    | Vote(term: nat, candidate: NodeId, lastIndex: nat, lastTerm: nat)
    | VoteResp(term: nat, from: NodeId, granted: bool)
    | Append(term: nat, leader: NodeId, prevIndex: nat, prevTerm: int, entries: seq<Entry>, commit: nat)
    | AppendResp(term: nat, from: NodeId, success: bool, matchIndex: nat, conflict: nat)
    | TimeoutNow(term: nat)

  datatype Packet = Packet(dest: NodeId, msg: Msg)

  /** One call of the application's `on_apply` hook. */
  datatype Applied = Applied(node: NodeId, index: nat, payload: Bytes, answer: Answer)

  datatype Node = Node(
    id: NodeId,
    term: nat, votedFor: Option<NodeId>, log: seq<Entry>,   // survives a restart
    role: Role, leaderId: Option<NodeId>,
    preCandidate: bool, prevoteTerm: nat, votes: set<NodeId>,
    nextIndex: map<NodeId, Pos>, matchIndex: map<NodeId, nat>,
    transfer: Option<NodeId>,
    commit: nat, applied: nat, kv: KV)

  /** A node in the middle of a handler: its state, what it has sent and what it has applied so far. */
  datatype Fx = Fx(node: Node, sent: set<Packet>, done: seq<Applied>)

  // "__raft_noop__" and "__cfg:"
  const NOOP: Bytes := [95, 95, 114, 97, 102, 116, 95, 110, 111, 111, 112, 95, 95]
  const CONFIG: Bytes := [95, 95, 99, 102, 103, 58]

  predicate IsConfig(payload: Bytes) {
    CONFIG <= payload
  }

  /** The state machine sees every payload but the empty one, the no-op and configuration entries. */
  function ApplyEntry(kv: KV, e: Entry): (KV, Answer) {
    if e.payload == [] || NOOP <= e.payload || IsConfig(e.payload) then (kv, NoAnswer) else Execute(kv, e.payload)
  }

  function Fresh(id: NodeId, term: nat, votedFor: Option<NodeId>, log: seq<Entry>): Node {
    Node(id, term, votedFor, log, Follower, None, false, 0, {}, map[], map[], None, 0, 0, EMPTY_KV)
  }

  predicate Majority(p: Params, voters: set<NodeId>) {
    |voters| > |p.servers| / 2
  }

  function Peers(p: Params, id: NodeId): set<NodeId> {
    p.servers - {id}
  }

  /** `(last_term, last_index)` compared as a pair, as a vote request is judged. */
  predicate UpToDate(lastTerm: nat, lastIndex: nat, log: seq<Entry>) {
    lastTerm > LastTerm(log) || (lastTerm == LastTerm(log) && lastIndex >= LastIndex(log))
  }

  function Send(o: Fx, dest: NodeId, m: Msg): Fx {
    o.(sent := o.sent + {Packet(dest, m)})
  }

  function Broadcast(p: Params, o: Fx, m: Msg): Fx {
    o.(sent := o.sent + set q | q in Peers(p, o.node.id) :: Packet(q, m))
  }

  // ---------------------------------------------------------------- replication

  function AppendFor(p: Params, s: Node, peer: NodeId): Msg {
    var ni: Pos := if peer in s.nextIndex then s.nextIndex[peer] else LastIndex(s.log) + 1;
    Append(s.term, s.id, ni - 1, TermAt(s.log, ni - 1), EntriesFrom(s.log, ni, p.maxBatch), s.commit)
  }

  function SendAppend(p: Params, o: Fx, peer: NodeId): Fx {
    Send(o, peer, AppendFor(p, o.node, peer))
  }

  function SendAllAppends(p: Params, o: Fx): Fx {
    o.(sent := o.sent + set q | q in Peers(p, o.node.id) :: Packet(q, AppendFor(p, o.node, q)))
  }

  /** Applies the next committed entry. */
  function ApplyOne(o: Fx): Fx
    requires o.node.applied < |o.node.log|
  {
    var s := o.node;
    var e := s.log[s.applied];
    var (kv, answer) := ApplyEntry(s.kv, e);
    o.(node := s.(applied := s.applied + 1, kv := kv),
       done := if IsConfig(e.payload) then o.done else o.done + [Applied(s.id, e.index, e.payload, answer)])
  }

  function ApplyCommitted(o: Fx): Fx
    decreases o.node.commit - o.node.applied
  {
    if o.node.applied < o.node.commit && o.node.applied < |o.node.log|
    then ApplyCommitted(ApplyOne(o))
    else o
  }

  /** The peers known to hold index `c`. */
  function Holders(p: Params, s: Node, c: nat): set<NodeId> {
    set q | q in s.matchIndex && s.matchIndex[q] >= c && q in p.servers
  }

  predicate CanCommit(p: Params, s: Node, c: nat) {
    TermAt(s.log, c) == s.term && 1 + |Holders(p, s, c)| >= |p.servers| / 2 + 1
  }

  /** The highest index above the commit index, at or below `c`, that may be committed; else the commit index. */
  function CommitPoint(p: Params, s: Node, c: nat): nat {
    if c <= s.commit then s.commit else if CanCommit(p, s, c) then c else CommitPoint(p, s, c - 1)
  }

  function AdvanceCommit(p: Params, o: Fx): Fx {
    var c := CommitPoint(p, o.node, LastIndex(o.node.log));
    if c > o.node.commit then ApplyCommitted(o.(node := o.node.(commit := c))) else o
  }

  function AppendEntry(o: Fx, payload: Bytes): Fx {
    var s := o.node;
    o.(node := s.(log := s.log + [Entry(LastIndex(s.log) + 1, s.term, payload)]))
  }

  function Propose(p: Params, o: Fx, payload: Bytes): Fx {
    if o.node.role != Leader || o.node.transfer.Some? then o
    else SendAllAppends(p, AdvanceCommit(p, AppendEntry(o, payload)))
  }

  // ------------------------------------------------------------------ elections

  function StepDown(o: Fx, term: nat): Fx {
    var s := o.node;
    var s1 := if term > s.term then s.(term := term, votedFor := None) else s;
    o.(node := s1.(role := Follower, preCandidate := false, transfer := None))
  }

  /** Nothing is known to be held by any peer. */
  function NoMatches(p: Params, id: NodeId): map<NodeId, nat> {
    map q | q in Peers(p, id) :: 0
  }

  /** Every peer is to be sent the entries from `next` on. */
  function NextForAll(p: Params, id: NodeId, next: Pos): map<NodeId, Pos> {
    map q | q in Peers(p, id) :: next
  }

  /** Takes office: fresh replication state, before anything is proposed or sent. */
  function TakeOffice(p: Params, o: Fx): Fx {
    var s := o.node;
    o.(node := s.(role := Leader, leaderId := Some(s.id), preCandidate := false, transfer := None,
                  matchIndex := NoMatches(p, s.id), nextIndex := NextForAll(p, s.id, LastIndex(s.log) + 1)))
  }

  function BecomeLeader(p: Params, o: Fx): Fx {
    SendAllAppends(p, Propose(p, TakeOffice(p, o), NOOP))
  }

  /** Opens a new term as its candidate, with its own vote. */
  function StandForElection(o: Fx): Fx {
    var s := o.node;
    o.(node := s.(term := s.term + 1, votedFor := Some(s.id), role := Candidate, leaderId := None, votes := {s.id}))
  }

  function VoteRequest(s: Node): Msg {
    Vote(s.term, s.id, LastIndex(s.log), LastTerm(s.log))
  }

  function StartElection(p: Params, o: Fx): Fx {
    var o1 := StandForElection(o);
    var o2 := Broadcast(p, o1, VoteRequest(o1.node));
    if Majority(p, o2.node.votes) then BecomeLeader(p, o2) else o2
  }

  function StartPrevote(p: Params, o: Fx): Fx {
    var s := o.node;
    var o1 := o.(node := s.(preCandidate := true, prevoteTerm := s.term + 1, votes := {s.id}));
    Broadcast(p, o1, Prevote(s.term + 1, s.id, LastIndex(s.log), LastTerm(s.log)))
  }

  function StartPrevoteOrElection(p: Params, o: Fx): Fx {
    if p.usePrevote && !o.node.preCandidate then StartPrevote(p, o)
    else StartElection(p, o.(node := o.node.(preCandidate := false)))
  }

  // --------------------------------------------------------------------- timers

  /** `tick` of a leader: a transfer may have expired, a heartbeat may be due, a quorum may be lost. */
  function LeaderTick(p: Params, o: Fx, expired: bool, beat: bool, lost: bool): Fx {
    if o.node.role != Leader then o
    else
      var o1 := if expired && o.node.transfer.Some?
                then SendAllAppends(p, o.(node := o.node.(transfer := None))) else o;
      var o2 := if beat then SendAllAppends(p, o1) else o1;
      if lost then StepDown(o2, o2.node.term) else o2
  }

  function ElectionTick(p: Params, o: Fx): Fx {
    if o.node.role == Leader then o else StartPrevoteOrElection(p, o)
  }

  function TransferLeadership(p: Params, o: Fx, target: NodeId): Fx {
    if o.node.role != Leader || target !in Peers(p, o.node.id) then o
    else Send(o.(node := o.node.(transfer := Some(target))), target, TimeoutNow(o.node.term))
  }

  // ------------------------------------------------------------------- messages

  function OnPrevote(o: Fx, m: Msg, leaderAlive: bool): Fx
    requires m.Prevote?
  {
    var s := o.node;
    var grant := m.term > s.term && UpToDate(m.lastTerm, m.lastIndex, s.log)
                 && !(s.role == Follower && s.leaderId.Some? && leaderAlive);
    Send(o, m.candidate, PrevoteResp(m.term, s.id, grant))
  }

  function OnPrevoteResp(p: Params, o: Fx, m: Msg): Fx
    requires m.PrevoteResp?
  {
    var s := o.node;
    if !s.preCandidate || m.term != s.prevoteTerm then o
    else
      var votes := if m.granted then s.votes + {m.from} else s.votes;
      if Majority(p, votes)
      then StartElection(p, o.(node := s.(votes := votes, preCandidate := false)))
      else o.(node := s.(votes := votes))
  }

  function OnVote(o: Fx, m: Msg): Fx
    requires m.Vote?
  {
    if m.term < o.node.term then Send(o, m.candidate, VoteResp(o.node.term, o.node.id, false))
    else
      var o1 := if m.term > o.node.term then StepDown(o, m.term) else o;
      var s := o1.node;
      var grant := (s.votedFor == None || s.votedFor == Some(m.candidate))
                   && UpToDate(m.lastTerm, m.lastIndex, s.log);
      var o2 := if grant then o1.(node := s.(votedFor := Some(m.candidate))) else o1;
      Send(o2, m.candidate, VoteResp(o2.node.term, o2.node.id, grant))
  }

  function OnVoteResp(p: Params, o: Fx, m: Msg): Fx
    requires m.VoteResp?
  {
    if o.node.role != Candidate || m.term != o.node.term || !m.granted then o
    else
      var o1 := o.(node := o.node.(votes := o.node.votes + {m.from}));
      if Majority(p, o1.node.votes) then BecomeLeader(p, o1) else o1
  }

  /** Accepts `leader` as the leader of the term of its message. */
  function Follow(o: Fx, term: nat, leader: NodeId): Fx {
    var o1 := if term > o.node.term || o.node.role != Follower then StepDown(o, term) else o;
    o1.(node := o1.node.(role := Follower, leaderId := Some(leader)))
  }

  function MergeAppend(o: Fx, m: Msg): (Fx, MergeResult)
    requires m.Append?
  {
    var (log, r) := MergeOutcome(o.node.log, m.prevIndex, m.prevTerm, m.entries);
    (o.(node := o.node.(log := log)), r)
  }

  /** A follower takes over the leader's commit index as far as its own log reaches. */
  function FollowCommit(o: Fx, commit: nat): Fx {
    if commit > o.node.commit
    then ApplyCommitted(o.(node := o.node.(commit := Min(commit, LastIndex(o.node.log)))))
    else o
  }

  function OnAppend(o: Fx, m: Msg): Fx
    requires m.Append?
  {
    if m.term < o.node.term then
      Send(o, m.leader, AppendResp(o.node.term, o.node.id, false, 0, 0))
    else
      var (o1, r) := MergeAppend(Follow(o, m.term, m.leader), m);
      var o2 := if r.ok then FollowCommit(o1, m.commit) else o1;
      Send(o2, m.leader,
           AppendResp(o2.node.term, o2.node.id, r.ok, if r.ok then r.matchIndex else 0, r.hint))
  }

  function OnAppendResp(p: Params, o: Fx, m: Msg): Fx
    requires m.AppendResp?
  {
    var s := o.node;
    if s.role != Leader || m.term != s.term then
      if m.term > s.term then StepDown(o, m.term) else o
    else if m.from !in s.matchIndex || m.from !in s.nextIndex then o  // a KeyError, before any field changes
    else if m.success then
      var reached := Max(s.matchIndex[m.from], m.matchIndex);
      AdvanceCommit(p, o.(node := s.(matchIndex := s.matchIndex[m.from := reached],
                                     nextIndex := s.nextIndex[m.from := reached + 1])))
    else
      var next: int := s.nextIndex[m.from];
      var hint: int := if m.conflict != 0 then m.conflict else next - 1;
      var back := Max(1, Min(next - 1, hint));
      SendAppend(p, o.(node := s.(nextIndex := s.nextIndex[m.from := back])), m.from)
  }

  function OnTimeoutNow(p: Params, o: Fx, m: Msg): Fx
    requires m.TimeoutNow?
  {
    if m.term >= o.node.term && o.node.role != Leader then StartElection(p, o) else o
  }

  function Handle(p: Params, o: Fx, m: Msg, leaderAlive: bool): Fx {
    match m
    case Prevote(_, _, _, _) => OnPrevote(o, m, leaderAlive)
    case PrevoteResp(_, _, _) => OnPrevoteResp(p, o, m)
    case Vote(_, _, _, _) => OnVote(o, m)
    case VoteResp(_, _, _) => OnVoteResp(p, o, m)
    case Append(_, _, _, _, _, _) => OnAppend(o, m)
    case AppendResp(_, _, _, _, _) => OnAppendResp(p, o, m)
    case TimeoutNow(_) => OnTimeoutNow(p, o, m)
  }
}
