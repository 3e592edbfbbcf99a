/**
 A whole cluster as a transition system (the shape of pylog/sim.py): nodes, the set of
 every message ever sent, and the list of everything ever applied. Messages are never
 removed, so a run may deliver them late, twice, out of order or not at all. A crashed
 node is one that takes no step until it restarts with only what it had persisted.
 All choice is in the actions, so a run is just a sequence of them.
 */
module Clusters {
  import opened Basics
  import opened RaftLogs
  import opened RaftSteps

  datatype Cluster = Cluster(nodes: map<NodeId, Node>, net: set<Packet>, trace: seq<Applied>)

  datatype Action =
    | Deliver(packet: Packet, leaderAlive: bool)
    | ElectionTimeout(node: NodeId)
    | LeaderTimer(node: NodeId, expired: bool, beat: bool, lost: bool)
    | Request(node: NodeId, payload: Bytes)
    | Transfer(node: NodeId, target: NodeId)
    | Restart(node: NodeId)
    | CrashInMerge(packet: Packet, log: seq<Entry>)

  function Init(p: Params): Cluster {
    Cluster(map v | v in p.servers :: Fresh(v, 0, None, []), {}, [])
  }

  function Actor(a: Action): NodeId {
    match a
    case Deliver(packet, _) => packet.dest
    case ElectionTimeout(v) => v
    case LeaderTimer(v, _, _, _) => v
    case Request(v, _) => v
    case Transfer(v, _) => v
    case Restart(v) => v
    case CrashInMerge(packet, _) => packet.dest
  }

  /** What a crash inside a merge may leave: the entries before the first gap, then some of what was
      there or some of what was to come. */
  predicate MidMerge(was: seq<Entry>, m: Msg, log: seq<Entry>)
    requires m.Append?
  {
    var g := FirstGap(was, m.prevIndex, m.entries, 0);
    Accepts(was, m.prevIndex, m.prevTerm)
    && if g >= |m.entries| then log == was
       else was[..Min(m.prevIndex + g, |was|)] <= log && (log <= was || log <= Merged(was, m.prevIndex, m.entries))
  }

  /** Membership is fixed, so clients do not propose configuration entries. */
  predicate Enabled(c: Cluster, a: Action) {
    Actor(a) in c.nodes
    && (a.Deliver? ==> a.packet in c.net)
    && (a.Request? ==> !IsConfig(a.payload))
    && (a.CrashInMerge? ==>
          a.packet in c.net && a.packet.msg.Append? && c.nodes[Actor(a)].term <= a.packet.msg.term
          && MidMerge(c.nodes[Actor(a)].log, a.packet.msg, a.log))
  }

  /** What the acting node does. */
  function React(p: Params, s: Node, a: Action): Fx {
    var o := Fx(s, {}, []);
    match a
    case Deliver(packet, alive) => Handle(p, o, packet.msg, alive)
    case ElectionTimeout(_) => ElectionTick(p, o)
    case LeaderTimer(_, expired, beat, lost) => LeaderTick(p, o, expired, beat, lost)
    case Request(_, payload) => Propose(p, o, payload)
    case Transfer(_, target) => TransferLeadership(p, o, target)
    case Restart(_) => o.(node := Fresh(s.id, s.term, s.votedFor, s.log))
    case CrashInMerge(packet, log) =>
      var later := packet.msg.term > s.term;
      o.(node := Fresh(s.id, if later then packet.msg.term else s.term, if later then None else s.votedFor, log))
  }

  /** The action takes a node down and up again. */
  predicate Restarts(a: Action) {
    a.Restart? || a.CrashInMerge?
  }

  function Put(c: Cluster, v: NodeId, o: Fx): Cluster {
    Cluster(c.nodes[v := o.node], c.net + o.sent, c.trace + o.done)
  }

  function Next(p: Params, c: Cluster, a: Action): Cluster {
    if Enabled(c, a) then Put(c, Actor(a), React(p, c.nodes[Actor(a)], a)) else c
  }

  /** The state after a run. */
  function Reach(p: Params, run: seq<Action>): Cluster {
    if run == [] then Init(p) else Next(p, Reach(p, run[..|run| - 1]), run[|run| - 1])
  }

  /** A candidate that counts a new pre-vote grant without winning on it keeps it among its votes. */
  predicate KeepsPrevote(p: Params, s: Node, m: Msg) {
    m.PrevoteResp? && m.granted && s.role == Candidate && s.preCandidate && m.term == s.prevoteTerm
    && m.from !in s.votes && !Majority(p, s.votes + {m.from})
  }

  /** A follower whose commit index moves past the last entry the append just matched. */
  predicate OvertakesMatch(s: Node, m: Msg) {
    m.Append? && m.term >= s.term
    && Accepts(s.log, m.prevIndex, m.prevTerm)
    && m.commit > s.commit
    && Min(m.commit, LastIndex(Merged(s.log, m.prevIndex, m.entries))) > m.prevIndex + |m.entries|
  }

  predicate MayCommit(p: Params, s: Node, m: Msg) {
    |p.servers| > 2 ==> !OvertakesMatch(s, m)
  }

  /** A step that adds no pre-vote grant to the votes of a candidate that does not win on it. */
  predicate VotesApart(p: Params, c: Cluster, a: Action) {
    Enabled(c, a) && a.Deliver? ==> !KeepsPrevote(p, c.nodes[a.packet.dest], a.packet.msg)
  }

  /** A step in which, with three members or more, no follower commits past a match. */
  predicate CommitsMatched(p: Params, c: Cluster, a: Action) {
    Enabled(c, a) && a.Deliver? ==> MayCommit(p, c.nodes[a.packet.dest], a.packet.msg)
  }

  /** No candidate keeps a pre-vote grant among its votes without winning on it. */
  ghost predicate ApartRun(p: Params, run: seq<Action>) {
    forall k | 0 <= k < |run| :: VotesApart(p, Reach(p, run[..k]), run[k])
  }

  /** With three members or more, no follower commits past what it has matched. */
  ghost predicate MatchedRun(p: Params, run: seq<Action>) {
    forall k | 0 <= k < |run| :: CommitsMatched(p, Reach(p, run[..k]), run[k])
  }

  ghost predicate GuardedRun(p: Params, run: seq<Action>) {
    ApartRun(p, run) && MatchedRun(p, run)
  }
}
