/** Building blocks for exhibiting runs: sequences of actions from a given cluster. */
module RaftRuns {
  import opened Basics
  import opened RaftLogs
  import opened RaftSteps
  import opened Clusters

  /** The cluster after some actions. */
  function Play(p: Params, c: Cluster, actions: seq<Action>): Cluster {
    if actions == [] then c else Next(p, Play(p, c, actions[..|actions| - 1]), actions[|actions| - 1])
  }

  lemma {:induction false} PlayIsReach(p: Params, run: seq<Action>)
    ensures Play(p, Init(p), run) == Reach(p, run)
  {
    if run != [] {
      PlayIsReach(p, run[..|run| - 1]);
    }
  }

  lemma {:induction false} PlayMore(p: Params, c: Cluster, first: seq<Action>, more: seq<Action>)
    ensures Play(p, c, first + more) == Play(p, Play(p, c, first), more)
  {
    var all := first + more;
    if more == [] {
      assert all == first;
    } else {
      assert all[..|all| - 1] == first + more[..|more| - 1];
      PlayMore(p, c, first, more[..|more| - 1]);
    }
  }

  lemma PlayOne(p: Params, c: Cluster, a: Action)
    ensures Play(p, c, [a]) == Next(p, c, a)
  {
    assert [a][..0] == [];
    assert Play(p, c, []) == c;
  }

  /** Every node stands under its own name; nothing sent or applied is forgotten from `c` to `c'`. */
  ghost predicate Follows(p: Params, c: Cluster, c': Cluster) {
    Named(p, c') && c.net <= c'.net && c.trace <= c'.trace
  }

  ghost predicate Named(p: Params, c: Cluster) {
    c.nodes.Keys == p.servers && forall v | v in c.nodes :: c.nodes[v].id == v
  }

  lemma FollowsFurther(p: Params, c: Cluster, c1: Cluster, c2: Cluster)
    requires Follows(p, c, c1) && Follows(p, c1, c2)
    ensures Follows(p, c, c2)
  {
  }

  /** Nobody but `v` has moved. */
  predicate Only(c: Cluster, c': Cluster, v: NodeId) {
    v in c.nodes && v in c'.nodes && c'.nodes == c.nodes[v := c'.nodes[v]]
  }

  lemma OnlyFurther(c: Cluster, c1: Cluster, c2: Cluster, v: NodeId)
    requires Only(c, c1, v) && Only(c1, c2, v)
    ensures Only(c, c2, v)
  {
  }

  lemma FollowsNamed(p: Params, c: Cluster, c': Cluster)
    requires Follows(p, c, c')
    ensures Named(p, c') && c'.nodes.Keys == p.servers
  {
  }

  /** Two stretches of a run make one. */
  lemma Chain(p: Params, c: Cluster, first: seq<Action>, more: seq<Action>)
    requires Follows(p, c, Play(p, c, first)) && Follows(p, Play(p, c, first), Play(p, Play(p, c, first), more))
    ensures Play(p, c, first + more) == Play(p, Play(p, c, first), more)
    ensures Follows(p, c, Play(p, c, first + more))
  {
    hide Play, Named;
    PlayMore(p, c, first, more);
    FollowsFurther(p, c, Play(p, c, first), Play(p, Play(p, c, first), more));
  }

  /** One action, as it shows in the acting node, the network and the trace. */
  lemma Act(p: Params, c: Cluster, a: Action, o: Fx) returns (c': Cluster)
    requires Named(p, c) && Enabled(c, a) && o == React(p, c.nodes[Actor(a)], a) && o.node.id == Actor(a)
    ensures c' == Play(p, c, [a]) && Follows(p, c, c')
    ensures c'.nodes == c.nodes[Actor(a) := o.node] && c'.net == c.net + o.sent && c'.trace == c.trace + o.done
  {
    hide React;
    PlayOne(p, c, a);
    c' := Put(c, Actor(a), o);
  }

  /** What a run may leave as it is: a node's log, commit index and applied state. */
  predicate SameData(s: Node, s': Node) {
    s'.id == s.id && s'.log == s.log && s'.commit == s.commit && s'.applied == s.applied && s'.kv == s.kv
  }

  lemma {:induction false} SomeOf(s: set<NodeId>, k: nat) returns (t: set<NodeId>)
    requires k <= |s|
    ensures t <= s && |t| == k
  {
    if k == 0 {
      t := {};
    } else {
      var x :| x in s;
      var rest := SomeOf(s - {x}, k - 1);
      t := rest + {x};
    }
  }

  // -------------------------------------------------------------------- campaigns

  predicate Campaigning(s: Node, s': Node) {
    SameData(s, s') && s'.role == Candidate && s'.term == s.term + 1 && s'.votes == {s.id} && !s'.preCandidate
  }

  lemma StartElectionAlone(p: Params, o: Fx)
    requires o.sent == {} && o.done == [] && !Majority(p, {o.node.id}) && !o.node.preCandidate
    ensures var o' := StartElection(p, o);
            Campaigning(o.node, o'.node) && o'.done == []
            && forall q | q in Peers(p, o.node.id) :: Packet(q, VoteRequest(o'.node)) in o'.sent
  {
  }

  /** A node that is not leader can always come to stand for election in the next term. */
  lemma Stand(p: Params, c: Cluster, v: NodeId) returns (acts: seq<Action>)
    requires Named(p, c) && v in c.nodes && c.nodes[v].role != Leader && |p.servers| >= 2
    ensures var c' := Play(p, c, acts);
            Follows(p, c, c') && c'.nodes == c.nodes[v := c'.nodes[v]] && c'.trace == c.trace
            && Campaigning(c.nodes[v], c'.nodes[v])
            && forall q | q in Peers(p, v) :: Packet(q, VoteRequest(c'.nodes[v])) in c'.net
  {
    hide StartElection, Named;
    var s, a := c.nodes[v], ElectionTimeout(v);
    assert s.id == v by {
      NamedNode(p, c, v);
    }
    if p.usePrevote && !s.preCandidate {
      var o := StartPrevote(p, Fx(s, {}, []));
      var c1 := Act(p, c, a, o);
      NamedNode(p, c1, v);
      var s1 := c1.nodes[v];
      var o1 := StartElection(p, Fx(s1.(preCandidate := false), {}, []));
      StartElectionAlone(p, Fx(s1.(preCandidate := false), {}, []));
      var c2 := Act(p, c1, a, o1);
      acts := [a] + [a];
      PlayMore(p, c, [a], [a]);
      FollowsFurther(p, c, c1, c2);
    } else {
      StartElectionAlone(p, Fx(s.(preCandidate := false), {}, []));
      var c1 := Act(p, c, a, StartElection(p, Fx(s.(preCandidate := false), {}, [])));
      acts := [a];
    }
  }

  lemma NamedNode(p: Params, c: Cluster, v: NodeId)
    requires Named(p, c) && v in c.nodes
    ensures c.nodes[v].id == v && v in p.servers
  {
  }

  /** A voter of `cand` in `term`: it has moved to that term as a follower. */
  predicate VotedIn(s: Node, s': Node, term: nat) {
    SameData(s, s') && s'.term == term && s'.role == Follower
  }

  /** One node hears a vote request of a later term and grants it. */
  lemma HearVote(p: Params, c: Cluster, cand: NodeId, g: NodeId, m: Msg) returns (acts: seq<Action>)
    requires Named(p, c) && g in c.nodes && m.Vote? && Packet(g, m) in c.net && m.candidate == cand
    requires c.nodes[g].term < m.term && UpToDate(m.lastTerm, m.lastIndex, c.nodes[g].log)
    ensures var c' := Play(p, c, acts);
            Follows(p, c, c') && c'.nodes == c.nodes[g := c'.nodes[g]] && c'.trace == c.trace
            && VotedIn(c.nodes[g], c'.nodes[g], m.term)
            && Packet(cand, VoteResp(m.term, g, true)) in c'.net
  {
    hide UpToDate;
    NamedNode(p, c, g);
    var a := Deliver(Packet(g, m), false);
    var o := OnVote(Fx(c.nodes[g], {}, []), m);
    var c' := Act(p, c, a, o);
    acts := [a];
  }

  /** Every node of `ws` hears a candidate's vote request and grants it. */
  lemma {:induction false} Poll(p: Params, c: Cluster, cand: NodeId, ws: set<NodeId>, m: Msg) returns (acts: seq<Action>)
    requires Named(p, c) && ws <= Peers(p, cand) && m.Vote? && m.candidate == cand && cand in p.servers
    requires forall g | g in ws ::
               Packet(g, m) in c.net && c.nodes[g].term < m.term && UpToDate(m.lastTerm, m.lastIndex, c.nodes[g].log)
    ensures var c' := Play(p, c, acts);
            Follows(p, c, c') && c'.trace == c.trace
            && (forall v | v in c.nodes && v !in ws :: c'.nodes[v] == c.nodes[v])
            && (forall g | g in ws :: VotedIn(c.nodes[g], c'.nodes[g], m.term) && Packet(cand, VoteResp(m.term, g, true)) in c'.net)
    decreases ws
  {
    hide UpToDate, VotedIn;
    if ws == {} {
      acts := [];
    } else {
      var g :| g in ws;
      var first := HearVote(p, c, cand, g, m);
      var c1 := Play(p, c, first);
      var more := Poll(p, c1, cand, ws - {g}, m);
      acts := first + more;
      PlayMore(p, c, first, more);
      FollowsFurther(p, c, c1, Play(p, c1, more));
    }
  }

  // ------------------------------------------------------------------- taking office

  /** A leader that has just been elected: its log is its old one and a no-op, nothing is matched yet. */
  predicate NewLeader(p: Params, s: Node, s': Node, term: nat) {
    s'.id == s.id && s'.role == Leader && s'.term == term && s'.transfer == None && !s'.preCandidate
    && s'.log == s.log + [Entry(LastIndex(s.log) + 1, term, NOOP)]
    && s'.commit == s.commit && s'.applied == s.applied && s'.kv == s.kv
    && s'.matchIndex.Keys == Peers(p, s.id) && s'.nextIndex.Keys == Peers(p, s.id)
    && forall q | q in Peers(p, s.id) :: s'.matchIndex[q] == 0 && s'.nextIndex[q] == LastIndex(s.log) + 1
  }

  /** Without acknowledgements above the commit index nothing new is committed. */
  lemma {:induction false} NothingToCommit(p: Params, s: Node, c: nat)
    requires forall k | s.commit < k <= c :: !CanCommit(p, s, k)
    ensures CommitPoint(p, s, c) == s.commit
  {
    if c > s.commit {
      NothingToCommit(p, s, c - 1);
    }
  }

  /** Nothing is matched, so a leader of at least two members commits nothing. */
  lemma Unmatched(p: Params, o: Fx)
    requires |p.servers| >= 2 && forall q | q in o.node.matchIndex :: o.node.matchIndex[q] <= o.node.commit
    ensures AdvanceCommit(p, o) == o
  {
    var s := o.node;
    forall k | s.commit < k <= LastIndex(s.log)
      ensures !CanCommit(p, s, k)
    {
      assert Holders(p, s, k) == {};
    }
    NothingToCommit(p, s, LastIndex(s.log));
  }

  lemma BecomeLeaderAlone(p: Params, o: Fx)
    requires |p.servers| >= 2
    ensures var o' := BecomeLeader(p, o);
            NewLeader(p, o.node, o'.node, o.node.term) && o'.done == o.done
            && forall q | q in Peers(p, o.node.id) :: Packet(q, AppendFor(p, o'.node, q)) in o'.sent
  {
    hide AppendFor, AdvanceCommit;
    Unmatched(p, AppendEntry(TakeOffice(p, o), NOOP));
  }

  /** A candidate that is still short of a majority. */
  predicate Short(p: Params, s: Node) {
    s.role == Candidate && !Majority(p, s.votes)
  }

  ghost predicate Granted(c: Cluster, cand: NodeId, term: nat, ws: set<NodeId>) {
    forall g | g in ws :: Packet(cand, VoteResp(term, g, true)) in c.net
  }

  ghost predicate AppendsSent(p: Params, c: Cluster, v: NodeId) {
    v in c.nodes && forall q | q in Peers(p, v) :: Packet(q, AppendFor(p, c.nodes[v], q)) in c.net
  }

  /** Node `cand` of `c` has become the leader of `term`; nobody else has moved. */
  ghost predicate TookOver(p: Params, c: Cluster, c': Cluster, cand: NodeId, term: nat)
    requires cand in c.nodes
  {
    Follows(p, c, c') && c'.trace == c.trace && cand in c'.nodes && c'.nodes == c.nodes[cand := c'.nodes[cand]]
    && NewLeader(p, c.nodes[cand], c'.nodes[cand], term) && AppendsSent(p, c', cand)
  }

  lemma CountLast(p: Params, c: Cluster, cand: NodeId, g: NodeId) returns (acts: seq<Action>)
    requires Named(p, c) && cand in c.nodes && |p.servers| >= 2
    requires c.nodes[cand].role == Candidate && Majority(p, c.nodes[cand].votes + {g})
    requires Packet(cand, VoteResp(c.nodes[cand].term, g, true)) in c.net
    ensures TookOver(p, c, Play(p, c, acts), cand, c.nodes[cand].term)
  {
    hide BecomeLeader, AppendFor;
    NamedNode(p, c, cand);
    var s := c.nodes[cand];
    var o := Fx(s.(votes := s.votes + {g}), {}, []);
    BecomeLeaderAlone(p, o);
    var c' := Act(p, c, Deliver(Packet(cand, VoteResp(s.term, g, true)), false), BecomeLeader(p, o));
    acts := [Deliver(Packet(cand, VoteResp(s.term, g, true)), false)];
  }

  lemma CountMore(p: Params, c: Cluster, cand: NodeId, g: NodeId) returns (acts: seq<Action>)
    requires Named(p, c) && cand in c.nodes
    requires c.nodes[cand].role == Candidate && !Majority(p, c.nodes[cand].votes + {g})
    requires Packet(cand, VoteResp(c.nodes[cand].term, g, true)) in c.net
    ensures var c', s := Play(p, c, acts), c.nodes[cand];
            Follows(p, c, c') && c'.trace == c.trace && c'.nodes == c.nodes[cand := s.(votes := s.votes + {g})]
  {
    hide BecomeLeader;
    NamedNode(p, c, cand);
    var s := c.nodes[cand];
    var a := Deliver(Packet(cand, VoteResp(s.term, g, true)), false);
    var c' := Act(p, c, a, Fx(s.(votes := s.votes + {g}), {}, []));
    acts := [a];
  }

  lemma TookOverLater(p: Params, c: Cluster, c1: Cluster, c2: Cluster, cand: NodeId, term: nat)
    requires cand in c.nodes && cand in c1.nodes && TookOver(p, c1, c2, cand, term)
    requires Follows(p, c, c1) && c1.trace == c.trace && c1.nodes == c.nodes[cand := c1.nodes[cand]]
    requires SameData(c.nodes[cand], c1.nodes[cand])
    ensures TookOver(p, c, c2, cand, term)
  {
    hide AppendsSent;
  }

  /** A candidate counts granted votes until they are a majority and it leads. */
  lemma {:induction false} Count(p: Params, c: Cluster, cand: NodeId, ws: set<NodeId>) returns (acts: seq<Action>)
    requires Named(p, c) && cand in c.nodes && |p.servers| >= 2
    requires Short(p, c.nodes[cand]) && Majority(p, c.nodes[cand].votes + ws)
    requires Granted(c, cand, c.nodes[cand].term, ws)
    ensures TookOver(p, c, Play(p, c, acts), cand, c.nodes[cand].term)
    decreases ws
  {
    hide TookOver, Named;
    var s := c.nodes[cand];
    assert ws != {} by {
      assert s.votes + {} == s.votes;
    }
    var g :| g in ws;
    if Majority(p, s.votes + {g}) {
      acts := CountLast(p, c, cand, g);
    } else {
      var first := CountMore(p, c, cand, g);
      var c1 := Play(p, c, first);
      assert c1.nodes[cand].votes + (ws - {g}) == s.votes + ws;
      var more := Count(p, c1, cand, ws - {g});
      acts := first + more;
      PlayMore(p, c, first, more);
      TookOverLater(p, c, c1, Play(p, c1, more), cand, s.term);
    }
  }

  /** Node `cand` stands for election and every voter grants it its vote. */
  lemma Campaign(p: Params, c: Cluster, cand: NodeId, voters: set<NodeId>) returns (acts: seq<Action>)
    requires Named(p, c) && cand in c.nodes && |p.servers| >= 2 && c.nodes[cand].role != Leader
    requires voters <= Peers(p, cand)
    requires var s := c.nodes[cand];
             forall g | g in voters :: c.nodes[g].term <= s.term && UpToDate(LastTerm(s.log), LastIndex(s.log), c.nodes[g].log)
    ensures var c', s := Play(p, c, acts), c.nodes[cand];
            Follows(p, c, c') && c'.trace == c.trace
            && (forall v | v in c.nodes && v != cand && v !in voters :: c'.nodes[v] == c.nodes[v])
            && (forall g | g in voters :: VotedIn(c.nodes[g], c'.nodes[g], s.term + 1))
            && Campaigning(s, c'.nodes[cand]) && Granted(c', cand, s.term + 1, voters)
  {
    hide UpToDate, VotedIn, Play, Named, Campaigning;
    NamedNode(p, c, cand);
    var first := Stand(p, c, cand);
    var c1 := Play(p, c, first);
    FollowsNamed(p, c, c1);
    Campaigned(c.nodes[cand], c1.nodes[cand]);
    var second := Poll(p, c1, cand, voters, VoteRequest(c1.nodes[cand]));
    acts := first + second;
    PlayMore(p, c, first, second);
    hide Follows;
    FollowsFurther(p, c, c1, Play(p, c1, second));
  }

  lemma Campaigned(s: Node, s1: Node)
    requires Campaigning(s, s1)
    ensures VoteRequest(s1) == Vote(s.term + 1, s.id, LastIndex(s.log), LastTerm(s.log)) && s1.id == s.id
  {
  }

  /** A node whose log is up to date for a majority of earlier-term nodes can be elected. */
  lemma Elect(p: Params, c: Cluster, cand: NodeId, voters: set<NodeId>) returns (acts: seq<Action>)
    requires Named(p, c) && cand in c.nodes && |p.servers| >= 2 && c.nodes[cand].role != Leader
    requires voters <= Peers(p, cand) && Majority(p, voters + {cand})
    requires var s := c.nodes[cand];
             forall g | g in voters :: c.nodes[g].term <= s.term && UpToDate(LastTerm(s.log), LastIndex(s.log), c.nodes[g].log)
    ensures var c', s := Play(p, c, acts), c.nodes[cand];
            Follows(p, c, c') && c'.trace == c.trace
            && (forall v | v in c.nodes && v != cand && v !in voters :: c'.nodes[v] == c.nodes[v])
            && (forall g | g in voters :: VotedIn(c.nodes[g], c'.nodes[g], s.term + 1))
            && NewLeader(p, s, c'.nodes[cand], s.term + 1) && AppendsSent(p, c', cand)
  {
    hide UpToDate, VotedIn, NewLeader, AppendsSent, Granted, Play, Named;
    NamedNode(p, c, cand);
    var first := Campaign(p, c, cand, voters);
    var c1 := Play(p, c, first);
    FollowsNamed(p, c, c1);
    StandsShort(p, c.nodes[cand], c1.nodes[cand], voters);
    hide Campaigning, SameData, Majority, Short;
    var more := Count(p, c1, cand, voters);
    acts := first + more;
    NewLeaderSame(p, c.nodes[cand], c1.nodes[cand], Play(p, c1, more).nodes[cand], c1.nodes[cand].term);
    hide Follows;
    PlayMore(p, c, first, more);
    FollowsFurther(p, c, c1, Play(p, c1, more));
  }

  lemma StandsShort(p: Params, s: Node, s1: Node, voters: set<NodeId>)
    requires Campaigning(s, s1) && |p.servers| >= 2 && Majority(p, voters + {s.id})
    ensures Short(p, s1) && Majority(p, s1.votes + voters) && SameData(s, s1) && s1.term == s.term + 1
  {
    assert s1.votes + voters == voters + {s.id};
  }

  lemma NewLeaderSame(p: Params, s: Node, s1: Node, s': Node, term: nat)
    requires NewLeader(p, s1, s', term) && SameData(s, s1)
    ensures NewLeader(p, s, s', term)
  {
  }

  /** A leader that has lost contact with a majority steps down, keeping its term. */
  lemma Abdicate(p: Params, c: Cluster, v: NodeId) returns (acts: seq<Action>)
    requires Named(p, c) && v in c.nodes && c.nodes[v].role == Leader
    ensures var c', s := Play(p, c, acts), c.nodes[v];
            Follows(p, c, c') && Only(c, c', v) && c'.trace == c.trace
            && c'.nodes[v].role == Follower && c'.nodes[v].term == s.term && SameData(s, c'.nodes[v])
  {
    NamedNode(p, c, v);
    var a := LeaderTimer(v, false, false, true);
    var c' := Act(p, c, a, StepDown(Fx(c.nodes[v], {}, []), c.nodes[v].term));
    acts := [a];
  }
}
