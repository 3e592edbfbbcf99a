/**
 How a candidate comes to office on pre-vote grants: grants are counted in the same set as
 real votes (pylog/raft.py:274, 423), and a candidate that times out again keeps its role
 while it collects them. One real vote is then enough.
 */
module MixedVotes {
  import opened RaftLogs
  import opened RaftSteps
  import opened Clusters
  import opened RaftRuns

  /** A candidate that is also collecting pre-votes for the next term. */
  predicate Mixing(s: Node, votes: set<NodeId>) {
    s.role == Candidate && s.preCandidate && s.prevoteTerm == s.term + 1 && s.votes == votes
  }

  /** What may change while votes are collected. */
  predicate Waits(s: Node, s': Node) {
    SameData(s, s') && s'.term == s.term
  }

  function Ask(s: Node): Msg {
    Prevote(s.term + 1, s.id, LastIndex(s.log), LastTerm(s.log))
  }

  /** The log of `s` is good enough for the nodes of `xs`, and their terms are no later than `term`. */
  ghost predicate Backers(c: Cluster, s: Node, term: nat, xs: set<NodeId>) {
    forall x | x in xs :: x in c.nodes && c.nodes[x].term <= term && UpToDate(LastTerm(s.log), LastIndex(s.log), c.nodes[x].log)
  }

  ghost predicate Asked(c: Cluster, s: Node, xs: set<NodeId>) {
    forall x | x in xs :: Packet(x, Ask(s)) in c.net
  }

  /** A candidate that times out again asks for pre-votes without leaving its candidacy. */
  lemma AskAgain(p: Params, c: Cluster, v: NodeId) returns (acts: seq<Action>)
    requires Named(p, c) && v in c.nodes && p.usePrevote
    requires c.nodes[v].role == Candidate && !c.nodes[v].preCandidate
    ensures var c', s := Play(p, c, acts), c.nodes[v];
            Follows(p, c, c') && Only(c, c', v) && c'.trace == c.trace
            && Mixing(c'.nodes[v], {v}) && Waits(s, c'.nodes[v]) && Asked(c', s, Peers(p, v))
  {
    NamedNode(p, c, v);
    var c' := Act(p, c, ElectionTimeout(v), StartPrevote(p, Fx(c.nodes[v], {}, [])));
    acts := [ElectionTimeout(v)];
  }

  /** One node grants a pre-vote and the candidate keeps it. */
  lemma KeepGrant(p: Params, c: Cluster, v: NodeId, x: NodeId, votes: set<NodeId>) returns (acts: seq<Action>)
    requires Named(p, c) && v in c.nodes && x in c.nodes && x != v && Mixing(c.nodes[v], votes)
    requires Packet(x, Ask(c.nodes[v])) in c.net && Backers(c, c.nodes[v], c.nodes[v].term, {x})
    requires !Majority(p, votes + {x})
    ensures var c' := Play(p, c, acts);
            Follows(p, c, c') && Only(c, c', v) && c'.trace == c.trace
            && Mixing(c'.nodes[v], votes + {x}) && Waits(c.nodes[v], c'.nodes[v])
  {
    hide StartElection, UpToDate, Majority;
    NamedNode(p, c, v);
    NamedNode(p, c, x);
    assert x in {x};
    var s, m := c.nodes[v], Ask(c.nodes[v]);
    var a, b := Deliver(Packet(x, m), false), Deliver(Packet(v, PrevoteResp(s.term + 1, x, true)), false);
    var c1 := Act(p, c, a, OnPrevote(Fx(c.nodes[x], {}, []), m, false));
    assert c1.nodes == c.nodes;
    var c2 := Act(p, c1, b, Fx(s.(votes := votes + {x}), {}, []));
    acts := [a] + [b];
    PlayMore(p, c, [a], [b]);
    FollowsFurther(p, c, c1, c2);
  }

  lemma StillBack(p: Params, c: Cluster, c1: Cluster, v: NodeId, xs: set<NodeId>, x: NodeId)
    requires v in c.nodes && Backers(c, c.nodes[v], c.nodes[v].term, xs) && Asked(c, c.nodes[v], xs) && v !in xs
    requires Follows(p, c, c1) && Only(c, c1, v) && Waits(c.nodes[v], c1.nodes[v])
    ensures Backers(c1, c1.nodes[v], c1.nodes[v].term, xs - {x}) && Asked(c1, c1.nodes[v], xs - {x})
  {
    hide UpToDate;
  }

  lemma WaitsFurther(s: Node, s1: Node, s2: Node)
    requires Waits(s, s1) && Waits(s1, s2)
    ensures Waits(s, s2)
  {
  }

  lemma {:induction false} KeepGrants(p: Params, c: Cluster, v: NodeId, xs: set<NodeId>, votes: set<NodeId>) returns (acts: seq<Action>)
    requires Named(p, c) && v in c.nodes && v !in xs && Mixing(c.nodes[v], votes)
    requires Backers(c, c.nodes[v], c.nodes[v].term, xs) && Asked(c, c.nodes[v], xs) && !Majority(p, votes + xs)
    ensures var c' := Play(p, c, acts);
            Follows(p, c, c') && Only(c, c', v) && c'.trace == c.trace
            && Mixing(c'.nodes[v], votes + xs) && Waits(c.nodes[v], c'.nodes[v])
    decreases xs
  {
    hide Mixing, Majority, UpToDate, Ask;
    if xs == {} {
      acts := [];
      assert votes + xs == votes;
    } else {
      var x :| x in xs;
      FewerVotes(p, votes + {x}, votes + xs);
      var first := KeepGrant(p, c, v, x, votes);
      var c1 := Play(p, c, first);
      FollowsNamed(p, c, c1);
      StillBack(p, c, c1, v, xs, x);
      assert votes + {x} + (xs - {x}) == votes + xs;
      hide Backers, Asked, Follows, Named, Only, Waits;
      var more := KeepGrants(p, c1, v, xs - {x}, votes + {x});
      acts := first + more;
      Chain(p, c, first, more);
      OnlyFurther(c, c1, Play(p, c1, more), v);
      WaitsFurther(c.nodes[v], c1.nodes[v], Play(p, c1, more).nodes[v]);
    }
  }

  lemma FewerVotes(p: Params, few: set<NodeId>, more: set<NodeId>)
    requires few <= more && !Majority(p, more)
    ensures !Majority(p, few)
  {
    assert more == few + (more - few);
  }

  /** A candidate that holds a majority less one of votes, mostly pre-votes, while one real vote
      for it is still on its way. */
  ghost predicate OneShort(p: Params, c: Cluster, v: NodeId, voter: NodeId, votes: set<NodeId>) {
    v in c.nodes && Mixing(c.nodes[v], votes) && Majority(p, votes + {voter})
    && Packet(v, VoteResp(c.nodes[v].term, voter, true)) in c.net
  }

  /** Votes short of a majority by exactly the given voter's, one further member left aside. */
  lemma ShortByOne(p: Params, v: NodeId, voter: NodeId, but: NodeId) returns (xs: set<NodeId>)
    requires |p.servers| >= 4 && v in p.servers && voter in p.servers && but in p.servers
    requires v != voter && v != but && voter != but
    ensures xs <= p.servers - {v, voter, but} && !Majority(p, {v} + xs) && Majority(p, {v} + xs + {voter})
  {
    assert p.servers - {v, voter, but} == p.servers - {v} - {voter} - {but};
    xs := SomeOf(p.servers - {v, voter, but}, |p.servers| / 2 - 1);
    assert |{v} + xs| == |p.servers| / 2;
    assert |{v} + xs + {voter}| == |p.servers| / 2 + 1;
  }

  /** A candidate that asks again and is granted pre-votes until one vote is missing. */
  lemma Mix(p: Params, c: Cluster, v: NodeId, voter: NodeId, xs: set<NodeId>) returns (acts: seq<Action>)
    requires Named(p, c) && p.usePrevote && v in c.nodes && xs <= Peers(p, v)
    requires c.nodes[v].role == Candidate && !c.nodes[v].preCandidate
    requires !Majority(p, {v} + xs) && Majority(p, {v} + xs + {voter})
    requires Backers(c, c.nodes[v], c.nodes[v].term, xs) && Packet(v, VoteResp(c.nodes[v].term, voter, true)) in c.net
    ensures var c' := Play(p, c, acts);
            Follows(p, c, c') && Only(c, c', v) && c'.trace == c.trace
            && OneShort(p, c', v, voter, {v} + xs) && Waits(c.nodes[v], c'.nodes[v])
  {
    hide Majority, UpToDate;
    var first := AskAgain(p, c, v);
    var c1 := Play(p, c, first);
    StillAsked(p, c, c1, v, xs);
    hide Backers, Asked, Ask;
    var more := KeepGrants(p, c1, v, xs, {v});
    acts := first + more;
    Chain(p, c, first, more);
    OnlyFurther(c, c1, Play(p, c1, more), v);
  }

  lemma StillAsked(p: Params, c: Cluster, c1: Cluster, v: NodeId, xs: set<NodeId>)
    requires v in c.nodes && Only(c, c1, v) && Waits(c.nodes[v], c1.nodes[v]) && xs <= Peers(p, v)
    requires Backers(c, c.nodes[v], c.nodes[v].term, xs) && Asked(c1, c.nodes[v], Peers(p, v))
    ensures Backers(c1, c1.nodes[v], c1.nodes[v].term, xs) && Asked(c1, c1.nodes[v], xs)
  {
    hide UpToDate;
  }

  /** A follower whose log is good enough for all but one of the others comes within one vote of office. */
  lemma MixedCandidate(p: Params, c: Cluster, v: NodeId, voter: NodeId, but: NodeId) returns (acts: seq<Action>, votes: set<NodeId>)
    requires Named(p, c) && |p.servers| >= 4 && p.usePrevote && v in p.servers && voter in p.servers && but in p.servers
    requires v != voter && v != but && voter != but && c.nodes[v].role == Follower
    requires Backers(c, c.nodes[v], c.nodes[v].term + 1, p.servers - {v, but}) && c.nodes[voter].term <= c.nodes[v].term
    ensures var c' := Play(p, c, acts);
            Follows(p, c, c') && c'.trace == c.trace && OneShort(p, c', v, voter, votes)
            && SameData(c.nodes[v], c'.nodes[v]) && c'.nodes[v].term == c.nodes[v].term + 1
            && VotedIn(c.nodes[voter], c'.nodes[voter], c.nodes[v].term + 1)
            && forall x | x in c.nodes && x != v && x != voter :: c'.nodes[x] == c.nodes[x]
  {
    hide UpToDate, Majority, Play, OneShort, Campaigning, Waits;
    var first := Campaign(p, c, v, {voter});
    var c1 := Play(p, c, first);
    FollowsNamed(p, c, c1);
    var xs := ShortByOne(p, v, voter, but);
    Stands(p, c, c1, v, voter, xs);
    hide Follows, Backers;
    var more := Mix(p, c1, v, voter, xs);
    WaitsSame(c.nodes[v], c1.nodes[v], Play(p, c1, more).nodes[v]);
    votes := {v} + xs;
    acts := first + more;
    Chain(p, c, first, more);
  }

  lemma Stands(p: Params, c: Cluster, c1: Cluster, v: NodeId, voter: NodeId, xs: set<NodeId>)
    requires v in c.nodes && v in c1.nodes && Campaigning(c.nodes[v], c1.nodes[v]) && c1.nodes.Keys == c.nodes.Keys
    requires v !in xs && voter !in xs && Backers(c, c.nodes[v], c.nodes[v].term + 1, xs)
    requires forall x | x in xs && x in c.nodes :: c1.nodes[x] == c.nodes[x]
    ensures c1.nodes[v].role == Candidate && !c1.nodes[v].preCandidate && c1.nodes[v].term == c.nodes[v].term + 1
    ensures Backers(c1, c1.nodes[v], c1.nodes[v].term, xs)
  {
    hide UpToDate;
  }

  lemma WaitsSame(s: Node, s1: Node, s2: Node)
    requires Campaigning(s, s1) && Waits(s1, s2)
    ensures SameData(s, s2) && s2.term == s.term + 1
  {
  }

  /** The missing vote arrives. */
  lemma Win(p: Params, c: Cluster, v: NodeId, voter: NodeId, votes: set<NodeId>) returns (acts: seq<Action>)
    requires Named(p, c) && |p.servers| >= 2 && OneShort(p, c, v, voter, votes)
    ensures TookOver(p, c, Play(p, c, acts), v, c.nodes[v].term)
  {
    acts := CountLast(p, c, v, voter);
  }

  lemma OneShortStill(p: Params, c: Cluster, c1: Cluster, v: NodeId, voter: NodeId, votes: set<NodeId>)
    requires OneShort(p, c, v, voter, votes) && Follows(p, c, c1) && v in c1.nodes && c1.nodes[v] == c.nodes[v]
    ensures OneShort(p, c1, v, voter, votes)
  {
  }

  lemma FourMembers(s: set<NodeId>) returns (a: NodeId, b: NodeId, c: NodeId, d: NodeId)
    requires |s| >= 4
    ensures a in s && b in s && c in s && d in s
    ensures a != b && a != c && a != d && b != c && b != d && c != d
  {
    a :| a in s;
    var s1 := s - {a};
    assert |s1| >= 3;
    b :| b in s1;
    var s2 := s1 - {b};
    assert |s2| >= 2;
    c :| c in s2;
    var s3 := s2 - {c};
    assert |s3| >= 1;
    d :| d in s3;
  }
}
