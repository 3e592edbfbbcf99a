/** A state in which no property of commitment holds any more. */
module Rifts {
  import opened RaftLogs
  import opened RaftSteps
  import opened Clusters
  import opened Histories
  import opened RaftSafety
  import opened Spreading

  /** `x` has applied `past` and `y`, by now a later leader, has applied `now`; the nodes of
      `others` lack one of the two. */
  datatype Rift = Rift(x: NodeId, y: NodeId, past: seq<Entry>, now: seq<Entry>, others: set<NodeId>)

  predicate HasAppliedAll(s: Node, log: seq<Entry>) {
    s.commit == |log| && s.applied == |log| && log <= s.log
  }

  /** The nodes of `others` lack `log`, and they are half of the members or more. */
  ghost predicate Lonely(p: Params, c: Cluster, log: seq<Entry>, others: set<NodeId>) {
    others <= p.servers && |p.servers| - |others| <= |p.servers| / 2
    && forall v | v in others && v in c.nodes :: !(log <= c.nodes[v].log)
  }

  predicate Conflicting(past: seq<Entry>, now: seq<Entry>) {
    1 <= |past| == |now| && past[|past| - 1].payload != now[|now| - 1].payload && Replay(past) != Replay(now)
  }

  ghost predicate Torn(p: Params, c: Cluster, r: Rift) {
    c.nodes.Keys == p.servers && r.x in p.servers && r.y in p.servers && Conflicting(r.past, r.now)
    && HasAppliedAll(c.nodes[r.x], r.past) && HasAppliedAll(c.nodes[r.y], r.now)
    && HasApplied(c.trace, |r.past|, r.past[|r.past| - 1].payload) && HasApplied(c.trace, |r.now|, r.now[|r.now| - 1].payload)
    && c.nodes[r.y].role == Leader && c.nodes[r.x].term < c.nodes[r.y].term
    && (Lonely(p, c, r.past, r.others) || Lonely(p, c, r.now, r.others))
  }

  lemma LonelyIsMinor(p: Params, c: Cluster, log: seq<Entry>, others: set<NodeId>)
    requires c.nodes.Keys == p.servers && Lonely(p, c, log, others)
    ensures !Majority(p, Holding(c, log))
  {
    SubsetSize(Holding(c, log), p.servers - others);
  }

  lemma TornBreaks(p: Params, run: seq<Action>, r: Rift)
    requires Torn(p, Reach(p, run), r)
    ensures !LeadersComplete(p, run) && !AppliesAgree(Reach(p, run).trace) && !ReplicasAgree(p, run) && !CommitsAreHeld(p, run)
  {
    hide Replay, Majority, Holding, Lonely, Reach;
    assert run[..|run|] == run;
    var c := State(p, run, |run|);
    assert c == Reach(p, run);
    var s, t := c.nodes[r.x], c.nodes[r.y];
    assert s.log[..s.commit] == r.past && t.log[..t.commit] == r.now;
    assert s.log[..s.applied] == r.past && t.log[..t.applied] == r.now;
    if Lonely(p, c, r.past, r.others) {
      LonelyIsMinor(p, c, r.past, r.others);
    } else {
      LonelyIsMinor(p, c, r.now, r.others);
    }
  }
}
