/**
 The durable log under the protocol: in every run the appends that nodes are sent carry
 correctly numbered entries, so a node whose log is on disk merges them as one whose log is
 in memory does.
 */
module DurableJoin {
  import opened RaftLogs
  import opened LogMerges
  import opened RaftSteps
  import opened Clusters
  import opened RaftSafety
  import opened Bookkeeping
  import opened Disks
  import opened SegmentModel
  import opened LogCrashes
  import opened DurableLogs

  /** No guard is needed: elections may fail, the numbering does not. */
  lemma RunsMergeAlike(p: Params, run: seq<Action>, k: nat, v: NodeId, m: Msg)
    requires k <= |run| && v in State(p, run, k).nodes && m.Append? && Packet(v, m) in State(p, run, k).net
    ensures Contiguous(State(p, run, k).nodes[v].log) && WellIndexed(m.prevIndex, m.entries)
    ensures var log := State(p, run, k).nodes[v].log;
            DurableOutcome(log, m.prevIndex, m.prevTerm, m.entries) == MergeOutcome(log, m.prevIndex, m.prevTerm, m.entries)
  {
    hide Ordered, DurableOutcome, MergeOutcome;
    RunsStaySound(p, run[..k]);
    var c := State(p, run, k);
    assert NodeSound(p, v, c.nodes[v]) && PacketSound(c, Packet(v, m));
    DurableRefines(c.nodes[v].log, m.prevIndex, m.prevTerm, m.entries);
  }

  /** What a crash inside a merge leaves on disk is a log that the protocol's own crash step allows. */
  lemma BetweenIsMidMerge(before: seq<Entry>, m: Msg, log: seq<Entry>)
    requires m.Append? && Contiguous(before) && WellIndexed(m.prevIndex, m.entries) && Accepts(before, m.prevIndex, m.prevTerm)
    requires var kept := DurableKept(before, m.prevIndex, m.entries);
             Between(before, kept, kept + Additions(m.entries, LastIndex(kept)), log)
    ensures MidMerge(before, m, log)
  {
    hide Merged, Additions, FirstGap, BelowIndex, WellIndexed;
    AcceptedRefines(before, m.prevIndex, m.entries);
    FirstGapMeans(before, m.prevIndex, m.entries, 0);
    GapInside(before, m.prevIndex, m.entries, 0);
    var g := FirstGap(before, m.prevIndex, m.entries, 0);
    if g < |m.entries| {
      BelowIndexIsPrefix(before, m.prevIndex + 1 + g);
    } else {
      NoGapSame(before, m.prevIndex, m.entries);
    }
  }

  lemma NoGapSame(log: seq<Entry>, prev: nat, incoming: seq<Entry>)
    requires FirstGap(log, prev, incoming, 0) >= |incoming|
    ensures Merged(log, prev, incoming) == log == DurableKept(log, prev, incoming)
  {
  }

  /** So the safety theorems cover a node that comes up again, in the message's term, with whatever
      its durable merge had left. */
  lemma CrashedMergeIsAStep(p: Params, run: seq<Action>, k: nat, v: NodeId, m: Msg, x: MergeIntent, c: Settings, after: Files)
    requires k <= |run| && v in State(p, run, k).nodes && m.Append? && Packet(v, m) in State(p, run, k).net
    requires var s := State(p, run, k).nodes[v];
             s.term <= m.term && Accepts(s.log, m.prevIndex, m.prevTerm) && x.before == s.log
             && x.kept == DurableKept(s.log, m.prevIndex, m.entries) && x.merged == x.kept + Additions(m.entries, LastIndex(x.kept))
    requires Recovers(c, x, after) && !Midst(x.segs, |x.kept|, x.start, after)
    ensures OpensAsLog(c, after) && Enabled(State(p, run, k), CrashInMerge(Packet(v, m), Opened(c, after)))
  {
    hide DurableKept, Additions, MidMerge, OpensAsLog, Midst, Accepts, Contiguous, WellIndexed, DurableOutcome, MergeOutcome;
    RunsMergeAlike(p, run, k, v, m);
    BetweenIsMidMerge(State(p, run, k).nodes[v].log, m, Opened(c, after));
  }
}
