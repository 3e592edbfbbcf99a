/**
 How a leader repairs a follower's log (pylog/raft.py): the loop that `_send_append`, the
 follower's merge with its conflict hint, and `_on_append_resp` make when every request and
 reply arrives in order. Each refusal takes one term of the follower's log out of question.
 */
module RaftRepair {
  import opened Basics
  import opened RaftLogs
  import opened LogMerges
  import opened RaftSteps
  import opened Clusters
  import opened Histories
  import opened HandlersKeep
  import opened RaftSafety
  import opened Bookkeeping

  function Terms(log: seq<Entry>): set<nat> {
    set e | e in log :: e.term
  }

  // ----------------------------------------------------------------- the back-off hint

  lemma {:induction false} RunStartMeans(log: seq<Entry>, i: nat)
    requires 1 <= i <= |log|
    ensures var s := RunStart(log, TermAt(log, i), i);
            1 <= s <= i
            && (forall j | s <= j <= i :: TermAt(log, j) == TermAt(log, i))
            && (s > 1 ==> TermAt(log, s - 1) != TermAt(log, i))
  {
    if i > 1 && TermAt(log, i - 1) == TermAt(log, i) {
      RunStartMeans(log, i - 1);
    }
  }

  /** In a log of ordered terms the hint for the term at `i` is the first index of that term. */
  lemma ConflictHintMeans(log: seq<Entry>, i: nat)
    requires 1 <= i <= |log| && Ordered(log)
    ensures var hint := ConflictHint(log, TermAt(log, i), i);
            1 <= hint <= i && TermAt(log, hint) == TermAt(log, i)
            && forall j | 1 <= j < hint :: TermAt(log, j) < TermAt(log, i)
  {
    RunStartMeans(log, i);
    var hint := RunStart(log, TermAt(log, i), i);
    if hint > 1 {
      assert log[hint - 2].term < log[i - 1].term;
    }
  }

  // ------------------------------------------------------------------- one exchange

  datatype Pair = Pair(leader: Node, follower: Node)

  /** The append the leader sends next, and the answer of the follower to it. */
  function Request(p: Params, x: Pair): (m: Msg)
    ensures m.Append?
  {
    AppendFor(p, x.leader, x.follower.id)
  }

  function Reply(f: Node, m: Msg): (r: Msg)
    requires m.Append?
    ensures r.AppendResp?
  {
    var r := MergeOutcome(f.log, m.prevIndex, m.prevTerm, m.entries).1;
    AppendResp(m.term, f.id, r.ok, if r.ok then r.matchIndex else 0, r.hint)
  }

  /** The leader's request is delivered, then the follower's reply. */
  function Exchange(p: Params, x: Pair): Pair {
    Pair(OnAppendResp(p, Fx(x.leader, {}, []), Reply(x.follower, Request(p, x))).node,
         OnAppend(Fx(x.follower, {}, []), Request(p, x)).node)
  }

  function Exchanges(p: Params, x: Pair, n: nat): Pair
    decreases n
  {
    if n == 0 then x else Exchanges(p, Exchange(p, x), n - 1)
  }

  predicate Refused(p: Params, x: Pair) {
    !Accepts(x.follower.log, Request(p, x).prevIndex, Request(p, x).prevTerm)
  }

  /** A leader and a follower of its term or an earlier one. Nothing is said of how their logs relate. */
  predicate Repairable(x: Pair) {
    var l, f := x.leader, x.follower;
    && l.role == Leader && f.term <= l.term
    && f.id in l.matchIndex && f.id in l.nextIndex && l.nextIndex[f.id] <= |l.log| + 1
    && Contiguous(l.log) && Contiguous(f.log) && Ordered(f.log)
  }

  /** What is still in question: the terms below the index the leader will probe. */
  function InQuestion(x: Pair): nat
    requires x.follower.id in x.leader.nextIndex
  {
    var next: nat, log := x.leader.nextIndex[x.follower.id], x.follower.log;
    var prev := next - 1;
    if prev > |log| then 1 + |Terms(log)| else |Terms(log[..prev])|
  }

  /** The reply is the one message an append makes its receiver send. */
  lemma ReplyIsSent(f: Node, m: Msg)
    requires m.Append? && m.term >= f.term
    ensures OnAppend(Fx(f, {}, []), m).sent == {Packet(m.leader, Reply(f, m))}
  {
    hide ApplyCommitted, MergeOutcome;
    var (o1, r) := MergeAppend(Follow(Fx(f, {}, []), m.term, m.leader), m);
    if r.ok && m.commit > o1.node.commit {
      ApplyCommittedFrame(o1.(node := o1.node.(commit := Min(m.commit, LastIndex(o1.node.log)))));
    }
  }

  lemma FollowerAfter(f: Node, m: Msg)
    requires m.Append? && m.term >= f.term
    ensures var f' := OnAppend(Fx(f, {}, []), m).node;
            f'.id == f.id && f'.term == m.term
            && f'.log == MergeOutcome(f.log, m.prevIndex, m.prevTerm, m.entries).0
  {
    hide FollowCommit, MergeOutcome;
    var (o1, r) := MergeAppend(Follow(Fx(f, {}, []), m.term, m.leader), m);
    if r.ok {
      FollowCommitFrame(o1, m.commit);
    }
  }

  // ---------------------------------------------------------------------- a refusal

  lemma FewerTerms(log: seq<Entry>, hint: nat, prev: nat)
    requires Ordered(log) && 1 <= hint <= prev <= |log|
    requires TermAt(log, hint) == TermAt(log, prev)
    requires forall j | 1 <= j < hint :: TermAt(log, j) < TermAt(log, prev)
    ensures |Terms(log[..hint - 1])| < |Terms(log[..prev])|
  {
    var t := log[prev - 1].term;
    var few, many := Terms(log[..hint - 1]), Terms(log[..prev]);
    assert log[..prev][prev - 1] == log[prev - 1];
    assert t in many;
    forall u | u in few
      ensures u in many && u != t
    {
      var k :| 0 <= k < hint - 1 && log[..hint - 1][k].term == u;
      assert log[..prev][k] == log[k] && TermAt(log, k + 1) == u;
    }
    SubsetSize(few + {t}, many);
  }

  lemma PrefixTerms(log: seq<Entry>)
    ensures Terms(log[..|log|]) == Terms(log)
  {
    assert log[..|log|] == log;
  }

  /** A refusal by a log too short, or with another term at the probed index. */
  lemma RefusalHint(log: seq<Entry>, lead: seq<Entry>, prev: nat, incoming: seq<Entry>)
    requires Contiguous(log) && Ordered(log) && prev <= |lead| && !Accepts(log, prev, TermAt(lead, prev))
    ensures var (log', r) := MergeOutcome(log, prev, TermAt(lead, prev), incoming);
            log' == log && !r.ok && 1 <= r.hint <= prev
            && (prev > |log| ==> r.hint == |log| + 1)
            && (prev <= |log| ==> |Terms(log[..r.hint - 1])| < |Terms(log[..prev])|)
  {
    if prev <= |log| {
      assert prev > 0;
      ConflictHintMeans(log, prev);
      FewerTerms(log, ConflictHint(log, TermAt(log, prev), prev), prev);
    }
  }

  /** A refusal leaves both logs alone, takes a term out of question, and makes the leader
      send the next, lower, request. */
  lemma RefusalStep(p: Params, x: Pair)
    requires Repairable(x) && Refused(p, x)
    ensures var x' := Exchange(p, x);
            Repairable(x') && x'.leader.log == x.leader.log && x'.follower.log == x.follower.log
            && x'.follower.id == x.follower.id && InQuestion(x') < InQuestion(x)
            && Request(p, x').prevIndex + 1 == Reply(x.follower, Request(p, x)).conflict
            && OnAppendResp(p, Fx(x.leader, {}, []), Reply(x.follower, Request(p, x))).sent
               == {Packet(x.follower.id, Request(p, x'))}
  {
    hide Ordered, Contiguous, MergeOutcome, OnAppend, EntriesFrom;
    var m := Request(p, x);
    RefusalHint(x.follower.log, x.leader.log, m.prevIndex, m.entries);
    FollowerAfter(x.follower, m);
    PrefixTerms(x.follower.log);
    var r := MergeOutcome(x.follower.log, m.prevIndex, m.prevTerm, m.entries).1;
    assert Reply(x.follower, m) == AppendResp(m.term, x.follower.id, false, 0, r.hint);
    assert Exchange(p, x).leader.nextIndex[x.follower.id] == r.hint;
  }

  /** How far a refusal makes the leader go back, and no further: to the end of a log that is too
      short, otherwise to just before the first entry of the conflicting term. */
  lemma NextProbe(p: Params, x: Pair)
    requires Repairable(x) && Refused(p, x)
    ensures var f, prev, next := x.follower.log, Request(p, x).prevIndex, Request(p, Exchange(p, x)).prevIndex;
            if prev > |f| then next == |f|
            else next < prev && f[next].term == f[prev - 1].term
                 && forall j | 0 <= j < next :: f[j].term < f[prev - 1].term
  {
    hide Ordered, Contiguous, Exchange, Request, ConflictHint, InQuestion, MergeOutcome;
    var m := Request(p, x);
    RequestIsSlice(p, x);
    RefusalStep(p, x);
    ShortOrConflict(x.follower.log, m.prevIndex, m.prevTerm, m.entries);
  }

  lemma ShortOrConflict(log: seq<Entry>, prev: nat, prevTerm: int, incoming: seq<Entry>)
    requires Contiguous(log) && Ordered(log) && !Accepts(log, prev, prevTerm) && (prev == 0 ==> prevTerm == 0)
    ensures var r := MergeOutcome(log, prev, prevTerm, incoming).1;
            !r.ok && r.hint >= 1
            && if prev > |log| then r.hint == |log| + 1
               else r.hint <= prev && log[r.hint - 1].term == log[prev - 1].term
                    && forall j | 0 <= j < r.hint - 1 :: log[j].term < log[prev - 1].term
  {
    hide Ordered, ConflictHint;
    if prev <= |log| {
      ConflictHintMeans(log, prev);
      var hint := ConflictHint(log, TermAt(log, prev), prev);
      forall j | 0 <= j < hint - 1
        ensures log[j].term < log[prev - 1].term
      {
        assert TermAt(log, j + 1) < TermAt(log, prev);
      }
    }
  }

  /** A follower that only lags is refused at most once, and is then sent exactly what it lacks. */
  lemma LaggingIsSentRest(p: Params, x: Pair)
    requires Repairable(x) && x.follower.log <= x.leader.log && Refused(p, x)
    ensures var x', f, lead := Exchange(p, x), x.follower.log, x.leader.log;
            !Refused(p, x') && Request(p, x').prevIndex == |f|
            && Request(p, x').entries == (if p.maxBatch == 0 then lead[|f|..] else lead[|f|..Min(|f| + p.maxBatch, |lead|)])
  {
    hide Ordered, OnAppend, OnAppendResp, MergeOutcome, EntriesFrom, Exchange, Request;
    RequestIsSlice(p, x);
    PrefixAccepts(x.follower.log, x.leader.log, Request(p, x).prevIndex);
    NextProbe(p, x);
    RefusalStep(p, x);
    RequestIsSlice(p, Exchange(p, x));
    PrefixAccepts(x.follower.log, x.leader.log, |x.follower.log|);
  }

  lemma PrefixAccepts(log: seq<Entry>, lead: seq<Entry>, prev: nat)
    requires Contiguous(log) && log <= lead
    ensures prev <= |log| ==> Accepts(log, prev, TermAt(lead, prev))
  {
  }

  // ------------------------------------------------------------------ an acceptance

  /** How far the next request reaches into the leader's log. */
  function Reached(p: Params, x: Pair): nat {
    Request(p, x).prevIndex + |Request(p, x).entries|
  }

  lemma AcceptedMerges(p: Params, x: Pair)
    requires Repairable(x) && !Refused(p, x)
    ensures var m := Request(p, x);
            var (log', r) := MergeOutcome(x.follower.log, m.prevIndex, m.prevTerm, m.entries);
            Reached(p, x) <= |x.leader.log| && (p.maxBatch == 0 ==> Reached(p, x) == |x.leader.log|)
            && r == MergeResult(true, Reached(p, x), 0)
            && (SameLogsWhereTermsMeet(x.follower.log, x.leader.log) ==> x.leader.log[..Reached(p, x)] <= log')
  {
    hide Request, Ordered, FirstGap, Merged, Contiguous, SameLogsWhereTermsMeet, ConflictHint;
    RequestIsSlice(p, x);
    var m, lead := Request(p, x), x.leader.log;
    if SameLogsWhereTermsMeet(x.follower.log, lead) {
      MergeTakesLeader(x.follower.log, lead, m.prevIndex, m.prevTerm, |m.entries|);
    }
  }

  /** A request carries the leader's entries from the next index on, as many as the bound allows. */
  lemma RequestIsSlice(p: Params, x: Pair)
    requires Repairable(x)
    ensures var m, lead := Request(p, x), x.leader.log;
            m.prevIndex + 1 == x.leader.nextIndex[x.follower.id] && m.prevIndex + |m.entries| <= |lead|
            && |m.entries| == (if p.maxBatch == 0 then |lead| - m.prevIndex else Min(p.maxBatch, |lead| - m.prevIndex))
            && m.entries == lead[m.prevIndex..m.prevIndex + |m.entries|] && m.prevTerm == TermAt(lead, m.prevIndex)
  {
    hide Ordered, Contiguous;
  }

  lemma LeaderAfter(p: Params, s: Node, m: Msg)
    requires s.role == Leader && m.AppendResp? && m.term == s.term && m.success
    requires m.from in s.matchIndex && m.from in s.nextIndex
    ensures var s' := OnAppendResp(p, Fx(s, {}, []), m).node;
            s'.log == s.log && m.from in s'.matchIndex && s'.matchIndex[m.from] >= m.matchIndex
  {
    hide AdvanceCommit;
    var reached := Max(s.matchIndex[m.from], m.matchIndex);
    AdvanceCommitFrame(p, Fx(s.(matchIndex := s.matchIndex[m.from := reached],
                                nextIndex := s.nextIndex[m.from := reached + 1]), {}, []));
  }

  /** Once accepted, the leader notes how far the request reached, all of its log when batches are
      unlimited; if the logs matched where their terms met, the follower's starts with that. */
  lemma AcceptanceStep(p: Params, x: Pair)
    requires Repairable(x) && !Refused(p, x)
    ensures var n, x' := Reached(p, x), Exchange(p, x);
            n <= |x.leader.log| && (p.maxBatch == 0 ==> n == |x.leader.log|) && x'.leader.log == x.leader.log
            && x.follower.id in x'.leader.matchIndex && x'.leader.matchIndex[x.follower.id] >= n
            && (SameLogsWhereTermsMeet(x.follower.log, x.leader.log) ==> x.leader.log[..n] <= x'.follower.log)
  {
    AcceptedMerges(p, x);
    hide Ordered, Contiguous, SameLogsWhereTermsMeet, MergeOutcome, OnAppend, OnAppendResp, EntriesFrom;
    var m := Request(p, x);
    FollowerAfter(x.follower, m);
    LeaderAfter(p, x.leader, Reply(x.follower, m));
  }

  // ------------------------------------------------------------------------- the loop

  /** `n` refusals, then the request that is accepted and counted. */
  ghost predicate RepairedAfter(p: Params, x: Pair, n: nat) {
    var y, y' := Exchanges(p, x, n), Exchanges(p, x, n + 1);
    (forall k: nat | k < n :: Refused(p, Exchanges(p, x, k)))
    && !Refused(p, y)
    && y.leader.log == y'.leader.log == x.leader.log && Reached(p, y) <= |x.leader.log|
    && (p.maxBatch == 0 ==> Reached(p, y) == |x.leader.log|)
    && x.follower.id in y'.leader.matchIndex && y'.leader.matchIndex[x.follower.id] >= Reached(p, y)
  }

  /** The follower's log then starts with the leader's as far as the accepted request reached. */
  ghost predicate AgreesAfter(p: Params, x: Pair, n: nat) {
    var reached := Reached(p, Exchanges(p, x, n));
    reached <= |x.leader.log| && x.leader.log[..reached] <= Exchanges(p, x, n + 1).follower.log
  }

  lemma {:induction false} ExchangesSplit(p: Params, x: Pair, n: nat)
    ensures Exchanges(p, x, n + 1) == Exchange(p, Exchanges(p, x, n))
    decreases n
  {
    hide Exchange;
    if n > 0 {
      ExchangesSplit(p, Exchange(p, x), n - 1);
    }
  }

  lemma {:induction false} RepairWithin(p: Params, x: Pair) returns (n: nat)
    requires Repairable(x)
    ensures n <= InQuestion(x) && RepairedAfter(p, x, n)
    ensures SameLogsWhereTermsMeet(x.follower.log, x.leader.log) ==> AgreesAfter(p, x, n)
    decreases InQuestion(x)
  {
    hide Repairable, Refused, Exchange, InQuestion, SameLogsWhereTermsMeet, Reached;
    if Refused(p, x) {
      RefusalStep(p, x);
      var x' := Exchange(p, x);
      var rest := RepairWithin(p, x');
      n := rest + 1;
      forall k: nat | k < n
        ensures Refused(p, Exchanges(p, x, k))
      {
        if k > 0 {
          assert Exchanges(p, x, k) == Exchanges(p, x', k - 1);
        }
      }
    } else {
      n := 0;
      AcceptanceStep(p, x);
      ExchangesSplit(p, x, 0);
    }
  }

  /** The repair bound: at most one refusal more than the follower's log has terms. */
  lemma RepairBound(p: Params, x: Pair)
    requires Repairable(x)
    ensures exists n: nat :: n <= 1 + |Terms(x.follower.log)| && RepairedAfter(p, x, n)
  {
    hide RepairedAfter, Terms, Ordered, Contiguous, AgreesAfter;
    var n := RepairWithin(p, x);
    var next: nat := x.leader.nextIndex[x.follower.id];
    if next - 1 <= |x.follower.log| {
      PartTerms(x.follower.log, next - 1);
    }
  }

  /** The number of refusals is settled by the two nodes. */
  lemma OneRepair(p: Params, x: Pair, n: nat, m: nat)
    requires RepairedAfter(p, x, n) && RepairedAfter(p, x, m)
    ensures n == m
  {
    hide Exchanges, Refused, Reached;
  }

  lemma PartTerms(log: seq<Entry>, n: nat)
    requires n <= |log|
    ensures |Terms(log[..n])| <= |Terms(log)|
  {
    forall t | t in Terms(log[..n])
      ensures t in Terms(log)
    {
      var k :| 0 <= k < n && log[..n][k].term == t;
      assert log[k] in log;
    }
    SubsetSize(Terms(log[..n]), Terms(log));
  }

  // -------------------------------------------------------------- in reachable states

  /** In every run, whatever becomes of its elections, a leader can repair any member whose term is
      no later than its own within the bound. */
  lemma RunsCanRepair(p: Params, run: seq<Action>, k: nat, v: NodeId, q: NodeId)
    requires k <= |run| && v in p.servers && q in Peers(p, v)
    ensures var c := State(p, run, k);
            v in c.nodes && q in c.nodes
            && (c.nodes[v].role == Leader && c.nodes[q].term <= c.nodes[v].term ==>
                  exists n: nat :: n <= 1 + |Terms(c.nodes[q].log)| && RepairedAfter(p, Pair(c.nodes[v], c.nodes[q]), n))
  {
    hide RepairedAfter, Repairable;
    RunsStaySound(p, run[..k]);
    var c := State(p, run, k);
    if c.nodes[v].role == Leader && c.nodes[q].term <= c.nodes[v].term {
      PairRepairable(p, c, v, q);
      RepairBound(p, Pair(c.nodes[v], c.nodes[q]));
    }
  }

  lemma PairRepairable(p: Params, c: Cluster, v: NodeId, q: NodeId)
    requires ClusterSound(p, c) && v in p.servers && q in Peers(p, v)
    requires c.nodes[v].role == Leader && c.nodes[q].term <= c.nodes[v].term
    ensures Repairable(Pair(c.nodes[v], c.nodes[q]))
  {
    hide PacketSound;
    assert NodeSound(p, v, c.nodes[v]) && NodeSound(p, q, c.nodes[q]);
  }

  /** Whenever a leader repairs a member of no later term, that member's log starts with its own. */
  ghost predicate RepairsAgree(p: Params, run: seq<Action>) {
    forall k: nat, v, q, n: nat | k <= |run| && v in State(p, run, k).nodes && q in State(p, run, k).nodes ::
      var l, f := State(p, run, k).nodes[v], State(p, run, k).nodes[q];
      v != q && l.role == Leader && f.term <= l.term && RepairedAfter(p, Pair(l, f), n) ==> AgreesAfter(p, Pair(l, f), n)
  }

  /** Log matching makes it so. */
  lemma MatchingRepairsAgree(p: Params, run: seq<Action>)
    requires LogsMatch(p, run)
    ensures RepairsAgree(p, run)
  {
    hide RepairedAfter, AgreesAfter, Repairable, SameLogsWhereTermsMeet, NodeSound, PacketSound;
    forall k: nat, v, q, n: nat | k <= |run| && v in State(p, run, k).nodes && q in State(p, run, k).nodes
      ensures var l, f := State(p, run, k).nodes[v], State(p, run, k).nodes[q];
              v != q && l.role == Leader && f.term <= l.term && RepairedAfter(p, Pair(l, f), n) ==> AgreesAfter(p, Pair(l, f), n)
    {
      var l, f := State(p, run, k).nodes[v], State(p, run, k).nodes[q];
      if v != q && l.role == Leader && f.term <= l.term && RepairedAfter(p, Pair(l, f), n) {
        RunsStaySound(p, run[..k]);
        PairRepairable(p, State(p, run, k), v, q);
        var m := RepairWithin(p, Pair(l, f));
        OneRepair(p, Pair(l, f), n, m);
      }
    }
  }
}
