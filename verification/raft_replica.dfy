/**
 What the replicated store holds, in terms of the log alone: for each key the value of the last
 write to it, and a count of the commands. The no-op, configuration entries and the empty payload
 are no commands (pylog/raft.py:676-709).
 */
module Replicas {
  import opened Basics
  import opened RaftLogs
  import opened StateMachine
  import opened RaftSteps
  import opened Clusters
  import opened Histories
  import opened Completeness
  import opened RaftSafety

  predicate IsCommand(e: Entry) {
    e.payload != [] && !(NOOP <= e.payload) && !(CONFIG <= e.payload)
  }

  /** The entry is the command `key=...`. */
  predicate WritesTo(e: Entry, key: Bytes) {
    IsCommand(e) && key + [EQUALS] <= e.payload
  }

  function Written(e: Entry, key: Bytes): Bytes
    requires WritesTo(e, key)
  {
    e.payload[|key| + 1..]
  }

  /** Entry `i` is the last write to the key. */
  predicate LastWrite(log: seq<Entry>, key: Bytes, i: nat) {
    i < |log| && WritesTo(log[i], key) && forall j | i < j < |log| :: !WritesTo(log[j], key)
  }

  predicate NeverWritten(log: seq<Entry>, key: Bytes) {
    forall j | 0 <= j < |log| :: !WritesTo(log[j], key)
  }

  /** Commands are executed; the no-op, configuration entries and the empty payload change nothing and
      are not answered. */
  lemma OnlyCommandsExecute(kv: KV, e: Entry)
    ensures ApplyEntry(kv, e) == if IsCommand(e) then Execute(kv, e.payload) else (kv, NoAnswer)
  {
    hide Execute;
  }

  lemma ReplayLast(log: seq<Entry>)
    requires log != []
    ensures Replay(log) == ApplyEntry(Replay(log[..|log| - 1]), log[|log| - 1]).0
  {
  }

  /** What one entry does to a key. */
  lemma AppliedTo(kv: KV, e: Entry, key: Bytes)
    requires EQUALS !in key
    ensures var kv' := ApplyEntry(kv, e).0;
            if WritesTo(e, key) then key in kv'.data && kv'.data[key] == Written(e, key)
            else (key in kv'.data <==> key in kv.data) && (key in kv.data ==> kv'.data[key] == kv.data[key])
  {
    hide Execute;
    if IsCommand(e) {
      var k, value := WriteOrRead(e.payload);
      if EQUALS in e.payload {
        WriteFrame(kv, k, value);
        SameKey(e.payload, key, k, value);
      } else {
        ReadFrame(kv, e.payload);
        EqualsInside(e.payload, key);
      }
    }
  }

  lemma EqualsInside(payload: Bytes, key: Bytes)
    ensures key + [EQUALS] <= payload ==> EQUALS in payload
  {
    if key + [EQUALS] <= payload {
      assert payload[|key|] == (key + [EQUALS])[|key|];
    }
  }

  /** The first `=` ends the key. */
  lemma SameKey(payload: Bytes, key: Bytes, k: Bytes, value: Bytes)
    requires EQUALS !in key && EQUALS !in k && payload == k + [EQUALS] + value
    ensures key + [EQUALS] <= payload <==> key == k
    ensures key == k ==> payload[|key| + 1..] == value
  {
    if key + [EQUALS] <= payload {
      IndexOfFirst(payload, EQUALS, |k|);
      assert payload[..|key|] == key && payload[|key|] == (key + [EQUALS])[|key|];
      IndexOfFirst(payload, EQUALS, |key|);
      assert k == payload[..|k|];
    }
    if key == k {
      assert key + [EQUALS] <= payload;
    }
  }

  /** A key reads as the value of the last write to it. */
  lemma {:induction false} LastWriteIsRead(log: seq<Entry>, key: Bytes, i: nat)
    requires EQUALS !in key && LastWrite(log, key, i)
    ensures key in Replay(log).data && Replay(log).data[key] == Written(log[i], key)
  {
    hide ApplyEntry, WritesTo, Replay;
    var front, e := log[..|log| - 1], log[|log| - 1];
    ReplayLast(log);
    AppliedTo(Replay(front), e, key);
    if i < |front| {
      LastWriteIsRead(front, key, i);
    }
  }

  /** A key that was never written reads as nothing. */
  lemma {:induction false} NeverWrittenIsNone(log: seq<Entry>, key: Bytes)
    requires EQUALS !in key && NeverWritten(log, key)
    ensures key !in Replay(log).data
  {
    hide ApplyEntry, WritesTo;
    if log != [] {
      NeverWrittenIsNone(log[..|log| - 1], key);
      AppliedTo(Replay(log[..|log| - 1]), log[|log| - 1], key);
    }
  }

  function Commands(log: seq<Entry>): set<nat> {
    set i: nat | i < |log| && IsCommand(log[i])
  }

  /** Every command counts once, and nothing else does. */
  lemma {:induction false} CommandsAreCounted(log: seq<Entry>)
    ensures Replay(log).ops == |Commands(log)|
  {
    hide IsCommand, ApplyEntry;
    if log != [] {
      var front, e := log[..|log| - 1], log[|log| - 1];
      CommandsAreCounted(front);
      CountsOne(Replay(front), e);
      if IsCommand(e) {
        assert Commands(log) == Commands(front) + {|front|};
      } else {
        assert Commands(log) == Commands(front);
      }
    }
  }

  lemma CountsOne(kv: KV, e: Entry)
    ensures ApplyEntry(kv, e).0.ops == kv.ops + if IsCommand(e) then 1 else 0
  {
    OnlyCommandsExecute(kv, e);
  }

  // ------------------------------------------------------------------ what reads answer

  /** The answer of a read: the last value written before, or none. */
  ghost predicate AnswersLastWrite(log: seq<Entry>, key: Bytes, answer: Answer) {
    answer.Fetched? && answer.key == key
    && match answer.value
       case None => NeverWritten(log, key)
       case Some(value) => exists i: nat :: LastWrite(log, key, i) && value == Written(log[i], key)
  }

  lemma {:induction false} SomeLastWrite(log: seq<Entry>, key: Bytes) returns (i: nat)
    requires !NeverWritten(log, key)
    ensures LastWrite(log, key, i)
  {
    hide WritesTo;
    var n := |log| - 1;
    if WritesTo(log[n], key) {
      i := n;
    } else {
      i := SomeLastWrite(log[..n], key);
    }
  }

  lemma ReadAnswers(log: seq<Entry>, e: Entry)
    requires IsCommand(e) && EQUALS !in e.payload
    ensures AnswersLastWrite(log, e.payload, ApplyEntry(Replay(log), e).1)
  {
    hide WritesTo, Execute;
    ReadFrame(Replay(log), e.payload);
    if NeverWritten(log, e.payload) {
      NeverWrittenIsNone(log, e.payload);
    } else {
      var i := SomeLastWrite(log, e.payload);
      LastWriteIsRead(log, e.payload, i);
    }
  }

  /** In every guarded run every read that was ever applied answered the last write before it, in the
      log of every node that has committed so far. */
  lemma ReadsAnswerLastWrites(p: Params, run: seq<Action>, r: Applied, k: nat, v: NodeId)
    requires GuardedRun(p, run) && r in Reach(p, run).trace && k <= |run| && v in State(p, run, k).nodes
    ensures var s := State(p, run, k).nodes[v];
            1 <= r.index <= s.commit ==>
              s.commit <= |s.log| && s.log[r.index - 1].payload == r.payload
              && (IsCommand(s.log[r.index - 1]) && EQUALS !in r.payload ==>
                    AnswersLastWrite(s.log[..r.index - 1], r.payload, r.answer))
  {
    hide GuardedRun, HistoryOk, Chronicle, Backed, AppliedOk, IsCommand, AnswersLastWrite, ApplyEntry;
    var hs := GuardedRunHasChronicle(p, run);
    ChronicleLength(p, run, hs);
    CommittedInRun(p, run, hs, k, v);
    var s := State(p, run, k).nodes[v];
    if 1 <= r.index <= s.commit {
      AppliedInRun(p, run, hs, r);
      ExplainedByLog(p, hs[|run|], s.term, s.log[..s.commit], r);
      var e := s.log[r.index - 1];
      assert s.log[..s.commit][..r.index - 1] == s.log[..r.index - 1] && s.log[..s.commit][r.index - 1] == e;
      if IsCommand(e) && EQUALS !in r.payload {
        ReadAnswers(s.log[..r.index - 1], e);
      }
    }
  }

  lemma AppliedInRun(p: Params, run: seq<Action>, hs: seq<History>, r: Applied)
    requires Chronicle(p, run, hs) && hs[|run|].matched && r in Reach(p, run).trace
    ensures AppliedOk(p, hs[|run|], r)
  {
    hide HistoryOk, NodesOk, NetOk, AppliedOk, Grows;
    assert run[..|run|] == run;
    assert Inv(p, State(p, run, |run|), hs[|run|]);
  }

  /** An application fits every backed log that reaches it. */
  lemma ExplainedByLog(p: Params, h: History, term: nat, log: seq<Entry>, r: Applied)
    requires HistoryOk(p, h) && AppliedOk(p, h, r) && Backed(p, h, term, log) && 1 <= r.index <= |log|
    ensures Explains(log, r)
  {
    hide HistoryOk, Replay, ApplyEntry;
    var t: nat, i: nat :| Chosen(p, h, t, i) && Explains(h.reigns[t].log[..i], r);
    var a := h.reigns[t].log[..i];
    assert Backed(p, h, t, a);
    BackedAgree(p, h, t, a, term, log);
    ReplayOfPrefix(a, log, r.index);
    assert a[..r.index - 1] == a[..r.index][..r.index - 1] && log[..r.index - 1] == log[..r.index][..r.index - 1];
    assert a[r.index - 1] == a[..r.index][r.index - 1] && log[r.index - 1] == log[..r.index][r.index - 1];
  }
}
