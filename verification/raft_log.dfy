/**
 The in-memory Raft log (pylog/raft.py, class RaftLog) without compaction: entry
 indexes are contiguous and start at 1, index 0 is a sentinel of term 0.
 The functions on `seq<Entry>` say what the log's methods compute; the class below
 computes it the way the source does, with the source's loops.
 */
module RaftLogs {
  import opened Basics

  datatype Entry = Entry(index: nat, term: nat, payload: Bytes)

  /** The outcome of an AppendEntries: accepted up to `matchIndex`, or refused with a back-off hint. */
  datatype MergeResult = MergeResult(ok: bool, matchIndex: nat, hint: nat)

  predicate Contiguous(log: seq<Entry>) {
    forall i | 0 <= i < |log| :: log[i].index == i + 1
  }

  function LastIndex(log: seq<Entry>): nat {
    if log == [] then 0 else log[|log| - 1].index
  }

  function LastTerm(log: seq<Entry>): nat {
    if log == [] then 0 else log[|log| - 1].term
  }

  function TermAt(log: seq<Entry>, index: int): int {
    if index == 0 then 0 else if 1 <= index <= |log| then log[index - 1].term else -1
  }

  function EntriesFrom(log: seq<Entry>, index: int, limit: nat): seq<Entry> {
    var from := Max(0, index - 1);
    var out := if from <= |log| then log[from..] else [];
    if 0 < limit < |out| then out[..limit] else out
  }

  /** The greatest index at or below `i` that carries `term`, or 0. */
  function SeekBack(log: seq<Entry>, term: int, i: nat): nat {
    if i > 0 && TermAt(log, i) != term then SeekBack(log, term, i - 1) else i
  }

  /** The first index of the run of entries of `term` that ends at `i`. */
  function RunStart(log: seq<Entry>, term: int, i: nat): nat {
    if i > 1 && TermAt(log, i - 1) == term then RunStart(log, term, i - 1) else i
  }

  function ConflictHint(log: seq<Entry>, term: int, from: nat): nat {
    Max(1, RunStart(log, term, SeekBack(log, term, from)))
  }

  /** The first position at or after `k` whose incoming entry the log does not already hold, by term. */
  function FirstGap(log: seq<Entry>, prev: nat, incoming: seq<Entry>, k: nat): nat
    decreases |incoming| - k
  {
    if k < |incoming| && TermAt(log, prev + 1 + k) == incoming[k].term
    then FirstGap(log, prev, incoming, k + 1)
    else k
  }

  /** Entries renumbered to follow index `last`. */
  function Renumbered(incoming: seq<Entry>, last: nat): seq<Entry> {
    seq(|incoming|, i requires 0 <= i < |incoming| => incoming[i].(index := last + 1 + i))
  }

  function Accepts(log: seq<Entry>, prev: nat, prevTerm: int): bool {
    prev <= LastIndex(log) && TermAt(log, prev) == prevTerm
  }

  /** The log after an accepted append: untouched when it already holds every incoming
      entry, otherwise cut at the first gap and continued with the incoming entries. */
  function Merged(log: seq<Entry>, prev: nat, incoming: seq<Entry>): seq<Entry> {
    var k := FirstGap(log, prev, incoming, 0);
    if k >= |incoming| then log
    else log[..Min(prev + k, |log|)] + Renumbered(incoming[k..], prev + k)
  }

  function MergeOutcome(log: seq<Entry>, prev: nat, prevTerm: int, incoming: seq<Entry>): (seq<Entry>, MergeResult) {
    if prev > LastIndex(log) then (log, MergeResult(false, 0, LastIndex(log) + 1))
    else if TermAt(log, prev) != prevTerm then
      (log, MergeResult(false, 0, ConflictHint(log, TermAt(log, prev), prev)))
    else (Merged(log, prev, incoming), MergeResult(true, prev + |incoming|, 0))
  }

  lemma OutcomeContiguous(log: seq<Entry>, prev: nat, prevTerm: int, incoming: seq<Entry>)
    requires Contiguous(log)
    ensures Contiguous(MergeOutcome(log, prev, prevTerm, incoming).0)
  {
    hide ConflictHint;
    if Accepts(log, prev, prevTerm) {
      GapInside(log, prev, incoming, 0);
    }
  }

  /** Entries held by term are held by index: the gap is not past the end of the log. */
  lemma {:induction false} GapInside(log: seq<Entry>, prev: nat, incoming: seq<Entry>, k: nat)
    requires prev + k <= |log| && k <= |incoming|
    ensures prev + FirstGap(log, prev, incoming, k) <= |log| && FirstGap(log, prev, incoming, k) <= |incoming|
    decreases |incoming| - k
  {
    if k < |incoming| && TermAt(log, prev + 1 + k) == incoming[k].term {
      GapInside(log, prev, incoming, k + 1);
    }
  }

  /** Where to back off to: the start of the run of `term` at or below `from`. */
  method ConflictTermFirstIndex(entries: seq<Entry>, term: int, from: nat) returns (first: nat)
    ensures first == ConflictHint(entries, term, from)
  {
    var i := from;
    while i > 0 && TermAt(entries, i) != term
      invariant SeekBack(entries, term, from) == SeekBack(entries, term, i)
    {
      i := i - 1;
    }
    ghost var top := i;
    while i > 1 && TermAt(entries, i - 1) == term
      invariant RunStart(entries, term, top) == RunStart(entries, term, i)
    {
      i := i - 1;
    }
    first := Max(1, i);
  }

  class RaftLog {
    var entries: seq<Entry>

    constructor ()
      ensures entries == []
    {
      entries := [];
    }

    method AppendEntry(term: nat, payload: Bytes) returns (entry: Entry)
      requires Contiguous(entries)
      modifies this
      ensures entry == Entry(old(|entries|) + 1, term, payload)
      ensures entries == old(entries) + [entry]
      ensures Contiguous(entries)
    {
      entry := Entry(LastIndex(entries) + 1, term, payload);
      entries := entries + [entry];
    }

    /** Appends `incoming[from..]`, each entry renumbered from its place after `prev`. */
    method Extend(prev: nat, incoming: seq<Entry>, from: nat)
      requires from <= |incoming|
      modifies this
      ensures entries == old(entries) + Renumbered(incoming[from..], prev + from)
    {
      var k := from;
      while k < |incoming|
        invariant from <= k <= |incoming|
        invariant entries == old(entries) + Renumbered(incoming[from..], prev + from)[..k - from]
      {
        entries := entries + [incoming[k].(index := prev + 1 + k)];
        k := k + 1;
      }
      assert Renumbered(incoming[from..], prev + from)[..k - from] == Renumbered(incoming[from..], prev + from);
    }

    method Merge(prev: nat, prevTerm: int, incoming: seq<Entry>) returns (r: MergeResult)
      requires Contiguous(entries)
      modifies this
      ensures (entries, r) == MergeOutcome(old(entries), prev, prevTerm, incoming)
      ensures Contiguous(entries)
    {
      hide Renumbered, ConflictHint;
      OutcomeContiguous(entries, prev, prevTerm, incoming);
      if prev > LastIndex(entries) {
        return MergeResult(false, 0, LastIndex(entries) + 1);
      }
      if TermAt(entries, prev) != prevTerm {
        var hint := ConflictTermFirstIndex(entries, TermAt(entries, prev), prev);
        return MergeResult(false, 0, hint);
      }
      var insertAt := |incoming|;
      var k := 0;
      while k < |incoming|
        invariant k <= |incoming| && entries == old(entries) && insertAt == |incoming|
        invariant prev + k <= |entries|
        invariant FirstGap(entries, prev, incoming, 0) == FirstGap(entries, prev, incoming, k)
      {
        var idx := prev + 1 + k;
        var local := TermAt(entries, idx);
        if local == -1 {
          insertAt := k;
          break;
        }
        if local != incoming[k].term {
          entries := entries[..idx - 1];
          insertAt := k;
          break;
        }
        k := k + 1;
      }
      if insertAt < |incoming| {
        assert entries == old(entries)[..prev + insertAt];
        Extend(prev, incoming, insertAt);
      }
      r := MergeResult(true, prev + |incoming|, 0);
    }
  }
}
