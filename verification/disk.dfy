/**
 The directory of log files as a map from base offset to bytes, and every change made to it
 in order. A crash leaves the directory after some of the changes, the last of them perhaps
 written only in part.
 */
module Disks {
  import opened Basics

  type Files = map<nat, Bytes>

  datatype Op =
    | Create(base: nat)               // create the file, or empty it
    | Write(base: nat, data: Bytes)   // append
    | Cut(base: nat, size: nat)       // shorten to `size` bytes
    | Remove(base: nat)

  function Content(files: Files, base: nat): Bytes {
    if base in files then files[base] else []
  }

  function Do(files: Files, op: Op): Files {
    match op
    case Create(base) => files[base := []]
    case Write(base, data) => files[base := Content(files, base) + data]
    case Cut(base, size) =>
      if size <= |Content(files, base)| then files[base := Content(files, base)[..size]] else files
    case Remove(base) => files - {base}
  }

  function DoAll(files: Files, ops: seq<Op>): Files {
    if ops == [] then files else Do(DoAll(files, ops[..|ops| - 1]), ops[|ops| - 1])
  }

  /** An operation interrupted: a write stops after some of its bytes, the others do not begin. */
  ghost predicate Interrupted(files: Files, op: Op, after: Files) {
    after == files
    || (op.Write? && exists n: nat :: n <= |op.data| && after == Do(files, Write(op.base, op.data[..n])))
  }

  /** `after` is what a crash somewhere during `ops` can leave. */
  ghost predicate CrashDuring(files: Files, ops: seq<Op>, after: Files) {
    after == DoAll(files, ops)
    || exists k: nat :: k < |ops| && Interrupted(DoAll(files, ops[..k]), ops[k], after)
  }

  /** A crash during one more operation is a crash before it, or it was interrupted, or it was done. */
  lemma CrashSnoc(files: Files, ops: seq<Op>, op: Op, after: Files)
    requires CrashDuring(files, ops + [op], after)
    ensures CrashDuring(files, ops, after)
            || Interrupted(DoAll(files, ops), op, after)
            || after == Do(DoAll(files, ops), op)
  {
    var all := ops + [op];
    assert all[..|all| - 1] == ops;
    if after != DoAll(files, all) {
      var k: nat :| k < |all| && Interrupted(DoAll(files, all[..k]), all[k], after);
      if k < |ops| {
        assert all[..k] == ops[..k] && all[k] == ops[k];
      }
    }
  }

  predicate NoWrites(ops: seq<Op>) {
    forall k | 0 <= k < |ops| :: !ops[k].Write?
  }

  /** Where nothing is written, a crash leaves the directory after some first operations. */
  lemma CrashBetween(files: Files, ops: seq<Op>, after: Files) returns (k: nat)
    requires NoWrites(ops) && CrashDuring(files, ops, after)
    ensures k <= |ops| && after == DoAll(files, ops[..k])
  {
    if after == DoAll(files, ops) {
      assert ops[..|ops|] == ops;
      k := |ops|;
    } else {
      k :| k < |ops| && Interrupted(DoAll(files, ops[..k]), ops[k], after);
    }
  }

  /** A crash in the first stretch is a crash in the whole. */
  lemma CrashSooner(files: Files, a: seq<Op>, b: seq<Op>, after: Files)
    requires CrashDuring(files, a, after)
    ensures CrashDuring(files, a + b, after)
  {
    hide DoAll;
    if after == DoAll(files, a) {
      assert (a + b)[..|a|] == a;
      if b == [] {
        assert a + b == a;
      }
    } else {
      var k: nat :| k < |a| && Interrupted(DoAll(files, a[..k]), a[k], after);
      assert (a + b)[..k] == a[..k] && (a + b)[k] == a[k];
    }
  }

  /** Between any two operations a crash may come. */
  lemma CrashAfter(files: Files, ops: seq<Op>, k: nat)
    requires k <= |ops|
    ensures CrashDuring(files, ops, DoAll(files, ops[..k]))
  {
    hide DoAll;
    if k == |ops| {
      assert ops[..k] == ops;
    }
  }

  /** A crash in the first of two stretches or in the second. */
  lemma CrashConcat(files: Files, a: seq<Op>, b: seq<Op>, after: Files)
    requires CrashDuring(files, a + b, after)
    ensures CrashDuring(files, a, after) || CrashDuring(DoAll(files, a), b, after)
  {
    hide DoAll;
    DoAllConcat(files, a, b);
    if after != DoAll(files, a + b) {
      var k: nat :| k < |a + b| && Interrupted(DoAll(files, (a + b)[..k]), (a + b)[k], after);
      hide Interrupted;
      if k < |a| {
        assert (a + b)[..k] == a[..k] && (a + b)[k] == a[k];
      } else {
        var j := k - |a|;
        assert (a + b)[..k] == a + b[..j] && (a + b)[k] == b[j];
        DoAllConcat(files, a, b[..j]);
      }
    }
  }

  lemma DoAllSnoc(files: Files, ops: seq<Op>, op: Op)
    ensures DoAll(files, ops + [op]) == Do(DoAll(files, ops), op)
  {
    assert (ops + [op])[..|ops|] == ops;
  }

  lemma {:induction false} DoAllConcat(files: Files, a: seq<Op>, b: seq<Op>)
    ensures DoAll(files, a + b) == DoAll(DoAll(files, a), b)
  {
    if b == [] {
      assert a + b == a;
    } else {
      DoAllConcat(files, a, b[..|b| - 1]);
      assert (a + b)[..|a + b| - 1] == a + b[..|b| - 1];
    }
  }

  lemma DoNoneOrOne(files: Files, op: Op)
    ensures DoAll(files, []) == files && DoAll(files, [op]) == Do(files, op)
  {
    DoAllSnoc(files, [], op);
    assert [] + [op] == [op];
  }

  /** What the journal has recorded since it was `j0`, with a stop at `j1`. */
  lemma TwoStretches(files: Files, j0: seq<Op>, j1: seq<Op>, j2: seq<Op>)
    requires j0 <= j1 <= j2
    ensures j2[|j0|..] == j1[|j0|..] + j2[|j1|..]
    ensures DoAll(files, j2[|j0|..]) == DoAll(DoAll(files, j1[|j0|..]), j2[|j1|..])
  {
    hide DoAll;
    DoAllConcat(files, j1[|j0|..], j2[|j1|..]);
    assert j2[|j0|..] == j1[|j0|..] + j2[|j1|..];
  }

  class Disk {
    var files: Files
    ghost var journal: seq<Op>

    constructor (files: Files)
      ensures this.files == files && journal == []
    {
      this.files, journal := files, [];
    }

    method Perform(op: Op)
      modifies this
      ensures files == Do(old(files), op) && journal == old(journal) + [op]
    {
      files, journal := Do(files, op), journal + [op];
    }
  }
}
