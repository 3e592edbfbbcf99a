/**
 What a crash in the middle of a change to the commit log costs: nothing but the records
 being added, when adding; and exactly when truncating across segments is safe.
 */
module LogCrashes {
  import opened Basics
  import opened Records
  import opened Scans
  import opened Disks
  import opened SegmentModel
  import opened LogModel

  /** Records being added to a log: its files and contents before, and the batch. */
  datatype Intent = Intent(start: Files, first: nat, all: seq<Record>, batch: seq<Record>)

  /** Reopening these files gives the log as it was and some first records of the batch. */
  ghost predicate Keeps(c: Settings, x: Intent, files: Files) {
    var segs := Reopened(c, files);
    LogOk(c, segs) && segs[0].base == x.first
    && exists j: nat :: j <= |x.batch| && Contents(c, segs) == x.all + x.batch[..j]
  }

  /** So does what a crash anywhere during `ops` leaves. */
  ghost predicate CrashSafe(c: Settings, x: Intent, ops: seq<Op>) {
    forall after | CrashDuring(x.start, ops, after) :: Keeps(c, x, after)
  }

  /** The segments hold the old records and the first `i` of the batch. */
  ghost predicate Holds(c: Settings, x: Intent, files: Files, segs: seq<Seg>, i: nat) {
    && LogOk(c, segs) && Stores(files, segs) && segs[0].base == x.first
    && i <= |x.batch| && Contents(c, segs) == x.all + x.batch[..i]
  }

  /** How far the addition has come, after operations that were safe at every point. */
  ghost predicate Midway(c: Settings, x: Intent, ops: seq<Op>, segs: seq<Seg>, i: nat) {
    Holds(c, x, DoAll(x.start, ops), segs, i) && CrashSafe(c, x, ops)
  }

  /** The next records of the batch, numbered to follow the last segment. */
  predicate Follows(x: Intent, segs: seq<Seg>, i: nat, chunk: seq<Record>) {
    && segs != [] && i + |chunk| <= |x.batch| && chunk == x.batch[i..i + |chunk|]
    && AllStorable(chunk) && Consecutive(segs[|segs| - 1].next, chunk)
  }

  function WriteOp(c: Settings, segs: seq<Seg>, chunk: seq<Record>): Op
    requires segs != []
  {
    Write(segs[|segs| - 1].base, EncodeAll(c.crc, chunk))
  }

  lemma HoldsKeeps(c: Settings, x: Intent, files: Files, segs: seq<Seg>, i: nat)
    requires Holds(c, x, files, segs, i)
    ensures Keeps(c, x, files)
  {
    hide LogOk, Stores, Contents, Reopened;
    ReopenedSame(c, segs, files);
  }

  lemma MidwayStart(c: Settings, x: Intent, segs: seq<Seg>)
    requires LogOk(c, segs) && Stores(x.start, segs) && segs[0].base == x.first && Contents(c, segs) == x.all
    ensures Midway(c, x, [], segs, 0)
  {
    hide LogOk, Stores, Contents, Keeps;
    assert DoAll(x.start, []) == x.start;
    assert x.all == x.all + x.batch[..0];
    HoldsKeeps(c, x, x.start, segs, 0);
  }

  /** A write cut short keeps the log and some of the records written. */
  lemma PartKeeps(c: Settings, x: Intent, files: Files, segs: seq<Seg>, i: nat, chunk: seq<Record>, n: nat)
    requires Holds(c, x, files, segs, i) && Follows(x, segs, i, chunk) && n <= |EncodeAll(c.crc, chunk)|
    ensures Keeps(c, x, Do(files, Write(segs[|segs| - 1].base, EncodeAll(c.crc, chunk)[..n])))
  {
    hide LogOk, Stores, Contents, Reopened, AllStorable, EncodeAll, Consecutive;
    var j := ReopenedTail(c, segs, files, chunk, n);
    assert x.all + x.batch[..i] + chunk[..j] == x.all + x.batch[..i + j];
  }

  lemma WriteCrashes(c: Settings, x: Intent, ops: seq<Op>, segs: seq<Seg>, i: nat, chunk: seq<Record>)
    requires Midway(c, x, ops, segs, i) && Follows(x, segs, i, chunk)
    ensures CrashSafe(c, x, ops + [WriteOp(c, segs, chunk)])
  {
    hide Holds, EncodeAll, Keeps, CrashDuring, DoAll;
    var op := WriteOp(c, segs, chunk);
    forall after | CrashDuring(x.start, ops + [op], after)
      ensures Keeps(c, x, after)
    {
      CrashSnoc(x.start, ops, op, after);
      if !CrashDuring(x.start, ops, after) {
        if after == DoAll(x.start, ops) {
          HoldsKeeps(c, x, after, segs, i);
        } else {
          assert op.data[..|op.data|] == op.data;
          var n: nat :| n <= |op.data| && after == Do(DoAll(x.start, ops), Write(op.base, op.data[..n]));
          PartKeeps(c, x, DoAll(x.start, ops), segs, i, chunk, n);
        }
      }
    }
  }

  /** A chunk of the batch written to the last segment. */
  lemma MidwayWrites(c: Settings, x: Intent, ops: seq<Op>, segs: seq<Seg>, i: nat, chunk: seq<Record>, segs': seq<Seg>)
    requires Midway(c, x, ops, segs, i) && Follows(x, segs, i, chunk)
    requires segs' == LastBy(segs, GrowAll(c, segs[|segs| - 1], chunk))
    requires Stores(DoAll(x.start, ops + [WriteOp(c, segs, chunk)]), segs')
    ensures Midway(c, x, ops + [WriteOp(c, segs, chunk)], segs', i + |chunk|)
  {
    hide LogOk, Stores, Contents, EncodeAll, Consecutive, AllStorable, CrashSafe, GrowAll, DoAll, Follows, LastBy;
    WriteCrashes(c, x, ops, segs, i, chunk);
    FollowsFacts(x, segs, i, chunk);
    LastGrows(c, segs, chunk);
  }

  lemma FollowsFacts(x: Intent, segs: seq<Seg>, i: nat, chunk: seq<Record>)
    requires Follows(x, segs, i, chunk)
    ensures segs != [] && i + |chunk| <= |x.batch| && AllStorable(chunk) && Consecutive(segs[|segs| - 1].next, chunk)
    ensures x.all + x.batch[..i] + chunk == x.all + x.batch[..i + |chunk|]
  {
    hide AllStorable, Consecutive;
  }

  /** A new segment opened after the last one. */
  lemma MidwayRolls(c: Settings, x: Intent, ops: seq<Op>, segs: seq<Seg>, i: nat, segs': seq<Seg>)
    requires Midway(c, x, ops, segs, i) && segs != [] && segs[|segs| - 1].size > 0
    requires segs' == segs + [EmptySeg(segs[|segs| - 1].next)]
    requires Stores(DoAll(x.start, ops + [Create(segs[|segs| - 1].next)]), segs')
    ensures Midway(c, x, ops + [Create(segs[|segs| - 1].next)], segs', i)
  {
    hide LogOk, Stores, Contents, DoAll, CrashDuring, Keeps;
    var op := Create(segs[|segs| - 1].next);
    SegmentAdded(c, segs);
    forall after | CrashDuring(x.start, ops + [op], after)
      ensures Keeps(c, x, after)
    {
      CrashSnoc(x.start, ops, op, after);
      DoAllSnoc(x.start, ops, op);
      if !CrashDuring(x.start, ops, after) {
        HoldsKeeps(c, x, after, if after == DoAll(x.start, ops) then segs else segs', i);
      }
    }
  }

  /** When the whole batch is in. */
  lemma MidwayDone(c: Settings, x: Intent, ops: seq<Op>, segs: seq<Seg>)
    requires Midway(c, x, ops, segs, |x.batch|)
    ensures segs != [] && segs[0].base == x.first && Contents(c, segs) == x.all + x.batch && CrashSafe(c, x, ops)
  {
    assert x.batch[..|x.batch|] == x.batch;
  }

  // ------------------------------------------------------------------- truncation

  /** Deletion of segments' files, in their order. */
  function Removals(segs: seq<Seg>): (ops: seq<Op>)
    ensures |ops| == |segs|
  {
    seq(|segs|, k requires 0 <= k < |segs| => Remove(segs[k].base))
  }

  lemma RemovalsSnoc(segs: seq<Seg>, s: Seg)
    ensures Removals(segs + [s]) == Removals(segs) + [Remove(s.base)]
    ensures Bases(segs + [s]) == Bases(segs) + {s.base}
  {
    BasesSnoc(segs, s);
  }

  lemma {:induction false} RemovalsDone(files: Files, segs: seq<Seg>)
    ensures DoAll(files, Removals(segs)) == files - Bases(segs)
  {
    hide Bases, Removals;
    if segs == [] {
      NothingRemoved(files, segs);
    } else {
      var front, s := segs[..|segs| - 1], segs[|segs| - 1];
      RemovalsDone(files, front);
      RemovalsSnoc(front, s);
      DoAllSnoc(files, Removals(front), Remove(s.base));
      assert front + [s] == segs;
    }
  }

  lemma NothingRemoved(files: Files, segs: seq<Seg>)
    requires segs == []
    ensures DoAll(files, Removals(segs)) == files - Bases(segs)
  {
  }

  /** What is left when the first `k` segments past segment `i` are gone. */
  function Survivors(segs: seq<Seg>, i: nat, k: nat): seq<Seg>
    requires i + 1 + k <= |segs|
  {
    segs[..i + 1] + segs[i + 1 + k..]
  }

  lemma SurvivorsStored(c: Settings, segs: seq<Seg>, i: nat, k: nat, files: Files)
    requires LogOk(c, segs) && i + 1 + k <= |segs| && Stores(files, segs)
    ensures Stores(DoAll(files, Removals(segs[i + 1..])[..k]), Survivors(segs, i, k))
  {
    hide LogOk, Stores;
    var gone := segs[i + 1..i + 1 + k];
    assert Removals(segs[i + 1..])[..k] == Removals(gone);
    RemovalsDone(files, gone);
    MiddleApart(c, segs, i, k);
    SomeRemoved(segs, files, Survivors(segs, i, k), gone);
  }

  lemma MiddleApart(c: Settings, segs: seq<Seg>, i: nat, k: nat)
    requires LogOk(c, segs) && i + 1 + k <= |segs|
    ensures forall s, t | s in Survivors(segs, i, k) && t in segs[i + 1..i + 1 + k] :: s.base != t.base
    ensures forall s :: s in segs <==> s in Survivors(segs, i, k) || s in segs[i + 1..i + 1 + k]
  {
    hide LogOk;
    Apart(c, segs, i + 1);
    Apart(c, segs, i + 1 + k);
    var front, gone, back := segs[..i + 1], segs[i + 1..i + 1 + k], segs[i + 1 + k..];
    assert segs == front + gone + back;
    assert segs[i + 1..] == gone + back && segs[..i + 1 + k] == front + gone;
  }

  /** Opening these files gives a log from `first` with the records `rs`. */
  ghost predicate Opens(c: Settings, files: Files, first: nat, rs: seq<Record>) {
    var segs := Reopened(c, files);
    LogOk(c, segs) && segs[0].base == first && Contents(c, segs) == rs
  }

  lemma StoredOpens(c: Settings, segs: seq<Seg>, files: Files)
    requires LogOk(c, segs) && Stores(files, segs)
    ensures Opens(c, files, segs[0].base, Contents(c, segs))
  {
    hide LogOk, Stores, Reopened, Contents;
    ReopenedSame(c, segs, files);
  }

  /** The directory after `k` of the deletions that truncation makes. */
  function AfterDeletions(segs: seq<Seg>, i: nat, k: nat, files: Files): Files
    requires i + 1 + k <= |segs|
  {
    DoAll(files, Removals(segs[i + 1..])[..k])
  }

  /** Some but not all of the segments past segment `i` are gone. */
  ghost predicate BetweenDeletions(segs: seq<Seg>, i: nat, files: Files, after: Files)
    requires i < |segs|
  {
    exists k: nat :: 0 < k && i + 1 + k < |segs| && after == AfterDeletions(segs, i, k, files)
  }

  /** Truncation deletes the later segments in ascending order. After `k` of the deletions the
      directory is a log exactly when none or all of them are done. */
  lemma InterruptedTruncation(c: Settings, segs: seq<Seg>, i: nat, k: nat, files: Files)
    requires LogOk(c, segs) && i + 1 + k <= |segs| && Stores(files, segs)
    ensures var after := AfterDeletions(segs, i, k, files);
            (LogOk(c, Reopened(c, after)) <==> k == 0 || i + 1 + k == |segs|)
            && (k == 0 ==> Opens(c, after, segs[0].base, Contents(c, segs)))
            && (i + 1 + k == |segs| ==> Opens(c, after, segs[0].base, Contents(c, segs[..i + 1])))
  {
    hide LogOk, Stores, Reopened, DoAll, Removals, Contents;
    SurvivorsStored(c, segs, i, k, files);
    var after := AfterDeletions(segs, i, k, files);
    if k == 0 {
      assert Survivors(segs, i, k) == segs;
      StoredOpens(c, segs, after);
    }
    if i + 1 + k == |segs| {
      assert Survivors(segs, i, k) == segs[..i + 1];
      LogFront(c, segs, i + 1);
      StoredOpens(c, segs[..i + 1], after);
    } else if k > 0 {
      GapStays(c, segs, i, k, after);
    }
  }

  /** The segment that an offset falls into, or the last one. */
  predicate HoldsOffset(segs: seq<Seg>, i: nat, offset: int) {
    i < |segs| && segs[i].base <= offset && (i + 1 < |segs| ==> offset < segs[i + 1].base)
  }

  /** `ops` delete the segments after the one that holds the offset and then cut that one, or nothing
      holds it and they do nothing. */
  ghost predicate Truncates(segs: seq<Seg>, offset: int, ops: seq<Op>) {
    (ops == [] && forall i: nat :: !HoldsOffset(segs, i, offset))
    || exists i: nat, cut: seq<Op> ::
         HoldsOffset(segs, i, offset) && NoWrites(cut) && |cut| <= 1 && ops == Removals(segs[i + 1..]) + cut
  }

  lemma TruncatesBy(segs: seq<Seg>, i: nat, offset: int, cut: seq<Op>)
    requires HoldsOffset(segs, i, offset) && NoWrites(cut) && |cut| <= 1
    ensures Truncates(segs, offset, Removals(segs[i + 1..]) + cut)
  {
  }

  /** Before the first segment and in the last one, truncating may leave everything as it is. */
  lemma TruncatesNothing(c: Settings, segs: seq<Seg>, offset: int)
    requires LogOk(c, segs) && (offset < segs[0].base || segs[|segs| - 1].base <= offset)
    ensures Truncates(segs, offset, [])
  {
    hide LogOk;
    LogIsTiled(c, segs);
    if offset < segs[0].base {
      forall i: nat | 0 < i < |segs|
        ensures segs[0].base < segs[i].base
      {
        BasesAscend(c, segs, 0, i);
      }
    } else {
      var i := |segs| - 1;
      assert HoldsOffset(segs, i, offset) && Removals(segs[i + 1..]) + [] == [];
    }
  }

  /** The crash came between two of the deletions that truncating at `offset` makes. */
  ghost predicate Midst(segs: seq<Seg>, offset: int, files: Files, after: Files) {
    exists i: nat :: HoldsOffset(segs, i, offset) && BetweenDeletions(segs, i, files, after)
  }

  /** The old log, or the log up to the end of the segment that holds the offset, or `done`. */
  ghost predicate Stage(c: Settings, segs: seq<Seg>, offset: int, done: seq<Record>, rs: seq<Record>) {
    rs == Contents(c, segs) || rs == done
    || exists i: nat :: HoldsOffset(segs, i, offset) && rs == Contents(c, segs[..i + 1])
  }

  /** What a crash in a truncation leaves opens as a log exactly when it did not come between two
      deletions, and then at one of the stages. */
  ghost predicate Withstands(c: Settings, segs: seq<Seg>, files: Files, offset: int, done: seq<Record>, after: Files)
    requires segs != []
  {
    (LogOk(c, Reopened(c, after)) <==> !Midst(segs, offset, files, after))
    && (LogOk(c, Reopened(c, after)) ==>
          exists rs :: Opens(c, after, segs[0].base, rs) && Stage(c, segs, offset, done, rs))
  }

  /** Wherever the crash comes, a log is left. */
  ghost predicate AlwaysLog(c: Settings, files: Files, ops: seq<Op>) {
    forall after | CrashDuring(files, ops, after) :: LogOk(c, Reopened(c, after))
  }

  /** At most one segment lies behind the one that holds the offset. */
  ghost predicate NearEnd(segs: seq<Seg>, offset: int) {
    forall i: nat | HoldsOffset(segs, i, offset) :: |segs| <= i + 2
  }

  /** Crashes anywhere during a truncation that leaves `done`: what each leaves, and that all of them
      leave a log exactly when at most one segment is to be deleted. */
  ghost predicate CutSafely(c: Settings, segs: seq<Seg>, files: Files, offset: int, done: seq<Record>, ops: seq<Op>)
    requires segs != []
  {
    (forall after | CrashDuring(files, ops, after) :: Withstands(c, segs, files, offset, done, after))
    && (AlwaysLog(c, files, ops) <==> NearEnd(segs, offset))
  }

  lemma NearEndNoMidst(segs: seq<Seg>, offset: int, files: Files, after: Files)
    requires NearEnd(segs, offset)
    ensures !Midst(segs, offset, files, after)
  {
    hide AfterDeletions, HoldsOffset;
  }

  /** With two segments or more to delete, a crash after the first deletion leaves a gap. */
  lemma FarCrash(c: Settings, segs: seq<Seg>, files: Files, offset: int, ops: seq<Op>) returns (after: Files)
    requires LogOk(c, segs) && Stores(files, segs) && Truncates(segs, offset, ops) && !NearEnd(segs, offset)
    ensures CrashDuring(files, ops, after) && !LogOk(c, Reopened(c, after))
  {
    hide LogOk, Stores, Reopened, DoAll, Removals, Opens, CrashDuring, NoWrites;
    var i: nat, cut: seq<Op> :|
      HoldsOffset(segs, i, offset) && NoWrites(cut) && |cut| <= 1 && ops == Removals(segs[i + 1..]) + cut;
    HolderIsOne(c, segs, offset, i);
    after := AfterDeletions(segs, i, 1, files);
    InterruptedTruncation(c, segs, i, 1, files);
    CrashAfter(files, ops, 1);
    assert ops[..1] == Removals(segs[i + 1..])[..1];
  }

  lemma HolderIsOne(c: Settings, segs: seq<Seg>, offset: int, i: nat)
    requires LogOk(c, segs) && HoldsOffset(segs, i, offset)
    ensures forall j: nat | HoldsOffset(segs, j, offset) :: j == i
  {
    hide LogOk;
    forall j: nat | HoldsOffset(segs, j, offset)
      ensures j == i
    {
      if i < j {
        LaterBase(c, segs, i, j);
      } else if j < i {
        LaterBase(c, segs, j, i);
      }
    }
  }

  lemma LaterBase(c: Settings, segs: seq<Seg>, i: nat, j: nat)
    requires LogOk(c, segs) && i < j < |segs|
    ensures segs[i + 1].base <= segs[j].base
  {
    hide LogOk;
    if i + 1 < j {
      BasesAscend(c, segs, i + 1, j);
    }
  }

  lemma MidstIsNoLog(c: Settings, segs: seq<Seg>, files: Files, offset: int, after: Files)
    requires LogOk(c, segs) && Stores(files, segs) && Midst(segs, offset, files, after)
    ensures !LogOk(c, Reopened(c, after))
  {
    hide LogOk, Stores, Reopened, DoAll, Removals, Opens;
    var i: nat :| HoldsOffset(segs, i, offset) && BetweenDeletions(segs, i, files, after);
    var k: nat :| 0 < k && i + 1 + k < |segs| && after == AfterDeletions(segs, i, k, files);
    InterruptedTruncation(c, segs, i, k, files);
  }

  lemma OpensWithstands(c: Settings, segs: seq<Seg>, files: Files, offset: int, done: seq<Record>, after: Files, rs: seq<Record>)
    requires LogOk(c, segs) && Stores(files, segs)
    requires Opens(c, after, segs[0].base, rs) && Stage(c, segs, offset, done, rs)
    ensures Withstands(c, segs, files, offset, done, after)
  {
    hide LogOk, Stores, Reopened, Midst, Stage, Contents;
    if Midst(segs, offset, files, after) {
      MidstIsNoLog(c, segs, files, offset, after);
    }
  }

  lemma TruncationCrash(c: Settings, segs: seq<Seg>, files: Files, offset: int, done: seq<Record>, ops: seq<Op>, after: Files)
    requires LogOk(c, segs) && Stores(files, segs) && Truncates(segs, offset, ops)
    requires Opens(c, DoAll(files, ops), segs[0].base, done) && CrashDuring(files, ops, after)
    ensures Withstands(c, segs, files, offset, done, after)
  {
    hide LogOk, Stores, Reopened, DoAll, Removals, Contents, Opens, CrashDuring, Withstands, BetweenDeletions;
    if ops == [] && forall i: nat :: !HoldsOffset(segs, i, offset) {
      var _ := CrashBetween(files, ops, after);
      assert DoAll(files, ops) == after;
      OpensWithstands(c, segs, files, offset, done, after, done);
    } else {
      var i: nat, cut: seq<Op> :|
        HoldsOffset(segs, i, offset) && NoWrites(cut) && |cut| <= 1 && ops == Removals(segs[i + 1..]) + cut;
      RemovalsOnly(segs[i + 1..]);
      var k := CrashBetween(files, ops, after);
      if i + 1 + k <= |segs| && ops[..k] == Removals(segs[i + 1..])[..k] {
        DeletionCrash(c, segs, files, offset, done, i, k);
      } else {
        assert ops[..k] == ops;
        OpensWithstands(c, segs, files, offset, done, after, done);
      }
    }
  }

  lemma RemovalsOnly(segs: seq<Seg>)
    ensures NoWrites(Removals(segs))
  {
  }

  lemma DeletionCrash(c: Settings, segs: seq<Seg>, files: Files, offset: int, done: seq<Record>, i: nat, k: nat)
    requires LogOk(c, segs) && Stores(files, segs) && HoldsOffset(segs, i, offset) && i + 1 + k <= |segs|
    ensures Withstands(c, segs, files, offset, done, AfterDeletions(segs, i, k, files))
  {
    hide LogOk, Stores, Reopened, DoAll, Removals, Contents, Opens;
    var after := AfterDeletions(segs, i, k, files);
    InterruptedTruncation(c, segs, i, k, files);
    if k == 0 {
      OpensWithstands(c, segs, files, offset, done, after, Contents(c, segs));
    } else if i + 1 + k == |segs| {
      OpensWithstands(c, segs, files, offset, done, after, Contents(c, segs[..i + 1]));
    } else {
      assert BetweenDeletions(segs, i, files, after);
      assert Midst(segs, offset, files, after);
    }
  }

  /** A truncation withstands crashes. */
  lemma TruncatesSafely(c: Settings, segs: seq<Seg>, files: Files, offset: int, done: seq<Record>, ops: seq<Op>)
    requires LogOk(c, segs) && Stores(files, segs) && Truncates(segs, offset, ops)
    requires Opens(c, DoAll(files, ops), segs[0].base, done)
    ensures CutSafely(c, segs, files, offset, done, ops)
  {
    hide LogOk, Stores, DoAll, Opens, CrashDuring, Truncates, Midst, NearEnd, Reopened, Stage;
    LogIsTiled(c, segs);
    forall after | CrashDuring(files, ops, after)
      ensures Withstands(c, segs, files, offset, done, after)
    {
      TruncationCrash(c, segs, files, offset, done, ops, after);
    }
    if NearEnd(segs, offset) {
      forall after | CrashDuring(files, ops, after)
        ensures LogOk(c, Reopened(c, after))
      {
        NearEndNoMidst(segs, offset, files, after);
      }
    } else {
      var after := FarCrash(c, segs, files, offset, ops);
    }
  }

  /** Every stage is a first part of the log that has all that truncation keeps. */
  lemma StageIsPrefix(c: Settings, segs: seq<Seg>, offset: int, done: seq<Record>, rs: seq<Record>) returns (n: nat)
    requires LogOk(c, segs) && Stage(c, segs, offset, done, rs)
    requires done == Contents(c, segs)[..Kept(segs[0].base, |Contents(c, segs)|, offset)]
    ensures |done| <= n <= |Contents(c, segs)| && rs == Contents(c, segs)[..n]
  {
    hide LogOk, Contents;
    var all := Contents(c, segs);
    assert all[..|all|] == all;
    LogIsTiled(c, segs);
    if rs == done {
      n := |done|;
    } else if rs == all {
      n := |all|;
    } else {
      var i: nat :| HoldsOffset(segs, i, offset) && rs == Contents(c, segs[..i + 1]);
      if i > 0 {
        BasesAscend(c, segs, 0, i);
      }
      if i + 1 < |segs| {
        ContentsFront(c, segs, i + 1);
        BasesAscend(c, segs, 0, i + 1);
        n := segs[i + 1].base - segs[0].base;
      } else {
        assert segs[..i + 1] == segs;
        n := |all|;
      }
    }
  }

  // ---------------------------------------------------- dropping segments in front

  /** Opening these files gives the log without some of its first segments, at most `n` of them. */
  ghost predicate LacksFront(c: Settings, segs: seq<Seg>, n: nat, files: Files) {
    exists k: nat :: k <= n && k < |segs| && Opens(c, files, segs[k].base, Contents(c, segs[k..]))
  }

  /** Deleting segments in front, in order, leaves a log wherever a crash stops it. */
  lemma FrontCrash(c: Settings, segs: seq<Seg>, n: nat, files: Files, after: Files)
    requires LogOk(c, segs) && n < |segs| && Stores(files, segs) && CrashDuring(files, Removals(segs[..n]), after)
    ensures LacksFront(c, segs, n, after)
  {
    hide LogOk, Stores, DoAll, Contents, Removals, Bases, CrashDuring;
    RemovalsOnly(segs[..n]);
    var k := CrashBetween(files, Removals(segs[..n]), after);
    assert Removals(segs[..n])[..k] == Removals(segs[..k]) by {
      RemovalsFront(segs, n, k);
    }
    RemovalsDone(files, segs[..k]);
    StoresBack(c, segs, files, k);
    FrontDropped(c, segs, k);
    StoredOpens(c, segs[k..], after);
  }

  /** So does a crash anywhere in these operations. */
  ghost predicate SweptSafely(c: Settings, segs: seq<Seg>, n: nat, files: Files, ops: seq<Op>) {
    forall after | CrashDuring(files, ops, after) :: LacksFront(c, segs, n, after)
  }

  lemma SweepsSafely(c: Settings, segs: seq<Seg>, n: nat, files: Files)
    requires LogOk(c, segs) && n < |segs| && Stores(files, segs)
    ensures SweptSafely(c, segs, n, files, Removals(segs[..n]))
  {
    hide LogOk, Stores, CrashDuring, LacksFront, Removals;
    forall after | CrashDuring(files, Removals(segs[..n]), after)
      ensures LacksFront(c, segs, n, after)
    {
      FrontCrash(c, segs, n, files, after);
    }
  }

  lemma RemovalsFront(segs: seq<Seg>, n: nat, k: nat)
    requires k <= n <= |segs|
    ensures Removals(segs[..n])[..k] == Removals(segs[..k])
  {
  }

  lemma SurvivorsAscend(c: Settings, segs: seq<Seg>, i: nat, k: nat)
    requires LogOk(c, segs) && i + 1 + k <= |segs|
    ensures var left := Survivors(segs, i, k); forall x, y | 0 <= x < y < |left| :: left[x].base < left[y].base
  {
    hide LogOk;
    var left := Survivors(segs, i, k);
    forall x, y | 0 <= x < y < |left|
      ensures left[x].base < left[y].base
    {
      BasesAscend(c, segs, if x <= i then x else x + k, if y <= i then y else y + k);
    }
  }

  lemma GapStays(c: Settings, segs: seq<Seg>, i: nat, k: nat, files: Files)
    requires LogOk(c, segs) && 0 < k && i + 1 + k < |segs| && Stores(files, Survivors(segs, i, k))
    ensures !LogOk(c, Reopened(c, files))
  {
    hide LogOk, Recovered, RecordsOf, Stores, Survivors, Bases, Reopened, Coherent;
    var left := Survivors(segs, i, k);
    SurvivorsAscend(c, segs, i, k);
    SurvivorsAround(segs, i, k);
    FilesOf(files, left);
    ReopenedIs(c, files, left);
    CoherentIn(c, segs, i);
    RecoveredSame(c, segs[i]);
    LogIsTiled(c, segs);
    BasesAscend(c, segs, i + 1, i + 1 + k);
    RecoveredBase(c, left[i + 1].base, files[left[i + 1].base]);
    NotTiled(c, Reopened(c, files), i);
  }

  lemma SurvivorsAround(segs: seq<Seg>, i: nat, k: nat)
    requires i + 1 + k < |segs|
    ensures var left := Survivors(segs, i, k);
            |left| == |segs| - k && left[i] == segs[i] && left[i + 1] == segs[i + 1 + k]
  {
  }

  lemma FilesOf(files: Files, segs: seq<Seg>)
    requires Stores(files, segs)
    ensures files.Keys == Bases(segs)
    ensures forall x | 0 <= x < |segs| :: segs[x].base in files && files[segs[x].base] == segs[x].file
  {
    forall x | 0 <= x < |segs|
      ensures segs[x].base in files && files[segs[x].base] == segs[x].file
    {
      assert segs[x] in segs;
    }
  }

  lemma NotTiled(c: Settings, segs: seq<Seg>, i: nat)
    requires i + 1 < |segs| && segs[i].next != segs[i + 1].base
    ensures !LogOk(c, segs)
  {
    hide AllCoherent;
  }

  lemma CoherentIn(c: Settings, segs: seq<Seg>, i: nat)
    requires LogOk(c, segs) && i < |segs|
    ensures Coherent(c, segs[i])
  {
  }

  lemma RecoveredBase(c: Settings, base: nat, file: Bytes)
    ensures Recovered(c, base, file).base == base
  {
    BuiltShape(c, base, Scan(c.crc, file));
  }
}
