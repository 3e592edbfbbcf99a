/**
 The Raft log kept on disk (pylog/durable_log.py): each entry is a record whose payload is
 an 8-byte big-endian term and the entry's payload, entry `i` at offset `i - 1`. Its merge is
 written differently from the in-memory one; it is proved to do the same.
 */
module DurableLogs {
  import opened Basics
  import opened RaftLogs
  import opened LogMerges
  import opened Records
  import opened Scans
  import opened Disks
  import opened SegmentModel
  import opened LogModel
  import opened LogCrashes
  import opened CommitLogs

  const TERM_BYTES := 8

  function EncodeEntryPayload(term: nat, payload: Bytes): Bytes {
    BigEndian(term, TERM_BYTES) + payload
  }

  /** Shorter blobs make unpacking raise an error. */
  function DecodeEntryPayload(blob: Bytes): (nat, Bytes)
    requires |blob| >= TERM_BYTES
  {
    (FromBigEndian(blob[..TERM_BYTES]), blob[TERM_BYTES..])
  }

  lemma PayloadRoundTrip(term: nat, payload: Bytes)
    requires term < TWO64
    ensures |EncodeEntryPayload(term, payload)| == TERM_BYTES + |payload|
    ensures DecodeEntryPayload(EncodeEntryPayload(term, payload)) == (term, payload)
  {
    Powers();
    BigEndianRoundTrip(term, TERM_BYTES);
    hide BigEndian, FromBigEndian;
    assert (BigEndian(term, TERM_BYTES) + payload)[..TERM_BYTES] == BigEndian(term, TERM_BYTES);
  }

  /** The term comes first, in eight bytes, the most significant first. */
  lemma PayloadLayout(term: nat, payload: Bytes)
    requires term < TWO64
    ensures var b := EncodeEntryPayload(term, payload);
            |b| == 8 + |payload| && LongBig(b, 0) == term && b[8..] == payload
  {
    hide BigEndian, FromBigEndian;
    PayloadRoundTrip(term, payload);
    var b := EncodeEntryPayload(term, payload);
    LongBigIs(b[..8]);
  }

  lemma PayloadOnto(blob: Bytes)
    requires |blob| >= TERM_BYTES
    ensures var (term, payload) := DecodeEntryPayload(blob); EncodeEntryPayload(term, payload) == blob
  {
    BigEndianOnto(blob[..TERM_BYTES]);
    hide BigEndian, FromBigEndian;
    assert blob[..TERM_BYTES] + blob[TERM_BYTES..] == blob;
  }

  // -------------------------------------------------------- records and entries

  predicate Decodable(rs: seq<Record>) {
    forall i | 0 <= i < |rs| :: |rs[i].payload| >= TERM_BYTES
  }

  function EntryOf(r: Record): Entry
    requires |r.payload| >= TERM_BYTES
  {
    var (term, payload) := DecodeEntryPayload(r.payload);
    Entry(r.offset + 1, term, payload)
  }

  function EntriesOf(rs: seq<Record>): seq<Entry>
    requires Decodable(rs)
  {
    seq(|rs|, i requires 0 <= i < |rs| => EntryOf(rs[i]))
  }

  /** The log on disk is the log in memory. */
  predicate Mirrors(rs: seq<Record>, entries: seq<Entry>) {
    Decodable(rs) && EntriesOf(rs) == entries
  }

  lemma MirrorsPrefix(rs: seq<Record>, entries: seq<Entry>, n: nat)
    requires Mirrors(rs, entries) && n <= |rs|
    ensures n <= |entries| && Mirrors(rs[..n], entries[..n])
  {
  }

  lemma MirrorsConcat(rs: seq<Record>, entries: seq<Entry>, more: seq<Record>, added: seq<Entry>)
    requires Mirrors(rs, entries) && Mirrors(more, added)
    ensures Mirrors(rs + more, entries + added)
  {
  }

  /** Entry `i` is at offset `i - 1`, as exactly its encoding. */
  lemma MirrorsMeans(rs: seq<Record>, entries: seq<Entry>)
    requires Mirrors(rs, entries) && Consecutive(0, rs)
    ensures |rs| == |entries| && Contiguous(entries)
    ensures forall i | 0 <= i < |rs| ::
              rs[i].offset == i && rs[i].payload == EncodeEntryPayload(entries[i].term, entries[i].payload)
  {
    forall i | 0 <= i < |rs|
      ensures rs[i].payload == EncodeEntryPayload(entries[i].term, entries[i].payload)
    {
      PayloadOnto(rs[i].payload);
      assert entries[i] == EntryOf(rs[i]);
    }
  }

  /** The payloads to write for new entries. */
  function PayloadsOf(entries: seq<Entry>): (ps: seq<Bytes>)
    ensures |ps| == |entries|
  {
    seq(|entries|, i requires 0 <= i < |entries| => EncodeEntryPayload(entries[i].term, entries[i].payload))
  }

  predicate Fits(e: Entry) {
    e.term < TWO64 && TERM_BYTES + |e.payload| <= MAX_RECORD_BYTES
  }

  predicate AllFit(entries: seq<Entry>) {
    forall i | 0 <= i < |entries| :: Fits(entries[i])
  }

  predicate IsTime(now: int) {
    -TWO63 <= now < TWO63
  }

  function Times(now: int, n: nat): seq<int> {
    seq(n, i => now)
  }

  /** New entries numbered after index `last` become records that mirror them. */
  lemma WrittenMirror(entries: seq<Entry>, last: nat, now: int)
    requires AllFit(entries) && IsTime(now) && last + |entries| <= TWO64
    requires forall i | 0 <= i < |entries| :: entries[i].index == last + 1 + i
    ensures var rs := Numbered(last, PayloadsOf(entries), Times(now, |entries|));
            |rs| == |entries| && Mirrors(rs, entries) && AllStorable(rs)
  {
    var rs := Numbered(last, PayloadsOf(entries), Times(now, |entries|));
    forall i | 0 <= i < |rs|
      ensures |rs[i].payload| >= TERM_BYTES && EntryOf(rs[i]) == entries[i] && Storable(rs[i])
    {
      PayloadRoundTrip(entries[i].term, entries[i].payload);
    }
  }

  // ---------------------------------------------------------------------- merge

  /** The entries below an index. */
  function BelowIndex(entries: seq<Entry>, cut: nat): seq<Entry> {
    if entries == [] then []
    else
      var front, e := BelowIndex(entries[..|entries| - 1], cut), entries[|entries| - 1];
      if e.index < cut then front + [e] else front
  }

  /** The incoming entries past index `last`, by the index they carry, renumbered from there. */
  function Additions(incoming: seq<Entry>, last: nat): seq<Entry> {
    if incoming == [] then []
    else
      var front, e := Additions(incoming[..|incoming| - 1], last), incoming[|incoming| - 1];
      if e.index > last then front + [e.(index := last + 1 + |front|)] else front
  }

  /** What the durable merge leaves: it cuts at the first gap and adds what is past the rest. */
  function DurableKept(log: seq<Entry>, prev: nat, incoming: seq<Entry>): seq<Entry> {
    var k := FirstGap(log, prev, incoming, 0);
    if k < |incoming| then BelowIndex(log, prev + 1 + k) else log
  }

  function DurableOutcome(log: seq<Entry>, prev: nat, prevTerm: int, incoming: seq<Entry>): (seq<Entry>, MergeResult) {
    if prev > LastIndex(log) then (log, MergeResult(false, 0, LastIndex(log) + 1))
    else if TermAt(log, prev) != prevTerm then
      (log, MergeResult(false, 0, ConflictHint(log, TermAt(log, prev), prev)))
    else
      var kept := DurableKept(log, prev, incoming);
      (kept + Additions(incoming, LastIndex(kept)), MergeResult(true, prev + |incoming|, 0))
  }

  lemma {:induction false} BelowIndexIsPrefix(log: seq<Entry>, cut: nat)
    requires Contiguous(log) && 1 <= cut <= |log| + 1
    ensures BelowIndex(log, cut) == log[..cut - 1]
  {
    if log != [] {
      var front := log[..|log| - 1];
      if cut == |log| + 1 {
        BelowIndexIsPrefix(front, cut - 1);
        BelowIndexMore(front, cut);
        assert front + [log[|log| - 1]] == log == log[..cut - 1];
      } else {
        BelowIndexIsPrefix(front, cut);
        assert front[..cut - 1] == log[..cut - 1];
      }
    }
  }

  lemma {:induction false} BelowIndexMore(log: seq<Entry>, cut: nat)
    requires Contiguous(log) && |log| < cut
    ensures BelowIndex(log, cut) == log
  {
    if log != [] {
      BelowIndexMore(log[..|log| - 1], cut);
    }
  }

  lemma {:induction false} AdditionsNumbered(incoming: seq<Entry>, last: nat)
    ensures forall i | 0 <= i < |Additions(incoming, last)| :: Additions(incoming, last)[i].index == last + 1 + i
    ensures |Additions(incoming, last)| <= |incoming|
    ensures AllFit(incoming) ==> AllFit(Additions(incoming, last))
  {
    if incoming != [] {
      AdditionsNumbered(incoming[..|incoming| - 1], last);
    }
  }

  /** Correctly numbered entries past `last` are a suffix of what came in. */
  lemma {:induction false} AdditionsAreSuffix(prev: nat, incoming: seq<Entry>, last: nat)
    requires WellIndexed(prev, incoming) && prev <= last
    ensures Additions(incoming, last) == if last - prev < |incoming| then Renumbered(incoming[last - prev..], last) else []
  {
    hide Renumbered;
    if incoming != [] {
      var front, e := incoming[..|incoming| - 1], incoming[|incoming| - 1];
      AdditionsAreSuffix(prev, front, last);
      assert e.index == prev + |incoming|;
      if last - prev < |incoming| {
        assert incoming[last - prev..] == front[last - prev..] + [e];
        RenumberedSnoc(front[last - prev..], e, last);
        if last - prev == |front| {
          RenumberedNone(front[last - prev..], last);
        }
      }
    }
  }

  lemma RenumberedNone(a: seq<Entry>, last: nat)
    requires a == []
    ensures Renumbered(a, last) == []
  {
  }

  lemma RenumberedSnoc(a: seq<Entry>, e: Entry, last: nat)
    ensures Renumbered(a + [e], last) == Renumbered(a, last) + [e.(index := last + 1 + |a|)] && |Renumbered(a, last)| == |a|
  {
  }

  /** On correctly numbered entries the durable merge is the in-memory merge. */
  lemma DurableRefines(log: seq<Entry>, prev: nat, prevTerm: int, incoming: seq<Entry>)
    requires Contiguous(log) && WellIndexed(prev, incoming)
    ensures DurableOutcome(log, prev, prevTerm, incoming) == MergeOutcome(log, prev, prevTerm, incoming)
  {
    hide Additions, DurableKept, Merged, WellIndexed, Contiguous, ConflictHint;
    if Accepts(log, prev, prevTerm) {
      AcceptedRefines(log, prev, incoming);
    }
  }

  lemma AcceptedRefines(log: seq<Entry>, prev: nat, incoming: seq<Entry>)
    requires Contiguous(log) && WellIndexed(prev, incoming) && prev <= LastIndex(log)
    ensures var kept := DurableKept(log, prev, incoming);
            kept + Additions(incoming, LastIndex(kept)) == Merged(log, prev, incoming)
  {
    hide Renumbered, Additions, BelowIndex, WellIndexed, FirstGap, Contiguous, LastIndex;
    LastIsLength(log);
    FirstGapMeans(log, prev, incoming, 0);
    var k := FirstGap(log, prev, incoming, 0);
    GapInside(log, prev, incoming, 0);
    if k < |incoming| {
      BelowIndexIsPrefix(log, prev + 1 + k);
      PrefixContiguous(log, prev + k);
      LastIsLength(log[..prev + k]);
      AdditionsAreSuffix(prev, incoming, prev + k);
    } else {
      AdditionsAreSuffix(prev, incoming, |log|);
    }
  }

  lemma LastIsLength(log: seq<Entry>)
    requires Contiguous(log)
    ensures LastIndex(log) == |log|
  {
  }

  lemma PrefixContiguous(log: seq<Entry>, n: nat)
    requires Contiguous(log) && n <= |log|
    ensures Contiguous(log[..n])
  {
  }

  /** Numbering matters: an entry that carries too low an index is dropped by the durable
      merge and kept by the other. */
  lemma MisnumberedEntryLost()
    ensures var e := Entry(0, 1, []);
            DurableOutcome([], 0, 0, [e]) != MergeOutcome([], 0, 0, [e])
  {
    var e := Entry(0, 1, []);
    assert FirstGap([], 0, [e], 0) == 0;
    assert |Merged([], 0, [e])| == 1;
    assert Additions([e], 0) == [] by { assert Additions([e][..0], 0) == []; }
  }

  // ------------------------------------------------------------- opening and crashes

  /** Opening these files gives the entries `kept` and some first ones of `added`. */
  ghost predicate Rebuilds(c: Settings, files: Files, kept: seq<Entry>, added: seq<Entry>) {
    var segs := Reopened(c, files);
    OpensAsLog(c, files)
    && exists j: nat :: j <= |added| && Mirrors(Contents(c, segs), kept + added[..j])
  }

  /** The directory holds a log that starts at offset 0 and decodes. */
  ghost predicate OpensAsLog(c: Settings, files: Files) {
    var segs := Reopened(c, files);
    LogOk(c, segs) && segs[0].base == 0 && Decodable(Contents(c, segs))
  }

  ghost predicate RebuildsThroughout(c: Settings, start: Files, ops: seq<Op>, kept: seq<Entry>, added: seq<Entry>) {
    forall after | CrashDuring(start, ops, after) :: Rebuilds(c, after, kept, added)
  }

  lemma KeepsRebuilds(c: Settings, x: Intent, files: Files, kept: seq<Entry>, added: seq<Entry>)
    requires Keeps(c, x, files) && x.first == 0 && Mirrors(x.all, kept) && Mirrors(x.batch, added)
    ensures Rebuilds(c, files, kept, added)
  {
    hide LogOk, Contents, Reopened, Mirrors;
    var segs := Reopened(c, files);
    var j: nat :| j <= |x.batch| && Contents(c, segs) == x.all + x.batch[..j];
    MirrorsPrefix(x.batch, added, j);
    MirrorsConcat(x.all, kept, x.batch[..j], added[..j]);
    MirrorsDecode(Contents(c, segs), kept + added[..j]);
  }

  lemma MirrorsDecode(rs: seq<Record>, entries: seq<Entry>)
    requires Mirrors(rs, entries)
    ensures Decodable(rs) && |rs| == |entries|
  {
  }

  lemma CrashesRebuild(c: Settings, x: Intent, ops: seq<Op>, kept: seq<Entry>, added: seq<Entry>)
    requires CrashSafe(c, x, ops) && x.first == 0 && Mirrors(x.all, kept) && Mirrors(x.batch, added)
    ensures RebuildsThroughout(c, x.start, ops, kept, added)
  {
    hide Keeps, Rebuilds, Mirrors, CrashDuring;
    forall after | CrashDuring(x.start, ops, after)
      ensures Rebuilds(c, after, kept, added)
    {
      KeepsRebuilds(c, x, after, kept, added);
    }
  }

  lemma NothingCrashes(c: Settings, files: Files, kept: seq<Entry>)
    requires Rebuilds(c, files, kept, [])
    ensures RebuildsThroughout(c, files, [], kept, []) && kept + [] == kept
  {
    hide Rebuilds;
    DoNoneOrOne(files, Create(0));
  }

  /** The entries that opening a directory gives. */
  ghost function Opened(c: Settings, files: Files): seq<Entry>
    requires OpensAsLog(c, files)
  {
    EntriesOf(Contents(c, Reopened(c, files)))
  }

  /** All that is kept, then some of what was there before or some of what the merge was to leave. */
  predicate Between(before: seq<Entry>, kept: seq<Entry>, merged: seq<Entry>, log: seq<Entry>) {
    kept <= log && (log <= before || log <= merged)
  }

  /** A merge on disk: the files and their segments before it, the entries before it, those before
      the first gap, and those after it. */
  datatype MergeIntent = MergeIntent(start: Files, segs: seq<Seg>, before: seq<Entry>, kept: seq<Entry>, merged: seq<Entry>)

  ghost predicate Described(c: Settings, x: MergeIntent) {
    LogOk(c, x.segs) && Stores(x.start, x.segs) && x.segs[0].base == 0 && Mirrors(Contents(c, x.segs), x.before)
    && x.kept <= x.before && x.kept <= x.merged
  }

  /** What a crash left opens as a log exactly when it did not come between two deletions, and then
      with all the entries kept and no others than first ones of the old or of the merged log. */
  ghost predicate Recovers(c: Settings, x: MergeIntent, after: Files) {
    (OpensAsLog(c, after) <==> !Midst(x.segs, |x.kept|, x.start, after))
    && (OpensAsLog(c, after) ==> Between(x.before, x.kept, x.merged, Opened(c, after)))
  }

  /** Wherever the crash comes, the directory opens as a log. */
  ghost predicate AlwaysOpens(c: Settings, files: Files, ops: seq<Op>) {
    forall after | CrashDuring(files, ops, after) :: OpensAsLog(c, after)
  }

  /** What each crash leaves, and that all of them leave a log exactly when at most one segment lies
      behind the one that the first gap falls into. */
  ghost predicate MergedSafely(c: Settings, x: MergeIntent, ops: seq<Op>) {
    (forall after | CrashDuring(x.start, ops, after) :: Recovers(c, x, after))
    && (AlwaysOpens(c, x.start, ops) <==> NearEnd(x.segs, |x.kept|))
  }

  /** A crash in the truncation. */
  lemma CutRecovers(c: Settings, x: MergeIntent, done: seq<Record>, after: Files)
    requires Described(c, x) && done <= Contents(c, x.segs) && |done| == |x.kept|
    requires Withstands(c, x.segs, x.start, |x.kept|, done, after)
    ensures Recovers(c, x, after)
  {
    hide LogOk, Stores, Contents, Reopened, Midst, Mirrors, Stage;
    if LogOk(c, Reopened(c, after)) {
      LogIsTiled(c, x.segs);
      var rs :| Opens(c, after, x.segs[0].base, rs) && Stage(c, x.segs, |x.kept|, done, rs);
      var n := StageIsPrefix(c, x.segs, |x.kept|, done, rs);
      var all := Contents(c, x.segs);
      MirrorsPrefix(all, x.before, n);
      MirrorsDecode(all, x.before);
      OpenedIs(c, after, rs, x.before[..n]);
    }
  }

  lemma MirrorsOpened(c: Settings, files: Files, entries: seq<Entry>)
    requires OpensAsLog(c, files) && Mirrors(Contents(c, Reopened(c, files)), entries)
    ensures entries == Opened(c, files)
  {
  }

  lemma OpenedIs(c: Settings, files: Files, rs: seq<Record>, entries: seq<Entry>)
    requires Opens(c, files, 0, rs) && Mirrors(rs, entries)
    ensures OpensAsLog(c, files) && Opened(c, files) == entries
  {
  }

  /** A crash while entries are added. */
  lemma AddingRecovers(c: Settings, x: MergeIntent, after: Files)
    requires Described(c, x) && Rebuilds(c, after, x.kept, x.merged[|x.kept|..])
    ensures Recovers(c, x, after)
  {
    hide LogOk, Stores, Contents, Reopened, Midst, Decodable;
    var added := x.merged[|x.kept|..];
    var j: nat :| j <= |added| && Mirrors(Contents(c, Reopened(c, after)), x.kept + added[..j]);
    assert x.merged == x.kept + added;
    if Midst(x.segs, |x.kept|, x.start, after) {
      MidstIsNoLog(c, x.segs, x.start, |x.kept|, after);
    }
  }

  lemma MergeRecovers(c: Settings, x: MergeIntent, done: seq<Record>, cut: seq<Op>, adds: seq<Op>)
    requires Described(c, x) && done <= Contents(c, x.segs) && |done| == |x.kept|
    requires CutSafely(c, x.segs, x.start, |x.kept|, done, cut)
    requires RebuildsThroughout(c, DoAll(x.start, cut), adds, x.kept, x.merged[|x.kept|..])
    ensures MergedSafely(c, x, cut + adds)
  {
    hide Contents, DoAll, CrashDuring, Withstands, Recovers, Rebuilds, Described, NearEnd, AlwaysLog;
    forall after | CrashDuring(x.start, cut + adds, after)
      ensures Recovers(c, x, after) && (NearEnd(x.segs, |x.kept|) ==> OpensAsLog(c, after))
    {
      CrashConcat(x.start, cut, adds, after);
      if CrashDuring(x.start, cut, after) {
        CutRecovers(c, x, done, after);
      } else {
        AddingRecovers(c, x, after);
      }
      if NearEnd(x.segs, |x.kept|) {
        NearOpens(c, x, after);
      }
    }
    if !NearEnd(x.segs, |x.kept|) {
      var after := CutBreaks(c, x.start, cut);
      CrashSooner(x.start, cut, adds, after);
    }
  }

  lemma NearOpens(c: Settings, x: MergeIntent, after: Files)
    requires Recovers(c, x, after) && NearEnd(x.segs, |x.kept|)
    ensures OpensAsLog(c, after)
  {
    hide OpensAsLog, Midst, NearEnd, Between;
    NearEndNoMidst(x.segs, |x.kept|, x.start, after);
  }

  lemma CutBreaks(c: Settings, files: Files, ops: seq<Op>) returns (after: Files)
    requires !AlwaysLog(c, files, ops)
    ensures CrashDuring(files, ops, after) && !OpensAsLog(c, after)
  {
    hide LogOk, CrashDuring, Reopened, Decodable;
    after :| CrashDuring(files, ops, after) && !LogOk(c, Reopened(c, after));
  }

  lemma WholeRange(rs: seq<Record>)
    ensures RangeFrom(rs, 0, |rs|) == rs
  {
  }

  /** The entries before the first gap, on disk as in memory. */
  lemma GapCut(all: seq<Record>, entries: seq<Entry>, prev: nat, incoming: seq<Entry>)
    requires Mirrors(all, entries) && Contiguous(entries) && prev <= |all| == |entries|
    ensures var kept, k := DurableKept(entries, prev, incoming), FirstGap(entries, prev, incoming, 0);
            kept <= entries && Mirrors(all[..Kept(0, |all|, |kept|)], kept)
            && if k < |incoming| then kept == BelowIndex(entries, prev + 1 + k) && |kept| == prev + k else kept == entries
  {
    hide Mirrors, BelowIndex, FirstGap, Contiguous;
    var k := FirstGap(entries, prev, incoming, 0);
    GapInside(entries, prev, incoming, 0);
    if k < |incoming| {
      BelowIndexIsPrefix(entries, prev + 1 + k);
      MirrorsPrefix(all, entries, prev + k);
    } else {
      assert all[..|all|] == all;
    }
  }

  class DurableRaftLog {
    const disk: CommitLog
    var entries: seq<Entry>

    /** Memory mirrors disk: entry `i` is the record at offset `i - 1`, and there are no others. */
    ghost predicate Valid()
      reads this, disk, disk.Reads()
    {
      disk.Valid() && disk.First() == 0 && Mirrors(disk.All(), entries)
    }

    lemma Coherence()
      requires Valid()
      ensures disk.nextOffset == |entries| == |disk.All()| == LastIndex(entries) && Contiguous(entries)
      ensures forall i | 0 <= i < |entries| ::
                disk.All()[i].offset == i && disk.All()[i].payload == EncodeEntryPayload(entries[i].term, entries[i].payload)
    {
      hide LogOk, Stores, Contents, Mirrors;
      ContentsShape(disk.settings, disk.Views());
      MirrorsMeans(disk.All(), entries);
    }

    /** Opens the log that a directory holds, rebuilding the entries from its records. */
    constructor (settings: Settings, files: Disk)
      requires OpensAsLog(settings, files.files)
      modifies files
      ensures Valid() && fresh(disk) && disk.disk == files && disk.settings == settings && fresh(disk.Repr() - {files})
      ensures entries == Opened(settings, old(files.files))
      ensures old(files.journal) <= files.journal
      ensures ReopensAlike(settings, old(files.files), files.journal[|old(files.journal)|..])
    {
      hide LogOk, Contents, Stores, Reopened, Decodable, Mirrors, ViewsOf, ReopensAlike;
      var log := new CommitLog(settings, files);
      disk := log;
      entries := [];
      new;
      disk.FirstBase();
      Rebuild();
      MirrorsOpened(settings, old(files.files), entries);
    }

    /** Reads every record of the disk back into memory. */
    method Rebuild()
      requires disk.Valid() && disk.First() == 0 && Decodable(disk.All())
      modifies `entries
      ensures Mirrors(disk.All(), entries)
    {
      hide LogOk, Contents, Stores, ViewsOf, RangeFrom, Mirrors;
      disk.FirstBase();
      ContentsShape(disk.settings, disk.Views());
      var records := disk.ReadRange(0, disk.nextOffset);
      WholeRange(disk.All());
      Load(records);
    }

    method Load(records: seq<Record>)
      requires Decodable(records)
      modifies `entries
      ensures Mirrors(records, entries)
    {
      entries := [];
      var i := 0;
      while i < |records|
        invariant 0 <= i <= |records| && entries == EntriesOf(records)[..i]
      {
        entries := entries + [EntryOf(records[i])];
        i := i + 1;
      }
    }

    method AppendEntry(term: nat, payload: Bytes, now: int) returns (entry: Entry)
      requires Valid() && Fits(Entry(0, term, payload)) && IsTime(now) && |entries| < TWO64
      modifies this, disk, disk.disk, disk.segments
      ensures Valid() && fresh(disk.Repr() - old(disk.Repr()))
      ensures entry == Entry(|old(entries)| + 1, term, payload) && entries == old(entries) + [entry]
      ensures old(disk.disk.journal) <= disk.disk.journal
      ensures RebuildsThroughout(disk.settings, old(disk.disk.files), disk.disk.journal[|old(disk.disk.journal)|..],
                                 old(entries), [entry])
    {
      hide LogOk, Stores, Contents, Mirrors, RebuildsThroughout;
      Coherence();
      entry := Entry(LastIndex(entries) + 1, term, payload);
      ghost var kept := entries;
      entries := entries + [entry];
      AddToDisk([entry], now, kept);
    }

    /** Writes the entries just added to memory. */
    method AddToDisk(added: seq<Entry>, now: int, ghost kept: seq<Entry>)
      requires disk.Valid() && disk.First() == 0 && Mirrors(disk.All(), kept) && entries == kept + added
      requires AllFit(added) && IsTime(now) && |kept| + |added| <= TWO64 && disk.nextOffset == |kept|
      requires forall i | 0 <= i < |added| :: added[i].index == |kept| + 1 + i
      modifies disk, disk.disk, disk.segments
      ensures Valid() && fresh(disk.Repr() - old(disk.Repr()))
      ensures old(disk.disk.journal) <= disk.disk.journal
      ensures RebuildsThroughout(disk.settings, old(disk.disk.files), disk.disk.journal[|old(disk.disk.journal)|..], kept, added)
    {
      hide LogOk, Stores, Contents, Mirrors, AllFit, CrashSafe, RebuildsThroughout, PayloadsOf;
      WrittenMirror(added, |kept|, now);
      ghost var x := disk.Plan(Numbered(|kept|, PayloadsOf(added), Times(now, |added|)));
      var _ := disk.AppendMany(PayloadsOf(added), Times(now, |added|));
      MirrorsConcat(x.all, kept, x.batch, added);
      CrashesRebuild(disk.settings, x, disk.disk.journal[|old(disk.disk.journal)|..], kept, added);
    }

    /** The files as they are reopen to the entries as they are. */
    lemma Reopens()
      requires Valid()
      ensures Rebuilds(disk.settings, disk.disk.files, entries, [])
    {
      hide LogOk, Stores, Contents, Reopened, Mirrors;
      ReopenedSame(disk.settings, disk.Views(), disk.disk.files);
      disk.FirstBase();
      MirrorsDecode(disk.All(), entries);
      assert entries + [][..0] == entries;
    }

    /** The first incoming entry that is missing or differs by term. */
    method FindCut(prev: nat, incoming: seq<Entry>) returns (k: nat)
      ensures k == FirstGap(entries, prev, incoming, 0) && k <= |incoming|
    {
      k := 0;
      while k < |incoming|
        invariant k <= |incoming| && FirstGap(entries, prev, incoming, 0) == FirstGap(entries, prev, incoming, k)
      {
        var local := TermAt(entries, prev + 1 + k);
        if local == -1 || local != incoming[k].term {
          break;
        }
        k := k + 1;
      }
    }

    /** Cuts memory and disk at the first gap. */
    method CutAtGap(prev: nat, incoming: seq<Entry>)
      requires Valid() && prev <= LastIndex(entries)
      modifies this, disk, disk.disk, disk.segments
      ensures Valid() && fresh(disk.Repr() - old(disk.Repr()))
      ensures entries == DurableKept(old(entries), prev, incoming) && entries <= old(entries)
      ensures disk.All() <= old(disk.All()) && disk.TruncatedSafely(|entries|)
    {
      hide LogOk, Stores, Contents, Mirrors, FirstGap, DurableKept;
      var k := FindCut(prev, incoming);
      CutFrom(prev, incoming, k);
    }

    method CutFrom(prev: nat, incoming: seq<Entry>, k: nat)
      requires Valid() && prev <= LastIndex(entries) && k == FirstGap(entries, prev, incoming, 0)
      modifies this, disk, disk.disk, disk.segments
      ensures Valid() && fresh(disk.Repr() - old(disk.Repr()))
      ensures entries == DurableKept(old(entries), prev, incoming) && entries <= old(entries)
      ensures disk.All() <= old(disk.All()) && disk.TruncatedSafely(|entries|)
    {
      hide LogOk, Stores, Contents, DoAll, ViewsOf, Mirrors, BelowIndex, FirstGap, Contiguous, CutSafely,
        DurableKept, Kept;
      Coherence();
      GapCut(disk.All(), entries, prev, incoming);
      if k < |incoming| {
        entries := BelowIndex(entries, prev + 1 + k);
        var _ := disk.TruncateFrom(prev + k);
      } else {
        disk.NextAtEnd();
        disk.Untouched(|entries|);
      }
    }

    /** Adds the incoming entries past the end of the log. */
    method AddFresh(incoming: seq<Entry>, now: int)
      requires Valid() && AllFit(incoming) && IsTime(now) && |entries| + |incoming| <= TWO64
      modifies this, disk, disk.disk, disk.segments
      ensures Valid() && fresh(disk.Repr() - old(disk.Repr()))
      ensures entries == old(entries) + Additions(incoming, LastIndex(old(entries)))
      ensures old(disk.disk.journal) <= disk.disk.journal
      ensures RebuildsThroughout(disk.settings, old(disk.disk.files), disk.disk.journal[|old(disk.disk.journal)|..],
                                 old(entries), Additions(incoming, LastIndex(old(entries))))
    {
      hide LogOk, Stores, Contents, DoAll, ViewsOf, Mirrors, RebuildsThroughout, Contiguous;
      Coherence();
      ghost var kept := entries;
      var last := LastIndex(entries);
      var toAdd: seq<Entry> := [];
      var i := 0;
      while i < |incoming|
        modifies {}
        invariant 0 <= i <= |incoming| && toAdd == Additions(incoming[..i], last)
      {
        assert incoming[..i + 1][..i] == incoming[..i];
        if incoming[i].index > last {
          toAdd := toAdd + [incoming[i].(index := last + 1 + |toAdd|)];
        }
        i := i + 1;
      }
      assert incoming[..i] == incoming;
      AdditionsNumbered(incoming, last);
      if toAdd == [] {
        NothingAdded();
      } else {
        entries := entries + toAdd;
        AddToDisk(toAdd, now, kept);
      }
    }

    lemma NothingAdded()
      requires Valid()
      ensures RebuildsThroughout(disk.settings, disk.disk.files, disk.disk.journal[|disk.disk.journal|..], entries, [])
      ensures entries + [] == entries
    {
      hide Rebuilds, RebuildsThroughout;
      Reopens();
      hide Valid;
      assert disk.disk.journal[|disk.disk.journal|..] == [];
      NothingCrashes(disk.settings, disk.disk.files, entries);
    }

    /** What a merge is about to do. */
    ghost function MergePlan(prev: nat, incoming: seq<Entry>): MergeIntent
      reads this, disk, disk.Reads(), disk.disk
    {
      var kept := DurableKept(entries, prev, incoming);
      MergeIntent(disk.disk.files, disk.Views(), entries, kept, kept + Additions(incoming, LastIndex(kept)))
    }

    /** A crash anywhere since the old state leaves the log in between. */
    twostate predicate MergedDurably(prev: nat, incoming: seq<Entry>)
      reads this, disk, disk.Reads(), disk.disk
    {
      old(disk.disk.journal) <= disk.disk.journal
      && MergedSafely(disk.settings, old(MergePlan(prev, incoming)), disk.disk.journal[|old(disk.disk.journal)|..])
    }

    lemma PlanDescribed(prev: nat, incoming: seq<Entry>)
      requires Valid() && prev <= LastIndex(entries)
      ensures Described(disk.settings, MergePlan(prev, incoming))
    {
      hide LogOk, Stores, Contents, Mirrors, DurableKept, Additions;
      disk.FirstBase();
      Coherence();
      GapCut(disk.All(), entries, prev, incoming);
    }

    method MergeAccepted(prev: nat, incoming: seq<Entry>, now: int)
      requires Valid() && prev <= LastIndex(entries)
      requires AllFit(incoming) && IsTime(now) && |entries| + |incoming| <= TWO64
      modifies this, disk, disk.disk, disk.segments
      ensures Valid() && fresh(disk.Repr() - old(disk.Repr()))
      ensures var kept := DurableKept(old(entries), prev, incoming); entries == kept + Additions(incoming, LastIndex(kept))
      ensures MergedDurably(prev, incoming)
    {
      hide LogOk, Stores, Contents, DoAll, ViewsOf, Mirrors, RebuildsThroughout, DurableKept, Additions, AllFit,
        CutSafely, Described, MergedSafely;
      ghost var x, journal := MergePlan(prev, incoming), disk.disk.journal;
      PlanDescribed(prev, incoming);
      CutAtGap(prev, incoming);
      Coherence();
      ghost var mid, done, kept := disk.disk.journal, disk.All(), entries;
      AddFresh(incoming, now);
      assert x.merged[|kept|..] == Additions(incoming, LastIndex(kept));
      MergeRecovers(disk.settings, x, done, mid[|journal|..], disk.disk.journal[|mid|..]);
      assert disk.disk.journal[|journal|..] == mid[|journal|..] + disk.disk.journal[|mid|..];
    }

    /** The AppendEntries core on memory and disk. */
    method Merge(prev: nat, prevTerm: int, incoming: seq<Entry>, now: int) returns (r: MergeResult)
      requires Valid() && AllFit(incoming) && IsTime(now) && |entries| + |incoming| <= TWO64
      modifies this, disk, disk.disk, disk.segments
      ensures Valid() && fresh(disk.Repr() - old(disk.Repr()))
      ensures (entries, r) == DurableOutcome(old(entries), prev, prevTerm, incoming)
      ensures WellIndexed(prev, incoming) ==> (entries, r) == MergeOutcome(old(entries), prev, prevTerm, incoming)
      ensures if r.ok then MergedDurably(prev, incoming) else disk.disk.journal == old(disk.disk.journal)
    {
      hide LogOk, Stores, Contents, ViewsOf, Mirrors, MergedSafely, DurableKept, Additions, AllFit, WellIndexed,
        MergeOutcome;
      Coherence();
      if WellIndexed(prev, incoming) {
        DurableRefines(entries, prev, prevTerm, incoming);
      }
      if prev > LastIndex(entries) {
        return MergeResult(false, 0, LastIndex(entries) + 1);
      }
      var local := TermAt(entries, prev);
      if local != prevTerm {
        var hint := ConflictTermFirstIndex(entries, local, prev);
        return MergeResult(false, 0, hint);
      }
      MergeAccepted(prev, incoming, now);
      r := MergeResult(true, prev + |incoming|, 0);
    }
  }
}
