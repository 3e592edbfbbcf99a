/**
 What one segment of the log holds and caches (pylog/log.py, class Segment): its file and,
 kept up to date beside it, the sparse index, the size, the last indexed position, the
 greatest timestamp and the next offset. The reference is `Built`: the segment that
 adding the file's records one by one to an empty segment gives.
 */
module SegmentModel {
  import opened Basics
  import opened Records
  import opened Scans

  type Positive = n: nat | 1 <= n witness 1

  datatype Settings = Settings(crc: Checksum, interval: Positive, maxSegmentBytes: Positive)

  /** An offset relative to the segment's base, and the byte where its record starts. */
  datatype IndexEntry = IndexEntry(rel: int, position: nat)

  datatype Seg = Seg(base: nat, file: Bytes, index: seq<IndexEntry>, size: nat, lastIndexed: int, maxTimestamp: int, next: nat)

  function EmptySeg(base: nat): Seg {
    Seg(base, [], [], 0, -1, 0, base)
  }

  /** Indexes the record at `position` when the last indexed one is far enough away. */
  function Indexed(s: Seg, interval: Positive, offset: nat, position: nat): Seg {
    if s.index == [] || position - s.lastIndexed >= interval
    then s.(index := s.index + [IndexEntry(offset - s.base, position)], lastIndexed := position)
    else s
  }

  /** One more record: its bytes, its place in the index, and the counters. */
  function Grown(c: Settings, s: Seg, offset: nat, data: Bytes, timestamp: int): Seg {
    Indexed(s, c.interval, offset, s.size).(
      file := s.file + data, size := s.size + |data|, maxTimestamp := Max(s.maxTimestamp, timestamp), next := offset + 1)
  }

  function Grow(c: Settings, s: Seg, r: Record): Seg {
    Grown(c, s, r.offset, Encode(c.crc, r), r.timestamp)
  }

  function GrowAll(c: Settings, s: Seg, rs: seq<Record>): Seg {
    if rs == [] then s else Grow(c, GrowAll(c, s, rs[..|rs| - 1]), rs[|rs| - 1])
  }

  function Built(c: Settings, base: nat, rs: seq<Record>): Seg {
    GrowAll(c, EmptySeg(base), rs)
  }

  function RecordsOf(c: Settings, s: Seg): seq<Record> {
    Scan(c.crc, s.file)
  }

  predicate Consecutive(base: int, rs: seq<Record>) {
    forall i | 0 <= i < |rs| :: rs[i].offset == base + i
  }

  predicate Bounded(rs: seq<Record>, maxTimestamp: int) {
    forall r | r in rs :: r.timestamp <= maxTimestamp
  }

  /** The records of the file have consecutive offsets from the base, and everything cached is
      what the file's records make it — except that the greatest timestamp may exceed theirs. */
  predicate Coherent(c: Settings, s: Seg) {
    var rs := RecordsOf(c, s);
    Consecutive(s.base, rs) && Bounded(rs, s.maxTimestamp) && 0 <= s.maxTimestamp
    && s == Built(c, s.base, rs).(maxTimestamp := s.maxTimestamp)
  }

  /** The record at an offset, if the segment has it. */
  function Lookup(c: Settings, s: Seg, offset: int): Option<Record> {
    var rs := RecordsOf(c, s);
    if s.base <= offset < s.base + |rs| then Some(rs[offset - s.base]) else None
  }

  // ------------------------------------------------------------------- building

  lemma GrowAllSnoc(c: Settings, s: Seg, rs: seq<Record>, r: Record)
    ensures GrowAll(c, s, rs + [r]) == Grow(c, GrowAll(c, s, rs), r)
  {
    assert (rs + [r])[..|rs|] == rs;
  }

  lemma {:induction false} GrowAllShape(c: Settings, s: Seg, rs: seq<Record>)
    ensures var g := GrowAll(c, s, rs);
            g.base == s.base && g.file == s.file + EncodeAll(c.crc, rs) && g.size == s.size + |EncodeAll(c.crc, rs)|
            && g.next == if rs == [] then s.next else rs[|rs| - 1].offset + 1
  {
    hide Encode;
    if rs != [] {
      var front, r := rs[..|rs| - 1], rs[|rs| - 1];
      GrowAllShape(c, s, front);
      EncodeSnoc(c.crc, front, r);
      assert front + [r] == rs;
    }
  }

  lemma {:induction false} BuiltShape(c: Settings, base: nat, rs: seq<Record>)
    ensures var s := Built(c, base, rs);
            s.base == base && s.file == EncodeAll(c.crc, rs) && s.size == |s.file|
            && Bounded(rs, s.maxTimestamp) && 0 <= s.maxTimestamp
            && s.next == (if rs == [] then base else rs[|rs| - 1].offset + 1)
            && s.lastIndexed == (if s.index == [] then -1 else s.index[|s.index| - 1].position)
  {
    hide Encode, EncodeAll;
    if rs == [] {
      assert EncodeAll(c.crc, rs) == [] by { EmptyEncodes(c.crc); }
    } else {
      var front, r := rs[..|rs| - 1], rs[|rs| - 1];
      BuiltShape(c, base, front);
      EncodeSnoc(c.crc, front, r);
      assert front + [r] == rs;
    }
  }

  lemma EmptyEncodes(crc: Checksum)
    ensures EncodeAll(crc, []) == []
  {
  }

  /** Recovery of a segment whose file holds whole, consecutive records. */
  lemma BuiltIsCoherent(c: Settings, base: nat, rs: seq<Record>)
    requires AllStorable(rs) && Consecutive(base, rs)
    ensures Coherent(c, Built(c, base, rs)) && RecordsOf(c, Built(c, base, rs)) == rs
  {
    hide Encode, EncodeAll, Scan, GrowAll, Storable;
    var s := Built(c, base, rs);
    BuiltShape(c, base, rs);
    ScanEncoded(c.crc, rs, []);
    NothingScanned(c.crc);
    assert EncodeAll(c.crc, rs) + [] == EncodeAll(c.crc, rs);
    assert RecordsOf(c, s) == rs;
    hide Built;
  }

  lemma NothingScanned(crc: Checksum)
    ensures Scan(crc, []) == []
  {
  }

  lemma EmptyIsCoherent(c: Settings, base: nat)
    ensures Coherent(c, EmptySeg(base)) && RecordsOf(c, EmptySeg(base)) == []
  {
    BuiltIsCoherent(c, base, []);
  }

  lemma CoherentShape(c: Settings, s: Seg)
    requires Coherent(c, s)
    ensures s.file == EncodeAll(c.crc, RecordsOf(c, s)) && s.size == |s.file| && AllStorable(RecordsOf(c, s))
    ensures s.next == s.base + |RecordsOf(c, s)|
    ensures s.size == 0 <==> RecordsOf(c, s) == []
  {
    BuiltShape(c, s.base, RecordsOf(c, s));
    ScannedIsEncoded(c.crc, s.file);
  }

  lemma GrowTimestamp(c: Settings, s: Seg, r: Record, t: int)
    ensures Grow(c, s.(maxTimestamp := t), r) == Grow(c, s, r).(maxTimestamp := Max(t, r.timestamp))
  {
  }

  /** A segment that is `Built` but for a greater timestamp bound. */
  lemma CoherentAbove(c: Settings, base: nat, rs: seq<Record>, t: int)
    requires AllStorable(rs) && Consecutive(base, rs) && Bounded(rs, t) && 0 <= t
    ensures Coherent(c, Built(c, base, rs).(maxTimestamp := t)) && Scan(c.crc, Built(c, base, rs).file) == rs
  {
    BuiltIsCoherent(c, base, rs);
    BuiltShape(c, base, rs);
    hide Scan, Built, EncodeAll, Storable, Encode;
  }

  lemma CoherentGrows(c: Settings, s: Seg, r: Record)
    requires Coherent(c, s) && Storable(r) && r.offset == s.next
    ensures Coherent(c, Grow(c, s, r)) && RecordsOf(c, Grow(c, s, r)) == RecordsOf(c, s) + [r]
  {
    hide Storable, Scan, EncodeAll, Encode;
    var rs := RecordsOf(c, s);
    CoherentShape(c, s);
    GrowAllSnoc(c, EmptySeg(s.base), rs, r);
    GrowTimestamp(c, Built(c, s.base, rs), r, s.maxTimestamp);
    hide GrowAll, Grow;
    CoherentAbove(c, s.base, rs + [r], Max(s.maxTimestamp, r.timestamp));
  }

  lemma {:induction false} CoherentGrowsAll(c: Settings, s: Seg, rs: seq<Record>)
    requires Coherent(c, s) && AllStorable(rs) && Consecutive(s.next, rs)
    ensures Coherent(c, GrowAll(c, s, rs)) && RecordsOf(c, GrowAll(c, s, rs)) == RecordsOf(c, s) + rs
    ensures GrowAll(c, s, rs).base == s.base && GrowAll(c, s, rs).next == s.next + |rs|
  {
    hide Coherent, Storable, RecordsOf, Encode;
    if rs != [] {
      var front, r := rs[..|rs| - 1], rs[|rs| - 1];
      CoherentGrowsAll(c, s, front);
      CoherentGrows(c, GrowAll(c, s, front), r);
      assert rs == front + [r];
    }
  }

  // ------------------------------------------------------------------ the index

  /** Every entry points at the start of its record; entries ascend from the first record, an interval
      apart or more; and each record starts less than an interval after the last entry at or before it. */
  ghost predicate IndexOk(c: Settings, rs: seq<Record>, index: seq<IndexEntry>) {
    AllPoint(c, rs, index) && Spaced(c, index) && Covered(c, rs, index)
    && (rs != [] ==> index != [] && index[0].rel == 0)
  }

  ghost predicate AllPoint(c: Settings, rs: seq<Record>, index: seq<IndexEntry>) {
    forall i | 0 <= i < |index| :: PointsAt(c, rs, index[i])
  }

  ghost predicate Spaced(c: Settings, index: seq<IndexEntry>) {
    (forall i, j | 0 <= i < j < |index| :: index[i].rel < index[j].rel)
    && forall i | 0 <= i < |index| - 1 :: index[i + 1].position - index[i].position >= c.interval
  }

  ghost predicate Covered(c: Settings, rs: seq<Record>, index: seq<IndexEntry>) {
    forall i, k: nat | 0 <= i < |index| && Covers(index, i, k, |rs|) :: Pos(c.crc, rs, k) - index[i].position < c.interval
  }

  predicate PointsAt(c: Settings, rs: seq<Record>, e: IndexEntry) {
    0 <= e.rel < |rs| && e.position == Pos(c.crc, rs, e.rel)
  }

  /** Entry `i` is the last one at or before record `k`. */
  predicate Covers(index: seq<IndexEntry>, i: nat, k: nat, n: nat)
    requires i < |index|
  {
    index[i].rel <= k < n && (i + 1 < |index| ==> k < index[i + 1].rel)
  }

  lemma PosOfPrefix(crc: Checksum, rs: seq<Record>, r: Record, k: nat)
    requires k <= |rs|
    ensures Pos(crc, rs + [r], k) == Pos(crc, rs, k)
    ensures Pos(crc, rs, |rs|) == |EncodeAll(crc, rs)|
  {
    assert (rs + [r])[..k] == rs[..k];
    assert rs[..|rs|] == rs;
  }

  /** The index after one more record, which starts where the others end. */
  function NextIndex(c: Settings, rs: seq<Record>, index: seq<IndexEntry>): seq<IndexEntry> {
    var at := |EncodeAll(c.crc, rs)|;
    if index == [] || at - index[|index| - 1].position >= c.interval then index + [IndexEntry(|rs|, at)] else index
  }

  lemma IndexStep(c: Settings, rs: seq<Record>, index: seq<IndexEntry>, r: Record)
    requires IndexOk(c, rs, index)
    ensures IndexOk(c, rs + [r], NextIndex(c, rs, index))
  {
    hide AllPoint, Spaced, Covered, EncodeAll;
    StepFirst(c, rs, index);
    StepPoints(c, rs, index, r);
    StepSpaced(c, rs, index);
    StepCovers(c, rs, index, r);
  }

  lemma StepFirst(c: Settings, rs: seq<Record>, index: seq<IndexEntry>)
    requires AllPoint(c, rs, index) && (rs != [] ==> index != [] && index[0].rel == 0)
    ensures NextIndex(c, rs, index) != [] && NextIndex(c, rs, index)[0].rel == 0
  {
    hide EncodeAll;
    if index != [] {
      assert PointsAt(c, rs, index[0]);
    }
  }

  lemma StepPoints(c: Settings, rs: seq<Record>, index: seq<IndexEntry>, r: Record)
    requires AllPoint(c, rs, index)
    ensures AllPoint(c, rs + [r], NextIndex(c, rs, index))
  {
    hide Pos, EncodeAll;
    PosOfPrefix(c.crc, rs, r, |rs|);
    forall i | 0 <= i < |index|
      ensures PointsAt(c, rs + [r], index[i])
    {
      assert PointsAt(c, rs, index[i]);
      PosOfPrefix(c.crc, rs, r, index[i].rel);
    }
  }

  lemma StepSpaced(c: Settings, rs: seq<Record>, index: seq<IndexEntry>)
    requires AllPoint(c, rs, index) && Spaced(c, index)
    ensures Spaced(c, NextIndex(c, rs, index))
  {
    hide Pos, EncodeAll;
    assert forall i | 0 <= i < |index| :: PointsAt(c, rs, index[i]) && index[i].rel < |rs|;
  }

  lemma StepCovers(c: Settings, rs: seq<Record>, index: seq<IndexEntry>, r: Record)
    requires AllPoint(c, rs, index) && Covered(c, rs, index) && (rs != [] ==> index != [] && index[0].rel == 0)
    ensures Covered(c, rs + [r], NextIndex(c, rs, index))
  {
    hide Pos, EncodeAll;
    var index' := NextIndex(c, rs, index);
    PosOfPrefix(c.crc, rs, r, |rs|);
    assert forall i | 0 <= i < |index| :: PointsAt(c, rs, index[i]) && index[i].rel < |rs|;
    forall i, k: nat | 0 <= i < |index'| && Covers(index', i, k, |rs| + 1)
      ensures Pos(c.crc, rs + [r], k) - index'[i].position < c.interval
    {
      PosOfPrefix(c.crc, rs, r, k);
      if i < |index| {
        assert PointsAt(c, rs, index[i]);
        if k < |rs| {
          assert Covers(index, i, k, |rs|);
        }
      }
    }
  }

  lemma {:induction false} BuiltIndexOk(c: Settings, base: nat, rs: seq<Record>)
    requires Consecutive(base, rs)
    ensures IndexOk(c, rs, Built(c, base, rs).index)
  {
    hide IndexOk, EncodeAll, Encode;
    if rs == [] {
      EmptyIndexOk(c);
    } else {
      var front, r := rs[..|rs| - 1], rs[|rs| - 1];
      BuiltIndexOk(c, base, front);
      BuiltShape(c, base, front);
      IndexStep(c, front, Built(c, base, front).index, r);
      assert front + [r] == rs;
    }
  }

  lemma EmptyIndexOk(c: Settings)
    ensures IndexOk(c, [], [])
  {
  }

  /** The entries below a relative offset, as truncation keeps them. */
  function Below(index: seq<IndexEntry>, rel: int): seq<IndexEntry> {
    if index == [] then []
    else
      var e := index[|index| - 1];
      var front := Below(index[..|index| - 1], rel);
      if e.rel < rel then front + [e] else front
  }

  lemma {:induction false} BelowAll(index: seq<IndexEntry>, rel: int)
    requires forall e | e in index :: e.rel < rel
    ensures Below(index, rel) == index
  {
    if index != [] {
      BelowAll(index[..|index| - 1], rel);
    }
  }

  /** Cutting the index with the file gives the index that recovery would build. */
  lemma {:induction false} CutIndexIsBuilt(c: Settings, base: nat, rs: seq<Record>, k: nat)
    requires Consecutive(base, rs) && k <= |rs|
    ensures Below(Built(c, base, rs).index, k) == Built(c, base, rs[..k]).index
  {
    hide IndexOk, EncodeAll, Encode;
    if k == |rs| {
      assert rs[..k] == rs;
      BuiltIndexOk(c, base, rs);
      EntriesInside(c, rs, Built(c, base, rs).index);
      BelowAll(Built(c, base, rs).index, k);
    } else {
      var front := rs[..|rs| - 1];
      CutIndexIsBuilt(c, base, front, k);
      BuiltShape(c, base, front);
      assert front[..k] == rs[..k];
      var index, index' := Built(c, base, front).index, Built(c, base, rs).index;
      if index' != index {
        assert index' == index + [index'[|index|]] && index'[|index|].rel == |rs| - 1;
        assert index'[..|index'| - 1] == index;
      }
    }
  }

  lemma EntriesInside(c: Settings, rs: seq<Record>, index: seq<IndexEntry>)
    requires IndexOk(c, rs, index)
    ensures forall e | e in index :: e.rel < |rs|
  {
  }

  /** The segment that truncation at record `k` leaves. */
  function Truncated(c: Settings, s: Seg, k: nat): Seg
    requires k <= |RecordsOf(c, s)|
  {
    var kept := Below(s.index, k);
    var at := Pos(c.crc, RecordsOf(c, s), k);
    s.(file := EncodeAll(c.crc, RecordsOf(c, s)[..k]), size := at, next := s.base + k,
       index := kept, lastIndexed := if kept == [] then -1 else kept[|kept| - 1].position)
  }

  lemma TruncatedIsCoherent(c: Settings, s: Seg, k: nat)
    requires Coherent(c, s) && k <= |RecordsOf(c, s)|
    ensures Coherent(c, Truncated(c, s, k)) && RecordsOf(c, Truncated(c, s, k)) == RecordsOf(c, s)[..k]
    ensures Truncated(c, s, k).file <= s.file && |Truncated(c, s, k).file| == Pos(c.crc, RecordsOf(c, s), k)
  {
    hide Below, Scan, EncodeAll, GrowAll, Storable;
    var rs := RecordsOf(c, s);
    CoherentShape(c, s);
    BuiltShape(c, s.base, rs);
    CutIndexIsBuilt(c, s.base, rs, k);
    BuiltShape(c, s.base, rs[..k]);
    CoherentAbove(c, s.base, rs[..k], s.maxTimestamp);
    EncodeAllConcat(c.crc, rs[..k], rs[k..]);
    assert rs[..k] + rs[k..] == rs;
    hide Built;
    assert Truncated(c, s, k) == Built(c, s.base, rs[..k]).(maxTimestamp := s.maxTimestamp);
  }

  // ------------------------------------------------------------------- recovery

  /** What recovery makes of a file. */
  function Recovered(c: Settings, base: nat, file: Bytes): Seg {
    Built(c, base, Scan(c.crc, file))
  }

  /** Recovery is idempotent, and restores a coherent segment except for its timestamp bound. */
  lemma RecoveredAgain(c: Settings, base: nat, file: Bytes)
    ensures Recovered(c, base, file).file == Intact(c.crc, file)
    ensures Recovered(c, base, Recovered(c, base, file).file) == Recovered(c, base, file)
  {
    BuiltShape(c, base, Scan(c.crc, file));
    IntactIsWhole(c.crc, file);
  }

  lemma CoherentIsRecovered(c: Settings, s: Seg)
    requires Coherent(c, s)
    ensures Recovered(c, s.base, s.file) == s.(maxTimestamp := Recovered(c, s.base, s.file).maxTimestamp)
    ensures Recovered(c, s.base, s.file).maxTimestamp <= s.maxTimestamp
  {
    BuiltTimestamp(c, s.base, RecordsOf(c, s), s.maxTimestamp);
  }

  lemma {:induction false} BuiltTimestamp(c: Settings, base: nat, rs: seq<Record>, t: int)
    requires Bounded(rs, t) && 0 <= t
    ensures Built(c, base, rs).maxTimestamp <= t
  {
    hide Encode;
    if rs != [] {
      BuiltTimestamp(c, base, rs[..|rs| - 1], t);
      assert rs[|rs| - 1] in rs;
    }
  }

  // --------------------------------------------------------------------- reading

  /** A linear scan from a byte for the record at `offset`, as the read loop does it. */
  function FindFrom(c: Settings, bytes: Bytes, offset: int): Option<Record>
    decreases |bytes|
  {
    var p := Parse(c.crc, bytes);
    if !p.Good? then None
    else if p.record.offset == offset then Some(p.record)
    else if p.record.offset > offset then None
    else FindFrom(c, bytes[p.size..], offset)
  }

  /** From the start of any record at or before it, the scan finds the record at `offset`, so
      in particular reading by the index is reading from byte 0. */
  lemma {:induction false} ScanFinds(c: Settings, s: Seg, k: nat, offset: int)
    requires Coherent(c, s) && k <= |RecordsOf(c, s)| && s.base + k <= offset
    ensures Pos(c.crc, RecordsOf(c, s), k) <= |s.file|
    ensures FindFrom(c, s.file[Pos(c.crc, RecordsOf(c, s), k)..], offset) == Lookup(c, s, offset)
    decreases |RecordsOf(c, s)| - k
  {
    hide Parse, Scan, Encode, EncodeAll, Built;
    var rs := RecordsOf(c, s);
    ParseAt(c.crc, s.file, k);
    var at := Pos(c.crc, rs, k);
    if k < |rs| && s.base + k != offset {
      ScanFinds(c, s, k + 1, offset);
      PosStep(c.crc, rs, k);
      assert s.file[at..][Pos(c.crc, rs, k + 1) - at..] == s.file[Pos(c.crc, rs, k + 1)..];
    }
  }

  lemma LinearScanFinds(c: Settings, s: Seg, offset: int)
    requires Coherent(c, s) && s.base <= offset
    ensures FindFrom(c, s.file, offset) == Lookup(c, s, offset)
  {
    ScanFinds(c, s, 0, offset);
    assert s.file[0..] == s.file;
  }
}
