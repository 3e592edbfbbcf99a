/**
 One segment as the source keeps it (pylog/log.py, class Segment): an object that changes
 its file, its sparse index and its counters in place. Every method is proved against the
 functions of segment_model.dfy.
 */
module Segments {
  import opened Basics
  import opened Records
  import opened Scans
  import opened Disks
  import opened SegmentModel

  class Segment {
    const settings: Settings
    const disk: Disk
    const base: nat

    var index: seq<IndexEntry>
    var size: nat
    var lastIndexed: int
    var maxTimestamp: int
    var nextOffset: nat

    constructor (settings: Settings, disk: Disk, base: nat)
      ensures this.settings == settings && this.disk == disk && this.base == base
    {
      this.settings, this.disk, this.base := settings, disk, base;
      index, size, lastIndexed, maxTimestamp, nextOffset := [], 0, -1, 0, base;
    }

    ghost function View(): Seg
      reads this, disk
    {
      Seg(base, Content(disk.files, base), index, size, lastIndexed, maxTimestamp, nextOffset)
    }

    ghost predicate Valid()
      reads this, disk
    {
      base in disk.files && Coherent(settings, View())
    }

    method MaybeIndex(offset: nat, position: nat)
      modifies this`index, this`lastIndexed
      ensures View() == Indexed(old(View()), settings.interval, offset, position)
    {
      if index == [] || position - lastIndexed >= settings.interval {
        index := index + [IndexEntry(offset - base, position)];
        lastIndexed := position;
      }
    }

    /** Rebuilds everything from the file, which loses whatever follows its intact records. */
    method Recover()
      modifies this, disk
      ensures base in disk.files
      ensures View() == Recovered(settings, base, Content(old(disk.files), base))
      ensures disk.files == old(disk.files)[base := View().file]
      ensures disk.journal == old(disk.journal)
              + if base !in old(disk.files) then [Create(base)]
                else if View().file == old(disk.files[base]) then [] else [Cut(base, |View().file|)]
    {
      hide Scan, Parse, Encode, EncodeAll, GrowAll, Pos;
      index, size, lastIndexed, maxTimestamp, nextOffset := [], 0, -1, 0, base;
      if base !in disk.files {
        disk.Perform(Create(base));
        ScanOfNothing(settings.crc);
        EmptyBuilt(settings, base, []);
        return;
      }
      var file := disk.files[base];
      ghost var rs := Scan(settings.crc, file);
      var next, goodSize := base, 0;
      ghost var k := 0;
      RecoverStep(settings, base, file, 0);
      EmptyBuilt(settings, base, rs);
      hide Built;
      while true
        invariant k <= |rs| && goodSize == Pos(settings.crc, rs, k) && size == 0 && disk.files == old(disk.files)
        invariant disk.journal == old(disk.journal)
        invariant var b := Built(settings, base, rs[..k]);
                  index == b.index && lastIndexed == b.lastIndexed && maxTimestamp == b.maxTimestamp && next == b.next
        decreases |rs| - k
      {
        RecoverStep(settings, base, file, k);
        var p := Parse(settings.crc, file[goodSize..]);
        if !p.Good? {
          break;
        }
        MaybeIndex(p.record.offset, goodSize);
        maxTimestamp := Max(maxTimestamp, p.record.timestamp);
        goodSize := goodSize + p.size;
        next := p.record.offset + 1;
        k := k + 1;
      }
      RecoverStep(settings, base, file, k);
      BuiltShape(settings, base, rs);
      IntactIsWhole(settings.crc, file);
      if goodSize < |file| {
        disk.Perform(Cut(base, goodSize));
      }
      size, nextOffset := goodSize, next;
    }

    /** Adds one record, given as its bytes. */
    method Append(offset: nat, data: Bytes, timestamp: int)
      requires base in disk.files
      modifies this, disk
      ensures View() == Grown(settings, old(View()), offset, data, timestamp)
      ensures disk.files == Do(old(disk.files), Write(base, data))
      ensures disk.journal == old(disk.journal) + [Write(base, data)]
    {
      var position := size;
      disk.Perform(Write(base, data));
      size := size + |data|;
      if timestamp > maxTimestamp {
        maxTimestamp := timestamp;
      }
      nextOffset := offset + 1;
      MaybeIndex(offset, position);
    }

    /** Adds several records with one write: `data` is their encodings, `positions` where each will start. */
    method AppendChunk(rs: seq<Record>, data: Bytes, positions: seq<nat>)
      requires base in disk.files && data == EncodeAll(settings.crc, rs) && |positions| == |rs|
      requires forall k | 0 <= k < |rs| :: positions[k] == size + Pos(settings.crc, rs, k)
      modifies this, disk
      ensures View() == GrowAll(settings, old(View()), rs)
      ensures disk.files == Do(old(disk.files), Write(base, data))
      ensures disk.journal == old(disk.journal) + [Write(base, data)]
    {
      hide Encode, EncodeAll, GrowAll;
      ghost var s := View();
      disk.Perform(Write(base, data));
      NothingGrown(settings, s, rs);
      var k := 0;
      while k < |rs|
        invariant 0 <= k <= |rs| && size == s.size
        invariant var g := GrowAll(settings, s, rs[..k]);
                  index == g.index && lastIndexed == g.lastIndexed && maxTimestamp == g.maxTimestamp && nextOffset == g.next
        invariant disk.files == Do(old(disk.files), Write(base, data))
        invariant disk.journal == old(disk.journal) + [Write(base, data)]
      {
        GrowAllShape(settings, s, rs[..k]);
        assert rs[..k + 1] == rs[..k] + [rs[k]];
        GrowAllSnoc(settings, s, rs[..k], rs[k]);
        MaybeIndex(rs[k].offset, positions[k]);
        nextOffset := rs[k].offset + 1;
        if rs[k].timestamp > maxTimestamp {
          maxTimestamp := rs[k].timestamp;
        }
        k := k + 1;
      }
      assert rs[..k] == rs;
      GrowAllShape(settings, s, rs);
      size := size + |data|;
    }

    /** How many index entries are at or before `rel`, by binary search. */
    method Bisect(rel: int) returns (lo: nat)
      requires forall i, j | 0 <= i < j < |index| :: index[i].rel < index[j].rel
      ensures lo <= |index|
      ensures forall i | 0 <= i < lo :: index[i].rel <= rel
      ensures forall i | lo <= i < |index| :: index[i].rel > rel
    {
      var hi := |index|;
      lo := 0;
      while lo < hi
        invariant lo <= hi <= |index|
        invariant forall i | 0 <= i < lo :: index[i].rel <= rel
        invariant forall i | hi <= i < |index| :: index[i].rel > rel
      {
        var mid := (lo + hi) / 2;
        if index[mid].rel <= rel {
          lo := mid + 1;
        } else {
          hi := mid;
        }
      }
    }

    /** Finds by the index where to start scanning for record `rel`: at the start of a record at
        or before it, less than an interval of bytes away. */
    method SeekStart(rel: nat) returns (start: nat, ghost k: nat)
      requires Valid() && rel < |RecordsOf(settings, View())|
      ensures k <= rel && start == Pos(settings.crc, RecordsOf(settings, View()), k)
      ensures Pos(settings.crc, RecordsOf(settings, View()), rel) - start < settings.interval
    {
      ghost var rs := RecordsOf(settings, View());
      BuiltIndexOk(settings, base, rs);
      hide Coherent, Built, Scan, RecordsOf, Pos;
      var lo := Bisect(rel);
      SeekFinds(settings, rs, index, lo, rel);
      start, k := 0, 0;
      if lo > 0 {
        start, k := index[lo - 1].position, index[lo - 1].rel;
      }
    }

    method Read(offset: int) returns (r: Option<Record>)
      requires Valid()
      ensures r == Lookup(settings, View(), offset)
    {
      hide Coherent, Scan, Encode, EncodeAll;
      CoherentShape(settings, View());
      if offset < base || offset >= nextOffset {
        return None;
      }
      ghost var rs := RecordsOf(settings, View());
      var file := disk.files[base];
      var position: nat, k := SeekStart(offset - base);
      while true
        invariant k <= offset - base && position == Pos(settings.crc, rs, k)
        decreases offset - base - k
      {
        ParseAt(settings.crc, file, k);
        var p := Parse(settings.crc, file[position..]);
        if !p.Good? {
          return None;
        }
        RecordOffset(settings, View(), k);
        if p.record.offset == offset {
          return Some(p.record);
        }
        if p.record.offset > offset {
          return None;
        }
        PosStep(settings.crc, rs, k);
        position := position + p.size;
        k := k + 1;
      }
    }

    /** The byte where the record at `offset` starts, if the segment has it. */
    method PositionOf(offset: int) returns (position: Option<nat>)
      requires Valid()
      ensures position == if base <= offset < nextOffset
                          then Some(Pos(settings.crc, RecordsOf(settings, View()), offset - base)) else None
      ensures base <= offset < nextOffset ==> offset - base < |RecordsOf(settings, View())|
    {
      hide Coherent, Scan, Encode, EncodeAll;
      CoherentShape(settings, View());
      if offset < base || offset >= nextOffset {
        return None;
      }
      ghost var rs := RecordsOf(settings, View());
      var file := disk.files[base];
      var at: nat, k := SeekStart(offset - base);
      while true
        invariant k <= offset - base && at == Pos(settings.crc, rs, k)
        decreases offset - base - k
      {
        ParseAt(settings.crc, file, k);
        var p := Parse(settings.crc, file[at..]);
        if !p.Good? {
          return None;
        }
        RecordOffset(settings, View(), k);
        if p.record.offset == offset {
          return Some(at);
        }
        if p.record.offset > offset {
          return None;
        }
        PosStep(settings.crc, rs, k);
        at := at + p.size;
        k := k + 1;
      }
    }

    /** Drops the records at `offset` and after; reports whether anything changed. */
    method TruncateFrom(offset: int) returns (changed: bool)
      requires Valid()
      modifies this, disk
      ensures Valid()
      ensures var rs := old(RecordsOf(settings, View()));
              RecordsOf(settings, View())
              == if offset <= base then [] else if offset < base + |rs| then rs[..offset - base] else rs
      ensures changed == (RecordsOf(settings, View()) != old(RecordsOf(settings, View())))
      ensures !changed ==> View().file == old(View().file) && nextOffset == old(nextOffset)
      ensures disk.files == old(disk.files)[base := View().file]
      ensures View().file <= old(View().file)
      ensures disk.journal == old(disk.journal)
              + if offset <= base then [Create(base)] else if changed then [Cut(base, |View().file|)] else []
      ensures disk.files == DoAll(old(disk.files), disk.journal[|old(disk.journal)|..])
    {
      hide Coherent, Scan, Encode, EncodeAll, DoAll;
      ghost var s := View();
      ghost var rs := RecordsOf(settings, s);
      CoherentShape(settings, s);
      if offset <= base {
        changed := size > 0 || nextOffset != base;
        disk.Perform(Create(base));
        DoNoneOrOne(old(disk.files), Create(base));
        index, size, lastIndexed, maxTimestamp, nextOffset := [], 0, -1, 0, base;
        EmptyIsCoherent(settings, base);
        return;
      }
      var position := PositionOf(offset);
      if position == None {
        DoNoneOrOne(disk.files, Create(base));
        return false;
      }
      ghost var k := offset - base;
      TruncatedIsCoherent(settings, s, k);
      disk.Perform(Cut(base, position.value));
      DoNoneOrOne(old(disk.files), Cut(base, position.value));
      size, nextOffset := position.value, offset;
      index := Below(index, offset - base);
      lastIndexed := if index == [] then -1 else index[|index| - 1].position;
      assert View() == Truncated(settings, s, k);
      return true;
    }
  }

  lemma SeekFinds(c: Settings, rs: seq<Record>, index: seq<IndexEntry>, n: nat, rel: nat)
    requires IndexOk(c, rs, index) && rel < |rs| && n <= |index|
    requires forall i | 0 <= i < n :: index[i].rel <= rel
    requires forall i | n <= i < |index| :: index[i].rel > rel
    ensures n > 0
    ensures var e := index[n - 1];
            0 <= e.rel <= rel && e.position == Pos(c.crc, rs, e.rel) && Pos(c.crc, rs, rel) - e.position < c.interval
  {
    hide Pos;
    assert n > 0;
    assert PointsAt(c, rs, index[n - 1]);
    assert Covers(index, n - 1, rel, |rs|);
  }

  /** One turn of the recovery loop. */
  lemma RecoverStep(c: Settings, base: nat, file: Bytes, k: nat)
    requires k <= |Scan(c.crc, file)|
    ensures var rs := Scan(c.crc, file);
            var at, b := Pos(c.crc, rs, k), Built(c, base, rs[..k]);
            at <= |file| && b.size == at && b.base == base && b.next == (if k == 0 then base else rs[k - 1].offset + 1)
            && (k == |rs| ==> !Parse(c.crc, file[at..]).Good? && b == Built(c, base, rs))
            && (k < |rs| ==>
                  Parse(c.crc, file[at..]) == Good(rs[k], |Encode(c.crc, rs[k])|)
                  && Built(c, base, rs[..k + 1]) == Grow(c, b, rs[k])
                  && Pos(c.crc, rs, k + 1) == at + |Encode(c.crc, rs[k])|)
  {
    hide Scan, Parse, Encode, EncodeAll, Grow, GrowAll;
    var rs := Scan(c.crc, file);
    ParseAt(c.crc, file, k);
    BuiltShape(c, base, rs[..k]);
    if k < |rs| {
      assert rs[..k + 1] == rs[..k] + [rs[k]];
      GrowAllSnoc(c, EmptySeg(base), rs[..k], rs[k]);
      PosStep(c.crc, rs, k);
    } else {
      assert rs[..k] == rs;
    }
  }

  lemma EmptyBuilt(c: Settings, base: nat, rs: seq<Record>)
    ensures Built(c, base, rs[..0]) == EmptySeg(base) && Pos(c.crc, rs, 0) == 0
  {
  }

  lemma NothingGrown(c: Settings, s: Seg, rs: seq<Record>)
    ensures GrowAll(c, s, rs[..0]) == s
  {
  }

  lemma ScanOfNothing(crc: Checksum)
    ensures Scan(crc, []) == []
  {
  }

  lemma RecordOffset(c: Settings, s: Seg, k: nat)
    requires Coherent(c, s) && k < |RecordsOf(c, s)|
    ensures RecordsOf(c, s)[k].offset == s.base + k
  {
  }
}
