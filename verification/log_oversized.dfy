/**
 What a payload over the limit does to a log (pylog/log.py:31, 60): it is written like any
 other, but the next time the directory is opened it ends its segment's records, and all that
 was written behind it in that segment is cut off with it.
 */
module Oversized {
  import opened Basics
  import opened Records
  import opened Scans
  import opened Disks
  import opened SegmentModel
  import opened LogModel
  import opened LogCrashes

  predicate TooLarge(r: Record) {
    Packable(r) && |r.payload| > MAX_RECORD_BYTES
  }

  /** Nothing from an oversized record on is found by a scan. */
  lemma OversizedHides(crc: Checksum, rs: seq<Record>, r: Record, more: Bytes)
    requires AllStorable(rs) && TooLarge(r)
    ensures Scan(crc, Encode(crc, r) + more) == []
    ensures Scan(crc, EncodeAll(crc, rs) + (Encode(crc, r) + more)) == rs
  {
    hide Encode, EncodeAll, Storable, Packable;
    RoundTripExactly(crc, r, more);
    hide Parse;
    ScanEncoded(crc, rs, Encode(crc, r) + more);
  }

  /** A segment whose file goes on with something that scans to nothing recovers to itself. */
  lemma RecoveredBefore(c: Settings, s: Seg, tail: Bytes)
    requires Coherent(c, s) && Scan(c.crc, tail) == []
    ensures var r := Recovered(c, s.base, s.file + tail);
            Coherent(c, r) && RecordsOf(c, r) == RecordsOf(c, s) && r == s.(maxTimestamp := r.maxTimestamp)
  {
    hide Scan, EncodeAll, Storable;
    CoherentShape(c, s);
    ScanEncoded(c.crc, RecordsOf(c, s), tail);
    RecoveredSame(c, s);
    assert RecordsOf(c, s) + [] == RecordsOf(c, s);
    assert Recovered(c, s.base, s.file + tail) == Recovered(c, s.base, s.file);
    hide Built;
  }

  /** The files of a log whose last file goes on with `tail`. */
  function Continued(segs: seq<Seg>, files: Files, tail: Bytes): Files
    requires segs != []
  {
    Do(files, Write(segs[|segs| - 1].base, tail))
  }

  lemma ContinuedFiles(c: Settings, segs: seq<Seg>, files: Files, tail: Bytes)
    requires LogOk(c, segs) && Stores(files, segs)
    ensures var files' := Continued(segs, files, tail);
            files'.Keys == Bases(segs)
            && (forall i | 0 <= i < |segs| - 1 :: segs[i].base in files' && files'[segs[i].base] == segs[i].file)
            && segs[|segs| - 1].base in files' && files'[segs[|segs| - 1].base] == segs[|segs| - 1].file + tail
  {
    hide LogOk;
    LogIsTiled(c, segs);
    var m := |segs| - 1;
    assert segs[m] in segs && segs[m].base in Bases(segs);
    hide Bases;
    forall i | 0 <= i < m
      ensures segs[i].base in files && files[segs[i].base] == segs[i].file && segs[i].base != segs[m].base
    {
      assert segs[i] in segs;
      BasesAscend(c, segs, i, m);
    }
  }

  /** When the oversized record is in the last segment, opening the directory gives the log as it was
      before it: the record and all that followed it are lost. */
  lemma OversizedLost(c: Settings, segs: seq<Seg>, files: Files, r: Record, more: Bytes)
    requires LogOk(c, segs) && Stores(files, segs) && TooLarge(r)
    ensures Opens(c, Continued(segs, files, Encode(c.crc, r) + more), segs[0].base, Contents(c, segs))
  {
    hide Coherent, Recovered, RecordsOf, Encode, Reopened, Contents, Stores, Continued, Tiled, TooLarge;
    var tail := Encode(c.crc, r) + more;
    var files' := Continued(segs, files, tail);
    OversizedHides(c.crc, [], r, more);
    ContinuedFiles(c, segs, files, tail);
    Ascend(c, segs);
    ReopenedIs(c, files', segs);
    var segs' := Reopened(c, files');
    forall i | 0 <= i < |segs|
      ensures Coherent(c, segs'[i]) && RecordsOf(c, segs'[i]) == RecordsOf(c, segs[i])
      ensures segs'[i] == segs[i].(maxTimestamp := segs'[i].maxTimestamp)
    {
      if i < |segs| - 1 {
        RecoveredSame(c, segs[i]);
      } else {
        RecoveredBefore(c, segs[i], tail);
      }
    }
    ResemblingLog(c, segs, segs', []);
    assert Contents(c, segs) + [] == Contents(c, segs);
  }

  // ------------------------------------------------------------- in an earlier segment

  lemma {:induction false} ElementsConcat(a: seq<nat>, b: seq<nat>)
    ensures Elements(a + b) == Elements(a) + Elements(b)
  {
    if b == [] {
      assert a + b == a;
    } else {
      ElementsConcat(a, b[..|b| - 1]);
      assert (a + b)[..|a + b| - 1] == a + b[..|b| - 1];
    }
  }

  /** Later keys come after the bases of the segments. */
  lemma SortedLater(segs: seq<Seg>, keys: set<nat>, top: nat)
    requires segs != [] && segs[|segs| - 1].base <= top && forall k | k in keys :: top < k
    requires forall x, y | 0 <= x < y < |segs| :: segs[x].base < segs[y].base
    ensures Sorted(Bases(segs) + keys) == BaseList(segs) + Sorted(keys)
  {
    hide Elements, Bases, Sorted;
    var a, b := BaseList(segs), Sorted(keys);
    forall i | 0 <= i < |b|
      ensures top < b[i]
    {
      ElementAt(b, i);
    }
    ElementsConcat(a, b);
    BaseListElements(segs);
    SortedIs(a + b);
  }

  /** When segments were opened behind it, the directory is no log any more: where the oversized record
      stood there is a gap. */
  lemma OversizedGap(c: Settings, segs: seq<Seg>, files: Files, r: Record, more: Bytes, later: Files)
    requires LogOk(c, segs) && Stores(files, segs) && TooLarge(r)
    requires later != map[] && forall k | k in later :: segs[|segs| - 1].next < k
    ensures !LogOk(c, Reopened(c, Continued(segs, files, Encode(c.crc, r) + more) + later))
  {
    hide LogOk, Coherent, Recovered, RecordsOf, Encode, Stores, Continued, TooLarge, Sorted, Bases;
    LogIsTiled(c, segs);
    var m, tail := |segs| - 1, Encode(c.crc, r) + more;
    var last := segs[m];
    var all := Continued(segs, files, tail) + later;
    OversizedHides(c.crc, [], r, more);
    ContinuedFiles(c, segs, files, tail);
    Ascend(c, segs);
    OneLog(c, segs, m);
    SortedLater(segs, later.Keys, last.next);
    assert all.Keys == Bases(segs) + later.Keys;
    var ks, rest := Sorted(all.Keys), Sorted(later.Keys);
    assert rest != [] && rest[0] in later by {
      SomeKey(later.Keys);
    }
    assert ks[m] == last.base && ks[m + 1] == rest[0];
    assert last.base !in later && Content(all, last.base) == last.file + tail;
    CoherentIn(c, segs, m);
    RecoveredBefore(c, last, tail);
    RecoveredBase(c, rest[0], Content(all, rest[0]));
    NotTiled(c, Reopened(c, all), m);
  }

  lemma SomeKey(keys: set<nat>)
    requires keys != {}
    ensures Sorted(keys) != [] && Sorted(keys)[0] in keys
  {
    var ks := Sorted(keys);
    hide Sorted;
    assert ks != [];
    ElementAt(ks, 0);
  }
}
