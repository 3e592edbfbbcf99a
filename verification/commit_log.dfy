/**
 The commit log as the source keeps it (pylog/log.py, class CommitLog): an object with a
 list of segments over one directory. Its promise is that it is a plain sequence of
 records with consecutive offsets, whatever the rolling, before and after a crash.
 */
module CommitLogs {
  import opened Basics
  import opened Records
  import opened Scans
  import opened Disks
  import opened SegmentModel
  import opened Segments
  import opened LogModel
  import opened LogCrashes

  ghost function ViewsOf(segments: seq<Segment>): seq<Seg>
    reads segments, set s | s in segments :: s.disk
  {
    seq(|segments|, i requires 0 <= i < |segments| reads segments, set s | s in segments :: s.disk => segments[i].View())
  }

  /** Where each record of a chunk starts, when the first starts at `from`. */
  predicate Starts(crc: Checksum, positions: seq<nat>, from: nat, chunk: seq<Record>) {
    |positions| == |chunk| && forall k | 0 <= k < |chunk| :: positions[k] == from + Pos(crc, chunk, k)
  }

  class CommitLog {
    const settings: Settings
    const disk: Disk
    var segments: seq<Segment>
    var nextOffset: nat

    ghost function Repr(): set<object>
      reads this
    {
      {this, disk} + set s | s in segments
    }

    ghost predicate Wired()
      reads this
    {
      forall s | s in segments :: s.disk == disk && s.settings == settings
    }

    ghost function Reads(): set<object>
      reads this
    {
      Repr() + set s | s in segments :: s.disk
    }

    ghost function Views(): seq<Seg>
      reads this, Reads()
    {
      ViewsOf(segments)
    }

    ghost function Last(): (s: Seg)
      reads this, Reads()
      ensures segments != [] ==> |Views()| == |segments| && s == Views()[|segments| - 1]
    {
      if segments == [] then EmptySeg(0) else segments[|segments| - 1].View()
    }

    /** The last segment has reached its limit, so that the next record opens a new one. */
    ghost predicate Full()
      reads this, segments
    {
      segments != [] && segments[|segments| - 1].size >= settings.maxSegmentBytes
    }

    /** A segment was opened just when the last one had been full. */
    twostate predicate RolledWhenFull()
      reads this
    {
      |segments| == |old(segments)| + if old(Full()) then 1 else 0
    }

    /** The first offset, and the records from there on. */
    ghost function First(): nat
      reads this
    {
      if segments == [] then 0 else segments[0].base
    }

    ghost function All(): seq<Record>
      reads this, Reads()
    {
      Contents(settings, Views())
    }

    /** The segments form a log, and the directory holds their files and no other. */
    ghost predicate Sound()
      reads this, Reads()
    {
      segments != [] && Wired() && LogOk(settings, Views()) && Stores(disk.files, Views())
    }

    ghost predicate Valid()
      reads this, Reads()
    {
      Sound() && nextOffset == Last().next
    }

    /** Opens whatever log the directory holds. */
    constructor (settings: Settings, disk: Disk)
      modifies disk
      ensures this.settings == settings && this.disk == disk && Wired() && fresh(Repr() - {disk})
      ensures Views() == Reopened(settings, old(disk.files)) && Stores(disk.files, Views())
      ensures LogOk(settings, Reopened(settings, old(disk.files))) ==> Valid()
      ensures old(disk.journal) <= disk.journal
      ensures ReopensAlike(settings, old(disk.files), disk.journal[|old(disk.journal)|..])
    {
      hide LogOk, Reopened, Stores, ReopensAlike;
      this.settings, this.disk := settings, disk;
      segments, nextOffset := [], 0;
      new;
      Recover();
    }

    /** Segment `k` is wired up and stands for file `stems[k]`. */
    ghost predicate Placed(k: nat, stems: seq<nat>)
      requires k < |segments| && k < |stems|
      reads this
    {
      segments[k].disk == disk && segments[k].settings == settings && segments[k].base == stems[k]
    }

    /** One segment object for each file. */
    method ListSegments(stems: seq<nat>)
      modifies this`segments
      ensures |segments| == |stems|
      ensures forall k | 0 <= k < |stems| :: Placed(k, stems) && fresh(segments[k])
    {
      segments := [];
      for i := 0 to |stems|
        invariant |segments| == i
        invariant forall k | 0 <= k < i :: Placed(k, stems) && fresh(segments[k])
      {
        var seg := new Segment(settings, disk, stems[i]);
        segments := segments + [seg];
      }
    }

    /** Segment `k` is as recovery makes it from what its file held in `files`. */
    ghost predicate Restored(k: nat, files: Files)
      requires k < |segments|
      reads this, segments, segments[k].disk
    {
      segments[k].View() == Recovered(settings, segments[k].base, Content(files, segments[k].base))
    }

    /** Rebuilds each segment from its file. */
    method RecoverEach(stems: seq<nat>)
      requires |segments| == |stems| && Ascending(stems) && Elements(stems) == disk.files.Keys
      requires forall k | 0 <= k < |stems| :: Placed(k, stems)
      modifies disk, segments
      ensures disk.files.Keys == old(disk.files).Keys
      ensures forall k | 0 <= k < |stems| :: Restored(k, old(disk.files))
      ensures old(disk.journal) <= disk.journal
      ensures OpensGently(settings.crc, old(disk.files), disk.journal[|old(disk.journal)|..])
    {
      hide Recovered, OpensGently, DoAll;
      ghost var files, mark := disk.files, |disk.journal|;
      GentlyNone(settings.crc, files);
      assert disk.journal[mark..] == [];
      for k := 0 to |segments|
        invariant Opening(files, mark) && old(disk.journal) <= disk.journal
        invariant forall i | 0 <= i < k :: Restored(i, files)
        invariant forall i | k <= i < |stems| :: Content(disk.files, stems[i]) == Content(files, stems[i])
      {
        RecoverOne(k, stems, files, mark);
      }
    }

    /** What the journal has recorded since `mark` has cut some of `files` to their intact records. */
    ghost predicate Opening(files: Files, mark: nat)
      reads this, disk
    {
      mark <= |disk.journal| && disk.files.Keys == files.Keys && disk.files == DoAll(files, disk.journal[mark..])
      && OpensGently(settings.crc, files, disk.journal[mark..])
    }

    method RecoverOne(k: nat, stems: seq<nat>, ghost files: Files, ghost mark: nat)
      requires |segments| == |stems| && k < |stems| && Ascending(stems) && Elements(stems) == disk.files.Keys
      requires forall i | 0 <= i < |stems| :: Placed(i, stems)
      requires forall i | 0 <= i < k :: Restored(i, files)
      requires forall i | k <= i < |stems| :: Content(disk.files, stems[i]) == Content(files, stems[i])
      requires Opening(files, mark)
      modifies disk, segments[k]
      ensures Opening(files, mark) && old(disk.journal) <= disk.journal
      ensures forall i | 0 <= i <= k :: Restored(i, files)
      ensures forall i | k < i < |stems| :: Content(disk.files, stems[i]) == Content(files, stems[i])
    {
      hide Recovered, OpensGently, DoAll, Elements;
      assert Placed(k, stems);
      ElementAt(stems, k);
      ghost var before := disk.journal[mark..];
      segments[k].Recover();
      OneRecovered(settings, files, before, segments[k].base);
      assert disk.journal[mark..] == before + disk.journal[|old(disk.journal)|..];
      forall i | 0 <= i < k
        ensures Restored(i, files)
      {
        assert old(Restored(i, files)) && Placed(i, stems) && stems[i] != stems[k];
      }
    }

    /** Rebuilds every segment from its file, in the order of their bases. */
    method Recover()
      modifies this, disk
      ensures Wired() && fresh(set s | s in segments)
      ensures Views() == Reopened(settings, old(disk.files)) && Stores(disk.files, Views())
      ensures segments != [] && nextOffset == Last().next
      ensures old(disk.journal) <= disk.journal
      ensures ReopensAlike(settings, old(disk.files), disk.journal[|old(disk.journal)|..])
    {
      hide Recovered, Stores, Reopened, Restored, Placed, Ascending, ReopensAlike, OpensGently, Elements;
      var stems := Sorted(disk.files.Keys);
      ListSegments(stems);
      if segments == [] {
        OpenFirst();
        return;
      }
      RecoverEach(stems);
      RestoredAll(stems, old(disk.files));
      GentlyReopens(settings, old(disk.files), disk.journal[|old(disk.journal)|..]);
      nextOffset := segments[|segments| - 1].nextOffset;
    }

    /** An empty directory starts with an empty segment at offset 0. */
    method OpenFirst()
      requires segments == [] && Sorted(disk.files.Keys) == []
      modifies this, disk
      ensures Wired() && fresh(set s | s in segments)
      ensures Views() == Reopened(settings, old(disk.files)) && Stores(disk.files, Views())
      ensures segments != [] && nextOffset == Last().next
      ensures old(disk.journal) <= disk.journal
      ensures ReopensAlike(settings, old(disk.files), disk.journal[|old(disk.journal)|..])
    {
      hide Stores, ReopensAlike;
      assert disk.files.Keys == Elements([]);
      FirstReopens(settings, disk.files);
      assert Views() == [];
      NewSegment(0);
      nextOffset := 0;
      assert disk.journal[|old(disk.journal)|..] == [Create(0)];
      StoresAll(Views(), disk.files, [0]) by {
        OneBase();
      }
    }

    lemma RestoredAll(stems: seq<nat>, files: Files)
      requires stems == Sorted(files.Keys) != [] && |segments| == |stems|
      requires forall k | 0 <= k < |stems| :: Placed(k, stems)
      requires forall k | 0 <= k < |stems| :: Restored(k, files)
      requires disk.files.Keys == files.Keys
      ensures Wired() && Views() == Reopened(settings, files) && Stores(disk.files, Views())
    {
      hide Recovered, Stores, Sorted, Reopened;
      PlacedAreWired(stems);
      forall k | 0 <= k < |stems|
        ensures Views()[k].base == stems[k] && Views()[k].file == Content(disk.files, stems[k])
        ensures Views()[k] == Recovered(settings, stems[k], Content(files, stems[k]))
      {
        assert Placed(k, stems) && Restored(k, files);
      }
      ReopenedList(settings, files, Views());
      StoresAll(Views(), disk.files, stems);
    }

    lemma PlacedAreWired(stems: seq<nat>)
      requires |segments| == |stems| && forall k | 0 <= k < |stems| :: Placed(k, stems)
      ensures Wired()
    {
      forall s | s in segments
        ensures s.disk == disk && s.settings == settings
      {
        var k :| 0 <= k < |segments| && segments[k] == s;
        assert Placed(k, stems);
      }
    }

    method NewSegment(base: nat)
      requires Wired() && base !in disk.files && forall s | s in segments :: s.base in disk.files
      modifies this`segments, disk
      ensures Wired() && |segments| == |old(segments)| + 1 && segments[..|segments| - 1] == old(segments)
      ensures fresh(segments[|segments| - 1])
      ensures Views() == old(Views()) + [EmptySeg(base)]
      ensures disk.files == Do(old(disk.files), Create(base))
      ensures disk.journal == old(disk.journal) + [Create(base)]
    {
      var seg := new Segment(settings, disk, base);
      seg.Recover();
      NothingRecovered(settings, base);
      segments := segments + [seg];
    }

    // ------------------------------------------------------------------- adding

    /** In the middle of adding: what the journal has recorded since `mark` was safe throughout,
        and the first `i` records of the batch are in. */
    ghost predicate Adding(x: Intent, mark: nat, i: nat)
      reads this, Reads()
    {
      Sound() && mark <= |disk.journal|
      && disk.files == DoAll(x.start, disk.journal[mark..])
      && Midway(settings, x, disk.journal[mark..], Views(), i)
    }

    /** Only the last segment and its file changed. */
    twostate lemma LastChanged()
      requires old(Sound()) && Wired() && segments == old(segments)
      requires forall s | s in segments && s != segments[|segments| - 1] :: unchanged(s)
      requires forall b | b in old(disk.files) && b != segments[|segments| - 1].base ::
                 b in disk.files && disk.files[b] == old(disk.files[b])
      ensures |segments| == |Views()| > 0
      ensures Views() == LastBy(old(Views()), segments[|segments| - 1].View())
    {
      hide LogOk, Stores;
      var n, views, files := |segments| - 1, old(Views()), old(disk.files);
      forall i | 0 <= i < n
        ensures segments[i].View() == old(segments[i].View())
      {
        OthersStored(settings, views, files, i);
        assert views[i] == old(segments[i].View()) && views[n].base == segments[n].base;
        assert segments[i] in segments && segments[i].base == views[i].base;
      }
    }

    method Roll(base: nat, ghost x: Intent, ghost mark: nat, ghost i: nat)
      requires Adding(x, mark, i) && base == Last().next && Last().size > 0
      modifies this`segments, disk
      ensures Wired() && Adding(x, mark, i) && fresh(Repr() - old(Repr()))
      ensures |segments| == |old(segments)| + 1 && segments[..|segments| - 1] == old(segments)
      ensures Views() == old(Views()) + [EmptySeg(base)]
      ensures old(disk.journal) <= disk.journal
    {
      hide LogOk, Midway, Stores, DoAll;
      ghost var views, files, ops := Views(), disk.files, disk.journal[mark..];
      BaseIsNew(settings, views, base);
      StoredBases(views, files);
      LogIsTiled(settings, views);
      forall s | s in segments
        ensures s.base in disk.files
      {
        var k :| 0 <= k < |segments| && segments[k] == s;
        assert views[k].base == s.base;
      }
      NewSegment(base);
      assert disk.journal[mark..] == ops + [Create(base)];
      SegmentRolled(settings, x, ops, views, i, files);
    }

    /** One write of some next records to the last segment. */
    method WriteChunk(chunk: seq<Record>, data: Bytes, positions: seq<nat>, ghost x: Intent, ghost mark: nat, ghost i: nat)
      requires Adding(x, mark, i) && Follows(x, Views(), i, chunk)
      requires data == EncodeAll(settings.crc, chunk) && Starts(settings.crc, positions, Last().size, chunk)
      modifies disk, segments[|segments| - 1]
      ensures Adding(x, mark, i + |chunk|)
      ensures Views() == LastBy(old(Views()), GrowAll(settings, old(Last()), chunk))
      ensures old(disk.journal) <= disk.journal
    {
      hide LogOk, Midway, Stores, DoAll, GrowAll, Follows, EncodeAll, Pos;
      ghost var views, files, ops := Views(), disk.files, disk.journal[mark..];
      var active := segments[|segments| - 1];
      ActiveBase(views, files);
      active.AppendChunk(chunk, data, positions);
      LastChanged();
      ChunkWritten(settings, x, ops, views, i, chunk, files);
      assert disk.journal[mark..] == ops + [WriteOp(settings, views, chunk)];
    }

    /** Collects the records from `i` on that one write will add: the first in any case, further
        ones as long as the segment stays within its limit. */
    method Gather(batch: seq<Record>, i: nat) returns (j: nat, data: Bytes, positions: seq<nat>)
      requires i < |batch| && segments != []
      ensures i < j <= |batch| && data == EncodeAll(settings.crc, batch[i..j])
      ensures Starts(settings.crc, positions, segments[|segments| - 1].size, batch[i..j])
      ensures Fills(settings, segments[|segments| - 1].size, batch[i..], j - i)
    {
      hide Encode, EncodeAll;
      var size := segments[|segments| - 1].size;
      var position := size;
      j, data, positions := i, [], [];
      NothingEncoded(settings.crc, batch, i);
      while j < |batch|
        invariant i <= j <= |batch| && data == EncodeAll(settings.crc, batch[i..j]) && position == size + |data|
        invariant Starts(settings.crc, positions, size, batch[i..j])
        invariant forall m | 1 < m <= j - i :: size + Pos(settings.crc, batch[i..], m) <= settings.maxSegmentBytes
      {
        var record := Encode(settings.crc, batch[j]);
        OneMore(settings.crc, batch, i, j);
        if j > i && position + |record| > settings.maxSegmentBytes {
          break;
        }
        StartsMore(settings.crc, positions, size, batch[i..j], batch[j]);
        positions := positions + [position];
        data := data + record;
        position := position + |record|;
        j := j + 1;
      }
    }

    /** Writes the next records of the batch that fit. */
    method AddChunk(batch: seq<Record>, i: nat, ghost x: Intent, ghost mark: nat, ghost first: nat) returns (j: nat)
      requires Adding(x, mark, i) && i < |batch| && x.batch == batch && AllStorable(batch)
      requires Consecutive(first, batch) && Last().next == first + i
      modifies disk, segments[|segments| - 1]
      ensures i < j <= |batch| && Wired() && Adding(x, mark, j)
      ensures Last().next == first + j && Last().size > 0
      ensures old(disk.journal) <= disk.journal
    {
      hide LogOk, Stores, Midway, EncodeAll, GrowAll, Starts, Fills, AllStorable, Consecutive;
      var data, positions;
      j, data, positions := Gather(batch, i);
      var chunk := batch[i..j];
      NextChunk(x, Views(), i, j);
      ghost var last := Last();
      WriteChunk(chunk, data, positions, x, mark, i);
      GrownBy(settings, last, chunk);
      OffsetAt(first, batch, j - 1);
    }

    /** What adding `batch` means: the log as it is now, to be continued. */
    ghost function Plan(batch: seq<Record>): Intent
      reads this, Reads()
    {
      Intent(disk.files, First(), All(), batch)
    }

    lemma StartAdding(batch: seq<Record>)
      requires Valid()
      ensures Adding(Plan(batch), |disk.journal|, 0) && segments != [] && Wired() && Last().next == nextOffset
    {
      hide LogOk, Stores, Midway;
      assert disk.journal[|disk.journal|..] == [];
      assert DoAll(disk.files, []) == disk.files;
      MidwayStart(settings, Plan(batch), Views());
    }

    /** A crash anywhere since the old state keeps the log as it was and some first records of the batch. */
    twostate predicate AddedSafely(batch: seq<Record>)
      reads disk
    {
      old(disk.journal) <= disk.journal
      && CrashSafe(settings, old(Plan(batch)), disk.journal[|old(disk.journal)|..])
    }

    /** The group commit loop. */
    method AddAll(batch: seq<Record>, first: nat, ghost x: Intent, ghost mark: nat)
      requires segments != [] && Wired() && Adding(x, mark, 0) && x.batch == batch && AllStorable(batch)
      requires Consecutive(first, batch) && Last().next == first
      modifies this`segments, disk, segments
      ensures Adding(x, mark, |batch|) && fresh(Repr() - old(Repr())) && old(disk.journal) <= disk.journal
      ensures Last().next == first + |batch|
    {
      hide LogOk, Stores, Midway, AllStorable, Consecutive, DoAll, Adding, Storable, ViewsOf;
      var i := 0;
      while i < |batch|
        invariant 0 <= i <= |batch| && fresh(Repr() - old(Repr())) && old(disk.journal) <= disk.journal
        invariant segments != [] && Wired() && Adding(x, mark, i)
        invariant Last().next == first + i
      {
        var j := AddChunk(batch, i, x, mark, first);
        if j < |batch| {
          OffsetAt(first, batch, j);
          Roll(batch[j].offset, x, mark, j);
        }
        i := j;
      }
    }

    /** With the whole batch in, what the journal has recorded is safe and the contents are the sum. */
    lemma AddedAll(x: Intent, mark: nat)
      requires Adding(x, mark, |x.batch|)
      ensures Sound() && First() == x.first && All() == x.all + x.batch && CrashSafe(settings, x, disk.journal[mark..])
    {
      hide LogOk, Stores, Contents, CrashSafe, DoAll;
      MidwayDone(settings, x, disk.journal[mark..], Views());
    }

    method SetNext(next: nat)
      requires Sound() && next == Last().next
      modifies this`nextOffset
      ensures nextOffset == next && Valid() && First() == old(First()) && All() == old(All())
    {
      hide LogOk, Stores, Contents;
      nextOffset := next;
    }

    /** Adds a batch of records: each write takes as many as fit into the segment. */
    method AppendMany(payloads: seq<Bytes>, timestamps: seq<int>) returns (offsets: seq<nat>)
      requires Valid() && |payloads| == |timestamps| && AllStorable(Numbered(nextOffset, payloads, timestamps))
      modifies this, disk, segments
      ensures Valid() && fresh(Repr() - old(Repr())) && First() == old(First())
      ensures All() == old(All()) + Numbered(old(nextOffset), payloads, timestamps)
      ensures |All()| == |old(All())| + |payloads|
      ensures forall k | 0 <= k < |payloads| ::
                All()[|old(All())| + k] == Record(old(nextOffset) + k, timestamps[k], payloads[k])
      ensures nextOffset == old(nextOffset) + |payloads|
      ensures offsets == seq(|payloads|, k requires 0 <= k => old(nextOffset) + k)
      ensures AddedSafely(Numbered(old(nextOffset), payloads, timestamps))
    {
      hide LogOk, Stores, Adding, AllStorable, Consecutive, DoAll, Contents, CrashSafe, Valid;
      var n, first := |payloads|, nextOffset;
      var batch := Numbered(first, payloads, timestamps);
      ghost var x, mark := Plan(batch), |disk.journal|;
      offsets := seq(n, k requires 0 <= k => first + k);
      NumberedRuns(first, payloads, timestamps);
      StartAdding(batch);
      AddAll(batch, first, x, mark);
      AddedAll(x, mark);
      SetNext(first + n);
    }

    /** One record, all of the batch, written to the last segment. */
    method WriteOne(record: Record, ghost x: Intent, ghost mark: nat)
      requires segments != [] && Wired() && Adding(x, mark, 0) && x.batch == [record]
      requires Storable(record) && record.offset == Last().next
      modifies disk, segments[|segments| - 1]
      ensures Wired() && Adding(x, mark, 1) && Last().next == record.offset + 1
      ensures old(disk.journal) <= disk.journal
    {
      hide LogOk, Midway, Stores, DoAll, GrowAll, Encode, EncodeAll, Storable;
      ghost var views, files, ops := Views(), disk.files, disk.journal[mark..];
      var active := segments[|segments| - 1];
      ActiveBase(views, files);
      active.Append(record.offset, Encode(settings.crc, record), record.timestamp);
      LastChanged();
      OneFollows(x, views, record);
      OneGrown(settings, views[|views| - 1], record);
      ChunkWritten(settings, x, ops, views, 0, [record], files);
      assert disk.journal[mark..] == ops + [WriteOp(settings, views, [record])];
    }

    method AddOne(record: Record, ghost x: Intent, ghost mark: nat)
      requires segments != [] && Wired() && Adding(x, mark, 0) && x.batch == [record]
      requires Storable(record) && record.offset == Last().next
      modifies this`segments, disk, segments
      ensures Wired() && Adding(x, mark, 1) && Last().next == record.offset + 1
      ensures RolledWhenFull()
      ensures fresh(Repr() - old(Repr())) && old(disk.journal) <= disk.journal
    {
      hide LogOk, Stores, Midway, DoAll, Storable, Adding, ViewsOf;
      if segments[|segments| - 1].size >= settings.maxSegmentBytes {
        Roll(record.offset, x, mark, 0);
      }
      WriteOne(record, x, mark);
    }

    /** Adds one record, in a new segment when the last one is full. */
    method Append(payload: Bytes, timestamp: int) returns (offset: nat)
      requires Valid() && Storable(Record(nextOffset, timestamp, payload))
      modifies this, disk, segments
      ensures Valid() && fresh(Repr() - old(Repr())) && First() == old(First())
      ensures All() == old(All()) + [Record(offset, timestamp, payload)]
      ensures offset == old(nextOffset) && nextOffset == offset + 1
      ensures RolledWhenFull()
      ensures AddedSafely([Record(offset, timestamp, payload)])
    {
      hide LogOk, Stores, Adding, DoAll, Contents, CrashSafe, Storable, Valid;
      offset := nextOffset;
      var record := Record(offset, timestamp, payload);
      ghost var x, mark := Plan([record]), |disk.journal|;
      StartAdding([record]);
      AddOne(record, x, mark);
      AddedAll(x, mark);
      SetNext(offset + 1);
    }

    // ------------------------------------------------------------------- reading

    /** The index of the last segment whose base is not after `offset`, or -1 (`bisect_right` less one). */
    method SegmentFor(offset: int) returns (index: int)
      ensures -1 <= index < |segments|
      ensures index >= 0 ==> segments[index].base <= offset
      ensures index + 1 < |segments| ==> offset < segments[index + 1].base
    {
      var lo, hi := 0, |segments|;
      while lo < hi
        invariant 0 <= lo <= hi <= |segments|
        invariant lo > 0 ==> segments[lo - 1].base <= offset
        invariant hi < |segments| ==> offset < segments[hi].base
      {
        var mid := (lo + hi) / 2;
        if segments[mid].base <= offset {
          lo := mid + 1;
        } else {
          hi := mid;
        }
      }
      index := lo - 1;
    }

    /** The record at an offset, whatever segment holds it. */
    method Read(offset: int) returns (r: Option<Record>)
      requires Valid()
      ensures r == RecordAt(settings, Views(), offset)
    {
      hide LogOk, Stores, Contents, Lookup, Segment.Valid;
      var index := SegmentFor(offset);
      if index < 0 {
        return None;
      }
      SegmentIsValid(index);
      LookupFinds(settings, Views(), index, offset);
      r := segments[index].Read(offset);
      if r == None && index > 0 {
        SegmentIsValid(index - 1);
        r := segments[index - 1].Read(offset);
      }
    }

    lemma SegmentIsValid(k: nat)
      requires Valid() && k < |segments|
      ensures segments[k] in segments && segments[k].Valid() && segments[k].View() == Views()[k]
      ensures segments[k].disk == disk && segments[k].settings == settings
    {
      hide Coherent;
      assert Views()[k] in Views();
    }

    lemma FirstBase()
      requires segments != []
      ensures |Views()| == |segments| && Views()[0].base == First()
    {
    }

    /** The records from an offset on, up to a limit or the end. */
    method ReadRange(start: int, limit: nat) returns (out: seq<Record>)
      requires Valid()
      ensures out == RangeFrom(All(), start - First(), limit)
    {
      hide LogOk, Stores, Contents, ViewsOf, RangeFrom;
      FirstBase();
      hide Valid;
      out := [];
      RangeStarts(All(), start - First());
      var offset := start;
      while |out| < limit
        invariant |out| <= limit && offset == start + |out|
        invariant out == RangeFrom(All(), start - First(), |out|)
        decreases limit - |out|
      {
        var r := Read(offset);
        if r == None {
          RangeEnds(All(), start - First(), |out|, limit);
          break;
        }
        RangeMore(All(), start - First(), |out|);
        out := out + [r.value];
        offset := offset + 1;
      }
    }

    // ----------------------------------------------------------------- truncating

    /** Deletes the files of the segments from `from` on, and lets go of the segments. */
    method DropTail(from: nat)
      requires Sound() && 0 < from <= |segments|
      modifies this`segments, disk
      ensures segments == old(segments)[..from] && Sound() && Views() == old(Views())[..from]
      ensures disk.files == old(disk.files) - Bases(old(Views())[from..])
      ensures disk.journal == old(disk.journal) + Removals(old(Views())[from..])
    {
      hide LogOk, Stores, Bases, Removals;
      ghost var views := Views();
      NothingRemoved(disk.files, views[from..from]);
      NoOps(disk.files, views[from..from]);
      for k := from to |segments|
        modifies disk
        invariant disk.files == old(disk.files) - Bases(views[from..k])
        invariant disk.journal == old(disk.journal) + Removals(views[from..k])
      {
        assert views[from..k + 1] == views[from..k] + [views[k]];
        RemovalsSnoc(views[from..k], views[k]);
        disk.Perform(Remove(segments[k].base));
      }
      assert views[from..|segments|] == views[from..];
      segments := segments[..from];
      StoresFront(settings, views, old(disk.files), from);
      LogFront(settings, views, from);
      StoredViews(views[..from]);
    }

    /** With the files and the counters of `views`, the segments are `views`. */
    lemma StoredViews(views: seq<Seg>)
      requires Wired() && |views| == |segments| && Stores(disk.files, views)
      requires forall k | 0 <= k < |segments| :: segments[k].View().(file := views[k].file) == views[k]
      ensures Views() == views
    {
      forall k | 0 <= k < |segments|
        ensures Views()[k] == views[k]
      {
        assert views[k] in views && segments[k] in segments;
        assert segments[k].base == views[k].base;
      }
    }

    /** Truncates the last segment. */
    method CutLast(offset: int) returns (changed: bool)
      requires Sound() && Last().base <= offset
      modifies disk, segments[|segments| - 1]
      ensures Wired() && Views() == LastBy(old(Views()), Last()) && Stores(disk.files, Views())
      ensures Coherent(settings, Last()) && Last().base == old(Last()).base
      ensures RecordsOf(settings, Last())
              == old(RecordsOf(settings, Last()))[..Kept(Last().base, |old(RecordsOf(settings, Last()))|, offset)]
      ensures changed == (RecordsOf(settings, Last()) != old(RecordsOf(settings, Last())))
      ensures old(disk.journal) <= disk.journal
      ensures var ops := disk.journal[|old(disk.journal)|..]; NoWrites(ops) && |ops| <= 1
      ensures disk.files == DoAll(old(disk.files), disk.journal[|old(disk.journal)|..])
    {
      hide LogOk, Stores, Coherent, RecordsOf, DoAll;
      SegmentIsSound(|segments| - 1);
      ghost var views, files := Views(), disk.files;
      ActiveBase(views, files);
      changed := segments[|segments| - 1].TruncateFrom(offset);
      LastChanged();
      StoresLast(settings, views, files, Last());
    }

    lemma SegmentIsSound(k: nat)
      requires Sound() && k < |segments|
      ensures segments[k] in segments && segments[k].Valid() && segments[k].View() == Views()[k]
      ensures segments[k].disk == disk && segments[k].settings == settings
    {
      hide Coherent;
      assert Views()[k] in Views();
    }

    /** Drops the records from `offset` on: later segments first, then the end of the one that
        holds the offset. An offset before the first record changes nothing. */
    method TruncateFrom(offset: int) returns (changed: bool)
      requires Valid()
      modifies this, disk, segments
      ensures Valid() && segments <= old(segments) && First() == old(First())
      ensures All() == old(All())[..Kept(First(), |old(All())|, offset)]
      ensures changed == (|segments| < |old(segments)| || All() != old(All()))
      ensures TruncatedSafely(offset)
    {
      hide LogOk, Stores, Contents, Coherent, RecordsOf, Removals, CutSafely, DoAll;
      var at := SegmentFor(offset);
      if at < 0 {
        assert All()[..|All()|] == All();
        Untouched(offset);
        return false;
      }
      changed := TruncateAt(at, offset);
    }

    /** A crash anywhere since the old state leaves a log exactly when it did not come between two
        deletions, and then at least the records that the truncation keeps. */
    twostate predicate TruncatedSafely(offset: int)
      reads this, Reads()
    {
      old(segments) != [] && old(disk.journal) <= disk.journal
      && disk.files == DoAll(old(disk.files), disk.journal[|old(disk.journal)|..])
      && CutSafely(settings, old(Views()), old(disk.files), offset, All(), disk.journal[|old(disk.journal)|..])
    }

    lemma NextAtEnd()
      requires Valid()
      ensures segments != [] && Last().base <= nextOffset
    {
      hide LogOk, Stores;
      OneLog(settings, Views(), |segments| - 1);
    }

    /** Doing nothing is safe. */
    lemma Untouched(offset: int)
      requires Valid() && (offset < First() || Last().base <= offset)
      ensures disk.files == DoAll(disk.files, disk.journal[|disk.journal|..])
      ensures CutSafely(settings, Views(), disk.files, offset, All(), disk.journal[|disk.journal|..])
    {
      hide LogOk, Stores, Contents, CutSafely, Valid, ViewsOf, DoAll, Truncates, Opens;
      Core();
      ghost var none := disk.journal[|disk.journal|..];
      DoNoneOrOne(disk.files, Create(0));
      assert none == [];
      StoredOpens(settings, Views(), disk.files);
      TruncatesNothing(settings, Views(), offset);
      TruncatesSafely(settings, Views(), disk.files, offset, All(), none);
    }

    lemma Core()
      requires Valid()
      ensures LogOk(settings, Views()) && Stores(disk.files, Views()) && |Views()| == |segments| > 0
      ensures First() == Views()[0].base && Last() == Views()[|segments| - 1]
    {
      hide LogOk, Stores;
    }

    method TruncateAt(at: nat, offset: int) returns (changed: bool)
      requires Valid() && at < |segments| && segments[at].base <= offset
      requires at + 1 < |segments| ==> offset < segments[at + 1].base
      modifies this, disk, segments
      ensures Valid() && segments == old(segments)[..at + 1] && First() == old(First())
      ensures All() == old(All())[..Kept(First(), |old(All())|, offset)]
      ensures changed == (|segments| < |old(segments)| || All() != old(All()))
      ensures TruncatedSafely(offset)
    {
      hide LogOk, Stores, Contents, CutAt, RecordsOf, Removals, ViewsOf, Kept, DoAll, LastBy, Truncates,
        CutSafely, Opens, Valid;
      ViewBases();
      Parts();
      ghost var views, files := Views(), disk.files;
      var dropped := at + 1 < |segments|;
      var cut := DropAndCut(at, offset, views);
      TailCut(views, at, offset);
      Settle();
      changed := dropped || cut;
      TruncatesSafely(settings, views, files, offset, All(), disk.journal[|old(disk.journal)|..]);
    }

    /** Brings the next offset up to date. */
    method Settle()
      requires segments != [] && Wired() && LogOk(settings, Views()) && Stores(disk.files, Views())
      modifies this`nextOffset
      ensures Valid() && First() == Views()[0].base && Opens(settings, disk.files, First(), All())
    {
      hide LogOk, Stores, Contents, Opens;
      nextOffset := segments[|segments| - 1].nextOffset;
      StoredOpens(settings, Views(), disk.files);
    }

    /** With segment `at` cut and the later ones gone, the log has lost its records from the offset on. */
    lemma TailCut(views: seq<Seg>, at: nat, offset: int)
      requires LogOk(settings, views) && HoldsOffset(views, at, offset)
      requires Views() == LastBy(views[..at + 1], Last()) && CutAt(views[at], offset)
      ensures LogOk(settings, Views()) && Views()[0].base == views[0].base
      ensures All() == Contents(settings, views)[..Kept(views[0].base, |Contents(settings, views)|, offset)]
      ensures at + 1 == |views| ==>
                (RecordsOf(settings, Last()) != RecordsOf(settings, views[at]) <==> All() != Contents(settings, views))
    {
      hide LogOk, Contents, Coherent, RecordsOf, ViewsOf, Kept;
      Truncation(settings, views, at, offset, Last());
    }

    /** What is left of segment `at`, now the last one, after truncating at `offset`. */
    ghost predicate CutAt(s: Seg, offset: int)
      reads this, Reads()
    {
      var rs := RecordsOf(settings, s);
      Coherent(settings, Last()) && Last().base == s.base && RecordsOf(settings, Last()) == rs[..Kept(s.base, |rs|, offset)]
    }

    method DropAndCut(at: nat, offset: int, ghost views: seq<Seg>) returns (cut: bool)
      requires Sound() && views == Views() && HoldsOffset(views, at, offset)
      modifies this`segments, disk, segments
      ensures segments == old(segments)[..at + 1] && Wired() && Stores(disk.files, Views())
      ensures Views() == LastBy(views[..at + 1], Last()) && CutAt(views[at], offset)
      ensures cut == (RecordsOf(settings, Last()) != RecordsOf(settings, views[at]))
      ensures old(disk.journal) <= disk.journal
      ensures Truncates(views, offset, disk.journal[|old(disk.journal)|..])
      ensures disk.files == DoAll(old(disk.files), disk.journal[|old(disk.journal)|..])
    {
      hide LogOk, Stores, Contents, Coherent, RecordsOf, Removals, ViewsOf, Bases, Kept, DoAll, Truncates, NoWrites;
      ViewBases();
      ghost var journal := disk.journal;
      DropTail(at + 1);
      assert Last() == views[at];
      RemovalsDone(old(disk.files), views[at + 1..]);
      ghost var mid := disk.journal;
      hide LastBy;
      cut := CutLast(offset);
      hide Sound, Wired;
      TruncatesBy(views, at, offset, disk.journal[|mid|..]);
      TwoStretches(old(disk.files), journal, mid, disk.journal);
    }

    lemma LeadHere(minBase: int)
      requires Sound()
      ensures |Views()| == |segments| && forall k | 0 <= k < |segments| :: Views()[k].base == segments[k].base
      ensures LeadBelow(Views(), minBase) < |segments|
      ensures forall i | 0 <= i < |segments| - 1 ::
                (segments[i].size == 0 || segments[i].base < minBase) <==> i < LeadBelow(Views(), minBase)
      ensures forall s | s in segments :: s.disk == disk
    {
      hide LogOk, Stores;
      ViewBases();
      LeadMeans(settings, Views(), minBase);
    }

    /** Deletes the files of the segments that are to go, and lists those that stay. */
    method SweepFront(minBase: int) returns (removed: nat, kept: seq<Segment>)
      requires Sound()
      modifies disk
      ensures removed == LeadBelow(old(Views()), minBase) && removed < |segments| && kept == segments[removed..]
      ensures disk.files == old(disk.files) - Bases(old(Views())[..removed])
      ensures disk.journal == old(disk.journal) + Removals(old(Views())[..removed])
    {
      hide Sound, Bases, LeadBelow, Removals, ViewsOf, Views;
      ghost var views := Views();
      LeadHere(minBase);
      ghost var n := LeadBelow(views, minBase);
      removed, kept := 0, [];
      NoOps(disk.files, views[..0]);
      var i := 0;
      while i < |segments|
        invariant 0 <= i <= |segments|
        invariant removed == (if i < n then i else n) && kept == segments[removed..i]
        invariant disk.files == old(disk.files) - Bases(views[..removed])
        invariant disk.journal == old(disk.journal) + Removals(views[..removed])
      {
        var seg := segments[i];
        if (seg.size == 0 || seg.base < minBase) && i < |segments| - 1 {
          assert views[..removed + 1] == views[..removed] + [views[removed]];
          RemovalsSnoc(views[..removed], views[removed]);
          disk.Perform(Remove(seg.base));
          removed := removed + 1;
          assert kept == [];
        } else {
          assert segments[removed..i + 1] == segments[removed..i] + [seg];
          kept := kept + [seg];
        }
        i := i + 1;
      }
    }

    /** Deletes leading segments whose base is below `minBase` (and empty ones), never the last. */
    method TruncateSegmentsBefore(minBase: int) returns (removed: nat)
      requires Valid()
      modifies this`segments, disk
      ensures Valid() && nextOffset == old(nextOffset)
      ensures removed == LeadBelow(old(Views()), minBase) && removed < |old(segments)|
      ensures segments == old(segments)[removed..] && Views() == old(Views())[removed..]
      ensures 0 <= First() - old(First()) <= |old(All())| && All() == old(All())[First() - old(First())..]
      ensures old(disk.journal) <= disk.journal
      ensures SweptSafely(settings, old(Views()), removed, old(disk.files), disk.journal[|old(disk.journal)|..])
    {
      hide LogOk, Stores, Contents, Bases, LeadBelow, SweptSafely, Removals, Valid, Sound, ViewsOf;
      ghost var views := Views();
      Parts();
      var kept;
      removed, kept := SweepFront(minBase);
      SweepsSafely(settings, views, removed, old(disk.files));
      assert disk.journal[|old(disk.journal)|..] == Removals(views[..removed]);
      StoresBack(settings, views, old(disk.files), removed);
      LetGo(kept, views, removed);
    }

    lemma Parts()
      requires Valid()
      ensures Sound() && Wired() && segments != [] && nextOffset == Views()[|segments| - 1].next
      ensures LogOk(settings, Views()) && Stores(disk.files, Views()) && |Views()| == |segments| && First() == Views()[0].base
      ensures forall k | 0 <= k < |segments| :: segments[k].View().(file := Views()[k].file) == Views()[k]
    {
      hide LogOk, Stores;
    }

    /** The last segments keep their views when the files of the others go. */
    lemma StillViews(views: seq<Seg>, n: nat)
      requires Wired() && n + |segments| == |views| && Stores(disk.files, views[n..])
      requires forall k | 0 <= k < |segments| :: segments[k].View().(file := views[n + k].file) == views[n + k]
      ensures Views() == views[n..]
    {
      hide Stores;
      StoredViews(views[n..]);
    }

    /** Lets go of the first segments, whose files are gone. */
    method LetGo(kept: seq<Segment>, ghost views: seq<Seg>, ghost n: nat)
      requires LogOk(settings, views) && n < |views| == |segments| && kept == segments[n..]
      requires Wired() && Stores(disk.files, views[n..]) && nextOffset == views[|views| - 1].next
      requires forall k | 0 <= k < |segments| :: segments[k].View().(file := views[k].file) == views[k]
      modifies this`segments
      ensures segments == kept && Valid() && Views() == views[n..] && First() == views[n].base
      ensures 0 <= First() - views[0].base <= |Contents(settings, views)|
      ensures All() == Contents(settings, views)[First() - views[0].base..]
    {
      hide LogOk, Stores, Contents, Valid, ViewsOf;
      segments := kept;
      FrontGone(views, n);
    }

    lemma FrontGone(views: seq<Seg>, n: nat)
      requires LogOk(settings, views) && n < |views| == n + |segments| && Wired() && Stores(disk.files, views[n..])
      requires forall k | 0 <= k < |segments| :: segments[k].View().(file := views[n + k].file) == views[n + k]
      requires nextOffset == views[|views| - 1].next
      ensures Valid() && Views() == views[n..] && First() == views[n].base
      ensures 0 <= First() - views[0].base <= |Contents(settings, views)|
      ensures All() == Contents(settings, views)[First() - views[0].base..]
    {
      hide LogOk, Stores, Contents;
      StillViews(views, n);
      FrontDropped(settings, views, n);
    }

    lemma ViewBases()
      ensures |Views()| == |segments|
      ensures forall k | 0 <= k < |segments| :: Views()[k].base == segments[k].base && Views()[k].size == segments[k].size
    {
    }
  }

  /** The file of a segment before the last one is another file. */
  lemma OthersStored(c: Settings, segs: seq<Seg>, files: Files, i: nat)
    requires LogOk(c, segs) && Stores(files, segs) && i < |segs| - 1
    ensures segs[i].base < segs[|segs| - 1].base && segs[i].base in files && files[segs[i].base] == segs[i].file
  {
    hide LogOk;
    BasesAscend(c, segs, i, |segs| - 1);
    assert segs[i] in segs;
  }

  /** The last segment loses records just when the log does. */
  lemma CutCounts(c: Settings, segs: seq<Seg>, offset: int)
    requires LogOk(c, segs) && segs[|segs| - 1].base <= offset
    ensures var rs, all := RecordsOf(c, segs[|segs| - 1]), Contents(c, segs);
            rs[..Kept(segs[|segs| - 1].base, |rs|, offset)] == rs <==> all[..Kept(segs[0].base, |all|, offset)] == all
  {
    hide LogOk, RecordsOf, Contents;
    var n := |segs| - 1;
    LogIsTiled(c, segs);
    OneLog(c, segs, n);
    ContentsShape(c, segs);
    if n > 0 {
      BasesAscend(c, segs, 0, n);
    }
    var rs, all := RecordsOf(c, segs[n]), Contents(c, segs);
    assert rs[..|rs|] == rs && all[..|all|] == all;
  }

  lemma Truncation(c: Settings, segs: seq<Seg>, at: nat, offset: int, s: Seg)
    requires LogOk(c, segs) && at < |segs| && segs[at].base <= offset
    requires at + 1 < |segs| ==> offset < segs[at + 1].base
    requires Coherent(c, s) && s.base == segs[at].base
    requires RecordsOf(c, s) == RecordsOf(c, segs[at])[..Kept(s.base, |RecordsOf(c, segs[at])|, offset)]
    ensures var segs' := LastBy(segs[..at + 1], s);
            LogOk(c, segs') && segs'[0].base == segs[0].base
            && Contents(c, segs') == Contents(c, segs)[..Kept(segs[0].base, |Contents(c, segs)|, offset)]
            && (at + 1 == |segs| ==> (RecordsOf(c, s) != RecordsOf(c, segs[at]) <==> Contents(c, segs') != Contents(c, segs)))
  {
    hide LogOk, RecordsOf, Contents, Coherent, Kept;
    TailDropped(c, segs, at, offset, s);
    if at + 1 == |segs| {
      CutCounts(c, segs, offset);
    }
  }

  /** How many segments before the last start below `minBase`, from the front. */
  function LeadBelow(segs: seq<Seg>, minBase: int): nat {
    if |segs| <= 1 || segs[0].base >= minBase then 0 else 1 + LeadBelow(segs[1..], minBase)
  }

  lemma {:induction false} LeadCounts(segs: seq<Seg>, minBase: int)
    requires segs != [] && forall i, j | 0 <= i < j < |segs| :: segs[i].base < segs[j].base
    ensures LeadBelow(segs, minBase) < |segs|
    ensures forall i | 0 <= i < |segs| - 1 :: segs[i].base < minBase <==> i < LeadBelow(segs, minBase)
  {
    if |segs| > 1 && segs[0].base < minBase {
      LeadCounts(segs[1..], minBase);
      forall i | 0 <= i < |segs| - 1
        ensures segs[i].base < minBase <==> i < LeadBelow(segs, minBase)
      {
        if i > 0 {
          assert segs[i] == segs[1..][i - 1];
        }
      }
    }
  }

  lemma LeadMeans(c: Settings, segs: seq<Seg>, minBase: int)
    requires LogOk(c, segs)
    ensures LeadBelow(segs, minBase) < |segs|
    ensures forall i | 0 <= i < |segs| - 1 :: (segs[i].size == 0 || segs[i].base < minBase) <==> i < LeadBelow(segs, minBase)
  {
    hide LogOk;
    LogIsTiled(c, segs);
    forall i, j | 0 <= i < j < |segs|
      ensures segs[i].base < segs[j].base
    {
      BasesAscend(c, segs, i, j);
    }
    LeadCounts(segs, minBase);
  }

  lemma NoOps(files: Files, segs: seq<Seg>)
    requires segs == []
    ensures files - Bases(segs) == files && Removals(segs) == []
  {
  }

  lemma RangeMore<T>(all: seq<T>, at: int, n: nat)
    requires |RangeFrom(all, at, n)| == n && 0 <= at + n < |all|
    ensures RangeFrom(all, at, n) + [all[at + n]] == RangeFrom(all, at, n + 1)
  {
  }

  lemma RangeStarts<T>(all: seq<T>, at: int)
    ensures RangeFrom(all, at, 0) == []
  {
  }

  lemma RangeEnds<T>(all: seq<T>, at: int, n: nat, limit: nat)
    requires |RangeFrom(all, at, n)| == n <= limit && !(0 <= at + n < |all|)
    ensures RangeFrom(all, at, n) == RangeFrom(all, at, limit)
  {
  }

  /** At most `limit` elements of `all` from position `at` on, none when there is no such position. */
  function RangeFrom<T>(all: seq<T>, at: int, limit: nat): seq<T> {
    if at < 0 || at >= |all| then [] else if at + limit <= |all| then all[at..at + limit] else all[at..]
  }

  /** As many elements as the limit and the end allow, the first of them at position `at`. */
  lemma RangeMeans<T>(all: seq<T>, at: int, limit: nat)
    ensures var out := RangeFrom(all, at, limit);
            |out| == (if at < 0 || |all| <= at then 0 else if limit < |all| - at then limit else |all| - at)
            && forall k | 0 <= k < |out| :: out[k] == all[at + k]
  {
  }

  lemma OneFollows(x: Intent, segs: seq<Seg>, r: Record)
    requires segs != [] && x.batch == [r] && Storable(r) && r.offset == segs[|segs| - 1].next
    ensures Follows(x, segs, 0, [r])
  {
    hide Storable;
    assert x.batch[0..1] == [r];
  }

  lemma OneGrown(c: Settings, s: Seg, r: Record)
    ensures EncodeAll(c.crc, [r]) == Encode(c.crc, r) && GrowAll(c, s, [r]) == Grow(c, s, r)
  {
    hide Encode, Grow;
    EncodeOne(c.crc, r);
    assert [r][..0] == [];
  }

  function Numbered(first: nat, payloads: seq<Bytes>, timestamps: seq<int>): seq<Record>
    requires |payloads| == |timestamps|
  {
    seq(|payloads|, k requires 0 <= k < |payloads| => Record(first + k, timestamps[k], payloads[k]))
  }

  lemma NumberedRuns(first: nat, payloads: seq<Bytes>, timestamps: seq<int>)
    requires |payloads| == |timestamps|
    ensures Consecutive(first, Numbered(first, payloads, timestamps))
  {
  }

  lemma ActiveBase(segs: seq<Seg>, files: Files)
    requires Stores(files, segs) && segs != []
    ensures segs[|segs| - 1].base in files && files[segs[|segs| - 1].base] == segs[|segs| - 1].file
  {
    assert segs[|segs| - 1] in segs;
  }

  /** What a new segment makes of the log and its directory. */
  lemma SegmentRolled(c: Settings, x: Intent, ops: seq<Op>, segs: seq<Seg>, i: nat, files: Files)
    requires Midway(c, x, ops, segs, i) && files == DoAll(x.start, ops)
    requires segs != [] && segs[|segs| - 1].size > 0
    ensures var base := segs[|segs| - 1].next;
            var segs', op := segs + [EmptySeg(base)], Create(base);
            LogOk(c, segs') && Stores(Do(files, op), segs') && Do(files, op) == DoAll(x.start, ops + [op])
            && Midway(c, x, ops + [op], segs', i)
  {
    hide LogOk, Stores, DoAll, Contents, CrashSafe;
    var base := segs[|segs| - 1].next;
    BaseIsNew(c, segs, base);
    StoredBases(segs, files);
    DoAllSnoc(x.start, ops, Create(base));
    StoresMore(segs, files, EmptySeg(base));
    MidwayRolls(c, x, ops, segs, i, segs + [EmptySeg(base)]);
  }

  /** What a chunk written to the last segment makes of the log and its directory. */
  lemma ChunkWritten(c: Settings, x: Intent, ops: seq<Op>, segs: seq<Seg>, i: nat, chunk: seq<Record>, files: Files)
    requires Midway(c, x, ops, segs, i) && Follows(x, segs, i, chunk) && files == DoAll(x.start, ops)
    ensures var segs' := LastBy(segs, GrowAll(c, segs[|segs| - 1], chunk));
            var op := WriteOp(c, segs, chunk);
            LogOk(c, segs') && Stores(Do(files, op), segs') && Do(files, op) == DoAll(x.start, ops + [op])
            && Midway(c, x, ops + [op], segs', i + |chunk|)
  {
    hide LogOk, Stores, DoAll, GrowAll, Contents, CrashSafe, EncodeAll;
    var last, op := segs[|segs| - 1], WriteOp(c, segs, chunk);
    var grown := GrowAll(c, last, chunk);
    GrowAllShape(c, last, chunk);
    ActiveBase(segs, files);
    StoresLast(c, segs, files, grown);
    DoAllSnoc(x.start, ops, op);
    MidwayWrites(c, x, ops, segs, i, chunk, LastBy(segs, grown));
  }

  /** How many records one write takes: `n` is the first count, from one on, after which the
      next record would carry the segment past its limit. */
  predicate Fills(c: Settings, size: nat, rs: seq<Record>, n: int) {
    1 <= n <= |rs|
    && (forall m | 1 < m <= n :: size + Pos(c.crc, rs, m) <= c.maxSegmentBytes)
    && (n < |rs| ==> size + Pos(c.crc, rs, n + 1) > c.maxSegmentBytes)
  }

  lemma NothingEncoded(crc: Checksum, batch: seq<Record>, i: nat)
    requires i <= |batch|
    ensures EncodeAll(crc, batch[i..i]) == []
  {
  }

  lemma OneMore(crc: Checksum, batch: seq<Record>, i: nat, j: nat)
    requires i <= j < |batch|
    ensures batch[i..j + 1] == batch[i..j] + [batch[j]]
    ensures EncodeAll(crc, batch[i..j + 1]) == EncodeAll(crc, batch[i..j]) + Encode(crc, batch[j])
    ensures Pos(crc, batch[i..], j + 1 - i) == |EncodeAll(crc, batch[i..j + 1])|
  {
    assert batch[i..j + 1] == batch[i..j] + [batch[j]];
    EncodeSnoc(crc, batch[i..j], batch[j]);
    assert batch[i..][..j + 1 - i] == batch[i..j + 1];
  }

  lemma StartsMore(crc: Checksum, positions: seq<nat>, from: nat, chunk: seq<Record>, r: Record)
    requires Starts(crc, positions, from, chunk)
    ensures Starts(crc, positions + [from + |EncodeAll(crc, chunk)|], from, chunk + [r])
  {
    forall k | 0 <= k <= |chunk|
      ensures Pos(crc, chunk + [r], k) == Pos(crc, chunk, k)
    {
      PosOfPrefix(crc, chunk, r, k);
    }
    PosOfPrefix(crc, chunk, r, |chunk|);
  }

  lemma GrownBy(c: Settings, s: Seg, chunk: seq<Record>)
    requires chunk != []
    ensures GrowAll(c, s, chunk).size > 0 && GrowAll(c, s, chunk).next == chunk[|chunk| - 1].offset + 1
  {
    GrowAllShape(c, s, chunk);
    assert EncodeAll(c.crc, chunk) != [];
  }

  lemma OffsetAt(base: int, rs: seq<Record>, j: nat)
    requires Consecutive(base, rs) && j < |rs|
    ensures rs[j].offset == base + j
  {
  }

  lemma NextChunk(x: Intent, segs: seq<Seg>, i: nat, j: nat)
    requires segs != [] && i <= j <= |x.batch| && AllStorable(x.batch)
    requires Consecutive(segs[|segs| - 1].next - i, x.batch)
    ensures Follows(x, segs, i, x.batch[i..j])
  {
  }

  lemma StoredBases(segs: seq<Seg>, files: Files)
    requires Stores(files, segs)
    ensures files.Keys == Bases(segs) && forall i | 0 <= i < |segs| :: segs[i].base in files
  {
    forall i | 0 <= i < |segs|
      ensures segs[i].base in files
    {
      assert segs[i] in segs;
    }
  }

  /** A directory whose files are those of the segments, each under its base. */
  /** What recovering one file adds to the journal: nothing, or the cut to its intact records. */
  lemma OneRecovered(c: Settings, files: Files, ops: seq<Op>, base: nat)
    requires OpensGently(c.crc, files, ops) && base in files
    requires base in DoAll(files, ops) && DoAll(files, ops)[base] == files[base]
    ensures var file := Recovered(c, base, files[base]).file;
            var more := if file == files[base] then [] else [Cut(base, |file|)];
            OpensGently(c.crc, files, ops + more) && DoAll(files, ops + more) == DoAll(files, ops)[base := file]
  {
    hide DoAll, OpensGently, Recovered, Intact;
    RecoveredAgain(c, base, files[base]);
    IntactIsWhole(c.crc, files[base]);
    GentlyMore(c.crc, files, ops, base);
    DoAllSnoc(files, ops, Cut(base, |Intact(c.crc, files[base])|));
    assert ops + [] == ops && files[base][..|Intact(c.crc, files[base])|] == Intact(c.crc, files[base]);
  }

  lemma ReopenedList(c: Settings, files: Files, segs: seq<Seg>)
    requires var ks := Sorted(files.Keys);
             ks != [] && |segs| == |ks|
             && forall k | 0 <= k < |ks| :: segs[k] == Recovered(c, ks[k], Content(files, ks[k]))
    ensures segs == Reopened(c, files)
  {
    hide Recovered, Sorted;
  }

  lemma StoresAll(segs: seq<Seg>, files: Files, stems: seq<nat>)
    requires |segs| == |stems| && Elements(stems) == files.Keys
    requires forall i | 0 <= i < |segs| :: segs[i].base == stems[i] && segs[i].file == Content(files, stems[i])
    ensures Stores(files, segs)
  {
    forall k
      ensures k in files <==> k in Bases(segs)
    {
      if k in files {
        var i := ElementFound(stems, k);
        assert segs[i] in segs;
      }
      if k in Bases(segs) {
        var s :| s in segs && s.base == k;
        var i :| 0 <= i < |segs| && segs[i] == s;
        ElementAt(stems, i);
      }
    }
  }

  /** A segment opened at the end of a log has a base that no file has yet. */
  lemma BaseIsNew(c: Settings, segs: seq<Seg>, base: nat)
    requires LogOk(c, segs) && base == segs[|segs| - 1].next && segs[|segs| - 1].size > 0
    ensures base !in Bases(segs)
  {
    hide Coherent;
    var n := |segs| - 1;
    forall i | 0 <= i < |segs|
      ensures segs[i].base < base
    {
      if i < n {
        BasesAscend(c, segs, i, n);
      }
      OneLog(c, segs, n);
    }
  }
}
