/**
 A partition of a topic over its commit log (pylog/broker.py, class Partition): reading on
 from an offset, and dropping old segments by age and by size.
 */
module Retention {
  import opened Basics
  import opened Records
  import opened Scans
  import opened SegmentModel
  import opened LogModel
  import opened LogCrashes
  import opened CommitLogs
  import opened Segments

  /** How many leading segments, the last one aside, have nothing newer than `maxAge`. */
  function Expired(segs: seq<Seg>, now: int, maxAge: int): nat {
    if |segs| <= 1 || now - segs[0].maxTimestamp <= maxAge then 0 else 1 + Expired(segs[1..], now, maxAge)
  }

  function TotalSize(segs: seq<Seg>): nat {
    if segs == [] then 0 else TotalSize(segs[..|segs| - 1]) + segs[|segs| - 1].size
  }

  /** The bytes that the records of the segments take on disk. */
  function DiskBytes(c: Settings, segs: seq<Seg>): nat {
    |EncodeAll(c.crc, Contents(c, segs))|
  }

  /** The sizes that the segments keep add up to them. */
  lemma {:induction false} TotalIsBytes(c: Settings, segs: seq<Seg>)
    requires AllCoherent(c, segs)
    ensures TotalSize(segs) == DiskBytes(c, segs)
  {
    hide EncodeAll, RecordsOf, Coherent;
    if segs == [] {
      EmptyEncodes(c.crc);
    } else {
      var front, last := segs[..|segs| - 1], segs[|segs| - 1];
      TotalIsBytes(c, front);
      CoherentShape(c, last);
      EncodeAllConcat(c.crc, Contents(c, front), RecordsOf(c, last));
    }
  }

  lemma LogCoherent(c: Settings, segs: seq<Seg>)
    requires LogOk(c, segs)
    ensures AllCoherent(c, segs)
  {
  }

  lemma {:induction false} ExpiredMeans(segs: seq<Seg>, now: int, maxAge: int)
    requires segs != []
    ensures var e := Expired(segs, now, maxAge);
            e < |segs|
            && (forall i | 0 <= i < e :: now - segs[i].maxTimestamp > maxAge)
            && (e < |segs| - 1 ==> now - segs[e].maxTimestamp <= maxAge)
  {
    if |segs| > 1 && now - segs[0].maxTimestamp > maxAge {
      ExpiredMeans(segs[1..], now, maxAge);
      var e := Expired(segs, now, maxAge);
      forall i | 0 <= i < e
        ensures now - segs[i].maxTimestamp > maxAge
      {
        if i > 0 {
          assert segs[i] == segs[1..][i - 1];
        }
      }
    }
  }

  /** The segments up to one that is not the last: those whose base is at most its own. */
  lemma LeadThrough(c: Settings, segs: seq<Seg>, i: nat)
    requires LogOk(c, segs) && i < |segs| - 1
    ensures LeadBelow(segs, segs[i].base + 1) == i + 1
  {
    hide LogOk;
    LeadMeans(c, segs, segs[i].base + 1);
    LogIsTiled(c, segs);
    BasesAscend(c, segs, i, i + 1);
    assert i < LeadBelow(segs, segs[i].base + 1);
  }

  /** Up to the last segment: everything before it. */
  lemma LeadToLast(c: Settings, segs: seq<Seg>, i: nat)
    requires LogOk(c, segs) && |segs| > 1 && i == |segs| - 1
    ensures LeadBelow(segs, segs[i].base + 1) == |segs| - 1
  {
    hide LogOk;
    LeadMeans(c, segs, segs[i].base + 1);
    var n := LeadBelow(segs, segs[i].base + 1);
    if n < i {
      BasesAscend(c, segs, n, i);
    }
  }

  /** Every record of an expired segment is older than the limit, because the segment's greatest
      timestamp bounds them all. */
  lemma {:induction false} ExpiredRecordsAreOld(c: Settings, segs: seq<Seg>, now: int, maxAge: int)
    requires AllCoherent(c, segs) && forall i | 0 <= i < |segs| :: now - segs[i].maxTimestamp > maxAge
    ensures forall r | r in Contents(c, segs) :: now - r.timestamp > maxAge
  {
    if segs != [] {
      var front, last := segs[..|segs| - 1], segs[|segs| - 1];
      ExpiredRecordsAreOld(c, front, now, maxAge);
      assert Bounded(RecordsOf(c, last), last.maxTimestamp);
      hide Coherent, RecordsOf;
      forall r | r in Contents(c, segs)
        ensures now - r.timestamp > maxAge
      {
        assert r in Contents(c, front) || r in RecordsOf(c, last);
      }
    }
  }

  lemma DroppedAreOld(c: Settings, segs: seq<Seg>, now: int, maxAge: int)
    requires LogOk(c, segs)
    ensures var e := Expired(segs, now, maxAge);
            e < |segs| && 0 <= segs[e].base - segs[0].base <= |Contents(c, segs)|
            && forall r | r in Contents(c, segs)[..segs[e].base - segs[0].base] :: now - r.timestamp > maxAge
  {
    hide Coherent, Contents;
    var e := Expired(segs, now, maxAge);
    ExpiredMeans(segs, now, maxAge);
    ContentsFront(c, segs, e);
    ExpiredRecordsAreOld(c, segs[..e], now, maxAge);
  }

  /** What a partition holds: its segments, what they are, and the records they amount to. */
  datatype Held = Held(segments: seq<Segment>, views: seq<Seg>, first: nat, all: seq<Record>, next: nat)

  /** What is left when the first `n` segments are dropped. */
  ghost predicate Tail(was: Held, now: Held, n: nat) {
    n < |was.segments| && |was.segments| == |was.views|
    && now.segments == was.segments[n..] && now.views == was.views[n..] && now.next == was.next
    && 0 <= now.first - was.first <= |was.all| && now.all == was.all[now.first - was.first..]
  }

  lemma TailTwice(a: Held, b: Held, c: Held, m: nat, n: nat)
    requires Tail(a, b, m) && Tail(b, c, n)
    ensures Tail(a, c, m + n)
  {
  }

  lemma TailShorter(a: Held, b: Held, n: nat)
    requires Tail(a, b, n)
    ensures 0 < |b.segments| == |a.segments| - n
  {
  }

  lemma TailViews(a: Held, b: Held, n: nat)
    requires Tail(a, b, n)
    ensures n < |a.segments| == |a.views| && b.views == a.views[n..] && |b.segments| == |b.views| == |a.views| - n
  {
  }

  /** At the start of each of the first `turns` turns, two segments a turn, the rest was over the
      budget and more than one segment. */
  ghost predicate OverBudget(c: Settings, segs: seq<Seg>, turns: nat, maxBytes: int) {
    forall k: nat | k < turns :: 2 * k < |segs| - 1 && DiskBytes(c, segs[2 * k..]) > maxBytes
  }

  /** The bytes of the records held are within the budget, if there is one, or only one segment is left. */
  predicate WithinBudget(c: Settings, h: Held, maxBytes: Option<int>) {
    maxBytes.None? || |EncodeAll(c.crc, h.all)| <= maxBytes.value || |h.segments| == 1
  }

  /** How many segments the age limit lets go. */
  function ByAge(segs: seq<Seg>, now: int, maxAge: Option<int>): nat {
    if maxAge.Some? then Expired(segs, now, maxAge.value) else 0
  }

  /** What bringing a log within its budget counts, `turns`, and what it drops. A turn drops two
      segments or, of the last two, the first: the count is right exactly when the log was within
      the budget or had at most two segments. No turn is made without need. */
  ghost predicate Shrunk(c: Settings, segs: seq<Seg>, maxBytes: Option<int>, turns: nat, dropped: nat) {
    segs != [] && dropped == Min(2 * turns, |segs| - 1)
    && match maxBytes
       case None => turns == 0
       case Some(budget) =>
         OverBudget(c, segs, turns, budget)
         && (turns == dropped <==> DiskBytes(c, segs) <= budget || |segs| <= 2)
         && (dropped == 0 <==> DiskBytes(c, segs) <= budget || |segs| == 1)
         && (DiskBytes(c, segs[dropped..]) <= budget || dropped == |segs| - 1)
  }

  /** A sweep drops the expired segments, which it counts one by one, and shrinks the rest. */
  ghost predicate Swept(c: Settings, segs: seq<Seg>, now: int, maxAge: Option<int>, maxBytes: Option<int>, removed: nat, dropped: nat) {
    var e := ByAge(segs, now, maxAge);
    e < |segs| && e <= removed && e <= dropped && Shrunk(c, segs[e..], maxBytes, removed - e, dropped - e)
  }

  /** The records of the segments that the age limit lets go are all older than it. */
  ghost predicate AgedOut(held: Held, now: int, maxAge: int) {
    var e := Expired(held.views, now, maxAge);
    e < |held.views| && 0 <= held.views[e].base - held.first <= |held.all|
    && forall r | r in held.all[..held.views[e].base - held.first] :: now - r.timestamp > maxAge
  }

  /** The rest after the last turn settles what was dropped. */
  lemma ShrunkBy(c: Settings, segs: seq<Seg>, maxBytes: int, turns: nat, dropped: nat)
    requires segs != [] && dropped == Min(2 * turns, |segs| - 1) && OverBudget(c, segs, turns, maxBytes)
    requires DiskBytes(c, segs[dropped..]) <= maxBytes || dropped == |segs| - 1
    ensures Shrunk(c, segs, Some(maxBytes), turns, dropped)
  {
    hide DiskBytes, OverBudget;
    assert dropped == 0 ==> segs[dropped..] == segs;
    if turns > 0 {
      TurnsMeanOver(c, segs, turns, maxBytes);
    }
  }

  lemma SweepsTwice(s: Settings, a: Held, b: Held, c: Held, now: int, maxAge: Option<int>, maxBytes: Option<int>, turns: nat, more: nat)
    requires Tail(a, b, ByAge(a.views, now, maxAge)) && Tail(b, c, more) && Shrunk(s, b.views, maxBytes, turns, more)
    ensures var e := ByAge(a.views, now, maxAge);
            Tail(a, c, e + more) && Swept(s, a.views, now, maxAge, maxBytes, e + turns, e + more)
  {
    hide ByAge, Shrunk, Tail;
    var e := ByAge(a.views, now, maxAge);
    TailTwice(a, b, c, e, more);
    TailViews(a, b, e);
  }

  lemma NoTurn(c: Settings, segs: seq<Seg>, maxBytes: int)
    ensures OverBudget(c, segs, 0, maxBytes)
  {
  }

  lemma OneTurn(c: Settings, segs: seq<Seg>, turns: nat, maxBytes: int)
    requires OverBudget(c, segs, turns, maxBytes) && 2 * turns < |segs| - 1 && DiskBytes(c, segs[2 * turns..]) > maxBytes
    ensures OverBudget(c, segs, turns + 1, maxBytes)
  {
    hide DiskBytes;
  }

  /** Turns are made only over the budget and on more than one segment. */
  lemma TurnsMeanOver(c: Settings, segs: seq<Seg>, turns: nat, maxBytes: int)
    requires OverBudget(c, segs, turns, maxBytes) && turns > 0
    ensures |segs| > 1 && DiskBytes(c, segs) > maxBytes && 2 * (turns - 1) < |segs| - 1
  {
    hide DiskBytes;
    assert segs[2 * 0..] == segs && turns - 1 < turns;
  }

  lemma TailSame(a: Held)
    requires |a.segments| == |a.views| > 0
    ensures Tail(a, a, 0)
  {
  }

  class Partition {
    const log: CommitLog

    constructor (log: CommitLog)
      ensures this.log == log
    {
      this.log := log;
    }

    ghost function Now(): Held
      reads log, log.Reads()
    {
      Held(log.segments, log.Views(), log.First(), log.All(), log.nextOffset)
    }

    /** The records after an offset, or from 0 on for a negative one. */
    method ReadAfter(offset: int, limit: nat) returns (out: seq<Record>)
      requires log.Valid()
      ensures out == RangeFrom(log.All(), (if offset >= 0 then offset + 1 else 0) - log.First(), limit)
    {
      hide LogOk, Stores, Contents, ViewsOf, RangeFrom;
      var start := if offset >= 0 then offset + 1 else 0;
      out := log.ReadRange(start, limit);
    }

    /** Drops the segments whose base is below `minBase`, never the last one. */
    method DropBelow(minBase: int) returns (removed: nat)
      requires log.Valid()
      modifies log`segments, log.disk
      ensures log.Valid() && removed == LeadBelow(old(log.Views()), minBase)
      ensures Tail(old(Now()), Now(), removed)
    {
      hide LogOk, Stores, Contents, ViewsOf, LeadBelow, SweptSafely, CommitLog.Valid;
      log.ViewBases();
      removed := log.TruncateSegmentsBefore(minBase);
    }

    /** Drops the leading segments that hold nothing newer than `maxAge`, never the last one. */
    method AgePass(now: int, maxAge: int) returns (removed: nat)
      requires log.Valid()
      modifies log`segments, log.disk
      ensures log.Valid() && removed == Expired(old(log.Views()), now, maxAge)
      ensures Tail(old(Now()), Now(), removed)
      ensures AgedOut(old(Now()), now, maxAge)
    {
      hide LogOk, Stores, Contents, Expired, LeadBelow, ViewsOf, AgedOut, Tail;
      log.ViewBases();
      AgesOut(now, Some(maxAge));
      var through := CountExpired(now, maxAge);
      removed := 0;
      if through > 0 {
        LeadThrough(log.settings, log.Views(), through - 1);
        removed := DropBelow(log.segments[through - 1].base + 1);
      } else {
        TailSame(Now());
      }
    }

    method CountExpired(now: int, maxAge: int) returns (n: nat)
      requires log.Valid()
      ensures n == Expired(log.Views(), now, maxAge) && n < |log.segments|
    {
      hide LogOk, Stores;
      ghost var views := log.Views();
      n := 0;
      while n < |log.segments| - 1 && now - log.segments[n].maxTimestamp > maxAge
        invariant n < |log.segments| == |views|
        invariant Expired(views, now, maxAge) == n + Expired(views[n..], now, maxAge)
      {
        assert views[n..][1..] == views[n + 1..] && views[n..][0] == log.segments[n].View();
        n := n + 1;
      }
      assert n < |views| - 1 ==> views[n..][0] == log.segments[n].View();
    }

    /** The sizes of the segments, which are the bytes of the log's records. */
    method Size() returns (total: nat)
      requires log.Valid()
      ensures total == DiskBytes(log.settings, log.Views()) == |EncodeAll(log.settings.crc, log.All())|
    {
      hide LogOk, Stores, EncodeAll, Contents, DiskBytes, CommitLog.Valid;
      SizesAreBytes();
      total := 0;
      var i := 0;
      while i < |log.segments|
        invariant 0 <= i <= |log.segments| && total == TotalSize(log.Views()[..i])
      {
        assert log.Views()[..i + 1][..i] == log.Views()[..i];
        total := total + log.segments[i].size;
        i := i + 1;
      }
      assert log.Views()[..i] == log.Views();
    }

    lemma SizesAreBytes()
      requires log.Valid()
      ensures TotalSize(log.Views()) == DiskBytes(log.settings, log.Views()) == |EncodeAll(log.settings.crc, log.All())|
    {
      hide LogOk, Stores, EncodeAll, Contents;
      log.Core();
      LogCoherent(log.settings, log.Views());
      TotalIsBytes(log.settings, log.Views());
    }

    lemma PairLead()
      requires log.Valid() && |log.segments| > 1
      ensures |log.Views()| == |log.segments| && log.Views()[1].base == log.segments[1].base
      ensures LeadBelow(log.Views(), log.segments[1].base + 1) == if |log.segments| == 2 then 1 else 2
    {
      hide LogOk, Stores, LeadBelow, ViewsOf;
      log.ViewBases();
      if |log.segments| == 2 {
        LeadToLast(log.settings, log.Views(), 1);
      } else {
        LeadThrough(log.settings, log.Views(), 1);
      }
    }

    /** Drops the first two segments, or the first of two. */
    method DropPair() returns (n: nat)
      requires log.Valid() && |log.segments| > 1
      modifies log`segments, log.disk
      ensures log.Valid() && n == (if |old(log.segments)| == 2 then 1 else 2)
      ensures Tail(old(Now()), Now(), n)
    {
      hide LogOk, Stores, Contents, ViewsOf, LeadBelow, Tail;
      PairLead();
      n := DropBelow(log.segments[1].base + 1);
    }

    /** One turn of the budget loop. */
    method Shrink(maxBytes: int, ghost held: Held, ghost dropped: nat) returns (over: bool, ghost n: nat)
      requires log.Valid() && |log.segments| > 1 && Tail(held, Now(), dropped)
      modifies log`segments, log.disk
      ensures log.Valid() && over == (DiskBytes(log.settings, held.views[dropped..]) > maxBytes)
      ensures if over then n == Min(2, |old(log.segments)| - 1) && Tail(held, Now(), dropped + n)
              else n == 0 && Now() == old(Now())
      ensures |log.segments| == |old(log.segments)| - n
    {
      hide LogOk, Stores, Contents, ViewsOf, DiskBytes, Tail;
      n := 0;
      TailViews(held, Now(), dropped);
      var total := Size();
      over := total > maxBytes;
      if over {
        ghost var before := Now();
        n := DropPair();
        TailTwice(held, before, Now(), dropped, n);
        TailShorter(before, Now(), n);
      }
    }

    lemma NeverEmpty()
      requires log.Valid()
      ensures |Now().segments| == |Now().views| > 0
    {
      hide LogOk, Stores, Contents;
      log.ViewBases();
    }

    /** Drops leading segments until the rest is within the budget, or only one is left. Each turn
        counts as one, whether it drops two segments or, of the last two, the first. */
    method BudgetPass(maxBytes: int) returns (removed: nat, ghost dropped: nat)
      requires log.Valid()
      modifies log`segments, log.disk
      ensures log.Valid() && Tail(old(Now()), Now(), dropped)
      ensures Shrunk(log.settings, old(log.Views()), Some(maxBytes), removed, dropped)
      ensures WithinBudget(log.settings, Now(), Some(maxBytes))
    {
      hide LogOk, Stores, Contents, ViewsOf, DiskBytes, Tail, OverBudget, Shrunk, CommitLog.Valid;
      removed, dropped := 0, 0;
      ghost var held := Now();
      NeverEmpty();
      TailSame(held);
      NoTurn(log.settings, held.views, maxBytes);
      while |log.segments| > 1
        invariant log.Valid() && Tail(held, Now(), dropped) && |log.segments| == |held.segments| - dropped >= 1
        invariant dropped == Min(2 * removed, |held.segments| - 1)
        invariant removed > 0 ==> 2 * (removed - 1) < |held.segments| - 1
        invariant OverBudget(log.settings, held.views, removed, maxBytes)
        invariant |held.segments| == |held.views|
        decreases |log.segments|
      {
        var over, n := Shrink(maxBytes, held, dropped);
        if !over {
          break;
        }
        OneTurn(log.settings, held.views, removed, maxBytes);
        removed, dropped := removed + 1, dropped + n;
      }
      TailViews(held, Now(), dropped);
      ShrunkBy(log.settings, held.views, maxBytes, removed, dropped);
      BytesNow();
    }

    lemma BytesNow()
      ensures DiskBytes(log.settings, Now().views) == |EncodeAll(log.settings.crc, Now().all)|
    {
    }

    /** The size part of a sweep. */
    method BudgetSweep(maxBytes: Option<int>) returns (removed: nat, ghost dropped: nat)
      requires log.Valid()
      modifies log`segments, log.disk
      ensures log.Valid() && Tail(old(Now()), Now(), dropped)
      ensures Shrunk(log.settings, old(log.Views()), maxBytes, removed, dropped)
      ensures WithinBudget(log.settings, Now(), maxBytes)
    {
      hide LogOk, Stores, Contents, ViewsOf, DiskBytes, Tail, OverBudget;
      removed, dropped := 0, 0;
      log.ViewBases();
      TailSame(Now());
      if maxBytes.Some? {
        removed, dropped := BudgetPass(maxBytes.value);
      }
    }

    /** Retention by age, then by size. What stays is the log's last segments with their records,
        the active one always; only the size budget may cost a record younger than the limit. */
    method RetentionSweep(now: int, maxAge: Option<int>, maxBytes: Option<int>) returns (removed: nat, ghost dropped: nat)
      requires log.Valid()
      modifies log`segments, log.disk
      ensures log.Valid() && Tail(old(Now()), Now(), dropped)
      ensures Swept(log.settings, old(log.Views()), now, maxAge, maxBytes, removed, dropped)
      ensures maxAge.Some? ==> AgedOut(old(Now()), now, maxAge.value)
      ensures WithinBudget(log.settings, Now(), maxBytes)
    {
      hide LogOk, Stores, Contents, ViewsOf, ByAge, Tail, Shrunk, Swept, AgedOut, CommitLog.Valid;
      ghost var held := Now();
      var aged := AgeSweep(now, maxAge);
      ghost var before := Now();
      var turns, more := BudgetSweep(maxBytes);
      removed, dropped := aged + turns, aged + more;
      SweepsTwice(log.settings, held, before, Now(), now, maxAge, maxBytes, turns, more);
    }

    /** The age part of a sweep. */
    method AgeSweep(now: int, maxAge: Option<int>) returns (removed: nat)
      requires log.Valid()
      modifies log`segments, log.disk
      ensures log.Valid() && removed == ByAge(old(log.Views()), now, maxAge) && Tail(old(Now()), Now(), removed)
      ensures maxAge.Some? ==> AgedOut(old(Now()), now, maxAge.value)
    {
      hide LogOk, Stores, Contents, ViewsOf, Expired, Tail, AgedOut;
      removed := 0;
      log.ViewBases();
      TailSame(Now());
      AgesOut(now, maxAge);
      if |log.segments| > 1 && maxAge.Some? {
        removed := AgePass(now, maxAge.value);
      }
    }

    lemma AgesOut(now: int, maxAge: Option<int>)
      requires log.Valid()
      ensures ByAge(log.Views(), now, maxAge) < |log.Views()| == |log.segments|
      ensures |log.segments| <= 1 ==> ByAge(log.Views(), now, maxAge) == 0
      ensures maxAge.Some? ==> AgedOut(Now(), now, maxAge.value)
    {
      hide LogOk, Stores, Contents;
      log.ViewBases();
      log.FirstBase();
      if maxAge.Some? {
        ExpiredMeans(log.Views(), now, maxAge.value);
        DroppedAreOld(log.settings, log.Views(), now, maxAge.value);
      }
    }
  }
}
