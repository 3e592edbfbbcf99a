/**
 A commit log as the list of its segments (pylog/log.py, class CommitLog), and what it
 amounts to: one sequence of records with consecutive offsets. Also what reopening the
 directory makes of the files a crash left.
 */
module LogModel {
  import opened Basics
  import opened Records
  import opened Scans
  import opened Disks
  import opened SegmentModel

  predicate AllCoherent(c: Settings, segs: seq<Seg>) {
    forall i | 0 <= i < |segs| :: Coherent(c, segs[i])
  }

  /** Each segment but the last holds records and ends where the next one begins. */
  predicate Tiled(segs: seq<Seg>) {
    forall i | 0 <= i < |segs| - 1 :: segs[i].size > 0 && segs[i].next == segs[i + 1].base
  }

  predicate LogOk(c: Settings, segs: seq<Seg>) {
    segs != [] && AllCoherent(c, segs) && Tiled(segs)
  }

  /** The plain sequence of records that the segments hold together. */
  function Contents(c: Settings, segs: seq<Seg>): seq<Record> {
    if segs == [] then [] else Contents(c, segs[..|segs| - 1]) + RecordsOf(c, segs[|segs| - 1])
  }

  function Bases(segs: seq<Seg>): set<nat> {
    set s | s in segs :: s.base
  }

  /** The directory that holds these segments' files and nothing else. */
  ghost predicate Stores(files: Files, segs: seq<Seg>) {
    files.Keys == Bases(segs) && forall s | s in segs :: files[s.base] == s.file
  }

  /** The segments with another last one. */
  function LastBy(segs: seq<Seg>, s: Seg): seq<Seg> {
    if segs == [] then [s] else segs[..|segs| - 1] + [s]
  }

  /** The last file changed with its segment. */
  lemma StoresLast(c: Settings, segs: seq<Seg>, files: Files, s: Seg)
    requires LogOk(c, segs) && Stores(files, segs) && s.base == segs[|segs| - 1].base
    ensures Stores(files[s.base := s.file], LastBy(segs, s))
  {
    hide LogOk, Stores;
    LogIsTiled(c, segs);
    var n := |segs| - 1;
    forall i | 0 <= i < n
      ensures segs[i].base != s.base
    {
      BasesAscend(c, segs, i, n);
    }
    LastStored(segs, files, s);
  }

  lemma LastStored(segs: seq<Seg>, files: Files, s: Seg)
    requires segs != [] && Stores(files, segs) && s.base == segs[|segs| - 1].base
    requires forall i | 0 <= i < |segs| - 1 :: segs[i].base != s.base
    ensures Stores(files[s.base := s.file], LastBy(segs, s))
  {
    var n, segs' := |segs| - 1, LastBy(segs, s);
    assert segs[n] in segs;
    SameBases(segs, segs');
    assert s.base in Bases(segs);
    hide Bases;
    forall t | t in segs'
      ensures files[s.base := s.file][t.base] == t.file
    {
      var i :| 0 <= i < |segs'| && segs'[i] == t;
      if i < n {
        assert segs[i] in segs;
      }
    }
  }

  lemma SameBases(a: seq<Seg>, b: seq<Seg>)
    requires |a| == |b| && forall i | 0 <= i < |a| :: a[i].base == b[i].base
    ensures Bases(a) == Bases(b)
  {
    forall k
      ensures k in Bases(a) <==> k in Bases(b)
    {
      if k in Bases(a) {
        var s :| s in a && s.base == k;
        var i :| 0 <= i < |a| && a[i] == s;
        assert b[i] in b;
      }
      if k in Bases(b) {
        var s :| s in b && s.base == k;
        var i :| 0 <= i < |b| && b[i] == s;
        assert a[i] in a;
      }
    }
  }

  /** A file added with its segment. */
  lemma StoresMore(segs: seq<Seg>, files: Files, s: Seg)
    requires Stores(files, segs) && s.base !in files
    ensures Stores(files[s.base := s.file], segs + [s])
  {
    var segs' := segs + [s];
    assert segs'[|segs|] == s;
    forall k
      ensures k in Bases(segs') <==> k == s.base || k in Bases(segs)
    {
      if k in Bases(segs) {
        var t :| t in segs && t.base == k;
        assert t in segs';
      }
    }
    forall t | t in segs'
      ensures files[s.base := s.file][t.base] == t.file
    {
      if t != s {
        assert t in segs && t.base in files;
      }
    }
  }

  /** The files of some of the segments removed. */
  lemma SomeRemoved(segs: seq<Seg>, files: Files, kept: seq<Seg>, gone: seq<Seg>)
    requires Stores(files, segs) && forall s :: s in segs <==> s in kept || s in gone
    requires forall s, t | s in kept && t in gone :: s.base != t.base
    ensures Stores(files - Bases(gone), kept)
  {
    forall k
      ensures k in (files - Bases(gone)).Keys <==> k in Bases(kept)
    {
      if k in Bases(segs) {
        var s :| s in segs && s.base == k;
      }
    }
  }

  lemma StoresFront(c: Settings, segs: seq<Seg>, files: Files, n: nat)
    requires LogOk(c, segs) && Stores(files, segs) && 0 < n <= |segs|
    ensures Stores(files - Bases(segs[n..]), segs[..n])
  {
    Apart(c, segs, n);
    assert segs == segs[..n] + segs[n..];
    SomeRemoved(segs, files, segs[..n], segs[n..]);
  }

  lemma StoresBack(c: Settings, segs: seq<Seg>, files: Files, n: nat)
    requires LogOk(c, segs) && Stores(files, segs) && n < |segs|
    ensures Stores(files - Bases(segs[..n]), segs[n..])
  {
    Apart(c, segs, n);
    assert segs == segs[..n] + segs[n..];
    SomeRemoved(segs, files, segs[n..], segs[..n]);
  }

  lemma Apart(c: Settings, segs: seq<Seg>, n: nat)
    requires LogOk(c, segs) && n <= |segs|
    ensures forall s, t | s in segs[..n] && t in segs[n..] :: s.base < t.base
  {
    hide LogOk;
    forall s, t | s in segs[..n] && t in segs[n..]
      ensures s.base < t.base
    {
      var x :| 0 <= x < n && segs[x] == s;
      var y :| n <= y < |segs| && segs[y] == t;
      BasesAscend(c, segs, x, y);
    }
  }

  lemma LogFront(c: Settings, segs: seq<Seg>, n: nat)
    requires LogOk(c, segs) && 0 < n <= |segs|
    ensures LogOk(c, segs[..n])
  {
  }

  lemma OneLog(c: Settings, segs: seq<Seg>, i: nat)
    requires LogOk(c, segs) && i < |segs|
    ensures segs[i].next == segs[i].base + |RecordsOf(c, segs[i])| && (segs[i].size == 0 <==> RecordsOf(c, segs[i]) == [])
    ensures segs[i].size == |segs[i].file| && segs[i].file == EncodeAll(c.crc, RecordsOf(c, segs[i]))
    ensures Consecutive(segs[i].base, RecordsOf(c, segs[i])) && AllStorable(RecordsOf(c, segs[i]))
  {
    CoherentShape(c, segs[i]);
  }

  /** The records run without a gap from the first base to the last segment's next offset. */
  lemma {:induction false} ContentsShape(c: Settings, segs: seq<Seg>)
    requires LogOk(c, segs)
    ensures |Contents(c, segs)| == segs[|segs| - 1].next - segs[0].base
    ensures Consecutive(segs[0].base, Contents(c, segs)) && AllStorable(Contents(c, segs))
  {
    hide LogOk, RecordsOf, Storable;
    var n := |segs| - 1;
    LogIsTiled(c, segs);
    OneLog(c, segs, n);
    if n > 0 {
      LogFront(c, segs, n);
      ContentsShape(c, segs[..n]);
      assert segs[..n][n - 1] == segs[n - 1];
    } else {
      assert Contents(c, segs[..0]) == [];
      assert Contents(c, segs) == RecordsOf(c, segs[0]);
    }
  }

  lemma LogIsTiled(c: Settings, segs: seq<Seg>)
    requires LogOk(c, segs)
    ensures segs != [] && forall i | 0 <= i < |segs| - 1 :: segs[i].size > 0 && segs[i].next == segs[i + 1].base
  {
  }

  lemma {:induction false} BasesAscend(c: Settings, segs: seq<Seg>, i: nat, j: nat)
    requires LogOk(c, segs) && i < j < |segs|
    ensures segs[i].base < segs[i].next <= segs[j].base
    decreases j - i
  {
    hide LogOk, RecordsOf;
    LogIsTiled(c, segs);
    OneLog(c, segs, i);
    if i + 1 < j {
      BasesAscend(c, segs, i, j - 1);
      OneLog(c, segs, j - 1);
    }
  }

  lemma {:induction false} ContentsConcat(c: Settings, a: seq<Seg>, b: seq<Seg>)
    ensures Contents(c, a + b) == Contents(c, a) + Contents(c, b)
  {
    hide RecordsOf;
    if b == [] {
      assert a + b == a;
    } else {
      ContentsConcat(c, a, b[..|b| - 1]);
      assert (a + b)[..|a + b| - 1] == a + b[..|b| - 1];
    }
  }

  lemma ContentsOne(c: Settings, s: Seg)
    ensures Contents(c, [s]) == RecordsOf(c, s)
  {
    assert [s][..0] == [];
  }

  /** The part of the contents that the first `n` segments hold. */
  lemma ContentsFront(c: Settings, segs: seq<Seg>, n: nat)
    requires LogOk(c, segs) && n < |segs|
    ensures 0 <= segs[n].base - segs[0].base <= |Contents(c, segs)|
    ensures Contents(c, segs[..n]) == Contents(c, segs)[..segs[n].base - segs[0].base]
    ensures Contents(c, segs[n..]) == Contents(c, segs)[segs[n].base - segs[0].base..]
  {
    hide LogOk, RecordsOf, Contents;
    assert segs[..n] + segs[n..] == segs;
    ContentsConcat(c, segs[..n], segs[n..]);
    LogIsTiled(c, segs);
    if n > 0 {
      LogFront(c, segs, n);
      ContentsShape(c, segs[..n]);
    } else {
      NoContents(c, segs[..0]);
    }
  }

  lemma NoContents(c: Settings, segs: seq<Seg>)
    requires segs == []
    ensures Contents(c, segs) == []
  {
  }

  /** The record at an offset, if the log has it. */
  function RecordAt(c: Settings, segs: seq<Seg>, offset: int): Option<Record>
    requires segs != []
  {
    var all, first := Contents(c, segs), segs[0].base;
    if first <= offset < first + |all| then Some(all[offset - first]) else None
  }

  /** It is the one record of the log with that offset. */
  lemma RecordAtMeans(c: Settings, segs: seq<Seg>, offset: int, r: Record)
    requires LogOk(c, segs)
    ensures RecordAt(c, segs, offset) == Some(r) <==> r in Contents(c, segs) && r.offset == offset
  {
    hide LogOk, Contents;
    LogIsTiled(c, segs);
    ContentsShape(c, segs);
    var all, first := Contents(c, segs), segs[0].base;
    if r in all && r.offset == offset {
      var i :| 0 <= i < |all| && all[i] == r;
      assert r.offset == first + i;
    }
  }

  lemma RecordsWithin(c: Settings, segs: seq<Seg>, i: nat)
    requires LogOk(c, segs) && i < |segs|
    ensures var at := segs[i].base - segs[0].base;
            0 <= at && at + |RecordsOf(c, segs[i])| <= |Contents(c, segs)|
            && RecordsOf(c, segs[i]) == Contents(c, segs)[at..at + |RecordsOf(c, segs[i])|]
  {
    hide LogOk, RecordsOf, Contents;
    ContentsFront(c, segs, i);
    var later := segs[i + 1..];
    assert [segs[i]] + later == segs[i..];
    ContentsConcat(c, [segs[i]], later);
    ContentsOne(c, segs[i]);
    var at, all, rs := segs[i].base - segs[0].base, Contents(c, segs), RecordsOf(c, segs[i]);
    assert all[at..] == rs + Contents(c, later);
    assert all[at..][..|rs|] == all[at..at + |rs|];
  }

  /** Which segment holds an offset: the last one whose base is not after it; the one before
      has nothing more to offer. */
  lemma LookupFinds(c: Settings, segs: seq<Seg>, i: nat, offset: int)
    requires LogOk(c, segs) && i < |segs| && segs[i].base <= offset
    requires i + 1 < |segs| ==> offset < segs[i + 1].base
    ensures Lookup(c, segs[i], offset) == RecordAt(c, segs, offset)
    ensures i > 0 && Lookup(c, segs[i], offset) == None ==> Lookup(c, segs[i - 1], offset) == None
  {
    hide LogOk, Lookup, RecordAt;
    LogIsTiled(c, segs);
    if offset < segs[i].next {
      LookupInside(c, segs, i, offset);
    } else {
      LookupPastEnd(c, segs, offset);
    }
    if i > 0 {
      LookupBehind(c, segs, i, offset);
    }
  }

  lemma LookupInside(c: Settings, segs: seq<Seg>, i: nat, offset: int)
    requires LogOk(c, segs) && i < |segs| && segs[i].base <= offset < segs[i].next
    ensures Lookup(c, segs[i], offset) == RecordAt(c, segs, offset)
  {
    hide LogOk, RecordsOf, Contents;
    OneLog(c, segs, i);
    RecordsWithin(c, segs, i);
  }

  lemma LookupPastEnd(c: Settings, segs: seq<Seg>, offset: int)
    requires LogOk(c, segs) && segs[|segs| - 1].next <= offset
    ensures Lookup(c, segs[|segs| - 1], offset) == None == RecordAt(c, segs, offset)
  {
    hide LogOk, RecordsOf, Contents;
    LogIsTiled(c, segs);
    OneLog(c, segs, |segs| - 1);
    ContentsShape(c, segs);
  }

  lemma LookupBehind(c: Settings, segs: seq<Seg>, i: nat, offset: int)
    requires LogOk(c, segs) && 0 < i < |segs| && segs[i].base <= offset
    ensures Lookup(c, segs[i - 1], offset) == None
  {
    hide LogOk, RecordsOf;
    OneLog(c, segs, i - 1);
    BasesAscend(c, segs, i - 1, i);
  }

  // ---------------------------------------------------------------------- changes

  /** Replacing the last segment by one that starts at the same base. */
  lemma LastReplaced(c: Settings, segs: seq<Seg>, s: Seg)
    requires LogOk(c, segs) && Coherent(c, s) && s.base == segs[|segs| - 1].base
    ensures LogOk(c, LastBy(segs, s))
    ensures Contents(c, LastBy(segs, s)) == Contents(c, segs[..|segs| - 1]) + RecordsOf(c, s)
    ensures LastBy(segs, s)[0].base == segs[0].base
  {
    hide RecordsOf, Coherent;
    ContentsConcat(c, segs[..|segs| - 1], [s]);
    ContentsOne(c, s);
    hide Coherent, Contents;
  }

  /** Records added to the last segment are added to the contents. */
  lemma LastGrows(c: Settings, segs: seq<Seg>, rs: seq<Record>)
    requires LogOk(c, segs) && AllStorable(rs) && Consecutive(segs[|segs| - 1].next, rs)
    ensures var segs' := LastBy(segs, GrowAll(c, segs[|segs| - 1], rs));
            LogOk(c, segs') && Contents(c, segs') == Contents(c, segs) + rs
            && segs'[0].base == segs[0].base && segs'[|segs'| - 1].next == segs[|segs| - 1].next + |rs|
            && segs'[|segs'| - 1].base == segs[|segs| - 1].base
  {
    hide Coherent, RecordsOf, GrowAll, Storable;
    var last := segs[|segs| - 1];
    CoherentGrowsAll(c, last, rs);
    LastReplaced(c, segs, GrowAll(c, last, rs));
  }

  /** A new empty segment where the last one, which holds records, ends. */
  lemma SegmentAdded(c: Settings, segs: seq<Seg>)
    requires LogOk(c, segs) && segs[|segs| - 1].size > 0
    ensures var segs' := segs + [EmptySeg(segs[|segs| - 1].next)];
            LogOk(c, segs') && Contents(c, segs') == Contents(c, segs)
  {
    hide Coherent, RecordsOf;
    var s := EmptySeg(segs[|segs| - 1].next);
    EmptyIsCoherent(c, segs[|segs| - 1].next);
    ContentsConcat(c, segs, [s]);
    ContentsOne(c, s);
    hide Contents;
  }

  /** How many of the records stay when those from `offset` on are dropped; an offset before
      the first one drops nothing. */
  function Kept(first: nat, count: nat, offset: int): (k: nat)
    ensures k <= count
  {
    if offset < first then count else if offset < first + count then offset - first else count
  }

  /** Of records with consecutive offsets exactly those before the offset stay, unless it is before the first. */
  lemma KeptMeans(first: nat, all: seq<Record>, offset: int)
    requires Consecutive(first, all)
    ensures var kept := all[..Kept(first, |all|, offset)];
            (forall r :: r in kept <==> r in all && (offset < first || r.offset < offset))
            && kept <= all
  {
    var kept := all[..Kept(first, |all|, offset)];
    forall r | r in all && (offset < first || r.offset < offset)
      ensures r in kept
    {
      var i :| 0 <= i < |all| && all[i] == r;
      assert kept[i] == r;
    }
  }

  /** Truncation: the segment that holds the offset is cut and the later ones are dropped. */
  lemma TailDropped(c: Settings, segs: seq<Seg>, i: nat, offset: int, s: Seg)
    requires LogOk(c, segs) && i < |segs| && segs[i].base <= offset
    requires i + 1 < |segs| ==> offset < segs[i + 1].base
    requires Coherent(c, s) && s.base == segs[i].base
    requires RecordsOf(c, s) == RecordsOf(c, segs[i])[..Kept(segs[i].base, |RecordsOf(c, segs[i])|, offset)]
    ensures LogOk(c, LastBy(segs[..i + 1], s)) && LastBy(segs[..i + 1], s)[0].base == segs[0].base
    ensures Contents(c, LastBy(segs[..i + 1], s)) == Contents(c, segs)[..Kept(segs[0].base, |Contents(c, segs)|, offset)]
  {
    hide Coherent, RecordsOf, Contents, Tiled, AllCoherent;
    LogFront(c, segs, i + 1);
    LastReplaced(c, segs[..i + 1], s);
    assert segs[..i + 1][..i] == segs[..i];
    hide LogOk;
    KeptWithin(c, segs, i, offset);
  }

  lemma KeptWithin(c: Settings, segs: seq<Seg>, i: nat, offset: int)
    requires LogOk(c, segs) && i < |segs| && segs[i].base <= offset
    requires i + 1 < |segs| ==> offset < segs[i + 1].base
    ensures var rs, all := RecordsOf(c, segs[i]), Contents(c, segs);
            Contents(c, segs[..i]) + rs[..Kept(segs[i].base, |rs|, offset)] == all[..Kept(segs[0].base, |all|, offset)]
  {
    hide LogOk, RecordsOf, Contents, Kept;
    ContentsFront(c, segs, i);
    RecordsWithin(c, segs, i);
    KeptCounts(c, segs, i, offset);
    var all, rs, at := Contents(c, segs), RecordsOf(c, segs[i]), segs[i].base - segs[0].base;
    var k := Kept(segs[i].base, |rs|, offset);
    assert all[..at] + all[at..at + |rs|][..k] == all[..at + k];
  }

  /** As many records of the log stay as before the segment and in it together. */
  lemma KeptCounts(c: Settings, segs: seq<Seg>, i: nat, offset: int)
    requires LogOk(c, segs) && i < |segs| && segs[i].base <= offset
    requires i + 1 < |segs| ==> offset < segs[i + 1].base
    ensures segs[i].base - segs[0].base + Kept(segs[i].base, |RecordsOf(c, segs[i])|, offset)
            == Kept(segs[0].base, |Contents(c, segs)|, offset)
  {
    hide LogOk, RecordsOf, Contents;
    LogIsTiled(c, segs);
    OneLog(c, segs, i);
    ContentsShape(c, segs);
    if i > 0 {
      BasesAscend(c, segs, 0, i);
    }
    if i < |segs| - 1 {
      BasesAscend(c, segs, i, |segs| - 1);
      OneLog(c, segs, |segs| - 1);
    }
  }

  /** The first segments dropped: the rest is a log of the later records. */
  lemma FrontDropped(c: Settings, segs: seq<Seg>, n: nat)
    requires LogOk(c, segs) && n < |segs|
    ensures LogOk(c, segs[n..])
    ensures 0 <= segs[n].base - segs[0].base <= |Contents(c, segs)|
    ensures Contents(c, segs[n..]) == Contents(c, segs)[segs[n].base - segs[0].base..]
  {
    hide Coherent, Contents;
    ContentsFront(c, segs, n);
  }

  // -------------------------------------------------------------------- reopening

  predicate Ascending(ks: seq<nat>) {
    forall i, j | 0 <= i < j < |ks| :: ks[i] < ks[j]
  }

  predicate IsGreatest(m: nat, keys: set<nat>) {
    m in keys && forall k | k in keys :: k <= m
  }

  lemma {:induction false} SomeGreatest(keys: set<nat>) returns (m: nat)
    requires keys != {}
    ensures IsGreatest(m, keys)
  {
    var x :| x in keys;
    m := x;
    if keys - {x} != {} {
      var top := SomeGreatest(keys - {x});
      m := if top < x then x else top;
      GreaterOf(keys, x, top);
    } else {
      assert keys == {x};
    }
  }

  lemma GreaterOf(keys: set<nat>, x: nat, top: nat)
    requires x in keys && IsGreatest(top, keys - {x})
    ensures IsGreatest(if top < x then x else top, keys)
  {
    forall k | k in keys
      ensures k <= if top < x then x else top
    {
      assert k == x || k in keys - {x};
    }
  }

  lemma GreatestExists(keys: set<nat>)
    requires keys != {}
    ensures exists m: nat :: IsGreatest(m, keys)
  {
    hide IsGreatest;
    var m := SomeGreatest(keys);
  }

  function Greatest(keys: set<nat>): (m: nat)
    requires keys != {}
    ensures IsGreatest(m, keys)
  {
    GreatestExists(keys);
    var m: nat :| IsGreatest(m, keys);
    m
  }

  function Elements(ks: seq<nat>): set<nat> {
    if ks == [] then {} else Elements(ks[..|ks| - 1]) + {ks[|ks| - 1]}
  }

  lemma {:induction false} ElementAt(ks: seq<nat>, i: nat)
    requires i < |ks|
    ensures ks[i] in Elements(ks)
  {
    if i < |ks| - 1 {
      ElementAt(ks[..|ks| - 1], i);
    }
  }

  lemma {:induction false} ElementFound(ks: seq<nat>, k: nat) returns (i: nat)
    requires k in Elements(ks)
    ensures i < |ks| && ks[i] == k
  {
    if k == ks[|ks| - 1] {
      i := |ks| - 1;
    } else {
      i := ElementFound(ks[..|ks| - 1], k);
    }
  }

  lemma LastTops(front: seq<nat>, last: nat)
    requires Ascending(front + [last])
    ensures forall k | k in Elements(front) :: k < last
  {
    hide Elements;
    forall k | k in Elements(front)
      ensures k < last
    {
      var i := ElementFound(front, k);
      assert (front + [last])[i] < (front + [last])[|front|];
    }
  }

  lemma TopAdded(ks: seq<nat>, m: nat)
    requires Ascending(ks) && forall k | k in Elements(ks) :: k < m
    ensures Ascending(ks + [m]) && Elements(ks + [m]) == Elements(ks) + {m}
  {
    assert (ks + [m])[..|ks|] == ks;
    hide Elements;
    forall i | 0 <= i < |ks|
      ensures ks[i] < m
    {
      ElementAt(ks, i);
    }
  }

  function Sorted(keys: set<nat>): (ks: seq<nat>)
    ensures Ascending(ks) && Elements(ks) == keys
  {
    if keys == {} then [] else
      var m := Greatest(keys);
      var front := Sorted(keys - {m});
      TopAdded(front, m);
      front + [m]
  }

  lemma {:induction false} SortedIs(ks: seq<nat>)
    requires Ascending(ks)
    ensures Sorted(Elements(ks)) == ks
  {
    if ks != [] {
      var front, last := ks[..|ks| - 1], ks[|ks| - 1];
      assert front + [last] == ks;
      LastTops(front, last);
      assert Ascending(front);
      hide Ascending;
      SortedIs(front);
      assert Greatest(Elements(ks)) == last && Elements(ks) - {last} == Elements(front);
    }
  }

  /** The segments that opening a directory gives. */
  function Reopened(c: Settings, files: Files): seq<Seg> {
    var ks := Sorted(files.Keys);
    if ks == [] then [EmptySeg(0)]
    else seq(|ks|, i requires 0 <= i < |ks| => Recovered(c, ks[i], Content(files, ks[i])))
  }

  /** Some of the files are already cut to their intact records. */
  ghost predicate HalfOpened(crc: Checksum, files: Files, after: Files) {
    after.Keys == files.Keys && forall b | b in files :: after[b] == files[b] || after[b] == Intact(crc, files[b])
  }

  /** Recovery comes to the same for a file and for its intact part. */
  lemma HalfReopens(c: Settings, files: Files, after: Files)
    requires HalfOpened(c.crc, files, after)
    ensures Reopened(c, after) == Reopened(c, files)
  {
    hide Sorted, Built, Scan, Intact;
    var ks := Sorted(files.Keys);
    forall i | 0 <= i < |ks|
      ensures Recovered(c, ks[i], Content(after, ks[i])) == Recovered(c, ks[i], Content(files, ks[i]))
    {
      if ks[i] in files {
        IntactIsWhole(c.crc, files[ks[i]]);
      }
    }
  }

  /** A crash anywhere in these operations leaves a directory that opens as the old one does. */
  ghost predicate ReopensAlike(c: Settings, files: Files, ops: seq<Op>) {
    forall after | CrashDuring(files, ops, after) :: Reopened(c, after) == Reopened(c, files)
  }

  /** The operations cut some of the files to their intact records, one after the other. */
  ghost predicate OpensGently(crc: Checksum, files: Files, ops: seq<Op>) {
    NoWrites(ops) && forall k | 0 <= k <= |ops| :: HalfOpened(crc, files, DoAll(files, ops[..k]))
  }

  lemma GentlyNone(crc: Checksum, files: Files)
    ensures OpensGently(crc, files, []) && DoAll(files, []) == files
  {
    DoNoneOrOne(files, Create(0));
    var none: seq<Op> := [];
    assert none[..0] == none;
  }

  lemma GentlyMore(crc: Checksum, files: Files, ops: seq<Op>, base: nat)
    requires OpensGently(crc, files, ops) && base in files && Content(DoAll(files, ops), base) == files[base]
    ensures OpensGently(crc, files, ops + [Cut(base, |Intact(crc, files[base])|)])
  {
    hide DoAll, Intact;
    var op := Cut(base, |Intact(crc, files[base])|);
    var all := ops + [op];
    IntactIsWhole(crc, files[base]);
    DoAllSnoc(files, ops, op);
    forall k | 0 <= k <= |all|
      ensures HalfOpened(crc, files, DoAll(files, all[..k]))
    {
      if k <= |ops| {
        assert all[..k] == ops[..k];
      } else {
        assert all[..k] == all && ops[..|ops|] == ops;
        assert HalfOpened(crc, files, DoAll(files, ops));
      }
    }
  }

  lemma GentlyReopens(c: Settings, files: Files, ops: seq<Op>)
    requires OpensGently(c.crc, files, ops)
    ensures ReopensAlike(c, files, ops)
  {
    hide DoAll, HalfOpened, Reopened, CrashDuring;
    forall after | CrashDuring(files, ops, after)
      ensures Reopened(c, after) == Reopened(c, files)
    {
      var k := CrashBetween(files, ops, after);
      HalfReopens(c, files, after);
    }
  }

  /** So does the first file created in an empty directory. */
  lemma FirstReopens(c: Settings, files: Files)
    requires files.Keys == {}
    ensures ReopensAlike(c, files, [Create(0)])
  {
    hide CrashDuring, Reopened, DoAll;
    var op := Create(0);
    DoNoneOrOne(files, op);
    NothingOpened(c, files);
    OneOpened(c, Do(files, op));
    forall after | CrashDuring(files, [op], after)
      ensures Reopened(c, after) == Reopened(c, files)
    {
      var k := CrashBetween(files, [op], after);
      assert [op][..0] == [] && [op][..1] == [op];
    }
  }

  lemma NothingOpened(c: Settings, files: Files)
    requires files.Keys == {}
    ensures Reopened(c, files) == [EmptySeg(0)]
  {
    OneBase();
  }

  lemma OneOpened(c: Settings, files: Files)
    requires files.Keys == {0} && files[0] == []
    ensures Reopened(c, files) == [EmptySeg(0)]
  {
    hide Recovered, Sorted;
    OneBase();
    NothingRecovered(c, 0);
  }

  lemma OneBase()
    ensures Sorted({0}) == [0] && Sorted({}) == []
  {
    assert Elements([0]) == {0} by {
      assert [0][..0] == [];
    }
    SortedIs([0]);
  }

  lemma NothingRecovered(c: Settings, base: nat)
    ensures Recovered(c, base, []) == EmptySeg(base)
  {
    NothingScanned(c.crc);
  }

  lemma {:induction false} SameRecordsSameContents(c: Settings, a: seq<Seg>, b: seq<Seg>)
    requires |a| == |b| && forall i | 0 <= i < |a| :: RecordsOf(c, a[i]) == RecordsOf(c, b[i])
    ensures Contents(c, a) == Contents(c, b)
  {
    hide RecordsOf;
    if a != [] {
      SameRecordsSameContents(c, a[..|a| - 1], b[..|b| - 1]);
    }
  }

  function BaseList(segs: seq<Seg>): seq<nat> {
    seq(|segs|, x requires 0 <= x < |segs| => segs[x].base)
  }

  lemma {:induction false} BaseListElements(segs: seq<Seg>)
    ensures Elements(BaseList(segs)) == Bases(segs)
  {
    if segs != [] {
      var front, s := segs[..|segs| - 1], segs[|segs| - 1];
      BaseListElements(front);
      assert BaseList(segs)[..|segs| - 1] == BaseList(front);
      assert segs == front + [s];
      BasesSnoc(front, s);
    }
  }

  lemma BasesSnoc(segs: seq<Seg>, s: Seg)
    ensures Bases(segs + [s]) == Bases(segs) + {s.base}
  {
    var all := segs + [s];
    assert all[|segs|] == s;
    forall k | k in Bases(segs)
      ensures k in Bases(all)
    {
      var t :| t in segs && t.base == k;
      assert t in all;
    }
  }

  lemma SortedBases(segs: seq<Seg>, keys: set<nat>)
    requires keys == Bases(segs) && forall x, y | 0 <= x < y < |segs| :: segs[x].base < segs[y].base
    ensures Sorted(keys) == BaseList(segs)
  {
    hide Elements, Bases, Sorted;
    BaseListElements(segs);
    SortedIs(BaseList(segs));
  }

  lemma ReopenedIs(c: Settings, files: Files, segs: seq<Seg>)
    requires segs != [] && files.Keys == Bases(segs) && forall x, y | 0 <= x < y < |segs| :: segs[x].base < segs[y].base
    ensures |Reopened(c, files)| == |segs|
    ensures forall i | 0 <= i < |segs| ::
              segs[i].base in files && Reopened(c, files)[i] == Recovered(c, segs[i].base, files[segs[i].base])
  {
    hide Recovered;
    SortedBases(segs, files.Keys);
    forall i | 0 <= i < |segs|
      ensures segs[i].base in files
    {
      assert segs[i] in segs;
    }
  }

  lemma Ascend(c: Settings, segs: seq<Seg>)
    requires LogOk(c, segs)
    ensures segs != [] && forall x, y | 0 <= x < y < |segs| :: segs[x].base < segs[y].base
  {
    hide LogOk;
    LogIsTiled(c, segs);
    forall x, y | 0 <= x < y < |segs|
      ensures segs[x].base < segs[y].base
    {
      BasesAscend(c, segs, x, y);
    }
  }

  /** A coherent segment recovers to itself, up to its timestamp bound. */
  lemma RecoveredSame(c: Settings, s: Seg)
    requires Coherent(c, s)
    ensures var r := Recovered(c, s.base, s.file);
            Coherent(c, r) && RecordsOf(c, r) == RecordsOf(c, s) && r == s.(maxTimestamp := r.maxTimestamp)
  {
    CoherentShape(c, s);
    CoherentIsRecovered(c, s);
    BuiltIsCoherent(c, s.base, RecordsOf(c, s));
  }

  /** A coherent segment whose file was being continued when the crash came. */
  lemma RecoveredTail(c: Settings, s: Seg, chunk: seq<Record>, n: nat) returns (j: nat)
    requires Coherent(c, s) && AllStorable(chunk) && Consecutive(s.next, chunk) && n <= |EncodeAll(c.crc, chunk)|
    ensures j <= |chunk|
    ensures var r := Recovered(c, s.base, s.file + EncodeAll(c.crc, chunk)[..n]);
            Coherent(c, r) && r.base == s.base && RecordsOf(c, r) == RecordsOf(c, s) + chunk[..j]
  {
    hide Scan, EncodeAll, Storable, GrowAll;
    CoherentShape(c, s);
    CutScansToPrefix(c.crc, chunk, n);
    var rs := RecordsOf(c, s);
    var kept := Scan(c.crc, EncodeAll(c.crc, chunk)[..n]);
    j := |kept|;
    assert kept == chunk[..j];
    ScanEncoded(c.crc, rs, EncodeAll(c.crc, chunk)[..n]);
    BuiltIsCoherent(c, s.base, rs + kept);
    BuiltShape(c, s.base, rs + kept);
  }

  /** The same segments but for timestamp bounds, the last with some more records. */
  ghost predicate Resembles(c: Settings, segs': seq<Seg>, segs: seq<Seg>, extra: seq<Record>) {
    |segs'| == |segs| > 0 && AllCoherent(c, segs')
    && (forall i | 0 <= i < |segs| - 1 :: segs'[i] == segs[i].(maxTimestamp := segs'[i].maxTimestamp))
    && segs'[|segs| - 1].base == segs[|segs| - 1].base
    && RecordsOf(c, segs'[|segs| - 1]) == RecordsOf(c, segs[|segs| - 1]) + extra
  }

  lemma ResemblingLog(c: Settings, segs: seq<Seg>, segs': seq<Seg>, extra: seq<Record>)
    requires LogOk(c, segs) && Resembles(c, segs', segs, extra)
    ensures LogOk(c, segs') && segs'[0].base == segs[0].base && Contents(c, segs') == Contents(c, segs) + extra
  {
    hide AllCoherent, Scan;
    var m := |segs| - 1;
    assert forall i | 0 <= i < |segs| :: segs'[i].base == segs[i].base;
    assert forall i | 0 <= i < m :: segs'[i].size == segs[i].size && segs'[i].next == segs[i].next && segs'[i].file == segs[i].file;
    assert Tiled(segs');
    hide Tiled;
    SameRecordsSameContents(c, segs'[..m], segs[..m]);
    hide RecordsOf;
    assert Contents(c, segs') == Contents(c, segs'[..m]) + RecordsOf(c, segs'[m]);
    assert Contents(c, segs) == Contents(c, segs[..m]) + RecordsOf(c, segs[m]);
    hide Contents;
  }

  /** Reopening the files of a log whose last file was being continued gives back the log,
      continued by some of the new records, each of them whole. */
  lemma ReopenedTail(c: Settings, segs: seq<Seg>, files: Files, chunk: seq<Record>, n: nat) returns (j: nat)
    requires LogOk(c, segs) && Stores(files, segs)
    requires AllStorable(chunk) && Consecutive(segs[|segs| - 1].next, chunk) && n <= |EncodeAll(c.crc, chunk)|
    ensures j <= |chunk|
    ensures var segs' := Reopened(c, Do(files, Write(segs[|segs| - 1].base, EncodeAll(c.crc, chunk)[..n])));
            LogOk(c, segs') && segs'[0].base == segs[0].base && Contents(c, segs') == Contents(c, segs) + chunk[..j]
  {
    hide Coherent, Recovered, RecordsOf, EncodeAll, Storable, Reopened, Contents, Consecutive;
    var m := |segs| - 1;
    var last, part := segs[m], EncodeAll(c.crc, chunk)[..n];
    var files' := Do(files, Write(last.base, part));
    assert last.base in Bases(segs);
    assert files'.Keys == files.Keys;
    Ascend(c, segs);
    ReopenedIs(c, files', segs);
    var segs' := Reopened(c, files');
    j := RecoveredTail(c, last, chunk, n);
    forall i | 0 <= i < m
      ensures Coherent(c, segs'[i]) && segs'[i] == segs[i].(maxTimestamp := segs'[i].maxTimestamp)
    {
      BasesAscend(c, segs, i, m);
      RecoveredSame(c, segs[i]);
    }
    hide Stores, Tiled;
    ResemblingLog(c, segs, segs', chunk[..j]);
  }

  /** Reopening a log that was left alone gives its records back. */
  lemma ReopenedSame(c: Settings, segs: seq<Seg>, files: Files)
    requires LogOk(c, segs) && Stores(files, segs)
    ensures var segs' := Reopened(c, files);
            LogOk(c, segs') && segs'[0].base == segs[0].base && Contents(c, segs') == Contents(c, segs)
  {
    hide Coherent, Recovered, RecordsOf, Reopened, Contents;
    Ascend(c, segs);
    ReopenedIs(c, files, segs);
    var segs' := Reopened(c, files);
    forall i | 0 <= i < |segs|
      ensures Coherent(c, segs'[i]) && RecordsOf(c, segs'[i]) == RecordsOf(c, segs[i])
      ensures segs'[i] == segs[i].(maxTimestamp := segs'[i].maxTimestamp)
    {
      RecoveredSame(c, segs[i]);
    }
    hide Stores, Tiled;
    ResemblingLog(c, segs, segs', []);
    assert Contents(c, segs) + [] == Contents(c, segs);
  }
}
