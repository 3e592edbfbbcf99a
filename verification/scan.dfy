/**
 A log file as the records read from its start up to the first byte that is not a whole,
 intact record (the loop of `recover` in pylog/log.py).
 */
module Scans {
  import opened Basics
  import opened Records

  predicate AllStorable(rs: seq<Record>) {
    forall r | r in rs :: Storable(r)
  }

  function EncodeAll(crc: Checksum, rs: seq<Record>): Bytes {
    if rs == [] then [] else Encode(crc, rs[0]) + EncodeAll(crc, rs[1..])
  }

  function Scan(crc: Checksum, file: Bytes): seq<Record>
    decreases |file|
  {
    var p := Parse(crc, file);
    if p.Good? then [p.record] + Scan(crc, file[p.size..]) else []
  }

  /** Where record `k` starts in the file that holds exactly `rs`. */
  function Pos(crc: Checksum, rs: seq<Record>, k: nat): nat
    requires k <= |rs|
  {
    |EncodeAll(crc, rs[..k])|
  }

  lemma Associative(x: Bytes, y: Bytes, z: Bytes)
    ensures x + (y + z) == (x + y) + z
  {
  }

  lemma {:induction false} EncodeAllConcat(crc: Checksum, a: seq<Record>, b: seq<Record>)
    ensures EncodeAll(crc, a + b) == EncodeAll(crc, a) + EncodeAll(crc, b)
  {
    hide Encode;
    if a == [] {
      assert a + b == b;
    } else {
      assert (a + b)[1..] == a[1..] + b && (a + b)[0] == a[0];
      EncodeAllConcat(crc, a[1..], b);
      Associative(Encode(crc, a[0]), EncodeAll(crc, a[1..]), EncodeAll(crc, b));
    }
  }

  lemma EncodeOne(crc: Checksum, r: Record)
    ensures EncodeAll(crc, [r]) == Encode(crc, r)
  {
    assert EncodeAll(crc, [r][1..]) == [];
  }

  lemma EncodeSnoc(crc: Checksum, rs: seq<Record>, r: Record)
    ensures EncodeAll(crc, rs + [r]) == EncodeAll(crc, rs) + Encode(crc, r)
  {
    EncodeAllConcat(crc, rs, [r]);
    EncodeOne(crc, r);
  }

  lemma PosStep(crc: Checksum, rs: seq<Record>, k: nat)
    requires k < |rs|
    ensures Pos(crc, rs, k + 1) == Pos(crc, rs, k) + |Encode(crc, rs[k])|
    ensures Pos(crc, rs, k + 1) <= |EncodeAll(crc, rs)|
  {
    hide EncodeAll, Encode;
    assert rs[..k + 1] == rs[..k] + [rs[k]];
    EncodeSnoc(crc, rs[..k], rs[k]);
    assert rs == rs[..k + 1] + rs[k + 1..];
    EncodeAllConcat(crc, rs[..k + 1], rs[k + 1..]);
  }

  lemma ScanCons(crc: Checksum, r: Record, more: Bytes)
    requires Storable(r)
    ensures Scan(crc, Encode(crc, r) + more) == [r] + Scan(crc, more)
  {
    RoundTripExactly(crc, r, more);
    hide Encode, Parse;
    assert (Encode(crc, r) + more)[|Encode(crc, r)|..] == more;
  }

  /** A file of whole records scans back to them, and then goes on with whatever follows. */
  lemma {:induction false} ScanEncoded(crc: Checksum, rs: seq<Record>, rest: Bytes)
    requires AllStorable(rs)
    ensures Scan(crc, EncodeAll(crc, rs) + rest) == rs + Scan(crc, rest)
  {
    hide Encode, Scan, Storable;
    if rs == [] {
      assert EncodeAll(crc, rs) + rest == rest;
    } else {
      assert Storable(rs[0]) && AllStorable(rs[1..]);
      var more := EncodeAll(crc, rs[1..]) + rest;
      assert EncodeAll(crc, rs) + rest == Encode(crc, rs[0]) + more;
      ScanCons(crc, rs[0], more);
      ScanEncoded(crc, rs[1..], rest);
      assert [rs[0]] + (rs[1..] + Scan(crc, rest)) == rs + Scan(crc, rest);
    }
  }

  lemma ScanHead(crc: Checksum, file: Bytes)
    requires Parse(crc, file).Good?
    ensures var p := Parse(crc, file);
            Scan(crc, file) != [] && Scan(crc, file)[0] == p.record && Scan(crc, file)[1..] == Scan(crc, file[p.size..])
  {
  }

  /** Everything scanned is storable, and its encoding is how the file starts. */
  lemma {:induction false} ScannedIsEncoded(crc: Checksum, file: Bytes)
    ensures AllStorable(Scan(crc, file)) && EncodeAll(crc, Scan(crc, file)) <= file
    decreases |file|
  {
    hide Parse, Encode, Storable;
    var p := Parse(crc, file);
    if p.Good? {
      ParsedIsEncoded(crc, file);
      ScannedIsEncoded(crc, file[p.size..]);
      ScanHead(crc, file);
      assert file == file[..p.size] + file[p.size..];
    }
  }

  /** The part of the file that survives recovery. */
  function Intact(crc: Checksum, file: Bytes): Bytes {
    EncodeAll(crc, Scan(crc, file))
  }

  /** Recovering twice changes nothing: what survives scans to the same records. */
  lemma IntactIsWhole(crc: Checksum, file: Bytes)
    ensures Scan(crc, Intact(crc, file)) == Scan(crc, file) && Intact(crc, file) <= file
    ensures Intact(crc, Intact(crc, file)) == Intact(crc, file)
  {
    ScannedIsEncoded(crc, file);
    ScanEncoded(crc, Scan(crc, file), []);
    assert EncodeAll(crc, Scan(crc, file)) + [] == EncodeAll(crc, Scan(crc, file));
  }

  /** A record cut short, down to nothing at all. */
  ghost predicate Torn(crc: Checksum, b: Bytes) {
    exists r :: Storable(r) && b < Encode(crc, r)
  }

  /** Whole records followed by a torn one recover to exactly those records. */
  lemma TornTailDropped(crc: Checksum, rs: seq<Record>, torn: Bytes)
    requires AllStorable(rs) && Torn(crc, torn)
    ensures Scan(crc, EncodeAll(crc, rs) + torn) == rs && Intact(crc, EncodeAll(crc, rs) + torn) == EncodeAll(crc, rs)
  {
    var r :| Storable(r) && torn < Encode(crc, r);
    TornRecord(crc, r, torn);
    ScanEncoded(crc, rs, torn);
  }

  /** Whatever bytes follow whole records, none of those records is lost. */
  lemma WholeRecordsSurvive(crc: Checksum, rs: seq<Record>, junk: Bytes)
    requires AllStorable(rs)
    ensures rs <= Scan(crc, EncodeAll(crc, rs) + junk)
  {
    ScanEncoded(crc, rs, junk);
  }

  /** Cutting a file of whole records anywhere leaves a file that scans to a prefix of them. */
  lemma {:induction false} CutScansToPrefix(crc: Checksum, rs: seq<Record>, n: nat)
    requires AllStorable(rs) && n <= |EncodeAll(crc, rs)|
    ensures Scan(crc, EncodeAll(crc, rs)[..n]) <= rs
  {
    var file := EncodeAll(crc, rs);
    if rs == [] {
      assert file[..n] == [];
    } else {
      var first, rest := Encode(crc, rs[0]), EncodeAll(crc, rs[1..]);
      if n < |first| {
        assert file[..n] == first[..n];
        assert Storable(rs[0]);
        TornRecord(crc, rs[0], file[..n]);
      } else {
        assert file[..n] == first + rest[..n - |first|];
        assert Storable(rs[0]) && AllStorable(rs[1..]);
        CutScansToPrefix(crc, rs[1..], n - |first|);
        RoundTripExactly(crc, rs[0], rest[..n - |first|]);
        hide Encode, Parse;
        assert (first + rest[..n - |first|])[|first|..] == rest[..n - |first|];
      }
    }
  }

  /** Reading at the start of record `k` finds it; reading at the end finds nothing more. */
  lemma {:induction false} ScanFrom(crc: Checksum, file: Bytes, k: nat)
    requires k <= |Scan(crc, file)|
    ensures Pos(crc, Scan(crc, file), k) <= |file|
    ensures Scan(crc, file[Pos(crc, Scan(crc, file), k)..]) == Scan(crc, file)[k..]
    decreases k
  {
    hide Parse, Encode, Storable;
    var rs := Scan(crc, file);
    if k > 0 {
      var p := Parse(crc, file);
      ParsedIsEncoded(crc, file);
      ScanHead(crc, file);
      ScanFrom(crc, file[p.size..], k - 1);
      hide Scan;
      assert rs[..k][1..] == rs[1..][..k - 1];
      var at := Pos(crc, rs[1..], k - 1);
      assert Pos(crc, rs, k) == p.size + at;
      assert file[p.size..][at..] == file[p.size + at..];
    } else {
      assert rs[..0] == [] && file[0..] == file;
    }
  }

  lemma ParseAt(crc: Checksum, file: Bytes, k: nat)
    requires k <= |Scan(crc, file)|
    ensures var rs := Scan(crc, file); var at := Pos(crc, rs, k);
            at <= |file|
            && (k < |rs| ==> Parse(crc, file[at..]) == Good(rs[k], |Encode(crc, rs[k])|))
            && (k == |rs| ==> !Parse(crc, file[at..]).Good?)
  {
    var rs := Scan(crc, file);
    ScanFrom(crc, file, k);
    var at := Pos(crc, rs, k);
    if k < |rs| {
      assert Scan(crc, file[at..])[0] == rs[k];
      ParsedIsEncoded(crc, file[at..]);
      PosStep(crc, rs, k);
    }
  }
}
