/**
 Record framing (pylog/log.py): a 28-byte little-endian header — magic, payload length,
 offset, timestamp, checksum — and the payload. The checksum is a parameter: everything
 here holds for any function from payloads to 32-bit numbers.
 */
module Records {
  import opened Basics

  type U32 = n: nat | n < 0x1_0000_0000

  type Checksum = Bytes -> U32

  // "PLG1"
  const MAGIC: Bytes := [80, 76, 71, 49]
  const HEADER: nat := 28
  const MAX_RECORD_BYTES: nat := 64 * 1024 * 1024
  const TWO64: int := 0x1_0000_0000_0000_0000
  const TWO63: int := 0x8000_0000_0000_0000

  datatype Record = Record(offset: nat, timestamp: int, payload: Bytes)

  /** What reading one record can meet: the end of the file, an unreadable record, or a record and its size. */
  datatype Parsed = End | Corrupt | Good(record: Record, size: nat)

  /** The header can hold the record's numbers; for others packing raises an error. */
  predicate Packable(r: Record) {
    |r.payload| < 0x1_0000_0000 && r.offset < TWO64 && -TWO63 <= r.timestamp < TWO63
  }

  /** A record that can be written and read back. */
  predicate Storable(r: Record) {
    Packable(r) && |r.payload| <= MAX_RECORD_BYTES
  }

  // ------------------------------------------------------------------- numbers

  function Pow256(k: nat): (n: nat)
    ensures n > 0
  {
    if k == 0 then 1 else 256 * Pow256(k - 1)
  }

  function LittleEndian(n: nat, k: nat): (b: Bytes)
    ensures |b| == k
  {
    if k == 0 then [] else [n % 256] + LittleEndian(n / 256, k - 1)
  }

  function FromLittleEndian(b: Bytes): nat {
    if b == [] then 0 else b[0] + 256 * FromLittleEndian(b[1..])
  }

  function BigEndian(n: nat, k: nat): (b: Bytes)
    ensures |b| == k
  {
    if k == 0 then [] else BigEndian(n / 256, k - 1) + [n % 256]
  }

  function FromBigEndian(b: Bytes): nat {
    if b == [] then 0 else 256 * FromBigEndian(b[..|b| - 1]) + b[|b| - 1]
  }

  lemma {:induction false} LittleEndianRoundTrip(n: nat, k: nat)
    requires n < Pow256(k)
    ensures FromLittleEndian(LittleEndian(n, k)) == n
  {
    if k > 0 {
      LittleEndianRoundTrip(n / 256, k - 1);
      assert LittleEndian(n, k)[1..] == LittleEndian(n / 256, k - 1);
    }
  }

  lemma DigitAndRest(digit: nat, rest: nat)
    requires digit < 256
    ensures (digit + 256 * rest) % 256 == digit && (digit + 256 * rest) / 256 == rest
  {
  }

  lemma {:induction false} LittleEndianOnto(b: Bytes)
    ensures FromLittleEndian(b) < Pow256(|b|) && LittleEndian(FromLittleEndian(b), |b|) == b
  {
    if b != [] {
      LittleEndianOnto(b[1..]);
      DigitAndRest(b[0], FromLittleEndian(b[1..]));
      assert [b[0]] + b[1..] == b;
    }
  }

  lemma {:induction false} BigEndianRoundTrip(n: nat, k: nat)
    requires n < Pow256(k)
    ensures FromBigEndian(BigEndian(n, k)) == n
  {
    if k > 0 {
      BigEndianRoundTrip(n / 256, k - 1);
      assert BigEndian(n, k)[..k - 1] == BigEndian(n / 256, k - 1);
    }
  }

  lemma {:induction false} BigEndianOnto(b: Bytes)
    ensures FromBigEndian(b) < Pow256(|b|) && BigEndian(FromBigEndian(b), |b|) == b
  {
    if b != [] {
      var front := b[..|b| - 1];
      BigEndianOnto(front);
      var rest, last := FromBigEndian(front), b[|b| - 1];
      assert (256 * rest + last) % 256 == last && (256 * rest + last) / 256 == rest;
      assert front + [last] == b;
    }
  }

  lemma Powers()
    ensures Pow256(4) == 0x1_0000_0000 && Pow256(8) == TWO64
  {
    assert Pow256(1) == 256 && Pow256(2) == 0x1_0000;
    assert Pow256(3) == 0x100_0000 && Pow256(5) == 0x100_0000_0000;
    assert Pow256(6) == 0x1_0000_0000_0000 && Pow256(7) == 0x100_0000_0000_0000;
  }

  /** Two's complement in 64 bits. */
  function Unsigned(t: int): nat {
    t % TWO64
  }

  function Signed(n: nat): int {
    if n < TWO63 then n else n - TWO64
  }

  // -------------------------------------------------------------------- framing

  function Header(crc: Checksum, r: Record): (b: Bytes)
    ensures |b| == HEADER
  {
    MAGIC + LittleEndian(|r.payload|, 4) + LittleEndian(r.offset, 8)
    + LittleEndian(Unsigned(r.timestamp), 8) + LittleEndian(crc(r.payload), 4)
  }

  function Encode(crc: Checksum, r: Record): (b: Bytes)
    ensures |b| == HEADER + |r.payload|
  {
    Header(crc, r) + r.payload
  }

  /** Reads one record from the start of `b`. */
  function Parse(crc: Checksum, b: Bytes): (p: Parsed)
    ensures p.Good? ==> HEADER <= p.size <= |b|
  {
    if b == [] then End
    else if |b| < HEADER then Corrupt
    else if b[..4] != MAGIC then Corrupt
    else
      var length := FromLittleEndian(b[4..8]);
      if length > MAX_RECORD_BYTES || |b| < HEADER + length then Corrupt
      else
        var payload := b[HEADER..HEADER + length];
        if crc(payload) != FromLittleEndian(b[24..28]) then Corrupt
        else Good(Record(FromLittleEndian(b[8..16]), Signed(FromLittleEndian(b[16..24])), payload), HEADER + length)
  }

  lemma HeaderFields(crc: Checksum, r: Record)
    requires Packable(r)
    ensures var b := Header(crc, r);
            b[..4] == MAGIC
            && FromLittleEndian(b[4..8]) == |r.payload| && FromLittleEndian(b[8..16]) == r.offset
            && Signed(FromLittleEndian(b[16..24])) == r.timestamp && FromLittleEndian(b[24..28]) == crc(r.payload)
  {
    hide LittleEndian, FromLittleEndian;
    ReadBack(|r.payload|, r.offset);
    ReadBack(crc(r.payload), Unsigned(r.timestamp));
    FieldsOf(MAGIC, LittleEndian(|r.payload|, 4), LittleEndian(r.offset, 8),
             LittleEndian(Unsigned(r.timestamp), 8), LittleEndian(crc(r.payload), 4));
  }

  lemma ReadBack(n: nat, m: nat)
    requires n < 0x1_0000_0000 && m < TWO64
    ensures FromLittleEndian(LittleEndian(n, 4)) == n && FromLittleEndian(LittleEndian(m, 8)) == m
  {
    Powers();
    LittleEndianRoundTrip(n, 4);
    LittleEndianRoundTrip(m, 8);
  }

  lemma FieldsOf(m: Bytes, l: Bytes, o: Bytes, t: Bytes, c: Bytes)
    requires |m| == 4 && |l| == 4 && |o| == 8 && |t| == 8 && |c| == 4
    ensures var b := m + l + o + t + c; b[..4] == m && b[4..8] == l && b[8..16] == o && b[16..24] == t && b[24..28] == c
  {
  }

  /** The fields a parser finds in anything that starts with an encoded record's header. */
  lemma FramedFields(crc: Checksum, r: Record, b: Bytes)
    requires Packable(r) && |b| >= HEADER && b[..HEADER] == Header(crc, r)
    ensures b[..4] == MAGIC
            && FromLittleEndian(b[4..8]) == |r.payload| && FromLittleEndian(b[8..16]) == r.offset
            && Signed(FromLittleEndian(b[16..24])) == r.timestamp && FromLittleEndian(b[24..28]) == crc(r.payload)
  {
    HeaderFields(crc, r);
    hide FromLittleEndian, Header;
    var h := b[..HEADER];
    assert b[..4] == h[..4] && b[4..8] == h[4..8] && b[8..16] == h[8..16] && b[16..24] == h[16..24] && b[24..28] == h[24..28];
  }

  /** Framing is self-delimiting: whatever follows, an encoded record is read back with exactly
      its own size — if its payload is within the limit, and only then. */
  lemma RoundTripExactly(crc: Checksum, r: Record, rest: Bytes)
    requires Packable(r)
    ensures Parse(crc, Encode(crc, r) + rest) == Good(r, |Encode(crc, r)|) <==> |r.payload| <= MAX_RECORD_BYTES
    ensures |r.payload| > MAX_RECORD_BYTES ==> Parse(crc, Encode(crc, r) + rest) == Corrupt
  {
    var b := Encode(crc, r) + rest;
    hide Header, FromLittleEndian, Packable, Signed;
    assert b[..HEADER] == Header(crc, r);
    assert b[HEADER..HEADER + |r.payload|] == r.payload;
    FramedFields(crc, r, b);
  }

  /** A record written only in part is not read. */
  lemma TornRecord(crc: Checksum, r: Record, torn: Bytes)
    requires Storable(r) && torn < Encode(crc, r)
    ensures !Parse(crc, torn).Good?
  {
    hide Header, FromLittleEndian, Signed;
    if |torn| >= HEADER {
      assert torn[..HEADER] == Encode(crc, r)[..HEADER] == Header(crc, r);
      FramedFields(crc, r, torn);
    }
  }

  lemma SixParts(b: Bytes, n: nat)
    requires HEADER <= n <= |b|
    ensures b[..4] + b[4..8] + b[8..16] + b[16..24] + b[24..28] + b[HEADER..n] == b[..n]
  {
  }

  lemma InRange(r: Record, n: nat)
    requires |r.payload| <= MAX_RECORD_BYTES && r.offset < TWO64 && n < TWO64 && r.timestamp == Signed(n)
    ensures Storable(r) && Unsigned(r.timestamp) == n
  {
  }

  /** Whatever is read is a storable record, and the bytes it was read from are its encoding. */
  lemma ParsedIsEncoded(crc: Checksum, b: Bytes)
    requires Parse(crc, b).Good?
    ensures var p := Parse(crc, b);
            Storable(p.record) && |Encode(crc, p.record)| == p.size && Encode(crc, p.record) == b[..p.size]
  {
    var p := Parse(crc, b);
    Powers();
    LittleEndianOnto(b[4..8]);
    LittleEndianOnto(b[8..16]);
    LittleEndianOnto(b[16..24]);
    LittleEndianOnto(b[24..28]);
    hide LittleEndian, FromLittleEndian, Pow256, Signed, Unsigned, Packable, Storable;
    InRange(p.record, FromLittleEndian(b[16..24]));
    SixParts(b, p.size);
  }

  // ------------------------------------------------------------------------ byte order

  function Digit(b: Bytes, i: nat): nat
    requires i < |b|
  {
    b[i]
  }

  /** Four bytes at a position, the least significant first. */
  function Word(b: Bytes, at: nat): nat
    requires at + 4 <= |b|
  {
    Digit(b, at) + 0x100 * Digit(b, at + 1) + 0x1_0000 * Digit(b, at + 2) + 0x100_0000 * Digit(b, at + 3)
  }

  /** Eight bytes, the least significant first. */
  function Long(b: Bytes, at: nat): nat
    requires at + 8 <= |b|
  {
    Word(b, at) + 0x1_0000_0000 * Word(b, at + 4)
  }

  /** Eight bytes, the most significant first. */
  function LongBig(b: Bytes, at: nat): nat
    requires at + 8 <= |b|
  {
    0x1_0000_0000
    * (0x100_0000 * Digit(b, at) + 0x1_0000 * Digit(b, at + 1) + 0x100 * Digit(b, at + 2) + Digit(b, at + 3))
    + 0x100_0000 * Digit(b, at + 4) + 0x1_0000 * Digit(b, at + 5) + 0x100 * Digit(b, at + 6) + Digit(b, at + 7)
  }

  lemma LowFirst(b: Bytes)
    requires |b| >= 4
    ensures FromLittleEndian(b) == Word(b, 0) + 0x1_0000_0000 * FromLittleEndian(b[4..])
  {
    assert b[1..][1..] == b[2..] && b[2..][1..] == b[3..] && b[3..][1..] == b[4..];
    assert FromLittleEndian(b) == b[0] + 256 * FromLittleEndian(b[1..]);
    assert FromLittleEndian(b[1..]) == b[1] + 256 * FromLittleEndian(b[2..]);
    assert FromLittleEndian(b[2..]) == b[2] + 256 * FromLittleEndian(b[3..]);
    assert FromLittleEndian(b[3..]) == b[3] + 256 * FromLittleEndian(b[4..]);
  }

  lemma WordIs(b: Bytes)
    requires |b| == 4
    ensures FromLittleEndian(b) == Word(b, 0)
  {
    LowFirst(b);
    assert b[4..] == [];
  }

  lemma LongIs(b: Bytes)
    requires |b| == 8
    ensures FromLittleEndian(b) == Long(b, 0)
  {
    LowFirst(b);
    WordIs(b[4..]);
  }

  lemma LongBigIs(b: Bytes)
    requires |b| == 8
    ensures FromBigEndian(b) == LongBig(b, 0)
  {
    assert b[..8] == b;
    TopFirst(b, 7);
    TopFirst(b, 6);
    TopFirst(b, 5);
    TopFirst(b, 4);
    TopFirst(b, 3);
    TopFirst(b, 2);
    TopFirst(b, 1);
    TopFirst(b, 0);
    assert b[..0] == [];
  }

  lemma TopFirst(b: Bytes, k: nat)
    requires k < |b|
    ensures FromBigEndian(b[..k + 1]) == 256 * FromBigEndian(b[..k]) + b[k]
  {
    assert b[..k + 1][..k] == b[..k];
  }

  /** A record on disk: the magic "PLG1", then, the least significant byte first, the payload's length in
      four bytes, the offset and the timestamp (in two's complement) in eight each and the payload's
      checksum in four, then the payload. */
  lemma RecordLayout(crc: Checksum, r: Record)
    requires Packable(r)
    ensures var b := Encode(crc, r);
            |b| == 28 + |r.payload| && b[..4] == [80, 76, 71, 49]
            && Word(b, 4) == |r.payload| && Long(b, 8) == r.offset
            && Long(b, 16) == (if r.timestamp < 0 then r.timestamp + 0x1_0000_0000_0000_0000 else r.timestamp)
            && Word(b, 24) == crc(r.payload) && b[28..] == r.payload
  {
    hide Header, FromLittleEndian;
    var h, b := Header(crc, r), Encode(crc, r);
    HeaderFields(crc, r);
    WordIs(h[4..8]);
    LongIs(h[8..16]);
    LongIs(h[16..24]);
    WordIs(h[24..28]);
    assert b[..28] == h;
    assert forall i | 0 <= i < 28 :: b[i] == h[i];
  }
}
