/** The 12-byte frame header and its big-endian encoding. */
module Header {
  import opened Basics

  const HEADER_SIZE: nat := 12

  datatype Tag = Data | WindowUpdate | Ping | GoAway

  /** The 16-bit flag word: the four assigned bits and the twelve unassigned ones. */
  datatype Flags = Flags(syn: bool, ack: bool, fin: bool, rst: bool, rest: Rest)

  type Rest = x: int | 0 <= x < 0x1000

  const NO_FLAGS := Flags(false, false, false, false, 0)

  /** The version byte is not stored: only version 0 can be built or decoded. */
  datatype Header = Header(tag: Tag, flags: Flags, streamId: u32, length: u32)

  datatype DecodeError = Version(v: byte) | Type(t: byte)

  datatype Decoded = Ok(header: Header) | Err(error: DecodeError)

  // ---------------------------------------------------------------- numbers as bytes

  /** 256 to the power `n`. */
  function Range(n: nat): (r: nat)
    ensures r > 0
  {
    if n == 0 then 1 else 256 * Range(n - 1)
  }

  /** `to_be_bytes` on `n` bytes. */
  function BigEndian(x: nat, n: nat): (b: seq<byte>)
    ensures |b| == n
  {
    if n == 0 then [] else BigEndian(x / 256, n - 1) + [x % 256]
  }

  /** `from_be_bytes`. */
  function Number(b: seq<byte>): (x: nat)
    ensures x < Range(|b|)
  {
    if b == [] then 0 else 256 * Number(b[..|b| - 1]) + b[|b| - 1]
  }

  lemma {:induction false} NumberOfBigEndian(x: nat, n: nat)
    requires x < Range(n)
    ensures Number(BigEndian(x, n)) == x
  {
    if n > 0 {
      NumberOfBigEndian(x / 256, n - 1);
      assert BigEndian(x, n)[..n - 1] == BigEndian(x / 256, n - 1);
    }
  }

  lemma {:induction false} BigEndianOfNumber(b: seq<byte>)
    ensures BigEndian(Number(b), |b|) == b
  {
    if b != [] {
      BigEndianOfNumber(b[..|b| - 1]);
    }
  }

  lemma WordRanges()
    ensures Range(2) == 0x1_0000 && Range(4) == 0x1_0000_0000
  {
    assert Range(1) == 0x100;
    assert Range(3) == 0x100_0000;
  }

  function Word16(b: seq<byte>): u16
    requires |b| == 2
  {
    WordRanges();
    Number(b)
  }

  function Word32(b: seq<byte>): u32
    requires |b| == 4
  {
    WordRanges();
    Number(b)
  }

  // ---------------------------------------------------------------- flags

  function Bit(b: bool): (n: int)
    ensures 0 <= n <= 1
  {
    if b then 1 else 0
  }

  /** Bit `k` of a flag word: what `Flags::contains` tests. */
  predicate BitAt(v: nat, k: nat) {
    if k == 0 then v % 2 == 1 else BitAt(v / 2, k - 1)
  }

  function FlagsVal(f: Flags): u16 {
    Bit(f.syn) + 2 * (Bit(f.ack) + 2 * (Bit(f.fin) + 2 * (Bit(f.rst) + 2 * f.rest)))
  }

  function FlagsOf(v: u16): Flags {
    Flags(BitAt(v, 0), BitAt(v, 1), BitAt(v, 2), BitAt(v, 3), v / 16)
  }

  lemma LowBit(b: bool, n: nat)
    ensures (Bit(b) + 2 * n) / 2 == n && (BitAt(Bit(b) + 2 * n, 0) <==> b)
    ensures forall k: nat :: BitAt(Bit(b) + 2 * n, k + 1) <==> BitAt(n, k)
  {
  }

  lemma FlagsOfVal(f: Flags)
    ensures FlagsOf(FlagsVal(f)) == f
  {
    var n3 := Bit(f.rst) + 2 * f.rest;
    var n2 := Bit(f.fin) + 2 * n3;
    var n1 := Bit(f.ack) + 2 * n2;
    LowBit(f.syn, n1);
    LowBit(f.ack, n2);
    LowBit(f.fin, n3);
    LowBit(f.rst, f.rest);
    assert BitAt(FlagsVal(f), 1) == BitAt(n1, 0);
    assert BitAt(FlagsVal(f), 2) == BitAt(n1, 1) == BitAt(n2, 0);
    assert BitAt(FlagsVal(f), 3) == BitAt(n1, 2) == BitAt(n2, 1) == BitAt(n3, 0);
  }

  lemma Halves(v: nat)
    ensures v == Bit(BitAt(v, 0)) + 2 * (v / 2)
    ensures forall k: nat :: BitAt(v, k + 1) <==> BitAt(v / 2, k)
  {
  }

  lemma FlagsValOf(v: u16)
    ensures FlagsVal(FlagsOf(v)) == v
  {
    Halves(v);
    Halves(v / 2);
    Halves(v / 2 / 2);
    Halves(v / 2 / 2 / 2);
    assert BitAt(v, 2) == BitAt(v / 2, 1) == BitAt(v / 2 / 2, 0);
    assert BitAt(v, 3) == BitAt(v / 2, 2) == BitAt(v / 2 / 2, 1) == BitAt(v / 2 / 2 / 2, 0);
    assert v / 16 == v / 2 / 2 / 2 / 2;
  }

  // ---------------------------------------------------------------- headers

  function TagVal(t: Tag): byte {
    match t
    case Data => 0
    case WindowUpdate => 1
    case Ping => 2
    case GoAway => 3
  }

  function Encode(h: Header): (b: seq<byte>)
    ensures |b| == HEADER_SIZE
  {
    [0, TagVal(h.tag)] + BigEndian(FlagsVal(h.flags), 2) + BigEndian(h.streamId, 4) + BigEndian(h.length, 4)
  }

  function Decode(b: seq<byte>): Decoded
    requires |b| == HEADER_SIZE
  {
    if b[0] != 0 then Err(Version(b[0]))
    else if b[1] > 3 then Err(Type(b[1]))
    else
      var tag := if b[1] == 0 then Data else if b[1] == 1 then WindowUpdate else if b[1] == 2 then Ping else GoAway;
      Ok(Header(tag, FlagsOf(Word16(b[2..4])), Word32(b[4..8]), Word32(b[8..12])))
  }

  lemma Slices(a: seq<byte>, b: seq<byte>, c: seq<byte>, d: seq<byte>)
    requires |a| == 2 && |b| == 2 && |c| == 4 && |d| == 4
    ensures var s := a + b + c + d;
            s[0] == a[0] && s[1] == a[1] && s[2..4] == b && s[4..8] == c && s[8..12] == d
  {
  }

  /** Decoding inverts encoding on every header. */
  lemma DecodeEncode(h: Header)
    ensures Decode(Encode(h)) == Ok(h)
  {
    WordRanges();
    FlagsOfVal(h.flags);
    NumberOfBigEndian(FlagsVal(h.flags), 2);
    NumberOfBigEndian(h.streamId, 4);
    NumberOfBigEndian(h.length, 4);
    Slices([0, TagVal(h.tag)], BigEndian(FlagsVal(h.flags), 2), BigEndian(h.streamId, 4), BigEndian(h.length, 4));
  }

  /** Encoding inverts decoding, so no two byte strings decode to the same header. */
  lemma EncodeDecode(b: seq<byte>)
    requires |b| == HEADER_SIZE
    ensures Decode(b).Ok? <==> b[0] == 0 && b[1] <= 3
    ensures Decode(b).Ok? ==> Encode(Decode(b).header) == b
    ensures b[0] != 0 ==> Decode(b) == Err(Version(b[0]))
    ensures b[0] == 0 && b[1] > 3 ==> Decode(b) == Err(Type(b[1]))
  {
    if Decode(b).Ok? {
      FlagsValOf(Word16(b[2..4]));
      BigEndianOfNumber(b[2..4]);
      BigEndianOfNumber(b[4..8]);
      BigEndianOfNumber(b[8..12]);
      assert b == [b[0], b[1]] + b[2..4] + b[4..8] + b[8..12];
    }
  }

  lemma NumberOfTwo(b: seq<byte>)
    requires |b| == 2
    ensures Number(b) == 256 * (b[0] as int) + b[1]
  {
    assert b[..1][..0] == [];
    assert Number(b[..1]) == b[0];
  }

  lemma NumberOfFour(b: seq<byte>)
    requires |b| == 4
    ensures Number(b) == 0x100_0000 * (b[0] as int) + 0x1_0000 * (b[1] as int) + 0x100 * (b[2] as int) + b[3]
  {
    var b3 := b[..3];
    var b2 := b3[..2];
    assert b2 == [b[0], b[1]];
    NumberOfTwo(b2);
    assert Number(b3) == 256 * Number(b2) + b[2];
    assert Number(b) == 256 * Number(b3) + b[3];
  }

  /** The bytes of a header: version 0, the number of the type, and three words, high byte first. */
  lemma WireFormat(h: Header)
    ensures var b := Encode(h);
            && b[0] == 0
            && (h.tag.Data? <==> b[1] == 0) && (h.tag.WindowUpdate? <==> b[1] == 1)
            && (h.tag.Ping? <==> b[1] == 2) && (h.tag.GoAway? <==> b[1] == 3)
            && 0x100 * (b[2] as int) + b[3] == (if h.flags.syn then 1 else 0) + (if h.flags.ack then 2 else 0)
                                      + (if h.flags.fin then 4 else 0) + (if h.flags.rst then 8 else 0) + 16 * h.flags.rest
            && 0x100_0000 * (b[4] as int) + 0x1_0000 * (b[5] as int) + 0x100 * (b[6] as int) + b[7] == h.streamId
            && 0x100_0000 * (b[8] as int) + 0x1_0000 * (b[9] as int) + 0x100 * (b[10] as int) + b[11] == h.length
  {
    var flags, id, length := BigEndian(FlagsVal(h.flags), 2), BigEndian(h.streamId, 4), BigEndian(h.length, 4);
    WordRanges();
    NumberOfBigEndian(FlagsVal(h.flags), 2);
    NumberOfBigEndian(h.streamId, 4);
    NumberOfBigEndian(h.length, 4);
    NumberOfTwo(flags);
    NumberOfFour(id);
    NumberOfFour(length);
    Slices([0, TagVal(h.tag)], flags, id, length);
  }
}
