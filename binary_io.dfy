/** The byte layout of .NET's `BinaryWriter` and `BinaryReader` as the C#
    models use it: little-endian fixed-width integers and IEEE bit patterns,
    one byte per boolean, and strings as a 7-bit-encoded byte count followed
    by their UTF-8 bytes. The fixed-width readers return the value and the
    bytes after it, or None where the stream ends. `ReadString` raises what
    .NET raises: `FormatException` for a count longer than five bytes,
    `IOException` for a negative count and `EndOfStreamException` when the
    stream ends; malformed UTF-8 does not raise, it is replaced with
    U+FFFD. */
module BinaryIo {
  import opened Wrappers
  import opened Bytes
  import opened Floats
  import opened Exceptions

  /** 256^n. */
  function Pow256(n: nat): (p: nat)
    ensures p >= 1
  {
    if n == 0 then 1 else 256 * Pow256(n - 1)
  }

  /** The n low-order bytes of x, least significant first. */
  function LittleEndian(x: nat, n: nat): (bs: seq<byte>)
    ensures |bs| == n
  {
    if n == 0 then [] else [(x % 256) as byte] + LittleEndian(x / 256, n - 1)
  }

  /** The number whose little-endian bytes are bs. */
  function FromLittleEndian(bs: seq<byte>): (x: nat)
    ensures x < Pow256(|bs|)
  {
    if |bs| == 0 then 0 else bs[0] as nat + 256 * FromLittleEndian(bs[1..])
  }

  /** Reading back n little-endian bytes gives the number, when it fits. */
  lemma {:induction false} LittleEndianRoundTrip(x: nat, n: nat)
    requires x < Pow256(n)
    ensures FromLittleEndian(LittleEndian(x, n)) == x
  {
    if n > 0 {
      var bs := LittleEndian(x, n);
      assert bs[1..] == LittleEndian(x / 256, n - 1);
      LittleEndianRoundTrip(x / 256, n - 1);
    }
  }

  // ------------------------------------------------------ fixed-width values

  const TwoTo31: int := 0x8000_0000
  const TwoTo32: int := 0x1_0000_0000
  const TwoTo63: int := 0x8000_0000_0000_0000
  const TwoTo64: int := 0x1_0000_0000_0000_0000

  predicate IsInt32(x: int) { -TwoTo31 <= x < TwoTo31 }
  predicate IsUInt32(x: int) { 0 <= x < TwoTo32 }
  predicate IsInt64(x: int) { -TwoTo63 <= x < TwoTo63 }
  predicate IsUInt64(x: int) { 0 <= x < TwoTo64 }

  /** `Write(int)`: four bytes of the two's complement. */
  function WriteInt32(x: int): (bs: seq<byte>)
    requires IsInt32(x)
    ensures |bs| == 4
  {
    LittleEndian(if x < 0 then x + TwoTo32 else x, 4)
  }

  /** `ReadInt32`. */
  function ReadInt32(bs: seq<byte>): (r: Option<(int, seq<byte>)>)
    ensures r.Some? <==> |bs| >= 4
    ensures r.Some? ==> IsInt32(r.value.0) && r.value.1 == bs[4..]
  {
    if |bs| < 4 then None
    else
      var u := FromLittleEndian(bs[..4]);
      Some((if u >= TwoTo31 then u - TwoTo32 else u, bs[4..]))
  }

  /** `Write(uint)`. */
  function WriteUInt32(x: int): (bs: seq<byte>)
    requires IsUInt32(x)
    ensures |bs| == 4
  {
    LittleEndian(x, 4)
  }

  /** `ReadUInt32`. */
  function ReadUInt32(bs: seq<byte>): (r: Option<(int, seq<byte>)>)
    ensures r.Some? <==> |bs| >= 4
    ensures r.Some? ==> IsUInt32(r.value.0) && r.value.1 == bs[4..]
  {
    if |bs| < 4 then None else Some((FromLittleEndian(bs[..4]), bs[4..]))
  }

  /** `Write(long)`. */
  function WriteInt64(x: int): (bs: seq<byte>)
    requires IsInt64(x)
    ensures |bs| == 8
  {
    LittleEndian(if x < 0 then x + TwoTo64 else x, 8)
  }

  /** `ReadInt64`. */
  function ReadInt64(bs: seq<byte>): (r: Option<(int, seq<byte>)>)
    ensures r.Some? <==> |bs| >= 8
    ensures r.Some? ==> IsInt64(r.value.0) && r.value.1 == bs[8..]
  {
    if |bs| < 8 then None
    else
      var u := FromLittleEndian(bs[..8]);
      Some((if u >= TwoTo63 then u - TwoTo64 else u, bs[8..]))
  }

  /** `Write(ulong)`. */
  function WriteUInt64(x: int): (bs: seq<byte>)
    requires IsUInt64(x)
    ensures |bs| == 8
  {
    LittleEndian(x, 8)
  }

  /** `ReadUInt64`. */
  function ReadUInt64(bs: seq<byte>): (r: Option<(int, seq<byte>)>)
    ensures r.Some? <==> |bs| >= 8
    ensures r.Some? ==> IsUInt64(r.value.0) && r.value.1 == bs[8..]
  {
    if |bs| < 8 then None else Some((FromLittleEndian(bs[..8]), bs[8..]))
  }

  /** `Write(float)`: the four bytes of the IEEE bit pattern. */
  function WriteSingle(x: f32): (bs: seq<byte>)
    ensures |bs| == 4
  {
    LittleEndian(x as nat, 4)
  }

  /** `ReadSingle`. */
  function ReadSingle(bs: seq<byte>): (r: Option<(f32, seq<byte>)>)
    ensures r.Some? <==> |bs| >= 4
    ensures r.Some? ==> r.value.1 == bs[4..]
  {
    if |bs| < 4 then None else Some((FromLittleEndian(bs[..4]) as f32, bs[4..]))
  }

  /** `Write(double)`. */
  function WriteDouble(x: f64): (bs: seq<byte>)
    ensures |bs| == 8
  {
    LittleEndian(x as nat, 8)
  }

  /** `ReadDouble`. */
  function ReadDouble(bs: seq<byte>): (r: Option<(f64, seq<byte>)>)
    ensures r.Some? <==> |bs| >= 8
    ensures r.Some? ==> r.value.1 == bs[8..]
  {
    if |bs| < 8 then None else Some((FromLittleEndian(bs[..8]) as f64, bs[8..]))
  }

  /** `Write(bool)`: one byte, 1 or 0. */
  function WriteBoolean(b: bool): (bs: seq<byte>)
    ensures |bs| == 1
  {
    [if b then 1 else 0]
  }

  /** `ReadBoolean`: any non-zero byte reads as true. */
  function ReadBoolean(bs: seq<byte>): (r: Option<(bool, seq<byte>)>)
    ensures r.Some? <==> |bs| >= 1
    ensures r.Some? ==> r.value == (bs[0] != 0, bs[1..])
  {
    if |bs| < 1 then None else Some((bs[0] != 0, bs[1..]))
  }

  /** The first n bytes of bs and the rest, when there are n. */
  lemma SplitAt(a: seq<byte>, rest: seq<byte>)
    ensures (a + rest)[..|a|] == a && (a + rest)[|a|..] == rest
  {
  }

  /** Each fixed-width value written and read back is the same value, and the
      reader stops exactly after it. */
  lemma Int32RoundTrip(x: int, rest: seq<byte>)
    requires IsInt32(x)
    ensures ReadInt32(WriteInt32(x) + rest) == Some((x, rest))
  {
    SplitAt(WriteInt32(x), rest);
    LittleEndianRoundTrip(if x < 0 then x + TwoTo32 else x, 4);
  }

  lemma UInt32RoundTrip(x: int, rest: seq<byte>)
    requires IsUInt32(x)
    ensures ReadUInt32(WriteUInt32(x) + rest) == Some((x, rest))
  {
    SplitAt(WriteUInt32(x), rest);
    LittleEndianRoundTrip(x, 4);
  }

  lemma Int64RoundTrip(x: int, rest: seq<byte>)
    requires IsInt64(x)
    ensures ReadInt64(WriteInt64(x) + rest) == Some((x, rest))
  {
    SplitAt(WriteInt64(x), rest);
    LittleEndianRoundTrip(if x < 0 then x + TwoTo64 else x, 8);
  }

  lemma UInt64RoundTrip(x: int, rest: seq<byte>)
    requires IsUInt64(x)
    ensures ReadUInt64(WriteUInt64(x) + rest) == Some((x, rest))
  {
    SplitAt(WriteUInt64(x), rest);
    LittleEndianRoundTrip(x, 8);
  }

  lemma SingleRoundTrip(x: f32, rest: seq<byte>)
    ensures ReadSingle(WriteSingle(x) + rest) == Some((x, rest))
  {
    SplitAt(WriteSingle(x), rest);
    LittleEndianRoundTrip(x as nat, 4);
  }

  lemma DoubleRoundTrip(x: f64, rest: seq<byte>)
    ensures ReadDouble(WriteDouble(x) + rest) == Some((x, rest))
  {
    SplitAt(WriteDouble(x), rest);
    LittleEndianRoundTrip(x as nat, 8);
  }

  // ------------------------------------------------------ 7-bit encoded count

  /** `Write7BitEncodedInt` of a non-negative count: seven bits per byte,
      low bits first, the high bit set on every byte but the last. */
  function SevenBit(n: nat): (bs: seq<byte>)
    ensures |bs| >= 1
  {
    if n < 128 then [n as byte] else [(n % 128 + 128) as byte] + SevenBit(n / 128)
  }

  /** A base-128 varint with no limit on its length, as the protobuf
      decoder reads a key or a length. */
  function ReadSevenBit(bs: seq<byte>): (r: Option<(nat, seq<byte>)>)
    ensures r.Some? ==> |r.value.1| < |bs|
  {
    if |bs| == 0 then None
    else if bs[0] < 128 then Some((bs[0] as nat, bs[1..]))
    else
      match ReadSevenBit(bs[1..])
      case None => None
      case Some((v, rest)) => Some(((bs[0] - 128) as nat + 128 * v, rest))
  }

  lemma {:induction false} SevenBitRoundTrip(n: nat, rest: seq<byte>)
    ensures ReadSevenBit(SevenBit(n) + rest) == Some((n, rest))
  {
    var bs := SevenBit(n) + rest;
    if n >= 128 {
      assert bs[1..] == SevenBit(n / 128) + rest;
      SevenBitRoundTrip(n / 128, rest);
    } else {
      assert bs[1..] == rest;
    }
  }

  /** One more than the largest count `Read7BitEncodedInt` still accepts
      after reading k bytes: seven bits for each of the first four bytes,
      four bits for the fifth. */
  function CountBound(k: nat): (b: nat)
    requires k <= 4
    ensures b >= 16
    decreases 4 - k
  {
    if k == 4 then 16 else 128 * CountBound(k + 1)
  }

  /** The bound after no bytes: exactly the 32 bits of a `uint`. */
  lemma CountBoundIsTwoTo32()
    ensures CountBound(0) == TwoTo32
  {
    assert CountBound(3) == 128 * 16;
    assert CountBound(2) == 128 * 128 * 16;
    assert CountBound(1) == 128 * 128 * 128 * 16;
  }

  /** The loop of `Read7BitEncodedInt` after k bytes: a byte below 128 ends
      the count; the fifth byte ends it too and may not exceed 15
      (`FormatException`); the stream ending first raises
      `EndOfStreamException`. */
  function ReadCountFrom(bs: seq<byte>, k: nat): (r: Result<(nat, seq<byte>), Exception>)
    requires k <= 4
    ensures r.Success? ==> r.value.0 < CountBound(k) && |r.value.1| < |bs|
    ensures r.Failure? ==> r.error == EndOfStreamException || r.error == FormatException
    decreases 4 - k
  {
    if |bs| == 0 then Failure(EndOfStreamException)
    else if k == 4 then
      if bs[0] > 15 then Failure(FormatException) else Success((bs[0] as nat, bs[1..]))
    else if bs[0] < 128 then Success((bs[0] as nat, bs[1..]))
    else
      match ReadCountFrom(bs[1..], k + 1)
      case Failure(e) => Failure(e)
      case Success((v, rest)) => Success(((bs[0] - 128) as nat + 128 * v, rest))
  }

  /** `Read7BitEncodedInt`: the 32 bits read, as a signed `int`. */
  function Read7BitEncodedInt(bs: seq<byte>): (r: Result<(int, seq<byte>), Exception>)
    ensures r.Success? ==> IsInt32(r.value.0) && |r.value.1| < |bs|
    ensures r.Failure? ==> r.error == EndOfStreamException || r.error == FormatException
  {
    CountBoundIsTwoTo32();
    match ReadCountFrom(bs, 0)
    case Failure(e) => Failure(e)
    case Success((u, rest)) => Success((if u < TwoTo31 then u else u - TwoTo32, rest))
  }

  /** A count below the bound after k bytes reads back from its encoding. */
  lemma {:induction false} CountFromRoundTrip(n: nat, k: nat, rest: seq<byte>)
    requires k <= 4 && n < CountBound(k)
    ensures ReadCountFrom(SevenBit(n) + rest, k) == Success((n, rest))
    decreases 4 - k
  {
    var bs := SevenBit(n) + rest;
    if n >= 128 {
      assert bs[1..] == SevenBit(n / 128) + rest;
      CountFromRoundTrip(n / 128, k + 1, rest);
    } else {
      assert bs[1..] == rest;
    }
  }

  /** A non-negative `int` written with `Write7BitEncodedInt` reads back,
      leaving the bytes after it. */
  lemma CountRoundTrip(n: nat, rest: seq<byte>)
    requires n < TwoTo31
    ensures Read7BitEncodedInt(SevenBit(n) + rest) == Success((n, rest))
  {
    CountBoundIsTwoTo32();
    CountFromRoundTrip(n, 0, rest);
  }

  /** A fifth byte above 15 is refused, however the first four read. */
  lemma LongCountRefused(b: byte, rest: seq<byte>)
    requires b > 15
    ensures Read7BitEncodedInt([0x80, 0x80, 0x80, 0x80, b] + rest) == Failure(FormatException)
  {
    var bs := [0x80, 0x80, 0x80, 0x80, b] + rest;
    assert bs[1..][1..][1..][1..] == [b] + rest;
  }

  /** Five bytes whose last one sets bit 31 read as a negative count. */
  lemma NegativeCount(rest: seq<byte>)
    ensures Read7BitEncodedInt([0x80, 0x80, 0x80, 0x80, 0x08] + rest) == Success((-TwoTo31, rest))
  {
    var bs := [0x80, 0x80, 0x80, 0x80, 0x08] + rest;
    assert bs[1..][1..][1..][1..] == [0x08] + rest;
    assert ReadCountFrom(bs[1..][1..][1..][1..], 4) == Success((8, rest));
    CountBoundIsTwoTo32();
  }

  // ------------------------------------------------------------------ UTF-8

  /** The UTF-8 bytes of one Unicode scalar value. */
  function Utf8Char(c: char): (bs: seq<byte>)
    ensures 1 <= |bs| <= 4
  {
    var n := c as int;
    if n < 0x80 then [n as byte]
    else if n < 0x800 then [(0xC0 + n / 64) as byte, (0x80 + n % 64) as byte]
    else if n < 0x1_0000 then
      [(0xE0 + n / 4096) as byte, (0x80 + (n / 64) % 64) as byte, (0x80 + n % 64) as byte]
    else
      [(0xF0 + n / 262144) as byte, (0x80 + (n / 4096) % 64) as byte,
       (0x80 + (n / 64) % 64) as byte, (0x80 + n % 64) as byte]
  }

  /** A continuation byte carries six bits. */
  predicate Continuation(b: byte) { 0x80 <= b < 0xC0 }

  /** The length of the well-formed sequence a lead byte starts: 1 to 4,
      or 0 for a byte that cannot start one (a continuation byte, C0, C1
      and F5 to FF). */
  function SequenceLength(b0: byte): (n: nat)
    ensures n <= 4
  {
    if b0 < 0x80 then 1
    else if b0 < 0xC2 then 0
    else if b0 < 0xE0 then 2
    else if b0 < 0xF0 then 3
    else if b0 < 0xF5 then 4
    else 0
  }

  /** The bytes that may follow a lead byte (table 3-7 of the Unicode
      Standard): a continuation byte, narrowed after E0 and F0 to refuse
      overlong forms, after ED to refuse surrogates and after F4 to stay
      below U+110000. */
  predicate SecondByte(b0: byte, b1: byte)
  {
    if b0 == 0xE0 then 0xA0 <= b1 < 0xC0
    else if b0 == 0xED then 0x80 <= b1 < 0xA0
    else if b0 == 0xF0 then 0x90 <= b1 < 0xC0
    else if b0 == 0xF4 then 0x80 <= b1 < 0x90
    else Continuation(b1)
  }

  /** How many bytes at the front of bs begin a well-formed sequence of n
      bytes: the lead, then each next byte while it is in its range. */
  function WellFormedPrefix(bs: seq<byte>, n: nat): (m: nat)
    requires 1 <= n <= 4 && |bs| >= 1
    ensures 1 <= m <= n && m <= |bs|
  {
    if n == 1 || |bs| < 2 || !SecondByte(bs[0], bs[1]) then 1
    else if n == 2 || |bs| < 3 || !Continuation(bs[2]) then 2
    else if n == 3 || |bs| < 4 || !Continuation(bs[3]) then 3
    else 4
  }

  /** The replacement character U+FFFD. */
  const Replacement: char := 0xFFFD as char

  /** One step of .NET's UTF-8 decoder: the scalar value of a well-formed
      sequence at the front of bs, or U+FFFD in place of a byte that cannot
      start a sequence or of the longest beginning of a sequence that is
      broken off (the maximal subpart), and the bytes after it. */
  function DecodeChar(bs: seq<byte>): (r: (char, seq<byte>))
    requires |bs| > 0
    ensures |r.1| < |bs|
  {
    var n := SequenceLength(bs[0]);
    if n == 0 then (Replacement, bs[1..])
    else
      var m := WellFormedPrefix(bs, n);
      if m < n then (Replacement, bs[m..])
      else if n == 1 then (bs[0] as char, bs[1..])
      else if n == 2 then (((bs[0] as int - 0xC0) * 64 + (bs[1] as int - 0x80)) as char, bs[2..])
      else if n == 3 then
        (((bs[0] as int - 0xE0) * 4096 + (bs[1] as int - 0x80) * 64 + (bs[2] as int - 0x80)) as char, bs[3..])
      else
        (((bs[0] as int - 0xF0) * 262144 + (bs[1] as int - 0x80) * 4096
          + (bs[2] as int - 0x80) * 64 + (bs[3] as int - 0x80)) as char, bs[4..])
  }

  lemma DecodeCharRoundTrip(c: char, rest: seq<byte>)
    ensures DecodeChar(Utf8Char(c) + rest) == (c, rest)
  {
    var n := c as int;
    if n < 0x80 {
      assert (Utf8Char(c) + rest)[1..] == rest;
    } else if n < 0x800 {
      DecodeTwo(c, rest);
    } else if n < 0x1_0000 {
      DecodeThree(c, rest);
    } else {
      DecodeFour(c, rest);
    }
  }

  lemma DecodeTwo(c: char, rest: seq<byte>)
    requires 0x80 <= c as int < 0x800
    ensures DecodeChar(Utf8Char(c) + rest) == (c, rest)
  {
    var n := c as int;
    assert (Utf8Char(c) + rest)[2..] == rest;
    assert (n / 64) * 64 + n % 64 == n;
  }

  lemma DecodeThree(c: char, rest: seq<byte>)
    requires 0x800 <= c as int < 0x1_0000
    ensures DecodeChar(Utf8Char(c) + rest) == (c, rest)
  {
    var n := c as int;
    var bs := Utf8Char(c) + rest;
    assert bs[3..] == rest;
    assert (n / 4096) * 4096 + ((n / 64) % 64) * 64 + n % 64 == n;
    assert (n / 64) % 64 == n / 64 - (n / 4096) * 64;
    assert SecondByte(bs[0], bs[1]);
  }

  lemma DecodeFour(c: char, rest: seq<byte>)
    requires 0x1_0000 <= c as int
    ensures DecodeChar(Utf8Char(c) + rest) == (c, rest)
  {
    var n := c as int;
    var bs := Utf8Char(c) + rest;
    assert bs[4..] == rest;
    SixBitDigits(n);
    assert (n / 4096) % 64 == n / 4096 - (n / 262144) * 64;
    assert SecondByte(bs[0], bs[1]);
  }

  /** A number below 2^21 is its four base-64 digits. */
  lemma SixBitDigits(n: nat)
    ensures (n / 262144) * 262144 + ((n / 4096) % 64) * 4096 + ((n / 64) % 64) * 64 + n % 64 == n
    ensures n / 4096 / 64 == n / 262144
  {
    var q1 := n / 64;
    var q2 := q1 / 64;
    assert q2 == n / 4096;
    assert q2 / 64 == n / 262144;
    assert n == q1 * 64 + n % 64;
    assert q1 == q2 * 64 + q1 % 64;
    assert q2 == (q2 / 64) * 64 + q2 % 64;
  }

  /** The UTF-8 bytes of a string. */
  function Utf8(s: string): seq<byte>
  {
    if |s| == 0 then [] else Utf8Char(s[0]) + Utf8(s[1..])
  }

  /** Decoding a whole byte sequence with .NET's UTF-8 decoder: it never
      fails, and yields at most one character per byte. */
  function DecodeUtf8(bs: seq<byte>): (s: string)
    ensures |s| <= |bs|
    decreases |bs|
  {
    if |bs| == 0 then ""
    else
      var (c, rest) := DecodeChar(bs);
      [c] + DecodeUtf8(rest)
  }

  lemma {:induction false} Utf8RoundTrip(s: string)
    ensures DecodeUtf8(Utf8(s)) == s
  {
    if |s| > 0 {
      DecodeCharRoundTrip(s[0], Utf8(s[1..]));
      Utf8RoundTrip(s[1..]);
      assert [s[0]] + s[1..] == s;
    }
  }

  /** A byte that cannot start a sequence becomes one U+FFFD, and decoding
      goes on with the next byte. */
  lemma StrayByteReplaced(b: byte, rest: seq<byte>)
    requires SequenceLength(b) == 0
    ensures DecodeUtf8([b] + rest) == [Replacement] + DecodeUtf8(rest)
  {
    assert ([b] + rest)[1..] == rest;
  }

  /** A three-byte sequence cut off after two bytes becomes a single U+FFFD;
      the encoded surrogate ED A0 80 becomes three, since A0 cannot follow
      ED. */
  lemma BrokenSequencesReplaced()
    ensures DecodeUtf8([0xE2, 0x82]) == [Replacement]
    ensures DecodeUtf8([0xED, 0xA0, 0x80]) == [Replacement, Replacement, Replacement]
  {
    var cut: seq<byte> := [0xE2, 0x82];
    assert cut[2..] == [];
    var surrogate: seq<byte> := [0xED, 0xA0, 0x80];
    assert DecodeChar(surrogate) == (Replacement, [0xA0, 0x80]);
    assert DecodeChar([0xA0, 0x80]) == (Replacement, [0x80]);
    assert DecodeChar([0x80]) == (Replacement, []);
  }

  // ---------------------------------------------------------------- strings

  /** A string `Write(string)` can write: its UTF-8 byte count is an `int`
      (a longer one makes .NET throw before anything is written). */
  predicate Writable(s: string)
  {
    |Utf8(s)| < TwoTo31
  }

  /** `Write(string)`: the UTF-8 byte count, 7-bit encoded, then the bytes. */
  function WriteString(s: string): seq<byte>
  {
    SevenBit(|Utf8(s)|) + Utf8(s)
  }

  /** `ReadString`: the byte count (a negative one raises `IOException`),
      then that many bytes, decoded with replacement; the stream ending
      first raises `EndOfStreamException`. */
  function ReadString(bs: seq<byte>): (r: Result<(string, seq<byte>), Exception>)
    ensures r.Success? ==> |r.value.1| < |bs|
    ensures r.Failure? ==> r.error in {EndOfStreamException, FormatException, IOException}
  {
    match Read7BitEncodedInt(bs)
    case Failure(e) => Failure(e)
    case Success((len, rest)) =>
      if len < 0 then Failure(IOException)
      else if |rest| < len then Failure(EndOfStreamException)
      else Success((DecodeUtf8(rest[..len]), rest[len..]))
  }

  /** Whatever bytes follow a well-formed count, the string read is
      exactly the decoding of that many bytes: malformed UTF-8 never makes
      `ReadString` raise. */
  lemma ReadStringDecodes(bytes: seq<byte>, rest: seq<byte>)
    requires |bytes| < TwoTo31
    ensures ReadString(SevenBit(|bytes|) + bytes + rest) == Success((DecodeUtf8(bytes), rest))
  {
    var after := bytes + rest;
    var bs := SevenBit(|bytes|) + after;
    Associative(SevenBit(|bytes|), bytes, rest);
    CountRoundTrip(|bytes|, after);
    ReadStringAfterCount(bs, |bytes|, after);
    DecodeFront(bytes, rest);
  }

  lemma Associative(a: seq<byte>, b: seq<byte>, c: seq<byte>)
    ensures a + b + c == a + (b + c)
  {
  }

  /** `ReadString` once its count has been read. */
  lemma ReadStringAfterCount(bs: seq<byte>, len: nat, after: seq<byte>)
    requires Read7BitEncodedInt(bs) == Success((len, after)) && len <= |after|
    ensures ReadString(bs) == Success((DecodeUtf8(after[..len]), after[len..]))
  {
  }

  /** Decoding the first |bytes| bytes of bytes + rest decodes bytes. */
  lemma DecodeFront(bytes: seq<byte>, rest: seq<byte>)
    ensures DecodeUtf8((bytes + rest)[..|bytes|]) == DecodeUtf8(bytes)
    ensures (bytes + rest)[|bytes|..] == rest
  {
    SplitAt(bytes, rest);
  }

  lemma StringRoundTrip(s: string, rest: seq<byte>)
    requires Writable(s)
    ensures ReadString(WriteString(s) + rest) == Success((s, rest))
  {
    ReadStringDecodes(Utf8(s), rest);
    Utf8RoundTrip(s);
  }

  // ------------------------------------------------------------ byte arrays

  /** `ReadBytes(count)`: up to count bytes; fewer when the stream ends first. */
  function ReadBytes(bs: seq<byte>, count: nat): (r: (seq<byte>, seq<byte>))
    ensures |r.0| == if count <= |bs| then count else |bs|
    ensures r.0 + r.1 == bs
  {
    if count <= |bs| then (bs[..count], bs[count..]) else (bs, [])
  }
}
