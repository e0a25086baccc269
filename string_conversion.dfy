/** Conversion of C strings handed in by the importer into Rust strings
    (fmiapi/src/common/string_conversion.rs). A Rust `String` is a byte
    vector that is valid UTF-8; the text it stands for is the decoding of
    those bytes, which this module defines after the table of section 4 of
    RFC 3629. */
module StringConversion {
  import opened Wrappers
  import opened Bytes
  import opened Arith

  /** A `*const c_char`: null, or the memory it points at, which the caller
      promises holds a NUL terminator. */
  datatype CPtr = Null | Ptr(memory: seq<byte>)

  predicate Terminated(c: CPtr)
  {
    c.Ptr? ==> 0 in c.memory
  }

  /** `CStr::from_ptr`: the bytes before the first NUL. */
  function CStrBytes(memory: seq<byte>): (r: seq<byte>)
    ensures r <= memory
    ensures 0 !in r
    ensures |r| < |memory| ==> memory[|r|] == 0
  {
    if memory == [] || memory[0] == 0 then [] else [memory[0]] + CStrBytes(memory[1..])
  }

  predicate Cont(b: byte) { 0x80 <= b <= 0xBF }

  /** The length of the well-formed UTF-8 sequence at the head of `b`, or 0
      when the head is not one (RFC 3629, section 4). */
  function SeqLen(b: seq<byte>): (n: nat)
    ensures n <= 4 && n <= |b|
    ensures n == 1 <==> b != [] && b[0] <= 0x7F
  {
    if b == [] then 0
    else if b[0] <= 0x7F then 1
    else if 0xC2 <= b[0] <= 0xDF then
      if |b| >= 2 && Cont(b[1]) then 2 else 0
    else if 0xE0 <= b[0] <= 0xEF then
      var lo := if b[0] == 0xE0 then 0xA0 else 0x80;
      var hi := if b[0] == 0xED then 0x9F else 0xBF;
      if |b| >= 3 && lo <= b[1] <= hi && Cont(b[2]) then 3 else 0
    else if 0xF0 <= b[0] <= 0xF4 then
      var lo := if b[0] == 0xF0 then 0x90 else 0x80;
      var hi := if b[0] == 0xF4 then 0x8F else 0xBF;
      if |b| >= 4 && lo <= b[1] <= hi && Cont(b[2]) && Cont(b[3]) then 4 else 0
    else 0
  }

  /** `str::from_utf8` succeeds. */
  predicate ValidUtf8(b: seq<byte>)
    decreases |b|
  {
    b == [] || (SeqLen(b) > 0 && ValidUtf8(b[SeqLen(b)..]))
  }

  /** The scalar value of the well-formed sequence at the head of `b`. */
  function CodePoint(b: seq<byte>): (cp: int)
    requires SeqLen(b) > 0
    ensures 0 <= cp < 0xD800 || 0xE000 <= cp <= 0x10FFFF
  {
    var n := SeqLen(b);
    if n == 1 then b[0] as int
    else if n == 2 then (b[0] as int - 0xC0) * 64 + (b[1] as int - 0x80)
    else if n == 3 then (b[0] as int - 0xE0) * 4096 + (b[1] as int - 0x80) * 64 + (b[2] as int - 0x80)
    else (b[0] as int - 0xF0) * 262144 + (b[1] as int - 0x80) * 4096 + (b[2] as int - 0x80) * 64 + (b[3] as int - 0x80)
  }

  /** The text a valid UTF-8 byte sequence stands for. */
  function Decode(b: seq<byte>): (s: string)
    requires ValidUtf8(b)
    ensures |s| <= |b|
    decreases |b|
  {
    if b == [] then [] else [CodePoint(b) as char] + Decode(b[SeqLen(b)..])
  }

  /** The UTF-8 encoding of one scalar value. */
  function EncodeScalar(cp: int): (b: seq<byte>)
    requires 0 <= cp <= 0x10FFFF
    ensures 1 <= |b| <= 4
  {
    if cp < 0x80 then [cp as byte]
    else if cp < 0x800 then [(0xC0 + cp / 64) as byte, (0x80 + cp % 64) as byte]
    else if cp < 0x10000 then
      [(0xE0 + cp / 4096) as byte, (0x80 + cp / 64 % 64) as byte, (0x80 + cp % 64) as byte]
    else
      [(0xF0 + cp / 262144) as byte, (0x80 + cp / 4096 % 64) as byte,
       (0x80 + cp / 64 % 64) as byte, (0x80 + cp % 64) as byte]
  }

  function EncodeChar(c: char): (b: seq<byte>)
  {
    EncodeScalar(c as int)
  }

  function Encode(s: string): seq<byte>
  {
    if s == [] then [] else EncodeChar(s[0]) + Encode(s[1..])
  }

  /** Re-encoding the head character gives back the bytes it was read from. */
  lemma EncodeCodePoint(b: seq<byte>)
    requires SeqLen(b) > 0
    ensures EncodeChar(CodePoint(b) as char) == b[..SeqLen(b)]
  {
    var n := SeqLen(b);
    var cp := CodePoint(b);
    assert (cp as char) as int == cp;
    if n == 2 {
      EncodeTwo(b[0] as int - 0xC0, b[1] as int - 0x80);
    } else if n == 3 {
      EncodeThree(b[0] as int - 0xE0, b[1] as int - 0x80, b[2] as int - 0x80);
    } else if n == 4 {
      EncodeFour(b[0] as int - 0xF0, b[1] as int - 0x80, b[2] as int - 0x80, b[3] as int - 0x80);
    }
  }

  lemma EncodeTwo(a: int, c: int)
    requires 2 <= a < 32 && 0 <= c < 64
    ensures 0x80 <= a * 64 + c < 0x800
    ensures EncodeScalar(a * 64 + c) == [(0xC0 + a) as byte, (0x80 + c) as byte]
  {
    DivModUnique(a * 64 + c, 64, a, c);
  }

  lemma EncodeThree(a: int, m: int, c: int)
    requires 0 <= a < 16 && 0 <= m < 64 && 0 <= c < 64
    requires 0x800 <= a * 4096 + m * 64 + c
    ensures a * 4096 + m * 64 + c < 0x10000
    ensures EncodeScalar(a * 4096 + m * 64 + c) == [(0xE0 + a) as byte, (0x80 + m) as byte, (0x80 + c) as byte]
  {
    var cp := a * 4096 + m * 64 + c;
    DivModUnique(cp, 4096, a, m * 64 + c);
    DivModUnique(cp, 64, a * 64 + m, c);
    DivModUnique(a * 64 + m, 64, a, m);
  }

  lemma EncodeFour(a: int, m: int, k: int, c: int)
    requires 0 <= a < 5 && 0 <= m < 64 && 0 <= k < 64 && 0 <= c < 64
    requires 0x10000 <= a * 262144 + m * 4096 + k * 64 + c <= 0x10FFFF
    ensures EncodeScalar(a * 262144 + m * 4096 + k * 64 + c) == [(0xF0 + a) as byte, (0x80 + m) as byte, (0x80 + k) as byte, (0x80 + c) as byte]
  {
    var cp := a * 262144 + m * 4096 + k * 64 + c;
    DivModUnique(cp, 262144, a, m * 4096 + k * 64 + c);
    DivModUnique(cp, 4096, a * 64 + m, k * 64 + c);
    DivModUnique(a * 64 + m, 64, a, m);
    DivModUnique(cp, 64, a * 4096 + m * 64 + k, c);
    DivModUnique(a * 4096 + m * 64 + k, 64, a * 64 + m, k);
  }

  /** The decoded text is exact: encoding it gives back every byte. */
  lemma {:induction false} EncodeDecode(b: seq<byte>)
    requires ValidUtf8(b)
    ensures Encode(Decode(b)) == b
    decreases |b|
  {
    if b != [] {
      var n := SeqLen(b);
      EncodeDecode(b[n..]);
      EncodeDecodeHead(b);
      assert b == b[..n] + b[n..];
    }
  }

  /** Re-encoding a decoded text gives back its head sequence first. */
  lemma EncodeDecodeHead(b: seq<byte>)
    requires b != [] && ValidUtf8(b)
    ensures Encode(Decode(b)) == b[..SeqLen(b)] + Encode(Decode(b[SeqLen(b)..]))
  {
    var rest := Decode(b[SeqLen(b)..]);
    assert Decode(b) == [CodePoint(b) as char] + rest;
    EncodeHead(b, rest);
  }

  /** Encoding the head character of b, then s, gives back the bytes it was
      read from, then the encoding of s. */
  lemma EncodeHead(b: seq<byte>, s: string)
    requires SeqLen(b) > 0
    ensures Encode([CodePoint(b) as char] + s) == b[..SeqLen(b)] + Encode(s)
  {
    EncodeCons(CodePoint(b) as char, s);
    EncodeCodePoint(b);
  }

  /** Encoding a string is encoding its first character, then the rest. */
  lemma EncodeCons(c: char, s: string)
    ensures Encode([c] + s) == EncodeChar(c) + Encode(s)
  {
    assert ([c] + s)[1..] == s;
  }

  datatype StringConversionError = Utf8ConversionError | NullError | EmptyError

  /** `c2s`: null gives NullError, bytes that are not UTF-8 give
      Utf8ConversionError, anything else the text before the terminator. */
  function C2s(c: CPtr): (r: Result<string, StringConversionError>)
    requires Terminated(c)
    ensures r == Failure(NullError) <==> c.Null?
    ensures r == Failure(Utf8ConversionError) <==> c.Ptr? && !ValidUtf8(CStrBytes(c.memory))
    ensures r.Failure? ==> r.error != EmptyError
    ensures r.Success? ==> c.Ptr? && ValidUtf8(CStrBytes(c.memory))
                           && Encode(r.value) == CStrBytes(c.memory)
  {
    match c
    case Null => Failure(NullError)
    case Ptr(memory) =>
      var bytes := CStrBytes(memory);
      if ValidUtf8(bytes) then
        EncodeDecode(bytes);
        Success(Decode(bytes))
      else Failure(Utf8ConversionError)
  }

  /** `c2non_empty_s`: `c2s`, except that an empty string is EmptyError. */
  function C2NonEmptyS(c: CPtr): (r: Result<string, StringConversionError>)
    requires Terminated(c)
    ensures C2s(c).Failure? ==> r == C2s(c)
    ensures C2s(c).Success? && C2s(c).value != [] ==> r == C2s(c)
    ensures C2s(c).Success? && C2s(c).value == [] ==> r == Failure(EmptyError)
    ensures r.Success? ==> r.value != []
    ensures r == Failure(EmptyError) <==> c.Ptr? && c.memory[0] == 0
  {
    match C2s(c)
    case Failure(e) => Failure(e)
    case Success(s) => if s != [] then Success(s) else Failure(EmptyError)
  }
}
