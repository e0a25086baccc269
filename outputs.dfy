/** How the example models compute an output property from its two inputs,
    by the inputs' type: fixed-width sums that wrap, the disjunction of two
    booleans, the concatenation of two strings and the byte-wise XOR of two
    byte arrays over the shorter length (assets/csharp/fmi3/model.cs:751-773,
    assets/java/src/fmi3/java/Model.java:935-956). */
module Outputs {
  import opened Bytes
  import opened Floats
  import opened Arith
  import opened Narrowing
  import opened BinaryIo
  import opened Batches
  import opened Values

  /** Byte-wise XOR over the shorter of two arrays. */
  function Xor(a: seq<byte>, b: seq<byte>): (c: seq<byte>)
    ensures |c| == Min(|a|, |b|)
    ensures forall i | 0 <= i < |c| :: c[i] as bv8 == a[i] as bv8 ^ b[i] as bv8
  {
    seq(Min(|a|, |b|), i requires 0 <= i < Min(|a|, |b|) => (a[i] as bv8 ^ b[i] as bv8) as byte)
  }

  /** v reduced modulo 2^bits into the unsigned or the two's complement
      range, with the moduli written out. */
  function Wrap(v: int, modulus: int, signed: bool): (r: int)
    requires modulus == TwoTo32 || modulus == TwoTo64
    ensures if signed then -(modulus / 2) <= r < modulus / 2 else 0 <= r < modulus
    ensures signed && -(modulus / 2) <= v < modulus / 2 ==> r == v
    ensures !signed && 0 <= v < modulus ==> r == v
  {
    var w := v % modulus;
    WrapKeeps(v, modulus, signed);
    if signed && w >= modulus / 2 then w - modulus else w
  }

  lemma WrapKeeps(v: int, modulus: int, signed: bool)
    requires modulus == TwoTo32 || modulus == TwoTo64
    ensures 0 <= v < modulus ==> v % modulus == v
    ensures -(modulus / 2) <= v < 0 ==> v % modulus == v + modulus
  {
    if 0 <= v < modulus {
      DivModUnique(v, modulus, 0, v);
    } else if -(modulus / 2) <= v < 0 {
      DivModUnique(v, modulus, -1, v + modulus);
    }
  }

  /** The wrapping is the two's complement cast. */
  lemma WrapIsCast(v: int)
    ensures Wrap(v, TwoTo32, true) == Cast(I32, v) && Wrap(v, TwoTo32, false) == Cast(U32, v)
    ensures Wrap(v, TwoTo64, true) == Cast(I64, v) && Wrap(v, TwoTo64, false) == Cast(U64, v)
  {
    Pow2Widths();
  }

  /** `int` addition, wrapping at 32 bits. */
  function AddInt(a: int, b: int): (r: int)
    ensures IsInt32(r) && (IsInt32(a + b) ==> r == a + b)
  {
    Wrap(a + b, TwoTo32, true)
  }

  /** `uint` addition, wrapping at 32 bits. */
  function AddUInt(a: int, b: int): (r: int)
    ensures IsUInt32(r) && (IsUInt32(a + b) ==> r == a + b)
  {
    Wrap(a + b, TwoTo32, false)
  }

  /** `long` addition, wrapping at 64 bits. */
  function AddLong(a: int, b: int): (r: int)
    ensures IsInt64(r) && (IsInt64(a + b) ==> r == a + b)
  {
    Wrap(a + b, TwoTo64, true)
  }

  /** `ulong` addition, wrapping at 64 bits. */
  function AddULong(a: int, b: int): (r: int)
    ensures IsUInt64(r) && (IsUInt64(a + b) ==> r == a + b)
  {
    Wrap(a + b, TwoTo64, false)
  }

  /** The output computed from a triple's a and b, by their type: the sum
      (unchecked in C#, and plain `int`/`long` arithmetic in Java, so the
      int8 and int16 properties, being 32-bit, wrap at 32 bits), the
      disjunction, the concatenation, or the byte-wise XOR. */
  function Combine(a: Value, b: Value, ops: FloatOps): (c: Value)
    requires KindOf(a) == KindOf(b) != SinglesKind
    requires Representable(a) && Representable(b)
    ensures KindOf(c) == KindOf(a) && Representable(c)
  {
    match a
    case Single(x) => Single(ops.addSingle(x, b.f))
    case Double(x) => Double(ops.addDouble(x, b.d))
    case Int(x) => Int(AddInt(x, b.i))
    case UInt(x) => UInt(AddUInt(x, b.u))
    case Long(x) => Long(AddLong(x, b.l))
    case ULong(x) => ULong(AddULong(x, b.ul))
    case Boolean(x) => Boolean(x || b.b)
    case Text(x) => Text(x + b.s)
    case Binary(x) => Binary(Xor(x, b.bytes))
  }
}
