/** Two's complement narrowing: the value is reduced modulo 2^bits and, for a
    signed target, read back in two's complement. The API layer narrows the
    32-bit values the backend sends for Int8, UInt8, Int16 and UInt16 this way
    with Rust's `as` casts (fmiapi/src/fmi3/mod.rs, fmiapi/src/fmi3_dispatcher.rs);
    the C# and Java backends' unchecked integer sums wrap the same way. */
module Narrowing {
  import opened Arith

  /** The integer types the casts narrow to. */
  datatype IntType = I8 | U8 | I16 | U16 | I32 | U32 | I64 | U64

  function Bits(t: IntType): (n: nat)
    ensures n > 0
  {
    match t
    case I8 => 8 case U8 => 8
    case I16 => 16 case U16 => 16
    case I32 => 32 case U32 => 32
    case I64 => 64 case U64 => 64
  }

  predicate Signed(t: IntType)
  {
    t in {I8, I16, I32, I64}
  }

  /** The range of values type `t` can hold. */
  predicate InRange(t: IntType, v: int)
  {
    if Signed(t) then -Pow2(Bits(t) - 1) <= v < Pow2(Bits(t) - 1)
    else 0 <= v < Pow2(Bits(t))
  }

  /** `v as t`: the value of `t` congruent to `v` modulo 2^bits. */
  function Cast(t: IntType, v: int): (r: int)
    ensures InRange(t, r)
    ensures r % Pow2(Bits(t)) == v % Pow2(Bits(t))
  {
    var p := Pow2(Bits(t));
    var m := v % p;
    assert p == 2 * Pow2(Bits(t) - 1);
    if Signed(t) && m >= Pow2(Bits(t) - 1) then
      DivModUnique(m - p, p, -1, m);
      m - p
    else
      DivModUnique(m, p, 0, m);
      m
  }

  /** A value the target type can already hold is unchanged by the cast. */
  lemma CastKeepsInRange(t: IntType, v: int)
    requires InRange(t, v)
    ensures Cast(t, v) == v
  {
    var p := Pow2(Bits(t));
    assert p == 2 * Pow2(Bits(t) - 1);
    if v >= 0 {
      DivModUnique(v, p, 0, v);
    } else {
      DivModUnique(v, p, -1, v + p);
    }
  }

  /** Casting twice is casting once. */
  lemma CastIdempotent(t: IntType, v: int)
    ensures Cast(t, Cast(t, v)) == Cast(t, v)
  {
    CastKeepsInRange(t, Cast(t, v));
  }

  /** Two values with the same cast differ by a multiple of 2^bits, and
      conversely. */
  lemma CastCongruent(t: IntType, v: int, w: int)
    ensures Cast(t, v) == Cast(t, w) <==> v % Pow2(Bits(t)) == w % Pow2(Bits(t))
  {
  }

  /** The element-wise cast of a reply's values, in order. */
  function CastAll(t: IntType, vs: seq<int>): (r: seq<int>)
    ensures |r| == |vs|
    ensures forall k :: 0 <= k < |vs| ==> r[k] == Cast(t, vs[k])
  {
    if vs == [] then [] else [Cast(t, vs[0])] + CastAll(t, vs[1..])
  }
}
