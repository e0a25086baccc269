/** The Python operators the Python example models apply to their
    properties, over the shared value type: a Python `float` is a `Double`,
    an `int` an `Int` of unbounded size, and `bool`, `str` and `bytes` are
    `Boolean`, `Text` and `Binary`. Python does not type its attributes, so
    a setter can leave a value of any of these types in any attribute, and
    the operators say what happens then. */
module PythonOps {
  import opened Bytes
  import opened Floats
  import opened Batches
  import opened Exceptions
  import opened Values
  import opened Outputs

  /** The bit patterns of 0.0 and -0.0. */
  const PositiveZero: f64 := 0
  const NegativeZero: f64 := 0x8000_0000_0000_0000

  /** Python truth: zero numbers and empty strings and byte strings are
      false, everything else true (a NaN is true). */
  predicate Truthy(v: Value)
  {
    match v
    case Double(d) => d != PositiveZero && d != NegativeZero
    case Int(i) => i != 0
    case Boolean(b) => b
    case Text(s) => |s| > 0
    case Binary(bs) => |bs| > 0
    case Single(f) => f != 0 && f != 0x8000_0000
    case UInt(u) => u != 0
    case Long(l) => l != 0
    case ULong(ul) => ul != 0
    case Singles(fs) => |fs| > 0
  }

  /** `a or b`: the first operand when it is true, else the second. */
  function Or(a: Value, b: Value): (r: Value)
    ensures Truthy(r) <==> Truthy(a) || Truthy(b)
    ensures r == a || r == b
  {
    if Truthy(a) then a else b
  }

  /** `a and b`: the first operand when it is false, else the second. */
  function And(a: Value, b: Value): (r: Value)
    ensures Truthy(r) <==> Truthy(a) && Truthy(b)
    ensures r == a || r == b
  {
    if Truthy(a) then b else a
  }

  /** On two booleans `or` and `and` are the boolean operations. */
  lemma BooleanOperators(a: bool, b: bool)
    ensures Or(Boolean(a), Boolean(b)) == Boolean(a || b)
    ensures And(Boolean(a), Boolean(b)) == Boolean(a && b)
  {
  }

  /** A `bool` or an `int` as an integer (`bool` is a subclass of `int`). */
  predicate IsInteger(v: Value) { v.Int? || v.Boolean? }

  function IntegerOf(v: Value): int
    requires IsInteger(v)
  {
    if v.Int? then v.i else if v.b then 1 else 0
  }

  /** `a + b`: integers add without bound, a float with a number adds as
      floats (an integer converted as `float(i)`), strings and byte strings
      concatenate; any other pair raises `TypeError`. */
  function Add(a: Value, b: Value, ops: FloatOps): (r: Outcome<Value>)
    ensures r.Threw? ==> r.exception == TypeError
    ensures IsInteger(a) && IsInteger(b) ==> r == Returned(Int(IntegerOf(a) + IntegerOf(b)))
    ensures a.Text? && b.Text? ==> r == Returned(Text(a.s + b.s))
  {
    if IsInteger(a) && IsInteger(b) then Returned(Int(IntegerOf(a) + IntegerOf(b)))
    else if (a.Double? || IsInteger(a)) && (b.Double? || IsInteger(b)) then
      Returned(Double(ops.addDouble(AsFloat(a, ops), AsFloat(b, ops))))
    else if a.Text? && b.Text? then Returned(Text(a.s + b.s))
    else if a.Binary? && b.Binary? then Returned(Binary(a.bytes + b.bytes))
    else Threw(TypeError)
  }

  /** `float(v)` of a number. */
  function AsFloat(v: Value, ops: FloatOps): f64
    requires v.Double? || IsInteger(v)
  {
    if v.Double? then v.d else ops.ratio(IntegerOf(v), 1)
  }

  /** Whether `zip` accepts the value, and how many elements it yields. */
  predicate Iterable(v: Value) { v.Text? || v.Binary? }

  function IterLength(v: Value): nat
    requires Iterable(v)
  {
    if v.Text? then |v.s| else |v.bytes|
  }

  /** `bytes(x ^ y for x, y in zip(a, b))`: the byte-wise XOR over the
      shorter operand. A number cannot be zipped, and a character of a
      string cannot be XORed, so both raise `TypeError`; a pairing that
      yields nothing gives the empty byte string. */
  function XorBytes(a: Value, b: Value): (r: Outcome<Value>)
    ensures r.Threw? ==> r.exception == TypeError
    ensures a.Binary? && b.Binary? ==> r == Returned(Binary(Xor(a.bytes, b.bytes)))
  {
    if a.Binary? && b.Binary? then Returned(Binary(Xor(a.bytes, b.bytes)))
    else if !Iterable(a) || !Iterable(b) then Threw(TypeError)
    else if Min(IterLength(a), IterLength(b)) == 0 then Returned(Binary([]))
    else Threw(TypeError)
  }
}
