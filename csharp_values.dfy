/** The property values of the C# example models, the bytes `BinaryWriter`
    gives each of them in a state image (assets/csharp/fmi3/model.cs:661-749,
    assets/csharp/model.cs:123-167), and what a property holds after
    `PropertyInfo.SetValue` assigns it a boxed value
    (assets/csharp/fmi3/model.cs:817, assets/csharp/model.cs:181). */
module CsharpValues {
  import opened Wrappers
  import opened Bytes
  import opened Floats
  import opened BinaryIo
  import opened Exceptions
  import opened Values

  /** The `float` elements of an array, four bytes each. */
  function WriteSingles(fs: seq<f32>): (bs: seq<byte>)
    ensures |bs| == 4 * |fs|
  {
    if |fs| == 0 then [] else WriteSingle(fs[0]) + WriteSingles(fs[1..])
  }

  /** The bytes `Fmi3SerializeFmuState` writes for one property: the fixed
      widths of its type, a length-prefixed string, and arrays as an `int`
      count followed by the elements. */
  function Encode(v: Value): (bs: seq<byte>)
    requires Representable(v)
  {
    match v
    case Single(f) => WriteSingle(f)
    case Double(d) => WriteDouble(d)
    case Int(i) => WriteInt32(i)
    case UInt(u) => WriteUInt32(u)
    case Long(l) => WriteInt64(l)
    case ULong(ul) => WriteUInt64(ul)
    case Boolean(b) => WriteBoolean(b)
    case Text(s) => WriteString(s)
    case Binary(data) => WriteInt32(|data|) + data
    case Singles(fs) => WriteInt32(|fs|) + WriteSingles(fs)
  }

  /** n `ReadSingle` calls; the stream ending first raises. */
  function ReadSingles(bs: seq<byte>, n: nat): (r: Result<(seq<f32>, seq<byte>), Exception>)
    ensures r.Success? ==> |r.value.0| == n && |r.value.1| <= |bs|
    ensures r.Failure? ==> r.error == EndOfStreamException
  {
    if n == 0 then Success(([], bs))
    else
      match ReadSingle(bs)
      case None => Failure(EndOfStreamException)
      case Some((f, rest)) =>
        match ReadSingles(rest, n - 1)
        case Failure(e) => Failure(e)
        case Success((fs, rest')) => Success(([f] + fs, rest'))
  }

  /** What `Fmi3DeserializeFmuState` reads for a property of kind k: the
      reader of its type, `ReadBytes(len)` after an `int` length (a negative
      length raises, a short stream gives fewer bytes), and a `float[]` of
      the read length (a negative length raises on the allocation). */
  function Decode(k: Kind, bs: seq<byte>): (r: Result<(Value, seq<byte>), Exception>)
    ensures r.Success? ==> KindOf(r.value.0) == k && Representable(r.value.0) && |r.value.1| <= |bs|
  {
    match k
    case SingleKind =>
      (match ReadSingle(bs) case None => Failure(EndOfStreamException) case Some((f, rest)) => Success((Single(f), rest)))
    case DoubleKind =>
      (match ReadDouble(bs) case None => Failure(EndOfStreamException) case Some((d, rest)) => Success((Double(d), rest)))
    case IntKind =>
      (match ReadInt32(bs) case None => Failure(EndOfStreamException) case Some((i, rest)) => Success((Int(i), rest)))
    case UIntKind =>
      (match ReadUInt32(bs) case None => Failure(EndOfStreamException) case Some((u, rest)) => Success((UInt(u), rest)))
    case LongKind =>
      (match ReadInt64(bs) case None => Failure(EndOfStreamException) case Some((l, rest)) => Success((Long(l), rest)))
    case ULongKind =>
      (match ReadUInt64(bs) case None => Failure(EndOfStreamException) case Some((ul, rest)) => Success((ULong(ul), rest)))
    case BoolKind =>
      (match ReadBoolean(bs) case None => Failure(EndOfStreamException) case Some((b, rest)) => Success((Boolean(b), rest)))
    case StringKind =>
      (match ReadString(bs) case Failure(e) => Failure(e) case Success((s, rest)) => Success((Text(s), rest)))
    case BytesKind =>
      (match ReadInt32(bs)
       case None => Failure(EndOfStreamException)
       case Some((len, rest)) =>
         if len < 0 then Failure(ArgumentOutOfRangeException)
         else var (data, rest') := ReadBytes(rest, len); Success((Binary(data), rest')))
    case SinglesKind =>
      (match ReadInt32(bs)
       case None => Failure(EndOfStreamException)
       case Some((len, rest)) =>
         if len < 0 then Failure(OverflowException)
         else
           match ReadSingles(rest, len)
           case Failure(e) => Failure(e)
           case Success((fs, rest')) => Success((Singles(fs), rest')))
  }

  lemma {:induction false} SinglesRoundTrip(fs: seq<f32>, rest: seq<byte>)
    ensures ReadSingles(WriteSingles(fs) + rest, |fs|) == Success((fs, rest))
  {
    if |fs| > 0 {
      var tail := WriteSingles(fs[1..]) + rest;
      assert WriteSingles(fs) + rest == WriteSingle(fs[0]) + tail;
      SingleRoundTrip(fs[0], tail);
      SinglesRoundTrip(fs[1..], rest);
      assert ReadSingles(tail, |fs| - 1) == Success((fs[1..], rest));
      var whole := WriteSingles(fs) + rest;
      assert ReadSingle(whole) == Some((fs[0], tail));
      assert ReadSingles(whole, |fs|) == Success(([fs[0]] + fs[1..], rest));
      assert [fs[0]] + fs[1..] == fs;
    } else {
      assert WriteSingles(fs) + rest == rest;
    }
  }

  lemma BinaryRoundTrip(data: seq<byte>, rest: seq<byte>)
    requires |data| < TwoTo31
    ensures Decode(BytesKind, Encode(Binary(data)) + rest) == Success((Binary(data), rest))
  {
    assert Encode(Binary(data)) + rest == WriteInt32(|data|) + (data + rest);
    Int32RoundTrip(|data|, data + rest);
    SplitAt(data, rest);
  }

  lemma ArrayRoundTrip(fs: seq<f32>, rest: seq<byte>)
    requires |fs| < TwoTo31
    ensures Decode(SinglesKind, Encode(Singles(fs)) + rest) == Success((Singles(fs), rest))
  {
    assert Encode(Singles(fs)) + rest == WriteInt32(|fs|) + (WriteSingles(fs) + rest);
    Int32RoundTrip(|fs|, WriteSingles(fs) + rest);
    SinglesRoundTrip(fs, rest);
  }

  /** A value `BinaryWriter` writes without raising: a string's UTF-8
      byte count must be an `int`. */
  predicate Writes(v: Value)
  {
    v.Text? ==> Writable(v.s)
  }

  /** Every value written and read back as its own kind is the same value,
      and the reader stops exactly after it. */
  lemma ValueRoundTrip(v: Value, rest: seq<byte>)
    requires Representable(v) && Writes(v)
    ensures Decode(KindOf(v), Encode(v) + rest) == Success((v, rest))
  {
    match v
    case Single(f) => SingleRoundTrip(f, rest);
    case Double(d) => DoubleRoundTrip(d, rest);
    case Int(i) => Int32RoundTrip(i, rest);
    case UInt(u) => UInt32RoundTrip(u, rest);
    case Long(l) => Int64RoundTrip(l, rest);
    case ULong(ul) => UInt64RoundTrip(ul, rest);
    case Boolean(b) =>
    case Text(s) => StringRoundTrip(s, rest);
    case Binary(data) => BinaryRoundTrip(data, rest);
    case Singles(fs) => ArrayRoundTrip(fs, rest);
  }

  // ---------------------------------------------------- reflection assignment

  /** The primitive widenings `PropertyInfo.SetValue` performs when a boxed
      value meets a property of another primitive type: `int` to `long`,
      `float` and `double`; `uint` to `long`, `ulong`, `float` and `double`;
      `long` and `ulong` to `float` and `double`; `float` to `double`. Any
      other pair of different types raises `ArgumentException`. */
  predicate Widens(from: Kind, to: Kind)
  {
    match from
    case IntKind => to == LongKind || to == SingleKind || to == DoubleKind
    case UIntKind => to == LongKind || to == ULongKind || to == SingleKind || to == DoubleKind
    case LongKind => to == SingleKind || to == DoubleKind
    case ULongKind => to == SingleKind || to == DoubleKind
    case SingleKind => to == DoubleKind
    case _ => false
  }

  /** A value of type `from` can be assigned to a property of type `to`. */
  predicate Assignable(from: Kind, to: Kind)
  {
    from == to || Widens(from, to)
  }

  /** The integer an integer value holds. */
  function IntegerOf(v: Value): Option<int>
  {
    match v
    case Int(i) => Some(i)
    case UInt(u) => Some(u)
    case Long(l) => Some(l)
    case ULong(ul) => Some(ul)
    case _ => None
  }

  /** What a property of type `to` holds after v is assigned to it: v itself
      when the types agree, the same integer in a wider integer type, and
      the runtime's conversion when the property is floating-point. */
  function Assign(v: Value, to: Kind, ops: FloatOps): (w: Value)
    requires Assignable(KindOf(v), to)
    ensures KindOf(w) == to
    ensures KindOf(v) == to ==> w == v
    ensures Representable(v) ==> Representable(w)
    ensures IntegerOf(v).Some? && (to == LongKind || to == ULongKind) ==> IntegerOf(w) == IntegerOf(v)
    ensures IntegerOf(v).Some? && to == SingleKind ==> w == Single(ops.intToSingle(IntegerOf(v).value))
    ensures IntegerOf(v).Some? && to == DoubleKind ==> w == Double(ops.intToDouble(IntegerOf(v).value))
    ensures v.Single? && to == DoubleKind ==> w == Double(ops.singleToDouble(v.f))
  {
    if KindOf(v) == to then v
    else if to == LongKind then Long(IntegerOf(v).value)
    else if to == ULongKind then ULong(IntegerOf(v).value)
    else if to == SingleKind then Single(ops.intToSingle(IntegerOf(v).value))
    else if v.Single? then Double(ops.singleToDouble(v.f))
    else Double(ops.intToDouble(IntegerOf(v).value))
  }
}
