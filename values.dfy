/** The typed property values of the example models. The constructors name
    the C# types; the Java models use the same constructors for the Java
    type of the same width (`Float`, `Double`, `Integer`, `Long`, `Boolean`,
    `String`, `byte[]`, `Float[]`), and the Python models `Double`, `Int`
    (of unbounded size), `Boolean`, `Text` and `Binary` for `float`, `int`,
    `bool`, `str` and `bytes`. */
module Values {
  import opened Bytes
  import opened Floats
  import opened BinaryIo

  /** The C# type of a property: `float`, `double`, `int`, `uint`, `long`,
      `ulong`, `bool`, `string`, `byte[]` and `float[]`. */
  datatype Kind =
    | SingleKind | DoubleKind | IntKind | UIntKind | LongKind | ULongKind
    | BoolKind | StringKind | BytesKind | SinglesKind

  /** A property value, tagged with its C# type. */
  datatype Value =
    | Single(f: f32)
    | Double(d: f64)
    | Int(i: int)
    | UInt(u: int)
    | Long(l: int)
    | ULong(ul: int)
    | Boolean(b: bool)
    | Text(s: string)
    | Binary(bytes: seq<byte>)
    | Singles(fs: seq<f32>)

  function KindOf(v: Value): Kind
  {
    match v
    case Single(_) => SingleKind
    case Double(_) => DoubleKind
    case Int(_) => IntKind
    case UInt(_) => UIntKind
    case Long(_) => LongKind
    case ULong(_) => ULongKind
    case Boolean(_) => BoolKind
    case Text(_) => StringKind
    case Binary(_) => BytesKind
    case Singles(_) => SinglesKind
  }

  /** The value fits its C# type; an array's length is an `int`. */
  predicate Representable(v: Value)
  {
    match v
    case Int(i) => IsInt32(i)
    case UInt(u) => IsUInt32(u)
    case Long(l) => IsInt64(l)
    case ULong(ul) => IsUInt64(ul)
    case Binary(bs) => |bs| < TwoTo31
    case Singles(fs) => |fs| < TwoTo31
    case _ => true
  }
}
