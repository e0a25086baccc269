/** Extraction of the expected reply from a backend's return message
    (fmiapi/src/protobuf_extensions.rs). A return message is a protobuf oneof:
    either a log event from the backend, or one of the reply variants
    carrying a payload the API layer then reads. */
module ProtobufExtensions {
  import opened Wrappers

  /** A return message whose oneof variants are named by `K`, whose log
      events carry a status of type `S`, and whose other variants carry a
      payload of type `P`. */
  datatype ReturnMessage<K, S, P> =
    | LogReturn(status: S, category: string, logMessage: string)
    | Tagged(variant: K, message: P)

  /** `ExpectableReturn::extract_from` as the macro generates it: the payload
      when the message is the designated variant, None for every other
      variant. */
  function ExtractFrom<K(==), S, P>(designated: K, m: ReturnMessage<K, S, P>): (r: Option<P>)
    ensures r.Some? <==> m.Tagged? && m.variant == designated
    ensures r.Some? ==> r.value == m.message
  {
    match m
    case Tagged(variant, message) => if variant == designated then Some(message) else None
    case LogReturn(_, _, _) => None
  }

  /** A message is extracted by at most one designated variant. */
  lemma ExtractFromUnique<K, S, P>(k1: K, k2: K, m: ReturnMessage<K, S, P>)
    requires ExtractFrom(k1, m).Some? && ExtractFrom(k2, m).Some?
    ensures k1 == k2
  {
  }

  /** The variants of the FMI 3.0 return message that a reply type is bound
      to (fmiapi/src/fmi3/fmi3_types.rs, `implement_expectable_return!`). */
  datatype Fmi3ReturnVariant =
    | Empty | Status | DoStep | FreeInstance
    | GetFloat32 | GetFloat64 | GetInt8 | GetUInt8 | GetInt16 | GetUInt16
    | GetInt32 | GetUInt32 | GetInt64 | GetUInt64 | GetBoolean | GetString | GetBinary
    | GetDirectionalDerivative | GetAdjointDerivative | GetOutputDerivatives
    | SerializeFmuState | GetClock | UpdateDiscreteStates
    | GetIntervalDecimal | GetIntervalFraction | GetShiftDecimal | GetShiftFraction

  /** The reply message types of the FMI 3.0 protocol that can be expected. */
  datatype Fmi3ReplyType =
    | Fmi3EmptyReturn | Fmi3StatusReturn | Fmi3DoStepReturn | Fmi3FreeInstanceReturn
    | Fmi3GetFloat32Return | Fmi3GetFloat64Return | Fmi3GetInt8Return | Fmi3GetUInt8Return
    | Fmi3GetInt16Return | Fmi3GetUInt16Return | Fmi3GetInt32Return | Fmi3GetUInt32Return
    | Fmi3GetInt64Return | Fmi3GetUInt64Return | Fmi3GetBooleanReturn | Fmi3GetStringReturn
    | Fmi3GetBinaryReturn | Fmi3GetDirectionalDerivativeReturn | Fmi3GetAdjointDerivativeReturn
    | Fmi3GetOutputDerivativesReturn | Fmi3SerializeFmuStateReturn | Fmi3GetClockReturn
    | Fmi3UpdateDiscreteStatesReturn | Fmi3GetIntervalDecimalReturn
    | Fmi3GetIntervalFractionReturn | Fmi3GetShiftDecimalReturn | Fmi3GetShiftFractionReturn

  /** The variant each reply type is extracted from. */
  function Designated(t: Fmi3ReplyType): Fmi3ReturnVariant
  {
    match t
    case Fmi3EmptyReturn => Empty
    case Fmi3StatusReturn => Status
    case Fmi3DoStepReturn => DoStep
    case Fmi3FreeInstanceReturn => FreeInstance
    case Fmi3GetFloat32Return => GetFloat32
    case Fmi3GetFloat64Return => GetFloat64
    case Fmi3GetInt8Return => GetInt8
    case Fmi3GetUInt8Return => GetUInt8
    case Fmi3GetInt16Return => GetInt16
    case Fmi3GetUInt16Return => GetUInt16
    case Fmi3GetInt32Return => GetInt32
    case Fmi3GetUInt32Return => GetUInt32
    case Fmi3GetInt64Return => GetInt64
    case Fmi3GetUInt64Return => GetUInt64
    case Fmi3GetBooleanReturn => GetBoolean
    case Fmi3GetStringReturn => GetString
    case Fmi3GetBinaryReturn => GetBinary
    case Fmi3GetDirectionalDerivativeReturn => GetDirectionalDerivative
    case Fmi3GetAdjointDerivativeReturn => GetAdjointDerivative
    case Fmi3GetOutputDerivativesReturn => GetOutputDerivatives
    case Fmi3SerializeFmuStateReturn => SerializeFmuState
    case Fmi3GetClockReturn => GetClock
    case Fmi3UpdateDiscreteStatesReturn => UpdateDiscreteStates
    case Fmi3GetIntervalDecimalReturn => GetIntervalDecimal
    case Fmi3GetIntervalFractionReturn => GetIntervalFraction
    case Fmi3GetShiftDecimalReturn => GetShiftDecimal
    case Fmi3GetShiftFractionReturn => GetShiftFraction
  }

  /** Every variant has exactly one reply type bound to it. */
  lemma DesignatedBijective(v: Fmi3ReturnVariant)
    ensures exists t :: Designated(t) == v
    ensures forall t1, t2 :: Designated(t1) == Designated(t2) ==> t1 == t2
  {
    match v
    case Empty => assert Designated(Fmi3EmptyReturn) == v;
    case Status => assert Designated(Fmi3StatusReturn) == v;
    case DoStep => assert Designated(Fmi3DoStepReturn) == v;
    case FreeInstance => assert Designated(Fmi3FreeInstanceReturn) == v;
    case GetFloat32 => assert Designated(Fmi3GetFloat32Return) == v;
    case GetFloat64 => assert Designated(Fmi3GetFloat64Return) == v;
    case GetInt8 => assert Designated(Fmi3GetInt8Return) == v;
    case GetUInt8 => assert Designated(Fmi3GetUInt8Return) == v;
    case GetInt16 => assert Designated(Fmi3GetInt16Return) == v;
    case GetUInt16 => assert Designated(Fmi3GetUInt16Return) == v;
    case GetInt32 => assert Designated(Fmi3GetInt32Return) == v;
    case GetUInt32 => assert Designated(Fmi3GetUInt32Return) == v;
    case GetInt64 => assert Designated(Fmi3GetInt64Return) == v;
    case GetUInt64 => assert Designated(Fmi3GetUInt64Return) == v;
    case GetBoolean => assert Designated(Fmi3GetBooleanReturn) == v;
    case GetString => assert Designated(Fmi3GetStringReturn) == v;
    case GetBinary => assert Designated(Fmi3GetBinaryReturn) == v;
    case GetDirectionalDerivative => assert Designated(Fmi3GetDirectionalDerivativeReturn) == v;
    case GetAdjointDerivative => assert Designated(Fmi3GetAdjointDerivativeReturn) == v;
    case GetOutputDerivatives => assert Designated(Fmi3GetOutputDerivativesReturn) == v;
    case SerializeFmuState => assert Designated(Fmi3SerializeFmuStateReturn) == v;
    case GetClock => assert Designated(Fmi3GetClockReturn) == v;
    case UpdateDiscreteStates => assert Designated(Fmi3UpdateDiscreteStatesReturn) == v;
    case GetIntervalDecimal => assert Designated(Fmi3GetIntervalDecimalReturn) == v;
    case GetIntervalFraction => assert Designated(Fmi3GetIntervalFractionReturn) == v;
    case GetShiftDecimal => assert Designated(Fmi3GetShiftDecimalReturn) == v;
    case GetShiftFraction => assert Designated(Fmi3GetShiftFractionReturn) == v;
  }
}
