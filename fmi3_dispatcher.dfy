/** The older FMI 3.0 command dispatcher (fmiapi/src/fmi3_dispatcher.rs):
    the commands it builds, the replies it decodes, and how each reply is
    turned into what its caller receives. */
module Fmi3Dispatching {
  import opened Wrappers
  import opened Bytes
  import opened Floats
  import opened Fmi3Types
  import opened Narrowing
  import opened CommandDispatching

  /** The value types of the getters. */
  datatype Fmi3ValueType =
    | Float32 | Float64 | Int8 | UInt8 | Int16 | UInt16 | Int32 | UInt32 | Int64 | UInt64 | Boolean | Str

  /** The FMI 3.0 commands this dispatcher builds, with their fields. */
  datatype Fmi3DispatchCommand =
    | Fmi3SerializeFmuState
    | Fmi3DeserializeFmuState(state: seq<byte>)
    | Fmi3InstantiateCoSimulation(instanceName: string, instantiationToken: string, resourcePath: string,
                                  visible: bool, loggingOn: bool, eventModeUsed: bool, earlyReturnAllowed: bool,
                                  requiredIntermediateVariables: seq<nat>)
    | Fmi3EnterInitializationMode(tolerance: Option<f64>, startTime: f64, stopTime: Option<f64>)
    | Fmi3ExitInitializationMode
    | Fmi3DoStep(currentCommunicationPoint: f64, communicationStepSize: f64, noSetFmuStatePriorToCurrentPoint: bool)
    | Fmi3Get(valueType: Fmi3ValueType, valueReferences: seq<nat>)
    | Fmi3Terminate
    | Fmi3Reset
    | Fmi3FreeInstance

  /** The fields of a decoded reply besides its status. Int8 to UInt16
      travel as 32-bit integers. A field the reply does not carry reads as
      empty, as protobuf decoding does. */
  datatype Fmi3WireValues =
    | NoValues
    | Float32s(float32s: seq<f32>)
    | Float64s(float64s: seq<f64>)
    | Integers(integers: seq<int>)
    | Booleans(booleans: seq<bool>)
    | Strings(strings: seq<string>)
    | StateBytes(state: seq<byte>)
    | DoStepFields(eventHandlingNeeded: bool, terminateSimulation: bool, earlyReturn: bool, lastSuccessfulTime: f64)

  /** A decoded reply: its raw status and its other fields. */
  datatype Fmi3Wire = Fmi3Wire(status: int, values: Fmi3WireValues)

  type Fmi3CommandDispatcher = CommandDispatcher<Fmi3DispatchCommand, Fmi3Wire>

  function Float32sOf(v: Fmi3WireValues): seq<f32> { if v.Float32s? then v.float32s else [] }
  function Float64sOf(v: Fmi3WireValues): seq<f64> { if v.Float64s? then v.float64s else [] }
  function IntegersOf(v: Fmi3WireValues): seq<int> { if v.Integers? then v.integers else [] }
  function BooleansOf(v: Fmi3WireValues): seq<bool> { if v.Booleans? then v.booleans else [] }
  function StringsOf(v: Fmi3WireValues): seq<string> { if v.Strings? then v.strings else [] }
  function StateOf(v: Fmi3WireValues): seq<byte> { if v.StateBytes? then v.state else [] }

  /** The generated `status()` getter: a value outside the enumeration
      reads as its default, Fmi3Ok. */
  function ProtoStatusOf(n: int): (p: ProtoFmi3Status)
    ensures 0 <= n <= 4 ==> ProtoValue(p) == n
    ensures !(0 <= n <= 4) ==> p == ProtoOk
  {
    if n == 1 then ProtoWarning
    else if n == 2 then ProtoDiscard
    else if n == 3 then ProtoError
    else if n == 4 then ProtoFatal
    else ProtoOk
  }

  /** `From<Fmi3StatusReturn> for Fmi3Status`: total, reading an unknown
      value as OK. */
  function StatusOfReturn(n: int): (s: Fmi3Status)
  {
    FromProtoStatus(ProtoStatusOf(n))
  }

  /** The conversion keeps each of the five values and their order, and
      reads every other value as OK. */
  lemma StatusOfReturnOrdered(m: int, n: int)
    ensures 0 <= n <= 4 ==> StatusValue(StatusOfReturn(n)) == n
    ensures !(0 <= n <= 4) ==> StatusOfReturn(n) == Fmi3OK
    ensures 0 <= m <= 4 && 0 <= n <= 4 ==> (m < n <==> StatusLess(StatusOfReturn(m), StatusOfReturn(n)))
  {
    FromProtoStatusMonotone(ProtoStatusOf(m), ProtoStatusOf(n));
  }

  /** `Fmi3Status::try_from(status).unwrap()`: a value outside the
      enumeration panics. */
  function CheckedStatus(n: int): (r: Call<Fmi3Status>)
    ensures r.Done? <==> 0 <= n <= 4
    ensures r.Done? ==> StatusValue(r.value) == n
    ensures !r.Done? ==> r == Panicked
  {
    match StatusFromValue(n)
    case Some(s) => Done(s)
    case None => Panicked
  }

  /** `.map(|s| s.into())` on a status reply. */
  function IntoStatus(c: Call<Fmi3Wire>): (r: Call<Fmi3Status>)
    ensures c.Done? <==> r.Done?
    ensures c.Done? ==> r.value == StatusOfReturn(c.value.status)
    ensures c.Failed? ==> r == Failed(c.error)
  {
    match c
    case Done(w) => Done(StatusOfReturn(w.status))
    case Failed(e) => Failed(e)
    case Panicked => Panicked
  }

  /** The getters' mapping: the checked status, and the values unless the
      list is empty. */
  function GetterReply<T>(c: Call<Fmi3Wire>, valuesOf: Fmi3WireValues -> seq<T>): (r: Call<(Fmi3Status, Option<seq<T>>)>)
    ensures r.Done? <==> c.Done? && 0 <= c.value.status <= 4
    ensures r.Done? ==> StatusValue(r.value.0) == c.value.status && r.value.1 == NonEmpty(valuesOf(c.value.values))
    ensures c.Failed? ==> r == Failed(c.error)
  {
    match c
    case Done(w) =>
      (match CheckedStatus(w.status)
       case Done(s) => Done((s, NonEmpty(valuesOf(w.values))))
       case _ => Panicked)
    case Failed(e) => Failed(e)
    case Panicked => Panicked
  }

  /** The mapping of fmi3GetInt8, fmi3GetUInt8, fmi3GetInt16 and
      fmi3GetUInt16: the 32-bit values are narrowed with `as`, one by one. */
  function NarrowedReply(c: Call<Fmi3Wire>, t: IntType): (r: Call<(Fmi3Status, Option<seq<int>>)>)
    ensures r.Done? <==> c.Done? && 0 <= c.value.status <= 4
    ensures r.Done? ==> StatusValue(r.value.0) == c.value.status
    ensures r.Done? ==> (r.value.1.None? <==> IntegersOf(c.value.values) == [])
    ensures r.Done? && r.value.1.Some? ==> r.value.1.value == CastAll(t, IntegersOf(c.value.values))
    ensures c.Failed? ==> r == Failed(c.error)
  {
    match GetterReply(c, IntegersOf)
    case Done((s, vs)) => Done((s, if vs.Some? then Some(CastAll(t, vs.value)) else None))
    case Failed(e) => Failed(e)
    case Panicked => Panicked
  }

  /** A narrowed reply holds values of the target type, one per value sent,
      and a value the type could already hold arrives unchanged. */
  lemma NarrowedValues(w: Fmi3Wire, t: IntType, k: nat)
    requires 0 <= w.status <= 4 && k < |IntegersOf(w.values)|
    ensures NarrowedReply(Done(w), t).value.1.Some?
    ensures |NarrowedReply(Done(w), t).value.1.value| == |IntegersOf(w.values)|
    ensures InRange(t, NarrowedReply(Done(w), t).value.1.value[k])
    ensures InRange(t, IntegersOf(w.values)[k]) ==> NarrowedReply(Done(w), t).value.1.value[k] == IntegersOf(w.values)[k]
  {
    if InRange(t, IntegersOf(w.values)[k]) {
      CastKeepsInRange(t, IntegersOf(w.values)[k]);
    }
  }

  /** The cast of a getter's value type, if it narrows. */
  function CastOf(t: Fmi3ValueType): Option<IntType>
  {
    match t
    case Int8 => Some(I8)
    case UInt8 => Some(U8)
    case Int16 => Some(I16)
    case UInt16 => Some(U16)
    case _ => None
  }

  /** `fmi3SerializeFmuState`'s mapping: the checked status and the bytes. */
  function SerializeReply(c: Call<Fmi3Wire>): (r: Call<(Fmi3Status, seq<byte>)>)
    ensures r.Done? <==> c.Done? && 0 <= c.value.status <= 4
    ensures r.Done? ==> StatusValue(r.value.0) == c.value.status && r.value.1 == StateOf(c.value.values)
    ensures c.Failed? ==> r == Failed(c.error)
  {
    match c
    case Done(w) =>
      (match CheckedStatus(w.status)
       case Done(s) => Done((s, StateOf(w.values)))
       case _ => Panicked)
    case Failed(e) => Failed(e)
    case Panicked => Panicked
  }

  /** An empty reply, as the instantiation and the handshake expect. */
  function EmptyReply(c: Call<Fmi3Wire>): (r: Call<()>)
    ensures r.Done? <==> c.Done?
    ensures c.Failed? ==> r == Failed(c.error)
  {
    match c
    case Done(_) => Done(())
    case Failed(e) => Failed(e)
    case Panicked => Panicked
  }

  /** `fmi3DoStep` keeps only the status of its reply: two replies with the
      same status give the same result, whatever their other fields. */
  lemma DoStepStatusOnly(status: int, a: Fmi3WireValues, b: Fmi3WireValues)
    ensures IntoStatus(Done(Fmi3Wire(status, a))) == IntoStatus(Done(Fmi3Wire(status, b)))
  {
  }

  /** `await_handshake`: one reply is received and read as an empty reply. */
  method AwaitHandshake(d: Fmi3CommandDispatcher) returns (r: Call<()>)
    modifies d
    ensures r == EmptyReply(Received(old(d.incoming)))
    ensures d.sent == old(d.sent) && d.incoming == Rest(old(d.incoming))
  {
    var c := d.Recv();
    r := EmptyReply(c);
  }

  /** The commands whose status reply is converted with `into`:
      Fmi3DeserializeFmuState, fmi3EnterInitializationMode,
      fmi3ExitInitializationMode, fmi3Terminate and fmi3Reset. */
  method StatusCommand(d: Fmi3CommandDispatcher, cmd: Fmi3DispatchCommand) returns (r: Call<Fmi3Status>)
    modifies d
    ensures r == IntoStatus(Exchanged(d.sendFails, old(d.incoming)))
    ensures ExchangedOnce(d, cmd)
  {
    var c := d.SendAndRecv(cmd);
    r := IntoStatus(c);
  }

  /** `fmi3DoStep`: the step command, answered by its reply's status. */
  method DoStep(d: Fmi3CommandDispatcher, currentCommunicationPoint: f64, communicationStepSize: f64,
                noSetFmuStatePriorToCurrentPoint: bool) returns (r: Call<Fmi3Status>)
    modifies d
    ensures r == IntoStatus(Exchanged(d.sendFails, old(d.incoming)))
    ensures ExchangedOnce(d, Fmi3DoStep(currentCommunicationPoint, communicationStepSize, noSetFmuStatePriorToCurrentPoint))
  {
    r := StatusCommand(d, Fmi3DoStep(currentCommunicationPoint, communicationStepSize, noSetFmuStatePriorToCurrentPoint));
  }

  /** `fmi3InstantiateCoSimulation`: every argument goes into the command,
      and an empty reply is expected. */
  method InstantiateCoSimulation(d: Fmi3CommandDispatcher, instanceName: string, instantiationToken: string,
                                 resourcePath: string, visible: bool, loggingOn: bool, eventModeUsed: bool,
                                 earlyReturnAllowed: bool, requiredIntermediateVariables: seq<nat>)
    returns (r: Call<()>)
    modifies d
    ensures r == EmptyReply(Exchanged(d.sendFails, old(d.incoming)))
    ensures ExchangedOnce(d, Fmi3InstantiateCoSimulation(instanceName, instantiationToken, resourcePath, visible,
                                                         loggingOn, eventModeUsed, earlyReturnAllowed,
                                                         requiredIntermediateVariables))
  {
    var c := d.SendAndRecv(Fmi3InstantiateCoSimulation(instanceName, instantiationToken, resourcePath, visible,
                                                       loggingOn, eventModeUsed, earlyReturnAllowed,
                                                       requiredIntermediateVariables));
    r := EmptyReply(c);
  }

  /** `fmi3InstantiateModelExchange` and `fmi3GetBinary` reach `todo!()`
      before sending anything. */
  method Unimplemented(d: Fmi3CommandDispatcher) returns (r: Call<()>)
    ensures r == Panicked
    ensures d.sent == old(d.sent) && d.incoming == old(d.incoming)
  {
    r := Panicked;
  }

  /** `fmi3SerializeFmuState`. */
  method SerializeFmuState(d: Fmi3CommandDispatcher) returns (r: Call<(Fmi3Status, seq<byte>)>)
    modifies d
    ensures r == SerializeReply(Exchanged(d.sendFails, old(d.incoming)))
    ensures ExchangedOnce(d, Fmi3SerializeFmuState)
  {
    var c := d.SendAndRecv(Fmi3SerializeFmuState);
    r := SerializeReply(c);
  }

  /** A getter whose values are passed on as decoded: `valuesOf` reads the
      field of its value type (Float32sOf for fmi3GetFloat32, IntegersOf
      for the 32- and 64-bit integer getters, and so on). */
  method GetValues<T>(d: Fmi3CommandDispatcher, valueType: Fmi3ValueType, valueReferences: seq<nat>,
                      valuesOf: Fmi3WireValues -> seq<T>) returns (r: Call<(Fmi3Status, Option<seq<T>>)>)
    requires CastOf(valueType).None?
    modifies d
    ensures r == GetterReply(Exchanged(d.sendFails, old(d.incoming)), valuesOf)
    ensures ExchangedOnce(d, Fmi3Get(valueType, valueReferences))
  {
    var c := d.SendAndRecv(Fmi3Get(valueType, valueReferences));
    r := GetterReply(c, valuesOf);
  }

  /** fmi3GetInt8, fmi3GetUInt8, fmi3GetInt16 and fmi3GetUInt16. */
  method GetNarrowed(d: Fmi3CommandDispatcher, valueType: Fmi3ValueType, valueReferences: seq<nat>)
    returns (r: Call<(Fmi3Status, Option<seq<int>>)>)
    requires CastOf(valueType).Some?
    modifies d
    ensures r == NarrowedReply(Exchanged(d.sendFails, old(d.incoming)), CastOf(valueType).value)
    ensures ExchangedOnce(d, Fmi3Get(valueType, valueReferences))
  {
    var c := d.SendAndRecv(Fmi3Get(valueType, valueReferences));
    r := NarrowedReply(c, CastOf(valueType).value);
  }

  /** `fmi3FreeInstance`: the command is sent and no reply is awaited. */
  method FreeInstance(d: Fmi3CommandDispatcher) returns (r: Call<()>)
    modifies d
    ensures d.incoming == old(d.incoming)
    ensures d.sent == old(d.sent) + SentWith(d.sendFails, Fmi3FreeInstance)
    ensures r == if d.sendFails then Failed(SocketError) else Done(())
  {
    r := d.Send(Fmi3FreeInstance);
  }
}
