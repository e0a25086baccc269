/** The FMI 2.0 command dispatcher (fmiapi/src/fmi2_dispatcher.rs): the
    commands it builds, the replies it decodes, and how each reply is mapped
    to what the C functions receive. */
module Fmi2Dispatching {
  import opened Wrappers
  import opened Bytes
  import opened Floats
  import opened Fmi2Types
  import opened CommandDispatching

  /** fmi2Type with the values 0 and 1. */
  datatype Fmi2Type = Fmi2ModelExchange | Fmi2CoSimulation

  /** The FMI 2.0 commands of the protobuf schema, with their fields. */
  datatype Fmi2Command =
    | Fmi2Instantiate(instanceName: string, fmuType: int, fmuGuid: string, fmuResourceLocation: string,
                      visible: bool, loggingOn: bool)
    | Fmi2EnterInitializationMode
    | Fmi2ExitInitializationMode
    | Fmi2DoStep(currentTime: f64, stepSize: f64, noSetFmuStatePriorToCurrentPoint: bool)
    | Fmi2SetupExperiment(startTime: f64, stopTime: Option<f64>, tolerance: Option<f64>)
    | Fmi2SerializeFmuState
    | Fmi2DeserializeFmuState(state: seq<byte>)
    | Fmi2CancelStep
    | Fmi2Terminate
    | Fmi2Reset
    | Fmi2FreeInstance
    | Fmi2SetReal(references: seq<nat>, reals: seq<f64>)
    | Fmi2SetInteger(references: seq<nat>, integers: seq<int>)
    | Fmi2SetBoolean(references: seq<nat>, booleans: seq<bool>)
    | Fmi2SetString(references: seq<nat>, strings: seq<string>)
    | Fmi2GetReal(references: seq<nat>)
    | Fmi2GetInteger(references: seq<nat>)
    | Fmi2GetBoolean(references: seq<nat>)
    | Fmi2GetString(references: seq<nat>)
    | Fmi2SetDebugLogging(categories: seq<string>, loggingOn: bool)
    | Fmi2GetRealOutputDerivatives(references: seq<nat>, orders: seq<int>)
    | Fmi2SetRealInputDerivatives(references: seq<nat>, orders: seq<int>, reals: seq<f64>)
    | Fmi2GetDirectionalDerivatives(referencesUnknown: seq<nat>, referencesKnown: seq<nat>, directionKnown: seq<f64>)

  /** The repeated field of a decoded reply. A reply decoded as a return type
      whose field it does not carry reads that field as empty, as protobuf
      decoding does for an absent field. */
  datatype WireValues =
    | NoValues
    | Reals(reals: seq<f64>)
    | Integers(integers: seq<int>)
    | Booleans(booleans: seq<bool>)
    | Strings(strings: seq<string>)
    | StateBytes(state: seq<byte>)

  /** A decoded reply: its raw status and its values. */
  datatype Fmi2Wire = Fmi2Wire(status: int, values: WireValues)

  type Fmi2CommandDispatcher = CommandDispatcher<Fmi2Command, Fmi2Wire>

  function RealsOf(v: WireValues): seq<f64> { if v.Reals? then v.reals else [] }
  function IntegersOf(v: WireValues): seq<int> { if v.Integers? then v.integers else [] }
  function BooleansOf(v: WireValues): seq<bool> { if v.Booleans? then v.booleans else [] }
  function StringsOf(v: WireValues): seq<string> { if v.Strings? then v.strings else [] }
  function StateOf(v: WireValues): seq<byte> { if v.StateBytes? then v.state else [] }

  /** `From<Fmi2StatusReturn> for Fmi2Status`, through the generated
      `status()` getter, which reads a value outside the enumeration as its
      default, Fmi2Ok. */
  function StatusOfReturn(n: int): (s: Fmi2Status)
    ensures 0 <= n <= 5 ==> StatusValue(s) == n
    ensures !(0 <= n <= 5) ==> s == Ok
  {
    match StatusFromValue(n)
    case Some(s) => s
    case None => Ok
  }

  /** The conversion is one-to-one on the six statuses. */
  lemma StatusOfReturnRoundTrip(s: Fmi2Status)
    ensures StatusOfReturn(StatusValue(s)) == s
  {
  }

  /** `Fmi2Status::try_from(status).unwrap()`: a value outside the
      enumeration panics. */
  function CheckedStatus(n: int): (r: Call<Fmi2Status>)
    ensures r.Done? <==> 0 <= n <= 5
    ensures r.Done? ==> StatusValue(r.value) == n
    ensures !r.Done? ==> r == Panicked
  {
    match StatusFromValue(n)
    case Some(s) => Done(s)
    case None => Panicked
  }

  /** Where the checked conversion succeeds it agrees with the getter's. */
  lemma CheckedStatusAgrees(n: int)
    ensures CheckedStatus(n).Done? ==> CheckedStatus(n).value == StatusOfReturn(n)
    ensures CheckedStatus(n).Panicked? <==> StatusOfReturn(n) == Ok && !(n == 0)
  {
  }

  /** `.map(|s| s.into())` on a status reply. */
  function IntoStatus(c: Call<Fmi2Wire>): (r: Call<Fmi2Status>)
    ensures c.Done? <==> r.Done?
    ensures c.Done? ==> r.value == StatusOfReturn(c.value.status)
    ensures c.Failed? ==> r == Failed(c.error)
    ensures c.Panicked? ==> r.Panicked?
  {
    match c
    case Done(w) => Done(StatusOfReturn(w.status))
    case Failed(e) => Failed(e)
    case Panicked => Panicked
  }

  /** `.map(|s| Fmi2Status::try_from(s.status).unwrap())` on a status reply. */
  function UnwrapStatus(c: Call<Fmi2Wire>): (r: Call<Fmi2Status>)
    ensures c.Done? ==> r == CheckedStatus(c.value.status)
    ensures c.Failed? ==> r == Failed(c.error)
    ensures c.Panicked? ==> r.Panicked?
  {
    match c
    case Done(w) => CheckedStatus(w.status)
    case Failed(e) => Failed(e)
    case Panicked => Panicked
  }

  /** The getters' mapping: the checked status, and the values unless the
      list is empty. */
  function GetterReply<T>(c: Call<Fmi2Wire>, valuesOf: WireValues -> seq<T>): (r: Call<(Fmi2Status, Option<seq<T>>)>)
    ensures r.Done? <==> c.Done? && 0 <= c.value.status <= 5
    ensures r.Done? ==> StatusValue(r.value.0) == c.value.status && r.value.1 == NonEmpty(valuesOf(c.value.values))
    ensures c.Failed? ==> r == Failed(c.error)
  {
    match c
    case Done(w) =>
      (match CheckedStatus(w.status)
       case Done(s) => Done((s, NonEmpty(valuesOf(w.values))))
       case _ => Panicked)
    case Failed(e) => Failed(e)
    case Panicked => Panicked
  }

  /** `fmi2GetRealOutputDerivatives` and `fmi2GetDirectionalDerivative` as
      written: the emptiness test is inverted, so an empty list becomes
      `Some` and a non-empty one `None`. */
  function DerivativeReplyAsWritten(c: Call<Fmi2Wire>): (r: Call<(Fmi2Status, Option<seq<f64>>)>)
    ensures r.Done? <==> c.Done? && 0 <= c.value.status <= 5
    ensures r.Done? ==> StatusValue(r.value.0) == c.value.status
    ensures r.Done? ==> (r.value.1.Some? <==> RealsOf(c.value.values) == [])
    ensures r.Done? && r.value.1.Some? ==> r.value.1.value == []
  {
    match c
    case Done(w) =>
      (match CheckedStatus(w.status)
       case Done(s) => Done((s, if RealsOf(w.values) == [] then Some(RealsOf(w.values)) else None))
       case _ => Panicked)
    case Failed(e) => Failed(e)
    case Panicked => Panicked
  }

  /** The derivatives the backend computes never reach the caller: a reply
      with one value maps to None. */
  lemma DerivativeValuesLost(x: f64)
    ensures DerivativeReplyAsWritten(Done(Fmi2Wire(0, Reals([x])))) == Done((Ok, None))
  {
  }

  /** The derivative getters evidently intend the mapping the other getters
      apply; with it every non-empty list of derivatives is passed on
      unchanged. */
  lemma DerivativeValuesKept(status: int, xs: seq<f64>)
    requires 0 <= status <= 5 && xs != []
    ensures GetterReply(Done(Fmi2Wire(status, Reals(xs))), RealsOf).Done?
    ensures GetterReply(Done(Fmi2Wire(status, Reals(xs))), RealsOf).value.1 == Some(xs)
  {
  }

  /** `fmi2SerializeFmuState`: the checked status and the state bytes. */
  function SerializeReply(c: Call<Fmi2Wire>): (r: Call<(Fmi2Status, seq<byte>)>)
    ensures r.Done? <==> c.Done? && 0 <= c.value.status <= 5
    ensures r.Done? ==> StatusValue(r.value.0) == c.value.status && r.value.1 == StateOf(c.value.values)
    ensures c.Failed? ==> r == Failed(c.error)
  {
    match c
    case Done(w) =>
      (match CheckedStatus(w.status)
       case Done(s) => Done((s, StateOf(w.values)))
       case _ => Panicked)
    case Failed(e) => Failed(e)
    case Panicked => Panicked
  }

  /** `fmi2Instantiate` builds its command with fmu_type 0, whatever type
      it is given. */
  function InstantiateCommand(instanceName: string, fmuType: Fmi2Type, fmuGuid: string,
                              fmuResourcesLocation: string, visible: bool, loggingOn: bool): (cmd: Fmi2Command)
    ensures cmd.Fmi2Instantiate? && cmd.fmuType == 0
    ensures cmd.instanceName == instanceName && cmd.fmuGuid == fmuGuid
    ensures cmd.fmuResourceLocation == fmuResourcesLocation && cmd.visible == visible && cmd.loggingOn == loggingOn
  {
    Fmi2Instantiate(instanceName, 0, fmuGuid, fmuResourcesLocation, visible, loggingOn)
  }

  /** Two instantiations that differ only in their fmu type send the same
      command. */
  lemma InstantiateIgnoresType(name: string, guid: string, location: string, visible: bool, loggingOn: bool)
    ensures InstantiateCommand(name, Fmi2ModelExchange, guid, location, visible, loggingOn)
         == InstantiateCommand(name, Fmi2CoSimulation, guid, location, visible, loggingOn)
  {
  }

  /** `fmi2Instantiate`'s reply mapping: an empty return. */
  function EmptyReply(c: Call<Fmi2Wire>): (r: Call<()>)
    ensures r.Done? <==> c.Done?
    ensures c.Failed? ==> r == Failed(c.error)
  {
    match c
    case Done(_) => Done(())
    case Failed(e) => Failed(e)
    case Panicked => Panicked
  }
}
