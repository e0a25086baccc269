/** The conversions between the hand-written FMI 2.0 command and return enums
    of the RPC crate (wrapper/rpc/src/lib.rs) and the protobuf messages
    generated for them (wrapper/rpc/src/protobuf_compatability.rs). A protobuf
    message holds its variant in a `oneof`, which may be unset; the
    hand-written enums always hold one. */
module ProtobufCompat {
  import opened Wrappers
  import opened Bytes
  import opened Floats
  import opened Fmi2Types

  /** `Fmi2Command` of the RPC crate. */
  datatype Fmi2Command =
    | Fmi2DoStep(currentTime: f64, stepSize: f64, noStepPrior: bool)
    | Fmi2EnterInitializationMode
    | Fmi2ExitInitializationMode
    | Fmi2FreeInstance
    | Fmi2SetupExperiment(startTime: f64, stopTime: Option<f64>, tolerance: Option<f64>)
    | Fmi2SetReal(references: seq<int>, reals: seq<f64>)
    | Fmi2SetInteger(references: seq<int>, integers: seq<int>)
    | Fmi2SetBoolean(references: seq<int>, booleans: seq<bool>)
    | Fmi2SetString(references: seq<int>, strings: seq<string>)
    | Fmi2GetReal(references: seq<int>)
    | Fmi2GetInteger(references: seq<int>)
    | Fmi2GetBoolean(references: seq<int>)
    | Fmi2GetString(references: seq<int>)
    | Fmi2Reset
    | Fmi2Terminate
    | Fmi2CancelStep
    | Fmi2ExtSerializeSlave
    | Fmi2ExtDeserializeSlave(state: seq<byte>)

  /** `Fmi2Return` of the RPC crate. */
  datatype Fmi2Return =
    | Fmi2StatusReturn(status: Fmi2Status)
    | Fmi2GetRealReturn(status: Fmi2Status, reals: seq<f64>)
    | Fmi2GetIntegerReturn(status: Fmi2Status, integers: seq<int>)
    | Fmi2GetBooleanReturn(status: Fmi2Status, booleans: seq<bool>)
    | Fmi2GetStringReturn(status: Fmi2Status, strings: seq<string>)
    | Fmi2ExtSerializeSlaveReturn(status: Fmi2Status, state: seq<byte>)
    | Fmi2ExtHandshake

  /** The `oneof` of the protobuf command message, one variant per message
      type. SetupExperiment carries plain doubles with a presence flag each. */
  datatype CommandOneof =
    | DoStepMessage(currentTime: f64, stepSize: f64, noStepPrior: bool)
    | EnterInitializationModeMessage
    | ExitInitializationModeMessage
    | FreeInstanceMessage
    | SetupExperimentMessage(startTime: f64, stopTime: f64, tolerance: f64,
                             hasStopTime: bool, hasTolerance: bool)
    | SetRealMessage(references: seq<int>, reals: seq<f64>)
    | SetIntegerMessage(references: seq<int>, integers: seq<int>)
    | SetBooleanMessage(references: seq<int>, booleans: seq<bool>)
    | SetStringMessage(references: seq<int>, strings: seq<string>)
    | GetRealMessage(references: seq<int>)
    | GetIntegerMessage(references: seq<int>)
    | GetBooleanMessage(references: seq<int>)
    | GetStringMessage(references: seq<int>)
    | ResetMessage
    | TerminateMessage
    | CancelStepMessage
    | ExtSerializeSlaveMessage
    | ExtDeserializeSlaveMessage(state: seq<byte>)

  /** The `oneof` of the protobuf return message. */
  datatype ReturnOneof =
    | StatusReturnMessage(status: Fmi2Status)
    | GetRealReturnMessage(status: Fmi2Status, reals: seq<f64>)
    | GetIntegerReturnMessage(status: Fmi2Status, integers: seq<int>)
    | GetBooleanReturnMessage(status: Fmi2Status, booleans: seq<bool>)
    | GetStringReturnMessage(status: Fmi2Status, strings: seq<string>)
    | ExtSerializeSlaveReturnMessage(status: Fmi2Status, state: seq<byte>)
    | ExtHandshakeMessage

  /** The outer protobuf messages: a `oneof` that may be unset. */
  datatype ProtoCommand = ProtoCommand(command: Option<CommandOneof>)
  datatype ProtoReturn = ProtoReturn(result: Option<ReturnOneof>)

  /** The default value of a protobuf double: all bits zero, +0.0. */
  const DefaultDouble: f64 := 0

  /** `unwrap_or_default` of an optional double. */
  function OrDefault(x: Option<f64>): (d: f64)
    ensures x.Some? ==> d == x.value
    ensures x.None? ==> d == DefaultDouble
  {
    match x
    case Some(v) => v
    case None => DefaultDouble
  }

  /** A value is carried only when its presence flag is set. */
  function Present(has: bool, v: f64): Option<f64>
  {
    if has then Some(v) else None
  }

  /** The command `oneof`s that the Rust-to-protobuf direction produces:
      every one except a SetupExperiment whose absent value is not the
      default. */
  predicate Canonical(p: CommandOneof)
  {
    p.SetupExperimentMessage? ==>
      (!p.hasStopTime ==> p.stopTime == DefaultDouble)
      && (!p.hasTolerance ==> p.tolerance == DefaultDouble)
  }

  // ---------------------------------------------------------------- returns

  /** Return, protobuf `oneof` to Rust: each variant keeps its status and values. */
  function ReturnFromOneof(p: ReturnOneof): Fmi2Return
  {
    match p
    case StatusReturnMessage(s) => Fmi2StatusReturn(s)
    case GetRealReturnMessage(s, vs) => Fmi2GetRealReturn(s, vs)
    case GetIntegerReturnMessage(s, vs) => Fmi2GetIntegerReturn(s, vs)
    case GetBooleanReturnMessage(s, vs) => Fmi2GetBooleanReturn(s, vs)
    case GetStringReturnMessage(s, vs) => Fmi2GetStringReturn(s, vs)
    case ExtHandshakeMessage => Fmi2ExtHandshake
    case ExtSerializeSlaveReturnMessage(s, st) => Fmi2ExtSerializeSlaveReturn(s, st)
  }

  /** Return, Rust to protobuf `oneof`: converting back yields the same return. */
  function ReturnToOneof(r: Fmi2Return): (p: ReturnOneof)
    ensures ReturnFromOneof(p) == r
  {
    match r
    case Fmi2StatusReturn(s) => StatusReturnMessage(s)
    case Fmi2GetRealReturn(s, vs) => GetRealReturnMessage(s, vs)
    case Fmi2GetIntegerReturn(s, vs) => GetIntegerReturnMessage(s, vs)
    case Fmi2GetBooleanReturn(s, vs) => GetBooleanReturnMessage(s, vs)
    case Fmi2GetStringReturn(s, vs) => GetStringReturnMessage(s, vs)
    case Fmi2ExtHandshake => ExtHandshakeMessage
    case Fmi2ExtSerializeSlaveReturn(s, st) => ExtSerializeSlaveReturnMessage(s, st)
  }

  /** The return `oneof`s and the Rust returns correspond one to one. */
  lemma ReturnOneofRoundTrip(p: ReturnOneof)
    ensures ReturnToOneof(ReturnFromOneof(p)) == p
  {
  }

  /** Return, protobuf message to Rust: `result.unwrap()` panics (None here)
      exactly when the `oneof` is unset. */
  function ReturnFromProto(m: ProtoReturn): (r: Option<Fmi2Return>)
    ensures r.None? <==> m.result.None?
  {
    match m.result
    case None => None
    case Some(p) => Some(ReturnFromOneof(p))
  }

  /** Return, Rust to protobuf message: the `oneof` is always set, and the
      message converts back to the same return. */
  function ReturnToProto(r: Fmi2Return): (m: ProtoReturn)
    ensures m.result.Some?
    ensures ReturnFromProto(m) == Some(r)
  {
    ProtoReturn(Some(ReturnToOneof(r)))
  }

  /** A return message with its `oneof` set survives the trip through Rust. */
  lemma ReturnProtoRoundTrip(m: ProtoReturn)
    requires m.result.Some?
    ensures ReturnFromProto(m).Some?
    ensures ReturnToProto(ReturnFromProto(m).value) == m
  {
    ReturnOneofRoundTrip(m.result.value);
  }

  // --------------------------------------------------------------- commands

  /** Command, protobuf `oneof` to Rust. SetupExperiment reads each optional
      double as present only when its flag is set. */
  function CommandFromOneof(p: CommandOneof): Fmi2Command
  {
    match p
    case DoStepMessage(t, h, n) => Fmi2DoStep(t, h, n)
    case SetRealMessage(rs, vs) => Fmi2SetReal(rs, vs)
    case SetIntegerMessage(rs, vs) => Fmi2SetInteger(rs, vs)
    case SetBooleanMessage(rs, vs) => Fmi2SetBoolean(rs, vs)
    case SetStringMessage(rs, vs) => Fmi2SetString(rs, vs)
    case EnterInitializationModeMessage => Fmi2EnterInitializationMode
    case ExitInitializationModeMessage => Fmi2ExitInitializationMode
    case SetupExperimentMessage(start, stop, tol, hasStop, hasTol) =>
      Fmi2SetupExperiment(start, Present(hasStop, stop), Present(hasTol, tol))
    case FreeInstanceMessage => Fmi2FreeInstance
    case GetRealMessage(rs) => Fmi2GetReal(rs)
    case GetIntegerMessage(rs) => Fmi2GetInteger(rs)
    case GetBooleanMessage(rs) => Fmi2GetBoolean(rs)
    case GetStringMessage(rs) => Fmi2GetString(rs)
    case ResetMessage => Fmi2Reset
    case TerminateMessage => Fmi2Terminate
    case CancelStepMessage => Fmi2CancelStep
    case ExtSerializeSlaveMessage => Fmi2ExtSerializeSlave
    case ExtDeserializeSlaveMessage(st) => Fmi2ExtDeserializeSlave(st)
  }

  /** Command, Rust to protobuf `oneof`: the result is canonical and converts
      back to the same command. An absent stop time or tolerance is sent as
      the default double with its flag cleared; a present one with the flag set. */
  function CommandToOneof(c: Fmi2Command): (p: CommandOneof)
    ensures Canonical(p)
    ensures CommandFromOneof(p) == c
    ensures c.Fmi2SetupExperiment? ==>
      p.SetupExperimentMessage?
      && p.hasStopTime == c.stopTime.Some? && p.hasTolerance == c.tolerance.Some?
      && (c.stopTime.None? ==> p.stopTime == DefaultDouble)
      && (c.tolerance.None? ==> p.tolerance == DefaultDouble)
  {
    match c
    case Fmi2DoStep(t, h, n) => DoStepMessage(t, h, n)
    case Fmi2EnterInitializationMode => EnterInitializationModeMessage
    case Fmi2ExitInitializationMode => ExitInitializationModeMessage
    case Fmi2FreeInstance => FreeInstanceMessage
    case Fmi2SetupExperiment(start, stop, tol) =>
      SetupExperimentMessage(start, OrDefault(stop), OrDefault(tol), stop.Some?, tol.Some?)
    case Fmi2SetReal(rs, vs) => SetRealMessage(rs, vs)
    case Fmi2SetInteger(rs, vs) => SetIntegerMessage(rs, vs)
    case Fmi2SetBoolean(rs, vs) => SetBooleanMessage(rs, vs)
    case Fmi2SetString(rs, vs) => SetStringMessage(rs, vs)
    case Fmi2GetReal(rs) => GetRealMessage(rs)
    case Fmi2GetInteger(rs) => GetIntegerMessage(rs)
    case Fmi2GetBoolean(rs) => GetBooleanMessage(rs)
    case Fmi2GetString(rs) => GetStringMessage(rs)
    case Fmi2Reset => ResetMessage
    case Fmi2Terminate => TerminateMessage
    case Fmi2CancelStep => CancelStepMessage
    case Fmi2ExtSerializeSlave => ExtSerializeSlaveMessage
    case Fmi2ExtDeserializeSlave(st) => ExtDeserializeSlaveMessage(st)
  }

  /** A command `oneof` survives the trip through Rust exactly when it is
      canonical: a value sent with its flag cleared is dropped on the way in
      and comes back as the default. */
  lemma CommandOneofRoundTrip(p: CommandOneof)
    ensures CommandToOneof(CommandFromOneof(p)) == p <==> Canonical(p)
  {
  }

  /** Command, protobuf message to Rust: `command.unwrap()` panics (None here)
      exactly when the `oneof` is unset. */
  function CommandFromProto(m: ProtoCommand): (r: Option<Fmi2Command>)
    ensures r.None? <==> m.command.None?
  {
    match m.command
    case None => None
    case Some(p) => Some(CommandFromOneof(p))
  }

  /** Command, Rust to protobuf message: the `oneof` is always set, and the
      message converts back to the same command. */
  function CommandToProto(c: Fmi2Command): (m: ProtoCommand)
    ensures m.command.Some? && Canonical(m.command.value)
    ensures CommandFromProto(m) == Some(c)
  {
    ProtoCommand(Some(CommandToOneof(c)))
  }
}
