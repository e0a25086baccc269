/** What the two older C API libraries (wrapper/src/lib.rs and src/lib.rs)
    have in common: each FMI call becomes a tuple of a function code and its
    arguments, serialized to the backend over a request socket, and the
    decoded answer is handed back; C `int` flags and booleans are turned into
    Rust booleans on the way. */
module LegacyCalls {
  import opened Wrappers
  import opened Bytes
  import opened Floats
  import opened Fmi2Types
  import Fmi2Api

  /** The commands, with the arguments of their tuples. */
  datatype LegacyCommand =
    | SetDebugLogging(categories: seq<string>, flag: bool)
    | SetupExperiment(tolerance: Option<f64>, startTime: f64, stopTime: Option<f64>)
    | FreeInstance
    | EnterInitializationMode
    | ExitInitializationMode
    | Terminate
    | Reset
    | SetReals(refs: seq<int>, reals: seq<f64>)
    | SetIntegers(refs: seq<int>, integers: seq<int>)
    | SetBooleans(refs: seq<int>, booleans: seq<bool>)
    | SetStrings(refs: seq<int>, strings: seq<string>)
    | GetValues(refs: seq<int>)
    | Serialize
    | Deserialize(bytes: seq<byte>)
    | DoStep(currentTime: f64, stepSize: f64, flag: bool)
    | CancelStep
    | GetStatus(kind: int)

  /** How one exchange with the backend ends: the command could not be
      serialized or sent, it was sent but no decodable answer came back, or
      the answer decoded as a `T`. The two failures are panics that
      `catch_unwind` turns into an error. */
  datatype Exchange<T> = NotSent | Unanswered | Answered(value: T)

  /** The request socket of one backend: the commands sent so far. */
  class CommandSocket {
    var sent: seq<LegacyCommand>

    constructor ()
      ensures sent == []
    {
      sent := [];
    }

    /** `execute_fmi_command_return`: the command is sent unless sending
        fails, and the decoded answer is returned when there is one. */
    method Execute<T>(command: LegacyCommand, exchange: Exchange<T>) returns (r: Option<T>)
      modifies this
      ensures sent == old(sent) + (if exchange.NotSent? then [] else [command])
      ensures r.Some? <==> exchange.Answered?
      ensures r.Some? ==> r.value == exchange.value
    {
      if !exchange.NotSent? {
        sent := sent + [command];
      }
      r := if exchange.Answered? then Some(exchange.value) else None;
    }

    /** `execute_fmi_command_status`: the status the backend answers with,
        passed on as the integer it is, or Error when the exchange fails. */
    method ExecuteStatus(command: LegacyCommand, exchange: Exchange<int>) returns (status: int)
      modifies this
      ensures sent == old(sent) + (if exchange.NotSent? then [] else [command])
      ensures exchange.Answered? ==> status == exchange.value
      ensures !exchange.Answered? ==> status == StatusValue(Error)
    {
      var answer := Execute(command, exchange);
      status := if answer.Some? then answer.value else StatusValue(Error);
    }
  }

  /** The function codes of wrapper/src/lib.rs. */
  function WrapperCode(c: LegacyCommand): (n: int)
    ensures 0 <= n <= 16
  {
    match c
    case SetDebugLogging(_, _) => 0
    case SetupExperiment(_, _, _) => 1
    case FreeInstance => 2
    case EnterInitializationMode => 3
    case ExitInitializationMode => 4
    case Terminate => 5
    case Reset => 6
    case SetReals(_, _) => 7
    case SetIntegers(_, _) => 7
    case SetBooleans(_, _) => 7
    case SetStrings(_, _) => 7
    case GetValues(_) => 8
    case Serialize => 9
    case Deserialize(_) => 10
    case DoStep(_, _, _) => 14
    case CancelStep => 15
    case GetStatus(_) => 16
  }

  /** The function codes of src/lib.rs, which knows fewer commands; the
      ones it never sends have none. */
  function SocketCode(c: LegacyCommand): (n: Option<int>)
    ensures n.Some? ==> 0 <= n.value <= 9
  {
    match c
    case SetDebugLogging(_, _) => Some(0)
    case SetupExperiment(_, _, _) => Some(1)
    case EnterInitializationMode => Some(2)
    case ExitInitializationMode => Some(3)
    case Terminate => Some(4)
    case Reset => Some(5)
    case SetReals(_, _) => Some(6)
    case SetIntegers(_, _) => Some(6)
    case SetBooleans(_, _) => Some(6)
    case SetStrings(_, _) => Some(6)
    case GetValues(_) => Some(7)
    case DoStep(_, _, _) => Some(8)
    case FreeInstance => Some(9)
    case _ => None
  }

  /** Commands of different shapes get different codes, except that the four
      setters share one code and tell the backend the type by their values. */
  lemma WrapperCodesDistinguish(c: LegacyCommand, d: LegacyCommand)
    requires WrapperCode(c) == WrapperCode(d)
    requires WrapperCode(c) != 7
    ensures c.SetDebugLogging? == d.SetDebugLogging? && c.SetupExperiment? == d.SetupExperiment?
    ensures c.FreeInstance? == d.FreeInstance? && c.GetValues? == d.GetValues?
    ensures c.Serialize? == d.Serialize? && c.Deserialize? == d.Deserialize?
    ensures c.DoStep? == d.DoStep? && c.GetStatus? == d.GetStatus?
  {
  }

  /** `fmi2SetBoolean` of both libraries: only 1 counts as true. */
  function IntsToBoolsStrict(vs: seq<int>): (r: seq<bool>)
    ensures |r| == |vs|
    ensures forall k :: 0 <= k < |vs| ==> (r[k] <==> vs[k] == 1)
  {
    if vs == [] then [] else [vs[0] == 1] + IntsToBoolsStrict(vs[1..])
  }

  /** On the two values FMI 2.0 defines for a boolean the strict reading
      agrees with the newer library's, which reads every non-zero value as
      true; any other non-zero value is read as false here. */
  lemma StrictAgreesOnFmiBooleans(vs: seq<int>)
    ensures (forall k :: 0 <= k < |vs| ==> vs[k] in {0, 1}) ==> IntsToBoolsStrict(vs) == Fmi2Api.IntsToBools(vs)
    ensures forall k :: 0 <= k < |vs| && vs[k] !in {0, 1} ==> IntsToBoolsStrict(vs)[k] != Fmi2Api.IntsToBools(vs)[k]
  {
  }

  /** A boolean survives the trip to a C `int` (`bool as i32`) and back. */
  lemma StrictBoolsRoundTrip(bs: seq<bool>)
    ensures IntsToBoolsStrict(Fmi2Api.BoolsToInts(bs)) == bs
  {
  }

  /** The `logging_on` of fmi2SetDebugLogging and the `no_set_prior` of
      fmi2DoStep as both libraries send them: true when the C flag is 0. */
  function FlagAsWritten(n: int): (b: bool)
    ensures b <==> !Flag(n)
  {
    n == 0
  }

  /** fmi2True (1) arrives at the backend as false: a backend that is asked
      to turn logging on is told to turn it off. */
  lemma FlagAsWrittenInverts()
    ensures FlagAsWritten(1) == false && FlagAsWritten(0) == true
  {
  }

  /** The flag as the parameter names say and as the newer library sends
      it: true exactly when the C flag is non-zero. */
  function Flag(n: int): (b: bool)
    ensures b <==> n != 0
  {
    n != 0
  }

  /** The C form of a boolean reads back as that boolean through `Flag`,
      and as its negation through `FlagAsWritten`. */
  lemma FlagRoundTrip(b: bool)
    ensures Flag(if b then 1 else 0) == b
    ensures FlagAsWritten(if b then 1 else 0) == !b
  {
  }

  /** `fmi2SetupExperiment` of both libraries: the tolerance and the stop
      time are sent exactly when their flags are non-zero. */
  function SetupExperimentCommand(toleranceDefined: int, tolerance: f64, startTime: f64,
                                  stopTimeDefined: int, stopTime: f64): (c: LegacyCommand)
    ensures c.SetupExperiment? && c.startTime == startTime
    ensures c.tolerance.Some? <==> toleranceDefined != 0
    ensures c.stopTime.Some? <==> stopTimeDefined != 0
    ensures c.tolerance.Some? ==> c.tolerance.value == tolerance
    ensures c.stopTime.Some? ==> c.stopTime.value == stopTime
  {
    SetupExperiment(Fmi2Api.DefinedIf(toleranceDefined, tolerance), startTime,
                    Fmi2Api.DefinedIf(stopTimeDefined, stopTime))
  }
}
