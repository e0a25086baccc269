/** The FMI 3.0 C functions of the Rust API layer that do more than forward
    a command (fmiapi/src/fmi3/mod.rs): status parsing, the status-only
    commands, getter reply checks, fmi3DoStep's output arguments, the
    FMU-state buffers, fmi3SetDebugLogging and the resource path. The
    importer's pointers are nullable cells and arrays. */
module Fmi3Api {
  import opened Wrappers
  import opened Bytes
  import opened Floats
  import opened Fmi3Types
  import opened Logging
  import opened CategoryFilters
  import opened Dispatching
  import opened ProtobufExtensions
  import opened SlaveDispatch
  import opened Fmi3Slaves
  import opened StringConversion
  import opened Narrowing
  import opened Cells

  /** `Fmi3Status::escalate_status`, which the getters, `fmi3DoStep` and
      `fmi3GetFMUState` call (fmiapi/src/fmi3/mod.rs:648 and :652 among
      others) but whose definition is not part of this model. It is read
      here as the more severe of the two statuses, in the order the enum
      declares them and `is_fault` compares them: OK, Warning, Discard,
      Error, Fatal. */
  function Escalate(s: Fmi3Status, t: Fmi3Status): (r: Fmi3Status)
    ensures r == s || r == t
    ensures !StatusLess(r, s) && !StatusLess(r, t)
  {
    if StatusLess(s, t) then t else s
  }

  /** What the callers rely on, under that reading of `escalate_status`:
      escalating by Error (a reply of the wrong length) always gives a
      fault; escalating by Warning (an empty reply, a null out-pointer)
      never gives OK and keeps a status that is already Warning or worse;
      escalating again by the same status changes nothing; and a fault is
      never escalated away. */
  lemma EscalateAbsorbs(s: Fmi3Status, t: Fmi3Status)
    ensures IsFault(Escalate(s, Fmi3Error))
    ensures Escalate(s, Fmi3Warning) != Fmi3OK
    ensures s != Fmi3OK ==> Escalate(s, Fmi3Warning) == s
    ensures Escalate(Escalate(s, t), t) == Escalate(s, t)
    ensures IsFault(s) || IsFault(t) ==> IsFault(Escalate(s, t))
  {
  }

  /** The status `parse_status` reads from the raw integer of a reply: its
      own status when the integer is one of 0..4, otherwise Fatal. */
  function StatusOrFatal(n: int): (s: Fmi3Status)
    ensures StatusValue(s) == n || (s == Fmi3Fatal && !(0 <= n <= 4))
  {
    match StatusFromValue(n)
    case Some(s) => s
    case None => Fmi3Fatal
  }

  /** Every status survives the wire as its value. */
  lemma StatusOrFatalRoundTrip(s: Fmi3Status)
    ensures StatusOrFatal(StatusValue(s)) == s
  {
    StatusValueRoundTrip(s);
  }

  /** Decimal digits of an integer, for log messages. */
  function DecimalText(n: int): (r: string)
    ensures |r| > 0
    decreases if n < 0 then 1 - n else n
  {
    if n < 0 then "-" + DecimalText(-n)
    else if n < 10 then ["0123456789"[n]]
    else DecimalText(n / 10) + ["0123456789"[n % 10]]
  }

  function UnknownStatusMessage(n: int): string
  {
    "Unknown status [" + DecimalText(n) + "] returned from backend."
  }

  /** `parse_status`: an unknown integer is logged as fatal and read as
      Fatal. */
  method ParseStatus(logger: Logger<Fmi3Status, Fmi3LogCategory>, n: int) returns (s: Fmi3Status)
    requires IsFmi3Logger(logger)
    modifies logger
    ensures s == StatusOrFatal(n) && logger.filter == old(logger.filter)
    ensures StatusFromValue(n).Some? ==> logger.delivered == old(logger.delivered)
    ensures StatusFromValue(n).None? ==>
      logger.delivered == old(logger.delivered) + logger.Emitted(Fmi3Fatal, LogStatusFatal, UnknownStatusMessage(n))
  {
    match StatusFromValue(n)
    case Some(status) =>
      s := status;
    case None =>
      logger.LogAt(SevFatal, UnknownStatusMessage(n));
      s := Fmi3Fatal;
  }

  /** A dispatch result with the reply's raw status parsed. */
  function Parsed(r: Result<Fmi3Payload, SlaveError>): (q: Result<(Fmi3Status, Fmi3Payload), SlaveError>)
    ensures q.Success? <==> r.Success?
    ensures q.Success? ==> q.value == (StatusOrFatal(r.value.status), r.value)
  {
    match r
    case Success(p) => Success((StatusOrFatal(p.status), p))
    case Failure(e) => Failure(e)
  }

  /** The reply a C function reads for `command`, given the dispatcher's
      state before the call. */
  function Answer(sendFault: Option<DispatcherError>, incoming: seq<Received<Fmi3ReturnVariant, ProtoFmi3Status, Fmi3Payload>>,
                  expected: Fmi3ReturnVariant): Result<(Fmi3Status, Fmi3Payload), SlaveError>
  {
    Parsed(DispatchResult(sendFault, incoming, expected))
  }

  /** The exchange every forwarding C function starts with: `dispatch`,
      then `parse_status` on a reply, or an error log on a failure. */
  method Exchange(instance: Fmi3Slave, command: Fmi3Command, expected: Fmi3ReturnVariant, functionName: string)
    returns (r: Result<(Fmi3Status, Fmi3Payload), SlaveError>)
    requires instance.Valid()
    modifies instance.dispatcher, instance.logger
    ensures r == Answer(old(instance.dispatcher.sendFault), old(instance.dispatcher.incoming), expected)
    ensures instance.dispatcher.sent == old(instance.dispatcher.sent)
      + SentFor(old(instance.dispatcher.sendFault), old(instance.dispatcher.incoming), command, Fmi3CallbackContinue)
    ensures instance.logger.filter == old(instance.logger.filter)
    ensures old(instance.logger.delivered) <= instance.logger.delivered
  {
    var d := instance.Dispatch(command, expected);
    match d
    case Success(p) =>
      var s := ParseStatus(instance.logger, p.status);
      r := Success((s, p));
    case Failure(e) =>
      instance.logger.LogAt(SevError, FailedMessage(functionName, e));
      r := Failure(e);
  }

  /** The error logged when a C function's dispatch fails. */
  function FailedMessage(functionName: string, e: SlaveError): string
  {
    functionName + " failed with error: " + SlaveErrorText(e) + "."
  }

  function SlaveErrorText(e: SlaveError): string
  {
    match e
    case DispatchError(d) => "dispatch error: " + ErrorText(d)
    case ReturnError => "unknown return message from backend"
  }

  /** What `send_cmd_recv_status` returns: the parsed status of the reply,
      or Error when the dispatch failed. */
  function StatusReply(r: Result<(Fmi3Status, Fmi3Payload), SlaveError>): (s: Fmi3Status)
    ensures r.Failure? ==> s == Fmi3Error
    ensures r.Success? ==> s == r.value.0
  {
    if r.Success? then r.value.0 else Fmi3Error
  }

  /** `send_cmd_recv_status`. */
  method SendCmdRecvStatus(instance: Fmi3Slave, command: Fmi3Command, functionName: string) returns (status: Fmi3Status)
    requires instance.Valid()
    modifies instance.dispatcher, instance.logger
    ensures status == StatusReply(Answer(old(instance.dispatcher.sendFault), old(instance.dispatcher.incoming), Status))
    ensures instance.dispatcher.sent == old(instance.dispatcher.sent)
      + SentFor(old(instance.dispatcher.sendFault), old(instance.dispatcher.incoming), command, Fmi3CallbackContinue)
    ensures instance.logger.filter == old(instance.logger.filter)
    ensures old(instance.logger.delivered) <= instance.logger.delivered
  {
    var r := Exchange(instance, command, Status, functionName);
    status := StatusReply(r);
  }

  /** A failed exchange or a reply whose status is out of range is never
      read as a success. */
  lemma StatusReplyFaults(r: Result<Fmi3Payload, SlaveError>)
    ensures r.Failure? ==> IsFault(StatusReply(Parsed(r)))
    ensures r.Success? && !(0 <= r.value.status <= 4) ==> StatusReply(Parsed(r)) == Fmi3Fatal
    ensures r.Success? && 0 <= r.value.status <= 4 ==> StatusValue(StatusReply(Parsed(r))) == r.value.status
  {
  }

  /** Each category pointer of fmi3SetDebugLogging read as a string. */
  function ReadAll(cs: seq<CPtr>): (r: seq<Result<string, StringConversionError>>)
    requires forall k :: 0 <= k < |cs| ==> Terminated(cs[k])
    ensures |r| == |cs| && forall k :: 0 <= k < |cs| ==> r[k] == C2s(cs[k])
  {
    if cs == [] then [] else [C2s(cs[0])] + ReadAll(cs[1..])
  }

  /** The categories read as log categories; the first entry that could not
      be read stops the conversion with its error. */
  function ParseCategories(read: seq<Result<string, StringConversionError>>): (r: Result<seq<Fmi3LogCategory>, string>)
    ensures r.Success? <==> forall k :: 0 <= k < |read| ==> read[k].Success?
    ensures r.Success? ==> |r.value| == |read|
    ensures r.Success? ==> forall k :: 0 <= k < |read| ==> r.value[k] == FromStr(read[k].value)
  {
    if read == [] then Success([])
    else
      var tail := ParseCategories(read[1..]);
      assert forall k :: 1 <= k < |read| ==> read[k] == read[1..][k - 1];
      if read[0].Failure? then
        Failure(if read[0].error == NullError then "one of the categories was null"
                else "one of the categories could not be parsed as an utf-8 formatted string")
      else if tail.Failure? then Failure(tail.error)
      else Success([FromStr(read[0].value)] + tail.value)
  }

  function Names(cs: seq<Fmi3LogCategory>): (r: seq<string>)
    ensures |r| == |cs| && forall k :: 0 <= k < |cs| ==> r[k] == StrName(cs[k])
  {
    if cs == [] then [] else [StrName(cs[0])] + Names(cs[1..])
  }

  /** A category read from a name and written back gives the same name, so
      the backend receives exactly the strings the importer passed. */
  lemma NamesOfParsed(read: seq<Result<string, StringConversionError>>)
    requires ParseCategories(read).Success?
    ensures |Names(ParseCategories(read).value)| == |read|
    ensures forall k :: 0 <= k < |read| ==> read[k].Success? && Names(ParseCategories(read).value)[k] == read[k].value
  {
  }

  /** `fmi3SetDebugLogging`. A category that cannot be read stops the call
      with Error before the filter changes or anything is sent. With no
      categories every category is enabled, whether logging is switched on
      or off, because `disable_all_categories` as written installs an empty
      blacklist; otherwise only the listed ones are toggled. The names are
      then sent to the backend. */
  method SetDebugLogging(instance: Fmi3Slave, loggingOn: bool, categories: seq<CPtr>) returns (status: Fmi3Status)
    requires instance.Valid()
    requires forall k :: 0 <= k < |categories| ==> Terminated(categories[k])
    modifies instance.dispatcher, instance.logger
    ensures ParseCategories(ReadAll(categories)).Failure? ==>
      status == Fmi3Error && instance.logger.filter == old(instance.logger.filter)
      && instance.dispatcher.sent == old(instance.dispatcher.sent)
    ensures ParseCategories(ReadAll(categories)).Success? ==>
      var parsed := ParseCategories(ReadAll(categories)).value;
      (forall c :: instance.logger.filter.Enabled(c) <==>
        if categories == [] then true
        else if loggingOn then c in parsed || old(instance.logger.filter).Enabled(c)
        else c !in parsed && old(instance.logger.filter).Enabled(c))
      && status == StatusReply(Answer(old(instance.dispatcher.sendFault), old(instance.dispatcher.incoming), Status))
      && instance.dispatcher.sent == old(instance.dispatcher.sent)
         + SentFor(old(instance.dispatcher.sendFault), old(instance.dispatcher.incoming), Fmi3SetDebugLogging(Names(parsed), loggingOn), Fmi3CallbackContinue)
    ensures old(instance.logger.delivered) <= instance.logger.delivered
  {
    var names: seq<string> := [];
    if |categories| > 0 {
      match ParseCategories(ReadAll(categories))
      case Failure(e) =>
        instance.logger.LogAt(SevError, "Couldn't parse categories; " + e);
        return Fmi3Error;
      case Success(parsed) =>
        names := Names(parsed);
        if loggingOn {
          instance.logger.EnableCategories(parsed);
        } else {
          instance.logger.DisableCategories(parsed);
        }
    } else if loggingOn {
      instance.logger.EnableAllCategories();
    } else {
      instance.logger.DisableAllCategoriesAsWritten();
    }
    status := SendCmdRecvStatus(instance, Fmi3SetDebugLogging(names, loggingOn), "fmi3SetDebugLogging");
  }


  /** `fmi3SetDebugLogging` with `disable_all_categories` corrected: with
      no categories every category is enabled or disabled as `loggingOn`
      says; everything else as in `SetDebugLogging`. */
  method SetDebugLoggingCorrected(instance: Fmi3Slave, loggingOn: bool, categories: seq<CPtr>) returns (status: Fmi3Status)
    requires instance.Valid()
    requires forall k :: 0 <= k < |categories| ==> Terminated(categories[k])
    modifies instance.dispatcher, instance.logger
    ensures ParseCategories(ReadAll(categories)).Failure? ==>
      status == Fmi3Error && instance.logger.filter == old(instance.logger.filter)
      && instance.dispatcher.sent == old(instance.dispatcher.sent)
    ensures ParseCategories(ReadAll(categories)).Success? ==>
      var parsed := ParseCategories(ReadAll(categories)).value;
      (forall c :: instance.logger.filter.Enabled(c) <==>
        if categories == [] then loggingOn
        else if loggingOn then c in parsed || old(instance.logger.filter).Enabled(c)
        else c !in parsed && old(instance.logger.filter).Enabled(c))
      && status == StatusReply(Answer(old(instance.dispatcher.sendFault), old(instance.dispatcher.incoming), Status))
      && instance.dispatcher.sent == old(instance.dispatcher.sent)
         + SentFor(old(instance.dispatcher.sendFault), old(instance.dispatcher.incoming), Fmi3SetDebugLogging(Names(parsed), loggingOn), Fmi3CallbackContinue)
    ensures old(instance.logger.delivered) <= instance.logger.delivered
  {
    var names: seq<string> := [];
    if |categories| > 0 {
      match ParseCategories(ReadAll(categories))
      case Failure(e) =>
        instance.logger.LogAt(SevError, "Couldn't parse categories; " + e);
        return Fmi3Error;
      case Success(parsed) =>
        names := Names(parsed);
        if loggingOn {
          instance.logger.EnableCategories(parsed);
        } else {
          instance.logger.DisableCategories(parsed);
        }
    } else if loggingOn {
      instance.logger.EnableAllCategories();
    } else {
      instance.logger.DisableAllCategories();
    }
    status := SendCmdRecvStatus(instance, Fmi3SetDebugLogging(names, loggingOn), "fmi3SetDebugLogging");
  }

  /** The checks a getter applies to a reply whose status is `status`: when
      the status says outputs are defined, a non-empty reply is copied if it
      has exactly `nValues` values and escalates to Error otherwise, and an
      empty reply escalates to Warning. `defined` is what
      `output_is_defined` answers for `status`; that function is not part
      of this model and is a parameter of the callers. Returns the status
      and what is copied. */
  function GetterOutcome<T>(status: Fmi3Status, defined: bool, nValues: nat, reply: seq<T>): (r: (Fmi3Status, Option<seq<T>>))
    ensures r.1.Some? <==> defined && reply != [] && |reply| == nValues
    ensures r.1.Some? ==> r.1.value == reply && r.0 == status
    ensures !defined ==> r.0 == status
    ensures defined && reply != [] && |reply| != nValues ==> r.0 == Escalate(status, Fmi3Error)
    ensures defined && reply == [] ==> r.0 == Escalate(status, Fmi3Warning)
  {
    if !defined then (status, None)
    else if reply == [] then (Escalate(status, Fmi3Warning), None)
    else if |reply| == nValues then (status, Some(reply))
    else (Escalate(status, Fmi3Error), None)
  }

  /** Under the reading of `escalate_status` as the more severe status
      (see Escalate): a getter never reports a status below the backend's,
      a reply of the wrong length with defined outputs is always a fault,
      an empty one is never OK, and values are copied only when they fill
      the buffer. */
  lemma GetterOutcomeSeverity<T>(status: Fmi3Status, defined: bool, nValues: nat, reply: seq<T>)
    ensures !StatusLess(GetterOutcome(status, defined, nValues, reply).0, status)
    ensures defined && reply != [] && |reply| != nValues ==> IsFault(GetterOutcome(status, defined, nValues, reply).0)
    ensures defined && reply == [] ==> GetterOutcome(status, defined, nValues, reply).0 != Fmi3OK
    ensures GetterOutcome(status, defined, nValues, reply).1.Some? ==> |GetterOutcome(status, defined, nValues, reply).1.value| == nValues
  {
  }

  /** The name of a getter's C function, which its log messages start with. */
  function GetterName(kind: Fmi3ReturnVariant): (name: string)
    ensures |name| > 0
  {
    match kind
    case GetFloat64 => "fmi3GetFloat64"
    case GetInt8 => "fmi3GetInt8"
    case GetUInt8 => "fmi3GetUInt8"
    case GetInt16 => "fmi3GetInt16"
    case GetUInt16 => "fmi3GetUInt16"
    case GetInt32 => "fmi3GetInt32"
    case GetUInt32 => "fmi3GetUInt32"
    case GetInt64 => "fmi3GetInt64"
    case GetUInt64 => "fmi3GetUInt64"
    case _ => "fmi3Get"
  }

  /** The warning a getter logs when the reply holds no values. */
  function NoValuesMessage(name: string): string
  {
    name + " returned no values."
  }

  /** The error a getter logs when the reply holds another number of values
      than the importer's array. */
  function CountMismatchMessage(name: string, got: nat, expected: nat): string
  {
    name + " returned " + DecimalText(got) + " values, but " + DecimalText(expected) + " was expected"
  }

  /** The status and written values of fmi3GetFloat64 for a dispatch
      result; a reply of another shape is read as a failed dispatch. */
  function Float64Outcome(r: Result<(Fmi3Status, Fmi3Payload), SlaveError>, outputIsDefined: Fmi3Status -> bool, nValues: nat): (g: (Fmi3Status, Option<seq<f64>>))
    ensures g.1.Some? ==> |g.1.value| == nValues
    ensures !(r.Success? && r.value.1.Float64sPayload?) ==> g == (Fmi3Error, None)
  {
    match r
    case Success((s, Float64sPayload(_, vs))) => GetterOutcome(s, outputIsDefined(s), nValues, vs)
    case _ => (Fmi3Error, None)
  }

  /** `fmi3GetFloat64`: `values` is the importer's array of `n_values`
      elements; `outputIsDefined` is `Fmi3Status::output_is_defined`, whose
      definition is not part of this model. */
  method GetFloat64(instance: Fmi3Slave, valueReferences: seq<nat>, values: array<f64>,
                    outputIsDefined: Fmi3Status -> bool) returns (status: Fmi3Status)
    requires instance.Valid()
    modifies instance.dispatcher, instance.logger, values
    ensures var g := Float64Outcome(Answer(old(instance.dispatcher.sendFault), old(instance.dispatcher.incoming), ProtobufExtensions.GetFloat64),
                                    outputIsDefined, values.Length);
      status == g.0 && values[..] == (if g.1.Some? then g.1.value else old(values[..]))
    ensures instance.dispatcher.sent == old(instance.dispatcher.sent)
      + SentFor(old(instance.dispatcher.sendFault), old(instance.dispatcher.incoming), Fmi3Get(ProtobufExtensions.GetFloat64, valueReferences), Fmi3CallbackContinue)
    ensures instance.logger.filter == old(instance.logger.filter)
  {
    var r := Exchange(instance, Fmi3Get(ProtobufExtensions.GetFloat64, valueReferences), ProtobufExtensions.GetFloat64, GetterName(ProtobufExtensions.GetFloat64));
    match r
    case Success((s, Float64sPayload(_, vs))) =>
      var g := GetterOutcome(s, outputIsDefined(s), values.Length, vs);
      if g.1.Some? {
        CopyInto(values, vs);
      } else if outputIsDefined(s) {
        if vs == [] {
          instance.logger.LogAt(SevWarning, NoValuesMessage(GetterName(ProtobufExtensions.GetFloat64)));
        } else {
          instance.logger.LogAt(SevError, CountMismatchMessage(GetterName(ProtobufExtensions.GetFloat64), |vs|, values.Length));
        }
      }
      status := g.0;
    case _ =>
      status := Fmi3Error;
  }

  /** The integer getters and the cast each applies to the 32-bit values
      of its reply: Int8 to UInt16 narrow with `as`, wider types are copied
      unchanged. */
  function GetterCast(kind: Fmi3ReturnVariant): Option<IntType>
  {
    match kind
    case GetInt8 => Some(I8)
    case GetUInt8 => Some(U8)
    case GetInt16 => Some(I16)
    case GetUInt16 => Some(U16)
    case _ => None
  }

  predicate IntegerGetter(kind: Fmi3ReturnVariant)
  {
    kind in {GetInt8, GetUInt8, GetInt16, GetUInt16, GetInt32, GetUInt32, GetInt64, GetUInt64}
  }

  /** The values an integer getter copies out of its reply, cast first. */
  function CastReply(kind: Fmi3ReturnVariant, vs: seq<int>): (r: seq<int>)
    ensures |r| == |vs|
    ensures GetterCast(kind).Some? ==> forall k :: 0 <= k < |vs| ==> InRange(GetterCast(kind).value, r[k])
    ensures GetterCast(kind).None? ==> r == vs
  {
    match GetterCast(kind)
    case Some(t) => CastAll(t, vs)
    case None => vs
  }

  function IntegersOutcome(kind: Fmi3ReturnVariant, r: Result<(Fmi3Status, Fmi3Payload), SlaveError>,
                           outputIsDefined: Fmi3Status -> bool, nValues: nat): (g: (Fmi3Status, Option<seq<int>>))
    ensures g.1.Some? ==> |g.1.value| == nValues
    ensures !(r.Success? && r.value.1.IntegersPayload?) ==> g == (Fmi3Error, None)
  {
    match r
    case Success((s, IntegersPayload(_, vs))) =>
      GetterOutcome(s, outputIsDefined(s), nValues, CastReply(kind, vs))
    case _ => (Fmi3Error, None)
  }

  /** `fmi3GetInt8` to `fmi3GetUInt64`: as `GetFloat64`, with the values
      cast to the getter's type before the length check. */
  method GetIntegers(instance: Fmi3Slave, kind: Fmi3ReturnVariant, valueReferences: seq<nat>, values: array<int>,
                     outputIsDefined: Fmi3Status -> bool) returns (status: Fmi3Status)
    requires instance.Valid() && IntegerGetter(kind)
    modifies instance.dispatcher, instance.logger, values
    ensures var g := IntegersOutcome(kind, Answer(old(instance.dispatcher.sendFault), old(instance.dispatcher.incoming), kind),
                                     outputIsDefined, values.Length);
      status == g.0 && values[..] == (if g.1.Some? then g.1.value else old(values[..]))
    ensures instance.dispatcher.sent == old(instance.dispatcher.sent)
      + SentFor(old(instance.dispatcher.sendFault), old(instance.dispatcher.incoming), Fmi3Get(kind, valueReferences), Fmi3CallbackContinue)
    ensures instance.logger.filter == old(instance.logger.filter)
  {
    var r := Exchange(instance, Fmi3Get(kind, valueReferences), kind, GetterName(kind));
    match r
    case Success((s, IntegersPayload(_, vs))) =>
      var cast := CastReply(kind, vs);
      var g := GetterOutcome(s, outputIsDefined(s), values.Length, cast);
      if g.1.Some? {
        CopyInto(values, cast);
      } else if outputIsDefined(s) {
        if cast == [] {
          instance.logger.LogAt(SevWarning, NoValuesMessage(GetterName(kind)));
        } else {
          instance.logger.LogAt(SevError, CountMismatchMessage(GetterName(kind), |cast|, values.Length));
        }
      }
      status := g.0;
    case _ =>
      status := Fmi3Error;
  }

  /** The status of fmi3DoStep: with defined outputs, each of the four
      output pointers that is null escalates to Warning. */
  function DoStepStatus(r: Result<(Fmi3Status, Fmi3Payload), SlaveError>, outputIsDefined: Fmi3Status -> bool, anyNull: bool): (s: Fmi3Status)
    ensures !(r.Success? && r.value.1.DoStepPayload?) ==> s == Fmi3Error
  {
    match r
    case Success((s, DoStepPayload(_, _, _, _, _))) =>
      if outputIsDefined(s) && anyNull then Escalate(s, Fmi3Warning) else s
    case _ => Fmi3Error
  }

  /** `fmi3DoStep`. When the reply's status has defined outputs, each
      non-null output pointer receives the reply's field and each null one
      escalates the status to Warning; otherwise nothing is written. The
      slave's own `last_successful_time` is left untouched. */
  method DoStep(instance: Fmi3Slave, currentCommunicationPoint: f64, communicationStepSize: f64,
                noSetFmuStatePriorToCurrentPoint: bool,
                eventHandlingNeeded: BoolCell?, terminateSimulation: BoolCell?, earlyReturn: BoolCell?,
                lastSuccessfulTime: Float64Cell?, outputIsDefined: Fmi3Status -> bool)
    returns (status: Fmi3Status)
    requires instance.Valid()
    requires eventHandlingNeeded != terminateSimulation || eventHandlingNeeded == null
    requires eventHandlingNeeded != earlyReturn || eventHandlingNeeded == null
    requires terminateSimulation != earlyReturn || terminateSimulation == null
    modifies instance.dispatcher, instance.logger, eventHandlingNeeded, terminateSimulation, earlyReturn, lastSuccessfulTime
    ensures var r := Answer(old(instance.dispatcher.sendFault), old(instance.dispatcher.incoming), ProtobufExtensions.DoStep);
      var anyNull := eventHandlingNeeded == null || terminateSimulation == null || earlyReturn == null || lastSuccessfulTime == null;
      status == DoStepStatus(r, outputIsDefined, anyNull)
      && if r.Success? && r.value.1.DoStepPayload? && outputIsDefined(r.value.0) then
           (eventHandlingNeeded != null ==> eventHandlingNeeded.value == r.value.1.eventHandlingNeeded)
           && (terminateSimulation != null ==> terminateSimulation.value == r.value.1.terminateSimulation)
           && (earlyReturn != null ==> earlyReturn.value == r.value.1.earlyReturn)
           && (lastSuccessfulTime != null ==> lastSuccessfulTime.value == r.value.1.lastSuccessfulTime)
         else
           (eventHandlingNeeded != null ==> eventHandlingNeeded.value == old(eventHandlingNeeded.value))
           && (terminateSimulation != null ==> terminateSimulation.value == old(terminateSimulation.value))
           && (earlyReturn != null ==> earlyReturn.value == old(earlyReturn.value))
           && (lastSuccessfulTime != null ==> lastSuccessfulTime.value == old(lastSuccessfulTime.value))
    ensures instance.dispatcher.sent == old(instance.dispatcher.sent)
      + SentFor(old(instance.dispatcher.sendFault), old(instance.dispatcher.incoming),
                Fmi3DoStep(currentCommunicationPoint, communicationStepSize, noSetFmuStatePriorToCurrentPoint), Fmi3CallbackContinue)
    ensures instance.logger.filter == old(instance.logger.filter)
  {
    var cmd := Fmi3DoStep(currentCommunicationPoint, communicationStepSize, noSetFmuStatePriorToCurrentPoint);
    var r := Exchange(instance, cmd, ProtobufExtensions.DoStep, "fmi3DoStep");
    match r
    case Success((s, p)) =>
      status := s;
      if p.DoStepPayload? && outputIsDefined(s) {
        status := WriteStepOutputs(s, p, eventHandlingNeeded, terminateSimulation, earlyReturn, lastSuccessfulTime);
      } else if !p.DoStepPayload? {
        status := Fmi3Error;
      }
    case Failure(_) =>
      status := Fmi3Error;
  }

  /** The output-pointer writes of `fmi3DoStep`, in the source's order. */
  method WriteStepOutputs(status: Fmi3Status, p: Fmi3Payload,
                          eventHandlingNeeded: BoolCell?, terminateSimulation: BoolCell?, earlyReturn: BoolCell?,
                          lastSuccessfulTime: Float64Cell?)
    returns (s: Fmi3Status)
    requires p.DoStepPayload?
    requires eventHandlingNeeded != terminateSimulation || eventHandlingNeeded == null
    requires eventHandlingNeeded != earlyReturn || eventHandlingNeeded == null
    requires terminateSimulation != earlyReturn || terminateSimulation == null
    modifies eventHandlingNeeded, terminateSimulation, earlyReturn, lastSuccessfulTime
    ensures s == (if eventHandlingNeeded == null || terminateSimulation == null || earlyReturn == null || lastSuccessfulTime == null
                  then Escalate(status, Fmi3Warning) else status)
    ensures eventHandlingNeeded != null ==> eventHandlingNeeded.value == p.eventHandlingNeeded
    ensures terminateSimulation != null ==> terminateSimulation.value == p.terminateSimulation
    ensures earlyReturn != null ==> earlyReturn.value == p.earlyReturn
    ensures lastSuccessfulTime != null ==> lastSuccessfulTime.value == p.lastSuccessfulTime
  {
    s := status;
    if lastSuccessfulTime != null { lastSuccessfulTime.value := p.lastSuccessfulTime; } else { s := Escalate(s, Fmi3Warning); }
    if eventHandlingNeeded != null { eventHandlingNeeded.value := p.eventHandlingNeeded; } else { s := Escalate(s, Fmi3Warning); }
    if terminateSimulation != null { terminateSimulation.value := p.terminateSimulation; } else { s := Escalate(s, Fmi3Warning); }
    if earlyReturn != null { earlyReturn.value := p.earlyReturn; } else { s := Escalate(s, Fmi3Warning); }
  }

  /** The messages logged by the FMU-state functions. */
  const GetStateNullMessage := "fmi3GetFMUstate called with state pointing to null!"
  const SetStateNullMessage := "fmi3SetFMUstate called with state pointing to null!"
  const FreeStateNullMessage := "fmi3FreeFMUstate called with state pointing to null!"
  const StateTooBigMessage := "Error while calling fmi3SerializeFMUstate: FMUstate too big to be contained in given byte vector."
  const DeserializeStateNullMessage := "fmi3DeSerializeFMUstate called with state pointing to null!"

  /** The reply of fmi3GetFMUState's exchange read as a state: the status,
      and the bytes to store when the status has defined outputs. */
  function StateOutcome(r: Result<(Fmi3Status, Fmi3Payload), SlaveError>, outputIsDefined: Fmi3Status -> bool): (g: (Fmi3Status, Option<seq<byte>>))
    ensures !(r.Success? && r.value.1.StatePayload?) ==> g == (Fmi3Error, None)
    ensures g.1.Some? ==> !(g.0 == Fmi3Error && r.Failure?)
  {
    match r
    case Success((s, StatePayload(_, bytes))) => (s, if outputIsDefined(s) then Some(bytes) else None)
    case _ => (Fmi3Error, None)
  }

  /** `fmi3GetFMUState`: a null instance or state variable is an Error;
      otherwise the backend's serialized state overwrites the state the
      variable holds, or becomes a new state when it holds null. */
  method GetFmuState(instance: Fmi3Slave?, cell: StateCell?, outputIsDefined: Fmi3Status -> bool) returns (status: Fmi3Status)
    requires instance != null ==> instance.Valid()
    modifies if instance != null then {instance.dispatcher, instance.logger} else {}
    modifies cell, if cell != null && cell.state != null then {cell.state} else {}
    ensures instance == null || cell == null ==> status == Fmi3Error && (cell != null ==> cell.state == old(cell.state))
    ensures instance != null && cell != null ==>
      var g := StateOutcome(Answer(old(instance.dispatcher.sendFault), old(instance.dispatcher.incoming), ProtobufExtensions.SerializeFmuState), outputIsDefined);
      status == g.0
      && (g.1.Some? ==> cell.state != null && cell.state.bytes == g.1.value
                        && (old(cell.state) != null ==> cell.state == old(cell.state))
                        && (old(cell.state) == null ==> fresh(cell.state)))
      && (g.1.None? ==> cell.state == old(cell.state) && (cell.state != null ==> cell.state.bytes == old(cell.state.bytes)))
  {
    if instance == null {
      return Fmi3Error;
    }
    if cell == null {
      instance.logger.LogAt(SevError, GetStateNullMessage);
      return Fmi3Error;
    }
    var r := Exchange(instance, Fmi3SerializeFmuState, ProtobufExtensions.SerializeFmuState, "fmi3GetFMUstate");
    var g := StateOutcome(r, outputIsDefined);
    status := g.0;
    if g.1.Some? {
      if cell.state != null {
        cell.state.bytes := g.1.value;
      } else {
        cell.state := new SlaveState(g.1.value);
      }
    }
  }

  /** `fmi3SetFMUState`: the state's bytes are sent to the backend. */
  method SetFmuState(instance: Fmi3Slave?, state: SlaveState?) returns (status: Fmi3Status)
    requires instance != null ==> instance.Valid()
    modifies if instance != null then {instance.dispatcher, instance.logger} else {}
    ensures instance == null || state == null ==> status == Fmi3Error
    ensures instance != null && state != null ==>
      status == StatusReply(Answer(old(instance.dispatcher.sendFault), old(instance.dispatcher.incoming), Status))
      && instance.dispatcher.sent == old(instance.dispatcher.sent)
         + SentFor(old(instance.dispatcher.sendFault), old(instance.dispatcher.incoming), Fmi3DeserializeFmuState(state.bytes), Fmi3CallbackContinue)
    ensures instance != null && state == null ==> instance.dispatcher.sent == old(instance.dispatcher.sent)
  {
    if instance == null {
      return Fmi3Error;
    }
    if state == null {
      instance.logger.LogAt(SevError, SetStateNullMessage);
      return Fmi3Error;
    }
    status := SendCmdRecvStatus(instance, Fmi3DeserializeFmuState(state.bytes), "fmi3SetFMUState");
  }

  /** `fmi3FreeFMUState`: always OK; the variable is set to null unless the
      instance or the variable is null. */
  method FreeFmuState(instance: Fmi3Slave?, cell: StateCell?) returns (status: Fmi3Status)
    requires instance != null ==> instance.Valid()
    modifies if instance != null then {instance.logger} else {}
    modifies cell
    ensures status == Fmi3OK
    ensures cell != null ==> cell.state == (if instance == null then old(cell.state) else null)
  {
    if instance == null {
      return Fmi3OK;
    }
    if cell == null || cell.state == null {
      instance.logger.LogAt(SevOk, FreeStateNullMessage);
      return Fmi3OK;
    }
    cell.state := null;
    status := Fmi3OK;
  }

  /** `fmi3SerializedFMUStateSize`: the number of bytes of the state. */
  method SerializedFmuStateSize(state: SlaveState) returns (status: Fmi3Status, size: nat)
    ensures status == Fmi3OK && size == |state.bytes|
  {
    status := Fmi3OK;
    size := |state.bytes|;
  }

  /** `fmi3SerializeFMUState`: `buffer` is the importer's array of `size`
      bytes. A state longer than `size` is an Error and nothing is written;
      otherwise the state is copied to the front of the buffer. */
  method SerializeFmuState(instance: Fmi3Slave, state: SlaveState, buffer: array<byte>, size: nat) returns (status: Fmi3Status)
    requires instance.Valid() && size <= buffer.Length
    modifies instance.logger, buffer
    ensures |state.bytes| > size ==> status == Fmi3Error && buffer[..] == old(buffer[..])
    ensures |state.bytes| <= size ==>
      status == Fmi3OK && buffer[..|state.bytes|] == state.bytes
      && buffer[|state.bytes|..] == old(buffer[|state.bytes|..])
  {
    var n := |state.bytes|;
    if n > size {
      instance.logger.LogAt(SevError, StateTooBigMessage);
      return Fmi3Error;
    }
    CopyInto(buffer, state.bytes);
    status := Fmi3OK;
  }

  /** `fmi3DeserializeFMUState`: a null state variable is an Error; a
      variable holding null receives a new state, any other has its state's
      bytes overwritten. */
  method DeserializeFmuState(instance: Fmi3Slave, serialized: seq<byte>, cell: StateCell?) returns (status: Fmi3Status)
    requires instance.Valid()
    modifies instance.logger, cell, if cell != null && cell.state != null then {cell.state} else {}
    ensures cell == null <==> status == Fmi3Error
    ensures cell != null ==>
      status == Fmi3OK && cell.state != null && cell.state.bytes == serialized
      && (old(cell.state) != null ==> cell.state == old(cell.state))
      && (old(cell.state) == null ==> fresh(cell.state))
  {
    if cell == null {
      instance.logger.LogAt(SevError, DeserializeStateNullMessage);
      return Fmi3Error;
    }
    if cell.state == null {
      cell.state := new SlaveState(serialized);
    } else {
      cell.state.bytes := serialized;
    }
    status := Fmi3OK;
  }

  /** Serializing a state into a buffer of its own size and deserializing
      the buffer into an empty variable gives a state with the same bytes. */
  method SerializeRoundTrip(instance: Fmi3Slave, state: SlaveState) returns (restored: SlaveState)
    requires instance.Valid()
    modifies instance.logger
    ensures restored.bytes == state.bytes
  {
    var status, size := SerializedFmuStateSize(state);
    var buffer := new byte[size];
    status := SerializeFmuState(instance, state, buffer, size);
    var cell := new StateCell(null);
    status := DeserializeFmuState(instance, buffer[..], cell);
    restored := cell.state;
  }

  /** The URI schemes fmi3InstantiateCoSimulation recognises at the start of
      its resource path. */
  const UriPrefixes: seq<string> := ["file:", "http:", "https:", "ftp:", "fmi2:"]

  predicate HasUriPrefix(path: string)
  {
    exists k :: 0 <= k < |UriPrefixes| && UriPrefixes[k] <= path
  }

  /** The resources directory read from the resource path: a string with a
      recognised scheme is a URI, of which only `file` is accepted and turned
      into a path by `fileUriToPath` (`Url::parse` followed by
      `to_file_path`, not part of this model); any other string is the path
      itself. None stands for the logged error that ends instantiation. */
  function ResourcesDir(path: string, fileUriToPath: string -> Option<string>): (r: Option<string>)
    ensures !HasUriPrefix(path) ==> r == Some(path)
    ensures "file:" <= path ==> r == fileUriToPath(path)
    ensures HasUriPrefix(path) && !("file:" <= path) ==> r == None
  {
    if "file:" <= path then
      assert UriPrefixes[0] == "file:";
      fileUriToPath(path)
    else if HasUriPrefix(path) then None
    else Some(path)
  }

  /** A Windows path with a drive letter, and a scheme written in upper
      case, are plain paths. */
  lemma DriveLetterIsPlainPath(path: string, fileUriToPath: string -> Option<string>)
    requires |path| >= 2 && path[1] == ':'
    ensures ResourcesDir(path, fileUriToPath) == Some(path)
  {
    forall k | 0 <= k < |UriPrefixes|
      ensures !(UriPrefixes[k] <= path)
    {
      assert UriPrefixes[k][1] != ':';
    }
  }
}
