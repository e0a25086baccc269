/** The FMI 2.0 C functions of the Rust API layer (fmiapi/src/fmi2.rs). Each
    forwards to the command dispatcher modelled in Fmi2Dispatching and turns
    its result into what the importer receives; `Slave` keeps the little
    state the functions answer from themselves. The dispatcher `fmi2.rs`
    names (`crate::dispatcher`) is not part of this model: its FMI 2.0
    methods build the same commands and map the replies in the same way as
    fmiapi/src/fmi2_dispatcher.rs, which is modelled instead. */
module Fmi2Api {
  import opened Wrappers
  import opened Bytes
  import opened Floats
  import opened Fmi2Types
  import opened CommandDispatching
  import opened Fmi2Dispatching
  import opened Cells
  import StringConversion

  /** What a C function does: return a status, panic, or write past the end
      of an array the importer passed. */
  datatype Outcome = Returns(status: Fmi2Status) | Panics | WritesOutOfBounds

  /** `.unwrap_or(Fmi2Status::Fmi2Error)`: a dispatch error becomes Error. */
  function OrError(c: Call<Fmi2Status>): (r: Outcome)
    ensures c.Done? ==> r == Returns(c.value)
    ensures c.Failed? ==> r == Returns(Error)
    ensures c.Panicked? ==> r == Panics
  {
    match c
    case Done(s) => Returns(s)
    case Failed(_) => Returns(Error)
    case Panicked => Panics
  }

  /** `Slave`: the dispatcher, the strings last returned by fmi2GetString,
      the last successful time, and the pending message and step status,
      which no function sets. The backend process handle is not modelled. */
  class Slave {
    var stringBuffer: seq<string>
    const dispatcher: Fmi2CommandDispatcher
    var lastSuccessfulTime: Option<f64>
    var pendingMessage: Option<string>
    var dostepStatus: Option<Fmi2Status>

    /** `Slave::new`: empty buffer and no time, message or status. */
    constructor (dispatcher: Fmi2CommandDispatcher)
      ensures this.dispatcher == dispatcher
      ensures stringBuffer == [] && lastSuccessfulTime == None
      ensures pendingMessage == None && dostepStatus == None
    {
      this.dispatcher := dispatcher;
      stringBuffer := [];
      lastSuccessfulTime := None;
      pendingMessage := None;
      dostepStatus := None;
    }
  }

  /** `fmi2FreeInstance`: FreeInstance is sent without awaiting a reply; a
      failed send is only reported on standard error, and a null instance
      does nothing. */
  method FreeInstance(slave: Slave?)
    modifies if slave != null then {slave.dispatcher} else {}
    ensures slave != null ==>
      slave.dispatcher.sent == old(slave.dispatcher.sent) + SentWith(slave.dispatcher.sendFails, Fmi2FreeInstance)
      && slave.dispatcher.incoming == old(slave.dispatcher.incoming)
  {
    if slave != null {
      var sent := slave.dispatcher.Send(Fmi2FreeInstance);
    }
  }

  /** The functions that return the backend's status converted with
      `into`: fmi2EnterInitializationMode, fmi2ExitInitializationMode,
      fmi2Terminate, fmi2Reset, fmi2CancelStep and fmi2SetFMUstate. A
      dispatch error is Error and an unknown status reads as Ok. */
  method Forward(slave: Slave, cmd: Fmi2Command) returns (r: Outcome)
    modifies slave.dispatcher
    ensures r == OrError(IntoStatus(Exchanged(slave.dispatcher.sendFails, old(slave.dispatcher.incoming))))
    ensures ExchangedOnce(slave.dispatcher, cmd)
  {
    var c := slave.dispatcher.SendAndRecv(cmd);
    r := OrError(IntoStatus(c));
  }

  /** The setters and the other functions whose status reply is converted
      with `try_from(..).unwrap()`: an unknown status panics. */
  method ForwardChecked(slave: Slave, cmd: Fmi2Command) returns (r: Outcome)
    modifies slave.dispatcher
    ensures r == OrError(UnwrapStatus(Exchanged(slave.dispatcher.sendFails, old(slave.dispatcher.incoming))))
    ensures ExchangedOnce(slave.dispatcher, cmd)
  {
    var c := slave.dispatcher.SendAndRecv(cmd);
    r := OrError(UnwrapStatus(c));
  }

  /** A failed exchange makes every forwarding function return Error, and
      a status the backend sends as one of the six values is returned as
      that status. */
  lemma ForwardingStatus(c: Call<Fmi2Wire>)
    ensures c.Failed? ==> OrError(IntoStatus(c)) == Returns(Error) && OrError(UnwrapStatus(c)) == Returns(Error)
    ensures c.Done? && 0 <= c.value.status <= 5 ==>
      OrError(IntoStatus(c)) == OrError(UnwrapStatus(c)) == Returns(StatusOfReturn(c.value.status))
    ensures c.Done? && !(0 <= c.value.status <= 5) ==>
      OrError(IntoStatus(c)) == Returns(Ok) && OrError(UnwrapStatus(c)) == Panics
  {
  }

  /** A C `int` flag: `value` when the flag is non-zero. */
  function DefinedIf<T>(flag: int, value: T): (r: Option<T>)
    ensures r.Some? <==> flag != 0
    ensures r.Some? ==> r.value == value
  {
    if flag != 0 then Some(value) else None
  }

  /** `fmi2SetupExperiment`: the tolerance and the stop time are sent
      exactly when their flags are non-zero. */
  method SetupExperiment(slave: Slave, toleranceDefined: int, tolerance: f64, startTime: f64,
                         stopTimeDefined: int, stopTime: f64) returns (r: Outcome)
    modifies slave.dispatcher
    ensures r == OrError(IntoStatus(Exchanged(slave.dispatcher.sendFails, old(slave.dispatcher.incoming))))
    ensures ExchangedOnce(slave.dispatcher,
      Fmi2SetupExperiment(startTime, DefinedIf(stopTimeDefined, stopTime), DefinedIf(toleranceDefined, tolerance)))
  {
    r := Forward(slave, Fmi2SetupExperiment(startTime, DefinedIf(stopTimeDefined, stopTime), DefinedIf(toleranceDefined, tolerance)));
  }

  /** The category pointers of fmi2SetDebugLogging read with
      `CStr::from_ptr(..).to_str().unwrap()`: the texts when every one is
      UTF-8, None when one is not and `unwrap` panics. */
  function ReadCategories(categories: seq<StringConversion.CPtr>): (r: Option<seq<string>>)
    requires forall k | 0 <= k < |categories| :: StringConversion.Terminated(categories[k])
    ensures r.Some? <==> forall k | 0 <= k < |categories| :: StringConversion.C2s(categories[k]).Success?
    ensures r.Some? ==> |r.value| == |categories|
    ensures r.Some? ==> forall k | 0 <= k < |categories| :: r.value[k] == StringConversion.C2s(categories[k]).value
  {
    if categories == [] then Some([])
    else
      var rest := ReadCategories(categories[1..]);
      assert forall k | 1 <= k < |categories| :: categories[k] == categories[1..][k - 1];
      if StringConversion.C2s(categories[0]).Failure? || rest.None? then None
      else Some([StringConversion.C2s(categories[0]).value] + rest.value)
  }

  /** `fmi2SetDebugLogging`: a category that is not UTF-8 panics before
      anything is sent; otherwise the categories are sent with
      `logging_on != 0`. A null category is undefined behaviour in
      `CStr::from_ptr`, so the importer must pass none. */
  method SetDebugLogging(slave: Slave, loggingOn: int, categories: seq<StringConversion.CPtr>) returns (r: Outcome)
    requires forall k | 0 <= k < |categories| :: categories[k].Ptr? && StringConversion.Terminated(categories[k])
    modifies slave.dispatcher
    ensures ReadCategories(categories).None? <==>
      exists k | 0 <= k < |categories| :: StringConversion.C2s(categories[k]) == Failure(StringConversion.Utf8ConversionError)
    ensures ReadCategories(categories).None? ==> r == Panics && unchanged(slave.dispatcher)
    ensures ReadCategories(categories).Some? ==>
      r == OrError(UnwrapStatus(Exchanged(slave.dispatcher.sendFails, old(slave.dispatcher.incoming))))
      && ExchangedOnce(slave.dispatcher, Fmi2SetDebugLogging(ReadCategories(categories).value, loggingOn != 0))
  {
    var read := ReadCategories(categories);
    if read.None? {
      return Panics;
    }
    r := ForwardChecked(slave, Fmi2SetDebugLogging(read.value, loggingOn != 0));
  }

  /** `fmi2DoStep`: the last successful time becomes `current + step` only
      when the backend answers OK or Warning; any other answer, and a
      dispatch error, leaves it as it was. The float addition is `plus`. */
  method DoStep(slave: Slave, currentTime: f64, stepSize: f64, noStepPrior: int, plus: (f64, f64) -> f64)
    returns (r: Outcome)
    modifies slave, slave.dispatcher
    ensures r == OrError(IntoStatus(Exchanged(slave.dispatcher.sendFails, old(slave.dispatcher.incoming))))
    ensures ExchangedOnce(slave.dispatcher, Fmi2DoStep(currentTime, stepSize, noStepPrior != 0))
    ensures slave.lastSuccessfulTime ==
      if r == Returns(Ok) || r == Returns(Warning) then Some(plus(currentTime, stepSize)) else old(slave.lastSuccessfulTime)
    ensures slave.stringBuffer == old(slave.stringBuffer) && slave.dostepStatus == old(slave.dostepStatus)
    ensures slave.pendingMessage == old(slave.pendingMessage)
  {
    r := Forward(slave, Fmi2DoStep(currentTime, stepSize, noStepPrior != 0));
    if r == Returns(Ok) || r == Returns(Warning) {
      slave.lastSuccessfulTime := Some(plus(currentTime, stepSize));
    }
  }

  /** The copy of a getter's reply into the importer's array of `n`
      values: the outcome and the values written, if any. A reply of
      another length than `n` panics in `copy_from_slice`. */
  function CopyOutcome<T>(g: Call<(Fmi2Status, Option<seq<T>>)>, n: nat): (o: (Outcome, Option<seq<T>>))
    ensures o.1.Some? <==> g.Done? && g.value.1.Some? && |g.value.1.value| == n
    ensures o.1.Some? ==> o.1 == g.value.1 && |o.1.value| == n
    ensures o.0.Returns? <==> g.Failed? || (g.Done? && (g.value.1.None? || |g.value.1.value| == n))
    ensures o.0.Returns? ==> o.0.status == (if g.Failed? then Error else g.value.0)
    ensures !o.0.Returns? ==> o.0 == Panics
  {
    match g
    case Failed(_) => (Returns(Error), None)
    case Panicked => (Panics, None)
    case Done((s, None)) => (Returns(s), None)
    case Done((s, Some(vs))) => if |vs| == n then (Returns(s), Some(vs)) else (Panics, None)
  }

  /** Writes a getter's reply into the importer's array. */
  method CopyReply<T>(g: Call<(Fmi2Status, Option<seq<T>>)>, values: array<T>) returns (r: Outcome)
    modifies values
    ensures r == CopyOutcome(g, values.Length).0
    ensures values[..] == if CopyOutcome(g, values.Length).1.Some? then CopyOutcome(g, values.Length).1.value else old(values[..])
  {
    var o := CopyOutcome(g, values.Length);
    if o.1.Some? {
      CopyInto(values, o.1.value);
    }
    r := o.0;
  }

  /** `fmi2GetReal`: `values` is the importer's array of `nvr` values. */
  method GetReal(slave: Slave, references: seq<nat>, values: array<f64>) returns (r: Outcome)
    requires |references| == values.Length
    modifies slave.dispatcher, values
    ensures var o := CopyOutcome(GetterReply(Exchanged(slave.dispatcher.sendFails, old(slave.dispatcher.incoming)), RealsOf), values.Length);
      r == o.0 && values[..] == if o.1.Some? then o.1.value else old(values[..])
    ensures ExchangedOnce(slave.dispatcher, Fmi2GetReal(references))
  {
    var c := slave.dispatcher.SendAndRecv(Fmi2GetReal(references));
    r := CopyReply(GetterReply(c, RealsOf), values);
  }

  /** `fmi2GetInteger`. */
  method GetInteger(slave: Slave, references: seq<nat>, values: array<int>) returns (r: Outcome)
    requires |references| == values.Length
    modifies slave.dispatcher, values
    ensures var o := CopyOutcome(GetterReply(Exchanged(slave.dispatcher.sendFails, old(slave.dispatcher.incoming)), IntegersOf), values.Length);
      r == o.0 && values[..] == if o.1.Some? then o.1.value else old(values[..])
    ensures ExchangedOnce(slave.dispatcher, Fmi2GetInteger(references))
  {
    var c := slave.dispatcher.SendAndRecv(Fmi2GetInteger(references));
    r := CopyReply(GetterReply(c, IntegersOf), values);
  }

  /** fmi2Boolean as a C `int`: true is 1 and false is 0. */
  function BoolsToInts(bs: seq<bool>): (r: seq<int>)
    ensures |r| == |bs|
    ensures forall k :: 0 <= k < |bs| ==> r[k] == if bs[k] then 1 else 0
  {
    if bs == [] then [] else [if bs[0] then 1 else 0] + BoolsToInts(bs[1..])
  }

  /** `fmi2SetBoolean`'s reading of C `int`s: every non-zero value is true. */
  function IntsToBools(vs: seq<int>): (r: seq<bool>)
    ensures |r| == |vs|
    ensures forall k :: 0 <= k < |vs| ==> r[k] == (vs[k] != 0)
  {
    if vs == [] then [] else [vs[0] != 0] + IntsToBools(vs[1..])
  }

  /** A boolean survives the trip to a C `int` and back. */
  lemma BoolsRoundTrip(bs: seq<bool>)
    ensures IntsToBools(BoolsToInts(bs)) == bs
  {
  }

  /** The getter reply of fmi2GetBoolean with its values turned into C
      `int`s. */
  function BooleanReply(g: Call<(Fmi2Status, Option<seq<bool>>)>): (r: Call<(Fmi2Status, Option<seq<int>>)>)
    ensures g.Done? <==> r.Done?
    ensures r.Done? ==> r.value.0 == g.value.0 && (r.value.1.Some? <==> g.value.1.Some?)
    ensures r.Done? && r.value.1.Some? ==> r.value.1.value == BoolsToInts(g.value.1.value)
    ensures g.Failed? ==> r == Failed(g.error)
  {
    match g
    case Done((s, vs)) => Done((s, if vs.Some? then Some(BoolsToInts(vs.value)) else None))
    case Failed(e) => Failed(e)
    case Panicked => Panicked
  }

  /** `fmi2GetBoolean`. */
  method GetBoolean(slave: Slave, references: seq<nat>, values: array<int>) returns (r: Outcome)
    requires |references| == values.Length
    modifies slave.dispatcher, values
    ensures var o := CopyOutcome(BooleanReply(GetterReply(Exchanged(slave.dispatcher.sendFails, old(slave.dispatcher.incoming)), BooleansOf)), values.Length);
      r == o.0 && values[..] == if o.1.Some? then o.1.value else old(values[..])
    ensures ExchangedOnce(slave.dispatcher, Fmi2GetBoolean(references))
  {
    var c := slave.dispatcher.SendAndRecv(Fmi2GetBoolean(references));
    r := CopyReply(BooleanReply(GetterReply(c, BooleansOf)), values);
  }

  /** A string `CString::new` refuses: one holding a NUL character. */
  predicate HasNul(s: string)
  {
    exists k :: 0 <= k < |s| && s[k] == '\0'
  }

  /** What fmi2GetString does with a getter reply and an array of `n`
      string pointers: the outcome and the strings to keep and hand out.
      A string with a NUL character panics in `CString::new`, and more
      strings than `n` are written past the end of the array. */
  function StringOutcome(g: Call<(Fmi2Status, Option<seq<string>>)>, n: nat): (o: (Outcome, Option<seq<string>>))
    ensures o.1.Some? ==> g.Done? && g.value.1 == o.1 && |o.1.value| <= n && o.0 == Returns(g.value.0)
    ensures o.1.Some? ==> forall k :: 0 <= k < |o.1.value| ==> !HasNul(o.1.value[k])
    ensures g.Failed? ==> o == (Returns(Error), None)
    ensures g.Done? && g.value.1.None? ==> o == (Returns(g.value.0), None)
  {
    match g
    case Failed(_) => (Returns(Error), None)
    case Panicked => (Panics, None)
    case Done((s, None)) => (Returns(s), None)
    case Done((s, Some(vs))) =>
      if exists k :: 0 <= k < |vs| && HasNul(vs[k]) then (Panics, None)
      else if |vs| > n then (WritesOutOfBounds, None)
      else (Returns(s), Some(vs))
  }

  /** `fmi2GetString`: the strings are kept in the slave's buffer and the
      importer's array points at them. */
  method GetString(slave: Slave, references: seq<nat>, values: array<string>) returns (r: Outcome)
    requires |references| == values.Length
    modifies slave, slave.dispatcher, values
    ensures var o := StringOutcome(GetterReply(Exchanged(slave.dispatcher.sendFails, old(slave.dispatcher.incoming)), StringsOf), values.Length);
      r == o.0
      && (o.1.Some? ==> slave.stringBuffer == o.1.value && values[..|o.1.value|] == o.1.value
                        && values[|o.1.value|..] == old(values[|o.1.value|..]))
      && (o.1.None? ==> slave.stringBuffer == old(slave.stringBuffer) && values[..] == old(values[..]))
    ensures ExchangedOnce(slave.dispatcher, Fmi2GetString(references))
    ensures slave.lastSuccessfulTime == old(slave.lastSuccessfulTime) && slave.dostepStatus == old(slave.dostepStatus)
    ensures slave.pendingMessage == old(slave.pendingMessage)
  {
    var c := slave.dispatcher.SendAndRecv(Fmi2GetString(references));
    var o := StringOutcome(GetterReply(c, StringsOf), values.Length);
    if o.1.Some? {
      slave.stringBuffer := o.1.value;
      CopyInto(values, o.1.value);
    }
    r := o.0;
  }

  /** `fmi2SetBoolean`: each C `int` is sent as `value != 0`. */
  method SetBoolean(slave: Slave, references: seq<nat>, values: seq<int>) returns (r: Outcome)
    modifies slave.dispatcher
    ensures r == OrError(UnwrapStatus(Exchanged(slave.dispatcher.sendFails, old(slave.dispatcher.incoming))))
    ensures ExchangedOnce(slave.dispatcher, Fmi2SetBoolean(references, IntsToBools(values)))
  {
    r := ForwardChecked(slave, Fmi2SetBoolean(references, IntsToBools(values)));
  }

  /** `fmi2GetRealOutputDerivatives` as written. The reply goes through
      the inverted emptiness test of `DerivativeReplyAsWritten`, so the
      derivatives the backend sends are dropped and the status is returned;
      an empty list is copied, which panics unless `nvr` is 0. The
      importer's array is never written. */
  method GetRealOutputDerivatives(slave: Slave, references: seq<nat>, orders: seq<int>, values: array<f64>)
    returns (r: Outcome)
    requires |references| == |orders| == values.Length
    modifies slave.dispatcher, values
    ensures r == CopyOutcome(DerivativeReplyAsWritten(Exchanged(slave.dispatcher.sendFails, old(slave.dispatcher.incoming))), values.Length).0
    ensures values[..] == old(values[..])
    ensures var c := Exchanged(slave.dispatcher.sendFails, old(slave.dispatcher.incoming));
      c.Done? && 0 <= c.value.status <= 5 ==>
        if RealsOf(c.value.values) != [] || values.Length == 0 then r.Returns? && StatusValue(r.status) == c.value.status
        else r == Panics
    ensures ExchangedOnce(slave.dispatcher, Fmi2GetRealOutputDerivatives(references, orders))
  {
    var c := slave.dispatcher.SendAndRecv(Fmi2GetRealOutputDerivatives(references, orders));
    r := CopyReply(DerivativeReplyAsWritten(c), values);
  }

  /** `fmi2GetRealOutputDerivatives` with the reply mapped as the other
      getters map theirs. */
  method GetRealOutputDerivativesCorrected(slave: Slave, references: seq<nat>, orders: seq<int>, values: array<f64>)
    returns (r: Outcome)
    requires |references| == |orders| == values.Length
    modifies slave.dispatcher, values
    ensures var o := CopyOutcome(GetterReply(Exchanged(slave.dispatcher.sendFails, old(slave.dispatcher.incoming)), RealsOf), values.Length);
      r == o.0 && values[..] == if o.1.Some? then o.1.value else old(values[..])
    ensures ExchangedOnce(slave.dispatcher, Fmi2GetRealOutputDerivatives(references, orders))
  {
    var c := slave.dispatcher.SendAndRecv(Fmi2GetRealOutputDerivatives(references, orders));
    r := CopyReply(GetterReply(c, RealsOf), values);
  }

  /** The command fmi2GetDirectionalDerivative sends as written: the known
      references go into the unknown field and the first `nvr_known` unknown
      references into the known field, because the dispatcher's parameters
      are given in the opposite order and the unknown array is read with
      the known count. */
  function DirectionalCommandAsWritten(unknownRefs: seq<nat>, knownRefs: seq<nat>, directionKnown: seq<f64>): (cmd: Fmi2Command)
    requires |knownRefs| <= |unknownRefs|
    ensures cmd.Fmi2GetDirectionalDerivatives?
    ensures cmd.referencesUnknown == knownRefs && cmd.referencesKnown == unknownRefs[..|knownRefs|]
  {
    Fmi2GetDirectionalDerivatives(knownRefs, unknownRefs[..|knownRefs|], directionKnown)
  }

  /** With one unknown and one known reference the backend is asked for the
      derivative of the known variable with respect to the unknown one. */
  lemma DirectionalCommandSwapped(unknown: nat, known: nat, d: f64)
    requires unknown != known
    ensures DirectionalCommandAsWritten([unknown], [known], [d]).referencesUnknown != [unknown]
  {
  }

  /** The command fmi2GetDirectionalDerivative evidently intends: each
      reference list in its own field. */
  function DirectionalCommand(unknownRefs: seq<nat>, knownRefs: seq<nat>, directionKnown: seq<f64>): (cmd: Fmi2Command)
    ensures cmd.Fmi2GetDirectionalDerivatives?
    ensures cmd.referencesUnknown == unknownRefs && cmd.referencesKnown == knownRefs && cmd.directionKnown == directionKnown
  {
    Fmi2GetDirectionalDerivatives(unknownRefs, knownRefs, directionKnown)
  }

  /** The intended command carries both lists whole, and agrees with the
      command as written only when the two lists are the same. */
  lemma DirectionalCommandFaithful(unknownRefs: seq<nat>, knownRefs: seq<nat>, directionKnown: seq<f64>)
    requires |knownRefs| <= |unknownRefs|
    ensures (DirectionalCommand(unknownRefs, knownRefs, directionKnown)
             == DirectionalCommandAsWritten(unknownRefs, knownRefs, directionKnown)) <==> unknownRefs == knownRefs
  {
  }

  /** `fmi2GetDirectionalDerivative` as written. Every array is read with
      the known count `nvr_known`, so the unknown references and the
      importer's array of unknowns must hold at least that many entries.
      The command is `DirectionalCommandAsWritten`, and the reply goes
      through the inverted emptiness test of `DerivativeReplyAsWritten`: a
      reply with values becomes None and reaches `todo!()`, and an empty
      one is copied into the first `nvr_known` unknowns, which panics unless
      that count is 0. So the call never returns a derivative: it answers
      Error when the exchange fails, the status when there are no known
      references and the reply is empty, and panics otherwise. */
  method GetDirectionalDerivative(slave: Slave, unknownRefs: seq<nat>, knownRefs: seq<nat>, directionKnown: seq<f64>,
                                  directionUnknown: array<f64>) returns (r: Outcome)
    requires |directionKnown| == |knownRefs| <= |unknownRefs| == directionUnknown.Length
    modifies slave.dispatcher
    ensures var g := DerivativeReplyAsWritten(Exchanged(slave.dispatcher.sendFails, old(slave.dispatcher.incoming)));
      r == (if g.Done? && g.value.1.None? then Panics else CopyOutcome(g, |knownRefs|).0)
    ensures var c := Exchanged(slave.dispatcher.sendFails, old(slave.dispatcher.incoming));
      (r.Returns? <==> c.Failed? || (c.Done? && 0 <= c.value.status <= 5 && RealsOf(c.value.values) == [] && knownRefs == []))
      && (c.Failed? ==> r == Returns(Error))
    ensures ExchangedOnce(slave.dispatcher, DirectionalCommandAsWritten(unknownRefs, knownRefs, directionKnown))
  {
    var c := slave.dispatcher.SendAndRecv(DirectionalCommandAsWritten(unknownRefs, knownRefs, directionKnown));
    var g := DerivativeReplyAsWritten(c);
    // The only list that is copied is empty, so no unknown is written.
    r := CopyOutcome(g, |knownRefs|).0;
    if g.Done? && g.value.1.None? {
      r := Panics;
    }
  }

  /** `fmi2GetDirectionalDerivative` with the intended command and the
      getters' reply mapping: a reply with no values reaches `todo!()` and
      panics; otherwise the values are copied into the importer's array of
      unknowns. */
  method GetDirectionalDerivativeCorrected(slave: Slave, unknownRefs: seq<nat>, knownRefs: seq<nat>, directionKnown: seq<f64>,
                                           directionUnknown: array<f64>) returns (r: Outcome)
    requires |directionKnown| == |knownRefs| && directionUnknown.Length == |unknownRefs|
    modifies slave.dispatcher, directionUnknown
    ensures var g := GetterReply(Exchanged(slave.dispatcher.sendFails, old(slave.dispatcher.incoming)), RealsOf);
      var o := CopyOutcome(g, directionUnknown.Length);
      r == (if g.Done? && g.value.1.None? then Panics else o.0)
      && directionUnknown[..] == if o.1.Some? then o.1.value else old(directionUnknown[..])
    ensures ExchangedOnce(slave.dispatcher, DirectionalCommand(unknownRefs, knownRefs, directionKnown))
  {
    var c := slave.dispatcher.SendAndRecv(DirectionalCommand(unknownRefs, knownRefs, directionKnown));
    var g := GetterReply(c, RealsOf);
    r := CopyReply(g, directionUnknown);
    if g.Done? && g.value.1.None? {
      r := Panics;
    }
  }

  /** `fmi2GetFMUstate`: whatever the status, the backend's bytes overwrite
      the state the variable holds, or become a new state. */
  method GetFmuState(slave: Slave, cell: StateCell) returns (r: Outcome)
    modifies slave.dispatcher, cell, cell.state
    ensures var g := SerializeReply(Exchanged(slave.dispatcher.sendFails, old(slave.dispatcher.incoming)));
      r == (if g.Done? then Returns(g.value.0) else if g.Failed? then Returns(Error) else Panics)
      && (g.Done? ==> cell.state != null && cell.state.bytes == g.value.1
                      && (old(cell.state) != null ==> cell.state == old(cell.state))
                      && (old(cell.state) == null ==> fresh(cell.state)))
      && (!g.Done? ==> cell.state == old(cell.state) && (cell.state != null ==> cell.state.bytes == old(cell.state.bytes)))
    ensures ExchangedOnce(slave.dispatcher, Fmi2SerializeFmuState)
  {
    var c := slave.dispatcher.SendAndRecv(Fmi2SerializeFmuState);
    var g := SerializeReply(c);
    match g
    case Done((s, bytes)) =>
      if cell.state != null {
        cell.state.bytes := bytes;
      } else {
        cell.state := new SlaveState(bytes);
      }
      r := Returns(s);
    case Failed(_) =>
      r := Returns(Error);
    case Panicked =>
      r := Panics;
  }

  /** `fmi2FreeFMUstate`: the state is dropped, null or not, and the
      variable is left to the importer. */
  method FreeFmuState(state: SlaveState?) returns (r: Outcome)
    ensures r == Returns(Ok)
  {
    r := Returns(Ok);
  }

  /** `fmi2SerializeFMUstate`: a state longer than `size` is an Error;
      otherwise it is copied to the front of the importer's buffer. */
  method SerializeFmuState(state: SlaveState, data: array<byte>, size: nat) returns (r: Outcome)
    requires size <= data.Length
    modifies data
    ensures |state.bytes| > size ==> r == Returns(Error) && data[..] == old(data[..])
    ensures |state.bytes| <= size ==>
      r == Returns(Ok) && data[..|state.bytes|] == state.bytes && data[|state.bytes|..] == old(data[|state.bytes|..])
  {
    if |state.bytes| > size {
      return Returns(Error);
    }
    CopyInto(data, state.bytes);
    r := Returns(Ok);
  }

  /** `fmi2DeSerializeFMUstate`: the variable receives a new state holding
      the bytes. */
  method DeserializeFmuState(serialized: seq<byte>, cell: StateCell) returns (r: Outcome)
    modifies cell
    ensures r == Returns(Ok) && cell.state != null && fresh(cell.state) && cell.state.bytes == serialized
  {
    cell.state := new SlaveState(serialized);
    r := Returns(Ok);
  }

  /** `fmi2SerializedFMUstateSize`: the number of bytes of the state. */
  method SerializedFmuStateSize(state: SlaveState) returns (r: Outcome, size: nat)
    ensures r == Returns(Ok) && size == |state.bytes|
  {
    r := Returns(Ok);
    size := |state.bytes|;
  }

  /** Serializing a state into a buffer of its reported size and
      deserializing that buffer gives a state with the same bytes. */
  method SerializeRoundTrip(state: SlaveState) returns (restored: SlaveState)
    ensures restored.bytes == state.bytes
  {
    var r, size := SerializedFmuStateSize(state);
    var data := new byte[size];
    r := SerializeFmuState(state, data, size);
    var cell := new StateCell(null);
    r := DeserializeFmuState(data[..], cell);
    restored := cell.state;
  }

  /** `fmi2GetStatus`: only the DoStep status kind is answered, from the
      stored step status; anything else is Error. */
  function GetStatus(slave: Slave, kind: Fmi2StatusKind): (s: Fmi2Status)
    reads slave
    ensures kind == DoStepStatus && slave.dostepStatus.Some? ==> s == slave.dostepStatus.value
    ensures kind != DoStepStatus || slave.dostepStatus.None? ==> s == Error
  {
    if kind == DoStepStatus && slave.dostepStatus.Some? then slave.dostepStatus.value else Error
  }

  /** `fmi2GetRealStatus`: only the last successful time is answered, and
      only once a step has succeeded; the value is written then. */
  method GetRealStatus(slave: Slave, kind: Fmi2StatusKind, value: Float64Cell) returns (s: Fmi2Status)
    modifies value
    ensures kind == LastSuccessfulTime && slave.lastSuccessfulTime.Some? ==>
      s == Ok && value.value == slave.lastSuccessfulTime.value
    ensures !(kind == LastSuccessfulTime && slave.lastSuccessfulTime.Some?) ==>
      s == Error && value.value == old(value.value)
  {
    if kind == LastSuccessfulTime && slave.lastSuccessfulTime.Some? {
      value.value := slave.lastSuccessfulTime.value;
      return Ok;
    }
    s := Error;
  }

  /** A slave whose last step succeeded answers fmi2GetRealStatus with the
      time the step reached. */
  method StepThenAskTime(slave: Slave, currentTime: f64, stepSize: f64, plus: (f64, f64) -> f64, value: Float64Cell)
    returns (r: Outcome, s: Fmi2Status)
    requires value != slave.dispatcher as object && value != slave as object
    modifies slave, slave.dispatcher, value
    ensures r == Returns(Ok) ==> s == Ok && value.value == plus(currentTime, stepSize)
    ensures r.Returns? && r.status !in {Ok, Warning} && old(slave.lastSuccessfulTime).None? ==> s == Error
  {
    r := DoStep(slave, currentTime, stepSize, 0, plus);
    s := GetRealStatus(slave, LastSuccessfulTime, value);
  }

  /** `fmi2GetIntegerStatus`: there is no integer status kind. */
  function GetIntegerStatus(kind: int): (r: Outcome)
    ensures r == Returns(Error)
  {
    Returns(Error)
  }

  /** `fmi2GetBooleanStatus`: not implemented, reported as Discard. */
  function GetBooleanStatus(kind: Fmi2StatusKind): (r: Outcome)
    ensures r == Returns(Discard)
  {
    Returns(Discard)
  }

  /** `fmi2GetStringStatus`: `todo!()`. */
  function GetStringStatus(kind: int): (r: Outcome)
    ensures r == Panics
  {
    Panics
  }
}
