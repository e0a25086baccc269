/** The FMU-state buffer and the conversions of the older C API library
    wrapper/src/lib.rs. Each slave keeps the states the environment stored
    in a map from state handles to bytes; `insert_next` picks the handle of
    a new entry. The registry of slaves and `fmi2Instantiate` are not part
    of this model: every operation is given its slave. */
module SerializationWrapper {
  import opened Wrappers
  import opened Bytes
  import opened Floats
  import opened Fmi2Types
  import opened LegacyCalls
  import Fmi2Api

  /** `std::i32::MAX`: `insert_next` tries the keys 0 .. I32Max - 1. */
  const I32Max := 0x7fff_ffff

  const NoFreeKeys := "No free keys available"

  class WrapperSlave {
    const socket: CommandSocket
    var stringBuffer: seq<string>
    var serializationBuffer: map<int, seq<byte>>

    /** `Slave::new`: both buffers empty. */
    constructor (socket: CommandSocket)
      ensures this.socket == socket && stringBuffer == [] && serializationBuffer == map[]
    {
      this.socket := socket;
      stringBuffer := [];
      serializationBuffer := map[];
    }

    /** `insert_next`: the value goes under the smallest key of
        0 .. i32::MAX - 1 that is not taken, and that key is returned; when
        every key is taken the map is left alone and an error returned. */
    method InsertNext(value: seq<byte>) returns (r: Result<int, string>)
      modifies this
      ensures r.Success? ==>
        0 <= r.value < I32Max && r.value !in old(serializationBuffer)
        && (forall k :: 0 <= k < r.value ==> k in old(serializationBuffer))
        && serializationBuffer == old(serializationBuffer)[r.value := value]
      ensures r.Failure? ==>
        r.error == NoFreeKeys && serializationBuffer == old(serializationBuffer)
        && forall k :: 0 <= k < I32Max ==> k in old(serializationBuffer)
      ensures stringBuffer == old(stringBuffer)
    {
      for i := 0 to I32Max
        invariant serializationBuffer == old(serializationBuffer)
        invariant forall k :: 0 <= k < i ==> k in serializationBuffer
      {
        if i !in serializationBuffer {
          serializationBuffer := serializationBuffer[i := value];
          return Success(i);
        }
      }
      return Failure(NoFreeKeys);
    }

    /** `fmi2GetFMUstate`: the backend's serialized state overwrites the
        buffer of an existing handle, or is stored under a new handle that is
        written back; a failed exchange or a full map is Fatal. The status
        the backend sends with the bytes is ignored. */
    method GetFmuState(state: Option<int>, exchange: Exchange<(seq<byte>, int)>)
      returns (status: int, stateAfter: Option<int>)
      modifies this, socket
      ensures socket.sent == old(socket.sent) + (if exchange.NotSent? then [] else [Serialize])
      ensures !exchange.Answered? ==>
        status == StatusValue(Fatal) && stateAfter == state && serializationBuffer == old(serializationBuffer)
      ensures exchange.Answered? && state.Some? ==>
        status == StatusValue(Ok) && stateAfter == state
        && serializationBuffer == old(serializationBuffer)[state.value := exchange.value.0]
      ensures exchange.Answered? && state.None? && stateAfter.Some? ==>
        status == StatusValue(Ok) && stateAfter.value !in old(serializationBuffer)
        && serializationBuffer == old(serializationBuffer)[stateAfter.value := exchange.value.0]
      ensures exchange.Answered? && state.None? && stateAfter.None? ==>
        status == StatusValue(Fatal) && serializationBuffer == old(serializationBuffer)
        && forall k :: 0 <= k < I32Max ==> k in old(serializationBuffer)
      ensures stringBuffer == old(stringBuffer)
    {
      var answer := socket.Execute(Serialize, exchange);
      if answer.None? {
        return StatusValue(Fatal), state;
      }
      var bytes := answer.value.0;
      match state
      case Some(h) =>
        serializationBuffer := serializationBuffer[h := bytes];
        return StatusValue(Ok), state;
      case None =>
        var inserted := InsertNext(bytes);
        if inserted.Failure? {
          return StatusValue(Fatal), None;
        }
        return StatusValue(Ok), Some(inserted.value);
    }

    /** `fmi2SetFMUstate`: the stored bytes are sent to the backend to be
        deserialized; a handle without bytes (nothing is sent) or a failed
        exchange is Fatal, and the backend's status is ignored. */
    method SetFmuState(state: int, exchange: Exchange<int>) returns (status: int)
      modifies socket
      ensures state !in serializationBuffer ==> status == StatusValue(Fatal) && socket.sent == old(socket.sent)
      ensures state in serializationBuffer ==>
        socket.sent == old(socket.sent)
          + (if exchange.NotSent? then [] else [Deserialize(serializationBuffer[state])])
        && status == if exchange.Answered? then StatusValue(Ok) else StatusValue(Fatal)
    {
      if state !in serializationBuffer {
        return StatusValue(Fatal);
      }
      var answer := socket.Execute(Deserialize(serializationBuffer[state]), exchange);
      status := if answer.Some? then StatusValue(Ok) else StatusValue(Fatal);
    }

    /** `fmi2FreeFMUstate`, given the handle `*state` points to or None for a
        null `state`: a null pointer is an OK no-op; a stored handle is
        removed and the pointer nulled; an unknown handle is Fatal and
        changes nothing. */
    method FreeFmuState(state: Option<int>) returns (status: int, stateAfter: Option<int>)
      modifies this
      ensures state.None? ==> status == StatusValue(Ok) && stateAfter == None && serializationBuffer == old(serializationBuffer)
      ensures state.Some? && state.value in old(serializationBuffer) ==>
        status == StatusValue(Ok) && stateAfter == None
        && serializationBuffer == old(serializationBuffer) - {state.value}
      ensures state.Some? && state.value !in old(serializationBuffer) ==>
        status == StatusValue(Fatal) && stateAfter == state && serializationBuffer == old(serializationBuffer)
      ensures stringBuffer == old(stringBuffer)
    {
      match state
      case None =>
        return StatusValue(Ok), None;
      case Some(h) =>
        if h !in serializationBuffer {
          return StatusValue(Fatal), state;
        }
        serializationBuffer := serializationBuffer - {h};
        return StatusValue(Ok), None;
    }

    /** `fmi2SerializeFMUstate`: the stored bytes of the handle are copied
        out, all of them whatever `size` the environment passes (the copy
        overruns a smaller buffer); an unknown handle is Fatal. */
    method SerializeFmuState(state: int, size: int) returns (status: int, data: Option<seq<byte>>, overruns: bool)
      ensures state in serializationBuffer ==>
        status == StatusValue(Ok) && data == Some(serializationBuffer[state])
      ensures state !in serializationBuffer ==> status == StatusValue(Fatal) && data == None
      ensures overruns <==> data.Some? && |data.value| > size
    {
      if state !in serializationBuffer {
        return StatusValue(Fatal), None, false;
      }
      var bytes := serializationBuffer[state];
      return StatusValue(Ok), Some(bytes), |bytes| > size;
    }

    /** `fmi2DeSerializeFMUstate`: the bytes are stored under a new handle,
        which is written back; a full map is Fatal. */
    method DeserializeFmuState(bytes: seq<byte>) returns (status: int, state: Option<int>)
      modifies this
      ensures state.Some? ==>
        status == StatusValue(Ok) && state.value !in old(serializationBuffer)
        && serializationBuffer == old(serializationBuffer)[state.value := bytes]
      ensures state.None? ==>
        status == StatusValue(Fatal) && serializationBuffer == old(serializationBuffer)
        && forall k :: 0 <= k < I32Max ==> k in old(serializationBuffer)
      ensures stringBuffer == old(stringBuffer)
    {
      var inserted := InsertNext(bytes);
      if inserted.Failure? {
        return StatusValue(Fatal), None;
      }
      return StatusValue(Ok), Some(inserted.value);
    }

    /** `fmi2SerializedFMUstateSize`: the number of stored bytes; an unknown
        handle is Fatal. */
    method SerializedFmuStateSize(state: int) returns (status: int, size: Option<nat>)
      ensures state in serializationBuffer ==> status == StatusValue(Ok) && size == Some(|serializationBuffer[state]|)
      ensures state !in serializationBuffer ==> status == StatusValue(Fatal) && size == None
    {
      if state !in serializationBuffer {
        return StatusValue(Fatal), None;
      }
      return StatusValue(Ok), Some(|serializationBuffer[state]|);
    }

    /** Deserializing bytes and serializing the handle that comes back gives
        the same bytes, and the size reported is their number. */
    method DeserializeThenSerialize(bytes: seq<byte>) returns (data: Option<seq<byte>>, size: Option<nat>)
      modifies this
      ensures data.None? ==> forall k :: 0 <= k < I32Max ==> k in old(serializationBuffer)
      ensures data.Some? ==> data.value == bytes && size == Some(|bytes|)
    {
      var status, state := DeserializeFmuState(bytes);
      if state.None? {
        return None, None;
      }
      var s, overruns;
      s, data, overruns := SerializeFmuState(state.value, |bytes|);
      s, size := SerializedFmuStateSize(state.value);
    }

    /** `fmi2SetBoolean`: only 1 is sent as true. */
    method SetBoolean(refs: seq<int>, values: seq<int>, exchange: Exchange<int>) returns (status: int)
      modifies socket
      ensures socket.sent == old(socket.sent)
        + (if exchange.NotSent? then [] else [SetBooleans(refs, IntsToBoolsStrict(values))])
      ensures exchange.Answered? ==> status == exchange.value
      ensures !exchange.Answered? ==> status == StatusValue(Error)
    {
      status := socket.ExecuteStatus(SetBooleans(refs, IntsToBoolsStrict(values)), exchange);
    }

    /** `fmi2GetBoolean`: the booleans of the answer are written one by one
        as C `int`s; an answer shorter than the request panics at the first
        missing value, after writing the ones before it, and is an Error. */
    method GetBoolean(refs: seq<int>, exchange: Exchange<seq<bool>>) returns (status: int, written: seq<int>)
      modifies socket
      ensures socket.sent == old(socket.sent) + (if exchange.NotSent? then [] else [GetValues(refs)])
      ensures !exchange.Answered? ==> status == StatusValue(Error) && written == []
      ensures exchange.Answered? && |refs| <= |exchange.value| ==>
        status == StatusValue(Ok) && written == Fmi2Api.BoolsToInts(exchange.value[..|refs|])
      ensures exchange.Answered? && |refs| > |exchange.value| ==>
        status == StatusValue(Error) && written == Fmi2Api.BoolsToInts(exchange.value)
    {
      var answer := socket.Execute(GetValues(refs), exchange);
      if answer.None? {
        return StatusValue(Error), [];
      }
      var bools := answer.value;
      written := [];
      for i := 0 to |refs|
        invariant i <= |bools| && written == Fmi2Api.BoolsToInts(bools[..i])
        invariant socket.sent == old(socket.sent) + [GetValues(refs)]
      {
        if i >= |bools| {
          assert bools[..i] == bools;
          return StatusValue(Error), written;
        }
        written := written + [if bools[i] then 1 else 0];
        BoolsToIntsAppend(bools[..i], bools[i]);
        assert bools[..i + 1] == bools[..i] + [bools[i]];
      }
      status := StatusValue(Ok);
    }

    /** `fmi2SetDebugLogging` as written: the categories are sent with
        the logging flag inverted (`FlagAsWritten`), so an importer that
        switches logging on tells the backend to switch it off. */
    method SetDebugLogging(loggingOn: int, categories: seq<string>, exchange: Exchange<int>) returns (status: int)
      modifies socket
      ensures socket.sent == old(socket.sent)
        + (if exchange.NotSent? then [] else [LegacyCommand.SetDebugLogging(categories, FlagAsWritten(loggingOn))])
      ensures !exchange.NotSent? ==> (socket.sent[|socket.sent| - 1].flag <==> loggingOn == 0)
      ensures exchange.Answered? ==> status == exchange.value
      ensures !exchange.Answered? ==> status == StatusValue(Error)
    {
      status := socket.ExecuteStatus(LegacyCommand.SetDebugLogging(categories, FlagAsWritten(loggingOn)), exchange);
    }

    /** `fmi2SetDebugLogging` corrected: the flag is sent as its parameter
        name says. */
    method SetDebugLoggingCorrected(loggingOn: int, categories: seq<string>, exchange: Exchange<int>) returns (status: int)
      modifies socket
      ensures socket.sent == old(socket.sent)
        + (if exchange.NotSent? then [] else [LegacyCommand.SetDebugLogging(categories, Flag(loggingOn))])
      ensures exchange.Answered? ==> status == exchange.value
      ensures !exchange.Answered? ==> status == StatusValue(Error)
    {
      status := socket.ExecuteStatus(LegacyCommand.SetDebugLogging(categories, Flag(loggingOn)), exchange);
    }

    /** `fmi2DoStep` as written: the step is sent with the no-set-prior flag
        inverted (`FlagAsWritten`), so `noSetFMUStatePriorToCurrentPoint =
        fmi2True` reaches the backend as false. */
    method DoStep(currentTime: f64, stepSize: f64, noSetPrior: int, exchange: Exchange<int>) returns (status: int)
      modifies socket
      ensures socket.sent == old(socket.sent)
        + (if exchange.NotSent? then [] else [LegacyCommand.DoStep(currentTime, stepSize, FlagAsWritten(noSetPrior))])
      ensures !exchange.NotSent? ==> (socket.sent[|socket.sent| - 1].flag <==> noSetPrior == 0)
      ensures exchange.Answered? ==> status == exchange.value
      ensures !exchange.Answered? ==> status == StatusValue(Error)
    {
      status := socket.ExecuteStatus(LegacyCommand.DoStep(currentTime, stepSize, FlagAsWritten(noSetPrior)), exchange);
    }

    /** `fmi2DoStep` corrected: the no-set-prior flag is sent as its
        parameter name says. */
    method DoStepCorrected(currentTime: f64, stepSize: f64, noSetPrior: int, exchange: Exchange<int>) returns (status: int)
      modifies socket
      ensures socket.sent == old(socket.sent)
        + (if exchange.NotSent? then [] else [LegacyCommand.DoStep(currentTime, stepSize, Flag(noSetPrior))])
      ensures exchange.Answered? ==> status == exchange.value
      ensures !exchange.Answered? ==> status == StatusValue(Error)
    {
      status := socket.ExecuteStatus(LegacyCommand.DoStep(currentTime, stepSize, Flag(noSetPrior)), exchange);
    }
  }

  /** Appending a boolean appends its C `int`. */
  lemma {:induction false} BoolsToIntsAppend(bs: seq<bool>, b: bool)
    ensures Fmi2Api.BoolsToInts(bs + [b]) == Fmi2Api.BoolsToInts(bs) + [if b then 1 else 0]
  {
    var r, s := Fmi2Api.BoolsToInts(bs + [b]), Fmi2Api.BoolsToInts(bs) + [if b then 1 else 0];
    assert |r| == |s|;
    forall k | 0 <= k < |r|
      ensures r[k] == s[k]
    {
      if k < |bs| {
        assert (bs + [b])[k] == bs[k];
      }
    }
  }
}
