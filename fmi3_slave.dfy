/** The FMI 3.0 instance of the Rust API layer (fmiapi/src/fmi3/fmi3_slave.rs):
    the commands it sends, the replies it reads, and `Fmi3Slave` with its
    buffers, its dispatcher and its logger. */
module Fmi3Slaves {
  import opened Wrappers
  import opened Bytes
  import opened Floats
  import opened Fmi3Types
  import opened Logging
  import opened Dispatching
  import opened ProtobufExtensions
  import opened SlaveDispatch
  import opened Cells

  /** The FMI 3.0 commands this model sends. */
  datatype Fmi3Command =
    | Fmi3CallbackContinue
    | Fmi3FreeInstance
    | Fmi3SetDebugLogging(categories: seq<string>, loggingOn: bool)
    | Fmi3DoStep(currentCommunicationPoint: f64, communicationStepSize: f64, noSetFmuStatePriorToCurrentPoint: bool)
    | Fmi3Get(kind: Fmi3ReturnVariant, valueReferences: seq<nat>)
    | Fmi3SerializeFmuState
    | Fmi3DeserializeFmuState(state: seq<byte>)
    | Fmi3Reset
    | Fmi3Terminate
    | Fmi3EnterConfigurationMode
    | Fmi3ExitConfigurationMode

  /** The payload of a reply variant. Every reply carries the backend's
      status as a raw integer; integer getters carry their values widened
      to integers (Int8 to UInt16 travel as 32-bit integers). */
  datatype Fmi3Payload =
    | StatusPayload(status: int)
    | IntegersPayload(status: int, values: seq<int>)
    | Float64sPayload(status: int, floats: seq<f64>)
    | DoStepPayload(status: int, eventHandlingNeeded: bool, terminateSimulation: bool,
                    earlyReturn: bool, lastSuccessfulTime: f64)
    | StatePayload(status: int, state: seq<byte>)

  type Fmi3Reply = Reply<Fmi3ReturnVariant, ProtoFmi3Status, Fmi3Payload>

  /** The level constructors of `logger` are those of `Fmi3Logger`. */
  ghost predicate IsFmi3Logger(logger: Logger<Fmi3Status, Fmi3LogCategory>)
  {
    (forall c :: logger.nameOf(c) == StrName(c))
    && (forall l :: logger.statusFor(l) == LevelStatus(l))
    && (forall l :: logger.categoryFor(l) == LevelCategory(l))
  }

  class Fmi3Slave {
    var byteBuffer: seq<seq<byte>>
    const dispatcher: Dispatcher<Fmi3Command, Fmi3Reply>
    const logger: Logger<Fmi3Status, Fmi3LogCategory>
    var lastSuccessfulTime: Option<f64>
    var stringBuffer: seq<string>

    /** The logger is an `Fmi3Logger`, distinct from the dispatcher. */
    ghost predicate Valid()
    {
      dispatcher as object != logger && IsFmi3Logger(logger)
    }

    /** `new`: empty buffers and no last successful time. */
    constructor (dispatcher: Dispatcher<Fmi3Command, Fmi3Reply>, logger: Logger<Fmi3Status, Fmi3LogCategory>)
      requires dispatcher as object != logger && IsFmi3Logger(logger)
      ensures Valid()
      ensures this.dispatcher == dispatcher && this.logger == logger
      ensures byteBuffer == [] && stringBuffer == [] && lastSuccessfulTime == None
    {
      this.dispatcher := dispatcher;
      this.logger := logger;
      byteBuffer := [];
      stringBuffer := [];
      lastSuccessfulTime := None;
    }

    /** `dispatch`: the shared loop, with log events converted from the
        protobuf status and the category string. */
    method Dispatch(command: Fmi3Command, expected: Fmi3ReturnVariant) returns (r: Result<Fmi3Payload, SlaveError>)
      requires Valid()
      modifies dispatcher, logger
      ensures r == DispatchResult(old(dispatcher.sendFault), old(dispatcher.incoming), expected)
      ensures dispatcher.sendFault == old(dispatcher.sendFault) && logger.filter == old(logger.filter)
      ensures dispatcher.sent == old(dispatcher.sent) + SentFor(old(dispatcher.sendFault), old(dispatcher.incoming), command, Fmi3CallbackContinue)
      ensures old(dispatcher.sendFault).Some? ==>
        dispatcher.incoming == old(dispatcher.incoming) && logger.delivered == old(logger.delivered)
      ensures old(dispatcher.sendFault).None? ==>
        var n := LeadingLogs(old(dispatcher.incoming));
        logger.delivered == old(logger.delivered)
           + LogDeliveries(logger, old(logger.filter), old(dispatcher.incoming), n, FromProtoStatus, FromStr)
    {
      r := SlaveDispatch.Dispatch(dispatcher, logger, command, Fmi3CallbackContinue, expected, FromProtoStatus, FromStr);
    }

    /** `Drop`: FreeInstance is sent once, without awaiting a reply, and the
        outcome is logged as ok or as an error. */
    method Drop()
      requires Valid()
      modifies dispatcher, logger
      ensures dispatcher.incoming == old(dispatcher.incoming) && logger.filter == old(logger.filter)
      ensures old(dispatcher.sendFault).None? ==>
        dispatcher.sent == old(dispatcher.sent) + [Fmi3FreeInstance]
        && logger.delivered == old(logger.delivered) + logger.Emitted(Fmi3OK, LogEvents, FreeInstanceSent)
      ensures old(dispatcher.sendFault).Some? ==>
        dispatcher.sent == old(dispatcher.sent)
        && logger.delivered == old(logger.delivered)
           + logger.Emitted(Fmi3Error, LogStatusError, FreeFailedMessage(old(dispatcher.sendFault).value))
    {
      var sent := dispatcher.Send(Fmi3FreeInstance);
      match sent
      case Success(_) =>
        logger.LogAt(SevOk, FreeInstanceSent);
      case Failure(e) =>
        logger.LogAt(SevError, FreeFailedMessage(e));
    }
  }
}
