/** The FMI 2.0 instance of the Rust API layer (fmiapi/src/fmi2/fmi2_slave.rs):
    `Fmi2Slave` with its string buffer, its dispatcher, its logger and the
    step bookkeeping, the shared dispatch loop instantiated for FMI 2.0, and
    the FreeInstance message sent when the instance is dropped. */
module Fmi2Slaves {
  import opened Wrappers
  import opened Floats
  import opened Fmi2Types
  import opened Logging
  import opened Dispatching
  import opened ProtobufExtensions
  import opened SlaveDispatch
  import opened Fmi2Dispatching

  /** The variants of `fmi2_return::ReturnMessage` other than the log event. */
  datatype Fmi2ReturnVariant =
    | Fmi2EmptyReturn | Fmi2StatusReturn | Fmi2FreeInstanceReturn | Fmi2SerializeFmuStateReturn
    | Fmi2GetRealReturn | Fmi2GetIntegerReturn | Fmi2GetBooleanReturn | Fmi2GetStringReturn

  /** A command of the FMI 2.0 protocol: the callback acknowledgement, the
      shutdown message, or one of the commands the C functions build. */
  datatype Fmi2Request =
    | Fmi2CallbackContinue
    | Fmi2FreeInstanceRequest
    | Forward(command: Fmi2Command)

  /** A return message: a log event, whose status `status()` has already
      read as an `Fmi2Status`, or a reply variant with its status and values. */
  type Fmi2Reply = Reply<Fmi2ReturnVariant, Fmi2Status, Fmi2Wire>

  /** `log_return.status().into()`: the status of a log event as sent. */
  function LogStatus(s: Fmi2Status): Fmi2Status { s }

  class Fmi2Slave {
    var stringBuffer: seq<string>
    const dispatcher: Dispatcher<Fmi2Request, Fmi2Reply>
    const logger: Logger<Fmi2Status, Fmi2LogCategory>
    var lastSuccessfulTime: Option<f64>
    var pendingMessage: Option<string>
    var dostepStatus: Option<Fmi2Status>

    /** The dispatcher and the logger are two objects. */
    ghost predicate Valid()
    {
      dispatcher as object != logger
    }

    /** `new`: an empty string buffer and every optional field None. */
    constructor (dispatcher: Dispatcher<Fmi2Request, Fmi2Reply>, logger: Logger<Fmi2Status, Fmi2LogCategory>)
      requires dispatcher as object != logger
      ensures Valid()
      ensures this.dispatcher == dispatcher && this.logger == logger
      ensures stringBuffer == [] && lastSuccessfulTime == None
      ensures pendingMessage == None && dostepStatus == None
    {
      this.dispatcher := dispatcher;
      this.logger := logger;
      stringBuffer := [];
      lastSuccessfulTime := None;
      pendingMessage := None;
      dostepStatus := None;
    }

    /** `dispatch`: the command is sent; each log event the backend answers
        with is logged once and answered with Fmi2CallbackContinue; the first
        other answer is extracted as the expected variant. */
    method Dispatch(command: Fmi2Request, expected: Fmi2ReturnVariant) returns (r: Result<Fmi2Wire, SlaveError>)
      requires Valid()
      modifies dispatcher, logger
      ensures r == DispatchResult(old(dispatcher.sendFault), old(dispatcher.incoming), expected)
      ensures dispatcher.sendFault == old(dispatcher.sendFault) && logger.filter == old(logger.filter)
      ensures dispatcher.sent == old(dispatcher.sent)
        + SentFor(old(dispatcher.sendFault), old(dispatcher.incoming), command, Fmi2CallbackContinue)
      ensures old(dispatcher.sendFault).Some? ==>
        dispatcher.incoming == old(dispatcher.incoming) && logger.delivered == old(logger.delivered)
      ensures old(dispatcher.sendFault).None? ==>
        var n := LeadingLogs(old(dispatcher.incoming));
        logger.delivered == old(logger.delivered)
           + LogDeliveries(logger, old(logger.filter), old(dispatcher.incoming), n, LogStatus, FromStr)
    {
      r := SlaveDispatch.Dispatch(dispatcher, logger, command, Fmi2CallbackContinue, expected, LogStatus, FromStr);
    }

    /** `Drop`: FreeInstance is sent once, without awaiting a reply, and the
        outcome is logged with the logger's ok or error level. */
    method Drop()
      requires Valid()
      modifies dispatcher, logger
      ensures dispatcher.incoming == old(dispatcher.incoming) && logger.filter == old(logger.filter)
      ensures old(dispatcher.sendFault).None? ==>
        dispatcher.sent == old(dispatcher.sent) + [Fmi2FreeInstanceRequest]
        && logger.delivered == old(logger.delivered)
           + logger.Emitted(logger.statusFor(SevOk), logger.categoryFor(SevOk), FreeInstanceSent)
      ensures old(dispatcher.sendFault).Some? ==>
        dispatcher.sent == old(dispatcher.sent)
        && logger.delivered == old(logger.delivered)
           + logger.Emitted(logger.statusFor(SevError), logger.categoryFor(SevError),
                            FreeFailedMessage(old(dispatcher.sendFault).value))
    {
      var sent := dispatcher.Send(Fmi2FreeInstanceRequest);
      match sent
      case Success(_) =>
        logger.LogAt(SevOk, FreeInstanceSent);
      case Failure(e) =>
        logger.LogAt(SevError, FreeFailedMessage(e));
    }
  }

  /** `Display` of `Fmi2SlaveError`. */
  function Fmi2SlaveErrorText(e: SlaveError): (t: string)
    ensures e.ReturnError? <==> t == "unknown return message from backend"
  {
    match e
    case DispatchError(d) => "dispatch error; " + ErrorText(d)
    case ReturnError => "unknown return message from backend"
  }
}
