/** The per-instance slave objects of the Rust API layer and the dispatch loop
    they share (fmiapi/src/fmi3/fmi3_slave.rs, fmiapi/src/fmi2/fmi2_slave.rs).
    A command is sent; while the backend answers with a log event, the event
    is handed to the logger and a CallbackContinue command is sent; the first
    other answer is then extracted as the expected reply. */
module SlaveDispatch {
  import opened Wrappers
  import opened Dispatching
  import opened ProtobufExtensions
  import opened Logging
  import opened CategoryFilters

  datatype SlaveError = DispatchError(error: DispatcherError) | ReturnError

  /** A received `Fmi3Return`/`Fmi2Return`: its `return_message` may be unset. */
  type Reply<K, S0, P> = Option<ReturnMessage<K, S0, P>>
  type Received<K, S0, P> = Result<Reply<K, S0, P>, DispatcherError>

  predicate IsLog<K, S0, P>(x: Received<K, S0, P>)
  {
    x.Success? && x.value.Some? && x.value.value.LogReturn?
  }

  /** The number of log events at the head of what the backend answers. */
  function LeadingLogs<K, S0, P>(incoming: seq<Received<K, S0, P>>): (n: nat)
    ensures n <= |incoming|
    ensures forall i :: 0 <= i < n ==> IsLog(incoming[i])
    ensures n < |incoming| ==> !IsLog(incoming[n])
  {
    if incoming == [] || !IsLog(incoming[0]) then 0 else 1 + LeadingLogs(incoming[1..])
  }

  /** How `dispatch` ends on the first answer that is not a log event: a
      failed exchange is a DispatchError, an unset return message or a
      variant other than the expected one a ReturnError. */
  function Conclude<K(==), S0, P>(reply: Received<K, S0, P>, expected: K): (r: Result<P, SlaveError>)
    requires !IsLog(reply)
    ensures r.Success? <==> reply.Success? && reply.value.Some? && reply.value.value.Tagged?
                            && reply.value.value.variant == expected
    ensures r.Success? ==> reply == Success(Some(Tagged(expected, r.value)))
    ensures reply.Failure? ==> r == Failure(DispatchError(reply.error))
    ensures reply.Success? ==> r.Success? || r == Failure(ReturnError)
  {
    match reply
    case Failure(e) => Failure(DispatchError(e))
    case Success(None) => Failure(ReturnError)
    case Success(Some(m)) =>
      match ExtractFrom(expected, m)
      case Some(p) => Success(p)
      case None => Failure(ReturnError)
  }

  /** What `dispatch` returns for a script of answers: the answer after the
      leading log events concludes it, and a script that ends before any
      other answer is a socket error. */
  function Outcome<K(==), S0, P>(incoming: seq<Received<K, S0, P>>, expected: K): (r: Result<P, SlaveError>)
  {
    Conclude(Head(incoming[LeadingLogs(incoming)..]), expected)
  }

  function Repeat<T>(x: T, n: nat): (r: seq<T>)
    ensures |r| == n && forall i :: 0 <= i < n ==> r[i] == x
  {
    if n == 0 then [] else Repeat(x, n - 1) + [x]
  }

  /** The callback calls the logger makes for the first n answers, which
      are log events. */
  function LogDeliveries<K, S0, P, S, C(==,!new)>(
    logger: Logger<S, C>, filter: CategoryFilter<C>, incoming: seq<Received<K, S0, P>>, n: nat,
    statusOf: S0 -> S, categoryOf: string -> C): (r: seq<Delivery<S>>)
    requires n <= |incoming| && forall i :: 0 <= i < n ==> IsLog(incoming[i])
    ensures |r| <= n
  {
    if n == 0 then []
    else
      assert IsLog(incoming[n - 1]);
      var m := incoming[n - 1].value.value;
      LogDeliveries(logger, filter, incoming, n - 1, statusOf, categoryOf)
        + logger.EmittedUnder(filter, statusOf(m.status), categoryOf(m.category), m.logMessage)
  }

  /** `dispatch`, shared by both slaves. `statusOf` and `categoryOf` are the
      `into` conversions `handle_log_return` applies to a log event. */
  method Dispatch<Cmd, K(==), S0, P, S, C(==,!new)>(
    d: Dispatcher<Cmd, Reply<K, S0, P>>, logger: Logger<S, C>,
    command: Cmd, continueCommand: Cmd, expected: K,
    statusOf: S0 -> S, categoryOf: string -> C)
    returns (r: Result<P, SlaveError>)
    modifies d, logger
    ensures d.sendFault == old(d.sendFault) && logger.filter == old(logger.filter)
    ensures old(d.sendFault).Some? ==>
      r == Failure(DispatchError(old(d.sendFault).value)) && d.sent == old(d.sent)
      && d.incoming == old(d.incoming) && logger.delivered == old(logger.delivered)
    ensures old(d.sendFault).None? ==>
      var inc := old(d.incoming);
      var n := LeadingLogs(inc);
      r == Outcome(inc, expected)
      && d.sent == old(d.sent) + [command] + Repeat(continueCommand, n)
      && d.incoming == Tail(inc[n..])
      && logger.delivered == old(logger.delivered) + LogDeliveries(logger, old(logger.filter), inc, n, statusOf, categoryOf)
  {
    ghost var inc := d.incoming;
    var reply := d.SendAndRecv(command);
    if reply.Failure? {
      return Failure(DispatchError(reply.error));
    }
    ghost var n;
    reply, n := AnswerLogs(d, logger, reply, inc, continueCommand, statusOf, categoryOf);
    r := Conclude(reply, expected);
  }

  /** One round of the loop: `handle_log_return`, then CallbackContinue. */
  method AnswerLog<Cmd, K, S0, P, S, C(==,!new)>(
    d: Dispatcher<Cmd, Reply<K, S0, P>>, logger: Logger<S, C>,
    m: ReturnMessage<K, S0, P>, continueCommand: Cmd, statusOf: S0 -> S, categoryOf: string -> C)
    returns (reply: Received<K, S0, P>)
    requires m.LogReturn? && d.sendFault.None?
    modifies d, logger
    ensures d.sendFault.None? && logger.filter == old(logger.filter)
    ensures reply == Head(old(d.incoming)) && d.incoming == Tail(old(d.incoming))
    ensures d.sent == old(d.sent) + [continueCommand]
    ensures logger.delivered == old(logger.delivered)
      + logger.EmittedUnder(old(logger.filter), statusOf(m.status), categoryOf(m.category), m.logMessage)
  {
    logger.Log(statusOf(m.status), categoryOf(m.category), m.logMessage);
    reply := d.SendAndRecv(continueCommand);
  }

  /** The loop of `dispatch`: while the answer is a log event, log it, send
      CallbackContinue and receive again. */
  method AnswerLogs<Cmd, K, S0, P, S, C(==,!new)>(
    d: Dispatcher<Cmd, Reply<K, S0, P>>, logger: Logger<S, C>,
    first: Received<K, S0, P>, ghost inc: seq<Received<K, S0, P>>,
    continueCommand: Cmd, statusOf: S0 -> S, categoryOf: string -> C)
    returns (reply: Received<K, S0, P>, ghost i: nat)
    requires d.sendFault.None?
    requires first == Head(inc) && d.incoming == Tail(inc)
    modifies d, logger
    ensures d.sendFault.None? && logger.filter == old(logger.filter)
    ensures i == LeadingLogs(inc)
    ensures reply == Head(inc[i..]) && d.incoming == Tail(inc[i..])
    ensures d.sent == old(d.sent) + Repeat(continueCommand, i)
    ensures logger.delivered == old(logger.delivered) + LogDeliveries(logger, old(logger.filter), inc, i, statusOf, categoryOf)
  {
    ghost var filter0 := logger.filter;
    reply := first;
    i := 0;
    while IsLog(reply)
      invariant d.sendFault.None? && logger.filter == filter0
      invariant i <= |inc| && forall j :: 0 <= j < i ==> IsLog(inc[j])
      invariant reply == Head(inc[i..]) && d.incoming == Tail(inc[i..])
      invariant d.sent == old(d.sent) + Repeat(continueCommand, i)
      invariant logger.delivered == old(logger.delivered) + LogDeliveries(logger, filter0, inc, i, statusOf, categoryOf)
      decreases |inc| - i
    {
      NextAnswer(inc, i);
      assert Repeat(continueCommand, i + 1) == Repeat(continueCommand, i) + [continueCommand];
      reply := AnswerLog(d, logger, reply.value.value, continueCommand, statusOf, categoryOf);
      i := i + 1;
    }
    LeadingLogsExact(inc, i);
  }

  /** After the answer at position i, the dispatcher holds what follows it. */
  lemma NextAnswer<K, S0, P>(inc: seq<Received<K, S0, P>>, i: nat)
    requires i <= |inc| && IsLog(Head(inc[i..]))
    ensures i < |inc| && IsLog(inc[i])
    ensures Head(Tail(inc[i..])) == Head(inc[i + 1..]) && Tail(Tail(inc[i..])) == Tail(inc[i + 1..])
  {
    assert inc[i..][1..] == inc[i + 1..];
  }

  /** The leading log events are exactly the first `i` answers when those
      are log events and the next one is not. */
  lemma {:induction false} LeadingLogsExact<K, S0, P>(inc: seq<Received<K, S0, P>>, i: nat)
    requires i <= |inc| && forall j :: 0 <= j < i ==> IsLog(inc[j])
    requires !IsLog(Head(inc[i..]))
    ensures LeadingLogs(inc) == i
  {
    if i > 0 {
      assert inc[1..][i - 1..] == inc[i..];
      LeadingLogsExact(inc[1..], i - 1);
    }
  }

  /** What `dispatch` returns given the dispatcher's state before the call. */
  function DispatchResult<K(==), S0, P>(sendFault: Option<DispatcherError>, incoming: seq<Received<K, S0, P>>,
                                        expected: K): (r: Result<P, SlaveError>)
    ensures sendFault.Some? ==> r == Failure(DispatchError(sendFault.value))
    ensures r.Success? ==> sendFault.None?
  {
    if sendFault.Some? then Failure(DispatchError(sendFault.value)) else Outcome(incoming, expected)
  }

  /** What `dispatch` sends given the dispatcher's state before the call:
      the command, then one CallbackContinue per leading log event; nothing
      over a broken socket. */
  function SentFor<Cmd, K, S0, P>(sendFault: Option<DispatcherError>, incoming: seq<Received<K, S0, P>>,
                                  command: Cmd, continueCommand: Cmd): (r: seq<Cmd>)
    ensures sendFault.None? <==> r != [] && r[0] == command
    ensures forall k :: 1 <= k < |r| ==> r[k] == continueCommand
  {
    if sendFault.Some? then [] else [command] + Repeat(continueCommand, LeadingLogs(incoming))
  }

  /** The message both slaves log when FreeInstance has been sent on drop. */
  const FreeInstanceSent := "Send free instance message to shut down backend."

  /** The message both slaves log when sending FreeInstance on drop fails. */
  function FreeFailedMessage(e: DispatcherError): (m: string)
    ensures |m| > 0
  {
    "Freeing instance failed with error: " + ErrorText(e) + "."
  }

  /** The leading words of `DispatcherError`'s `Display`; the text of the
      underlying socket, subprocess or I/O error is not modelled. */
  function ErrorText(e: DispatcherError): string
  {
    match e
    case MalformedHandshake(_) => "handshake was malformed"
    case DeniedHandshake => "backend reported error as part of handshake"
    case Socket => "error in message queue socket"
    case Subprocess => "error in backend subprocess"
    case RuntimeSetup => "couldn't setup concurrency runtime"
  }
}
