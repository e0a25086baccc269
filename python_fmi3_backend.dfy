/** The Python FMI 3.0 backend (assets/python/fmi3/backend.py and
    abstract_backend.py). The script sends the handshake and then names
    each command by its oneof group; `model` is bound only by the
    co-simulation instantiation. Each branch builds the reply message, and
    after the branches the message is serialized and sent. */
module PythonFmi3Backend {
  import opened Wrappers
  import opened Bytes
  import opened BinaryIo
  import opened Exceptions
  import opened Fmi3Types
  import opened ProtobufExtensions
  import opened Dispatching
  import opened SlaveDispatch
  import opened BackendLoops
  import opened Fmi3Commands

  /** The `group ==` branches of the loop. */
  function Route(k: Fmi3Kind): (r: Routing)
  {
    match k
    case Fmi3InstantiateModelExchange => Acknowledge(Empty)
    case Fmi3InstantiateCoSimulation => Instantiate
    case Fmi3InstantiateScheduledExecution => Acknowledge(Empty)
    case Fmi3EnterStepMode => Answer(Status)
    case Fmi3EnterEventMode => Answer(Status)
    case Fmi3DoStep => Answer(DoStep)
    case Fmi3EnterInitializationMode => Answer(Status)
    case Fmi3ExitInitializationMode => Answer(Status)
    case Fmi3FreeInstance => Leave(0)
    case Fmi3Terminate => Answer(Status)
    case Fmi3Reset => Answer(Status)
    case Fmi3SerializeFmuState => Answer(SerializeFmuState)
    case Fmi3DeserializeFmuState => Answer(Status)
    case Fmi3EnterConfigurationMode => Answer(Status)
    case Fmi3ExitConfigurationMode => Answer(Status)
    case Fmi3Get(t) => Answer(GetVariant(t))
    case Fmi3GetIntervalDecimal => Answer(GetIntervalDecimal)
    case Fmi3GetIntervalFraction => Answer(GetIntervalFraction)
    case Fmi3GetShiftDecimal => Answer(GetShiftDecimal)
    case Fmi3GetShiftFraction => Answer(GetShiftFraction)
    case Fmi3Set(_) => Answer(Status)
    case Fmi3SetIntervalDecimal => Answer(Status)
    case Fmi3SetIntervalFraction => Answer(Status)
    case Fmi3SetShiftDecimal => Answer(Status)
    case Fmi3SetShiftFraction => Answer(Status)
    case Fmi3UpdateDiscreteStates => Answer(UpdateDiscreteStates)
    case CommandNotSet => Fail(TypeError)
    case _ => Leave(-1)   // "unrecognized command"
  }

  /** Every command the API layer sends and waits on is routed to the
      reply it waits for, except the debug-logging switch, and
      free-instance ends the process with 0 without a reply. */
  lemma RouteAnswersAwaited(k: Fmi3Kind)
    requires SentByApi(k) && k != Fmi3SetDebugLogging
    ensures AnswersAwaited(Route, k)
  {
  }

  /** The process ends with -1 for the debug-logging switch, the callback
      acknowledgement and the derivative getters; the other two
      instantiations are acknowledged without a model. */
  lemma RouteExits(k: Fmi3Kind)
    ensures Route(k) == Leave(-1) <==>
      k in {Fmi3SetDebugLogging, Fmi3CallbackContinue, Fmi3Derivative}
    ensures Route(k).Fail? <==> k == CommandNotSet
    ensures Route(k).Acknowledge? <==>
      k == Fmi3InstantiateModelExchange || k == Fmi3InstantiateScheduledExecution
  {
  }

  /** One pass of the loop. `getattr(command, None)` raises `TypeError`
      for a command whose oneof is unset; a model method called before
      `model` is bound raises `NameError`. */
  function Handle<M, A, P>(instantiate: A -> M, empty: P, call: (M, Command<A>) -> Outcome<(M, P)>,
                           model: Option<M>, c: Command<A>): (h: Handling<Option<M>, Fmi3Reply<P>, ()>)
    ensures c.kind == CommandNotSet ==> h == Handling([], Crash(TypeError), model)
    ensures c.kind == Fmi3InstantiateCoSimulation ==>
      h == Handling([], Reply(Fmi3Reply(Empty, empty)), Some(instantiate(c.args)))
    ensures c.kind == Fmi3InstantiateModelExchange ==> h == Handling([], Reply(Fmi3Reply(Empty, empty)), model)
    ensures Route(c.kind).Answer? && model.None? ==> h.action == Crash(NameError)
  {
    Handled(Route, NameError, instantiate, empty, call, model, c)
  }

  /** A session that instantiates and then sends only commands the API
      layer awaits a reply to (the debug-logging switch excepted), whose
      model calls return, is answered with one reply per command, of the
      variant the API layer waits for. */
  lemma SessionAnswered<M, A, P>(instantiate: A -> M, empty: P, call: (M, Command<A>) -> Outcome<(M, P)>,
                                 isContinue: Command<A> -> bool, msgs: seq<Command<A>>)
    requires |msgs| > 0 && msgs[0].kind == Fmi3InstantiateCoSimulation
    requires forall i | 1 <= i < |msgs| ::
      SentByApi(msgs[i].kind) && msgs[i].kind != Fmi3FreeInstance && msgs[i].kind != Fmi3SetDebugLogging
    requires forall m: M, i | 1 <= i < |msgs| :: call(m, msgs[i]).Returned?
    ensures var handle := Handler<M, A, P, ()>(Route, NameError, instantiate, empty, call);
      var r := Session(handle, isContinue, -1, None, msgs);
      r.ending == Waiting && |r.sent| > 0 && r.sent[0] == Handshake(HandshakeOk)
      && RepliedAsAwaited(r.sent[1..], msgs)
  {
    forall i | 0 <= i < |msgs| - 1
      ensures SentByApi(msgs[1..][i].kind) && msgs[1..][i].kind != Fmi3FreeInstance
        && AnswersAwaited(Route, msgs[1..][i].kind)
    {
      assert msgs[1..][i] == msgs[i + 1];
      RouteAnswersAwaited(msgs[i + 1].kind);
    }
    assert Route(msgs[0].kind) == Instantiate;
    SessionRepliesAwaited<M, A, P, ()>(Route, NameError, instantiate, empty, call, isContinue, -1, msgs);
  }

  /** `fmi3SetDebugLogging` waits for a status reply, but the backend ends
      the process at that command without a reply. */
  lemma DebugLoggingEndsProcess<M, A, P>(instantiate: A -> M, empty: P, call: (M, Command<A>) -> Outcome<(M, P)>,
                                         isContinue: Command<A> -> bool, model: Option<M>,
                                         c: Command<A>, rest: seq<Command<A>>)
    requires c.kind == Fmi3SetDebugLogging
    ensures Awaited(c.kind) == Some(Status)
    ensures var handle := Handler<M, A, P, ()>(Route, NameError, instantiate, empty, call);
      Served(handle, isContinue, -1, model, [c] + rest) == Run([], Exited(-1), model)
  {
    LeaveEndsSession<M, A, P, ()>(Route, NameError, instantiate, empty, call, isContinue, -1, model, c, rest);
  }

  // ------------------------------------------------------ on the wire

  /** A length-delimited protobuf field: the key (field number, wire type
      2), the length as a base-128 varint, and the body. */
  function LengthDelimited(number: nat, body: seq<byte>): (bs: seq<byte>)
    ensures |bs| > |body|
  {
    SevenBit(number * 8 + 2) + SevenBit(|body|) + body
  }

  /** The first field of a message: none in an empty message, else its
      number, its body and the bytes after it. */
  datatype FieldRead = NoField | FieldAt(number: nat, body: seq<byte>, rest: seq<byte>) | Malformed

  /** Reading a length-delimited field from the front of a message. */
  function ReadField(bs: seq<byte>): (r: FieldRead)
    ensures r.FieldAt? ==> |r.body| + |r.rest| < |bs|
  {
    if |bs| == 0 then NoField
    else match ReadSevenBit(bs)
      case None => Malformed
      case Some((key, afterKey)) =>
        if key % 8 != 2 then Malformed
        else match ReadSevenBit(afterKey)
          case None => Malformed
          case Some((length, afterLength)) =>
            if length > |afterLength| then Malformed
            else FieldAt(key / 8, afterLength[..length], afterLength[length..])
  }

  /** A field written and read back: its number, its body, and the bytes
      that followed it. */
  lemma LengthDelimitedRoundTrip(number: nat, body: seq<byte>, rest: seq<byte>)
    ensures ReadField(LengthDelimited(number, body) + rest) == FieldAt(number, body, rest)
  {
    var key := number * 8 + 2;
    var bs := LengthDelimited(number, body) + rest;
    assert bs == SevenBit(key) + (SevenBit(|body|) + body + rest);
    SevenBitRoundTrip(key, SevenBit(|body|) + body + rest);
    assert SevenBit(|body|) + body + rest == SevenBit(|body|) + (body + rest);
    SevenBitRoundTrip(|body|, body + rest);
    assert (body + rest)[..|body|] == body && (body + rest)[|body|..] == rest;
  }

  /** How the API layer reads an `Fmi3Return` of at most one field, given
      the numbering of the oneof's variants: an empty message has no
      return message set; a single field of a known variant is that
      variant with its body. Anything else is not read by this model. */
  datatype ReturnRead = Unset | SetTo(variant: Fmi3ReturnVariant, body: seq<byte>) | Unread

  function ReadReturn(bs: seq<byte>, variantOf: nat -> Option<Fmi3ReturnVariant>): (r: ReturnRead)
    ensures r == Unset <==> bs == []
  {
    match ReadField(bs)
    case NoField => Unset
    case FieldAt(n, body, rest) => if rest == [] && variantOf(n).Some? then SetTo(variantOf(n).value, body) else Unread
    case Malformed => Unread
  }

  /** The API layer's received reply for a read return message. */
  function AsReceived(r: ReturnRead): (x: Option<Received<Fmi3ReturnVariant, ProtoFmi3Status, seq<byte>>>)
    ensures r.Unset? ==> x == Some(Success(None))
    ensures r.SetTo? ==> x == Some(Success(Some(Tagged(r.variant, r.body))))
    ensures r.Unread? ==> x.None?
  {
    match r
    case Unset => Some(Success(None))
    case SetTo(v, body) => Some(Success(Some(Tagged(v, body))))
    case Unread => None
  }

  /** The serialized `Fmi3StatusReturn`: proto3 leaves out field 1 when the
      status is OK (0), and otherwise writes it as a varint. */
  function StatusBody(p: ProtoFmi3Status): (bs: seq<byte>)
    ensures bs == [] <==> p == ProtoOk
  {
    if p == ProtoOk then [] else [0x08 as byte, ProtoValue(p) as byte]
  }

  /** What the loop sends for a reply, as written: the branch's own message
      serialized bare, without the `Fmi3Return` around it. */
  function SentAsWritten(body: seq<byte>): (bs: seq<byte>)
    ensures bs == body
  {
    body
  }

  /** What the loop sends for a reply as `status_reply` in the abstract
      backend does it: wrapped in the `Fmi3Return` field of its variant. */
  function Sent(variant: Fmi3ReturnVariant, numberOf: Fmi3ReturnVariant -> nat, body: seq<byte>): (bs: seq<byte>)
    ensures |bs| > 0
  {
    LengthDelimited(numberOf(variant), body)
  }

  /** As written, the Empty reply to the instantiation is an empty message:
      the API layer finds no return message set and `dispatch` ends with a
      return error, whatever the numbering; so does every OK status
      reply. */
  lemma BareRepliesRejected(variantOf: nat -> Option<Fmi3ReturnVariant>)
    ensures ReadReturn(SentAsWritten([]), variantOf) == Unset
    ensures Conclude(AsReceived(ReadReturn(SentAsWritten([]), variantOf)).value, Empty) == Failure(ReturnError)
    ensures Conclude(AsReceived(ReadReturn(SentAsWritten(StatusBody(ProtoOk)), variantOf)).value, Status)
            == Failure(ReturnError)
  {
  }

  /** Wrapped, any reply reads back as its own variant with its body, so
      `dispatch` returns the body for the variant it expects. */
  lemma WrappedRepliesAccepted(variant: Fmi3ReturnVariant, numberOf: Fmi3ReturnVariant -> nat,
                               variantOf: nat -> Option<Fmi3ReturnVariant>, body: seq<byte>)
    requires variantOf(numberOf(variant)) == Some(variant)
    ensures ReadReturn(Sent(variant, numberOf, body), variantOf) == SetTo(variant, body)
    ensures Conclude(AsReceived(ReadReturn(Sent(variant, numberOf, body), variantOf)).value, variant) == Success(body)
  {
    LengthDelimitedRoundTrip(numberOf(variant), body, []);
    assert LengthDelimited(numberOf(variant), body) + [] == LengthDelimited(numberOf(variant), body);
  }

  // ------------------------------------------------- abstract backend

  /** `recv_command`: the oneof group and its payload; `getattr` with the
      group None raises `TypeError` for a command whose oneof is unset. */
  function RecvCommand<A>(c: Command<A>): (r: Outcome<(Fmi3Kind, A)>)
    ensures r.Returned? <==> c.kind != CommandNotSet
    ensures r.Returned? ==> r.value == (c.kind, c.args)
  {
    if c.kind == CommandNotSet then Threw(TypeError) else Returned((c.kind, c.args))
  }

  /** `status_reply`: the status wrapped in the `status` variant. */
  function StatusReply(p: ProtoFmi3Status): (r: Fmi3Reply<ProtoFmi3Status>)
    ensures r.variant == Status && r.payload == p
  {
    Fmi3Reply(Status, p)
  }

  /** `log_callback`: one log reply, then one received command; the
      callback acknowledgement returns to the model, anything else goes to
      the subclass's `unknown_command`, which ends the process with
      `refusal`. */
  function LogCallback<A, R, L>(event: L, msgs: seq<Command<A>>, refusal: int)
    : (r: (seq<Sent<R, L>>, nat, Option<Ending>))
  {
    Callbacks([event], msgs, (c: Command<A>) => c.kind == Fmi3CallbackContinue, refusal)
  }

  /** The log reply is sent first; the callback returns exactly when the
      next command is the acknowledgement, and otherwise the process ends
      with `refusal` (or waits when nothing more comes). */
  lemma LogCallbackContinues<A, R, L>(event: L, msgs: seq<Command<A>>, refusal: int)
    ensures LogCallback<A, R, L>(event, msgs, refusal).0 == [Logged(event)]
    ensures |msgs| > 0 && msgs[0].kind == Fmi3CallbackContinue ==>
      LogCallback<A, R, L>(event, msgs, refusal) == ([Logged(event)], 1, None)
    ensures |msgs| > 0 && msgs[0].kind != Fmi3CallbackContinue ==>
      LogCallback<A, R, L>(event, msgs, refusal) == ([Logged(event)], 1, Some(Exited(refusal)))
    ensures |msgs| == 0 ==> LogCallback<A, R, L>(event, msgs, refusal) == ([Logged(event)], 0, Some(Waiting))
  {
    var isContinue := (c: Command<A>) => c.kind == Fmi3CallbackContinue;
    if |msgs| > 0 && isContinue(msgs[0]) {
      CallbacksContinued<Command<A>, R, L>([event], msgs, isContinue, refusal);
      assert Logs<R, L>([event]) == [Logged(event)];
    }
  }

  /** `handshake`: the Ok handshake, which the API layer accepts. */
  function HandshakeReply(): (h: HandshakeStatus)
    ensures AwaitHandshake(Success(HandshakeValue(h))) == Success(())
  {
    HandshakeOk
  }
}
