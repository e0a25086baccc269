/** The FMI 3.0 commands as the backends' command loops tell them apart
    (the `command` oneof of `Fmi3Command`), which of them the API layer
    (fmiapi/src/fmi3/mod.rs) sends, and the reply it then waits for. */
module Fmi3Commands {
  import opened Wrappers
  import opened Bytes
  import opened Exceptions
  import opened ProtobufExtensions
  import opened Dispatching
  import opened BackendLoops

  /** The variable types of the typed getters and setters. */
  datatype ValueType =
    | Float32 | Float64 | Int8 | UInt8 | Int16 | UInt16 | Int32 | UInt32 | Int64 | UInt64
    | Boolean | String | Binary | Clock

  /** The case of the `command` oneof. */
  datatype Fmi3Kind =
    | Fmi3InstantiateModelExchange | Fmi3InstantiateCoSimulation | Fmi3InstantiateScheduledExecution
    | Fmi3EnterInitializationMode | Fmi3ExitInitializationMode
    | Fmi3EnterConfigurationMode | Fmi3ExitConfigurationMode
    | Fmi3EnterEventMode | Fmi3EnterStepMode
    | Fmi3DoStep | Fmi3UpdateDiscreteStates
    | Fmi3Set(setType: ValueType) | Fmi3Get(getType: ValueType)
    | Fmi3SetIntervalDecimal | Fmi3SetIntervalFraction | Fmi3SetShiftDecimal | Fmi3SetShiftFraction
    | Fmi3GetIntervalDecimal | Fmi3GetIntervalFraction | Fmi3GetShiftDecimal | Fmi3GetShiftFraction
    | Fmi3Derivative          // GetDirectionalDerivative, GetAdjointDerivative, GetOutputDerivatives
    | Fmi3Reset | Fmi3Terminate | Fmi3SerializeFmuState | Fmi3DeserializeFmuState
    | Fmi3FreeInstance | Fmi3SetDebugLogging | Fmi3CallbackContinue
    | CommandNotSet           // a message whose oneof is unset

  /** A received command: its case and its fields. */
  datatype Command<A> = Command(kind: Fmi3Kind, args: A)

  /** A reply: the variant of `Fmi3Return` that is set and its payload. */
  datatype Fmi3Reply<P> = Fmi3Reply(variant: Fmi3ReturnVariant, payload: P)

  /** The variant of a typed getter's reply. */
  function GetVariant(t: ValueType): (v: Fmi3ReturnVariant)
    ensures v != Status && v != Empty
  {
    match t
    case Float32 => GetFloat32
    case Float64 => GetFloat64
    case Int8 => GetInt8
    case UInt8 => GetUInt8
    case Int16 => GetInt16
    case UInt16 => GetUInt16
    case Int32 => GetInt32
    case UInt32 => GetUInt32
    case Int64 => GetInt64
    case UInt64 => GetUInt64
    case Boolean => GetBoolean
    case String => GetString
    case Binary => GetBinary
    case Clock => GetClock
  }

  /** Each type's getter has a reply variant of its own. */
  lemma GetVariantInjective(t1: ValueType, t2: ValueType)
    ensures GetVariant(t1) == GetVariant(t2) ==> t1 == t2
  {
  }

  /** Whether the API layer sends a command of this kind: the model
      exchange and scheduled execution instantiations and the derivative
      getters are refused without a message (fmi3/mod.rs:133-150, 330-350,
      3331-3360), the callback acknowledgement is sent only by `dispatch`
      and a command with no case is never built. */
  predicate SentByApi(k: Fmi3Kind)
  {
    !(k.Fmi3InstantiateModelExchange? || k.Fmi3InstantiateScheduledExecution? || k.Fmi3Derivative?
      || k.Fmi3CallbackContinue? || k.CommandNotSet?)
  }

  /** The reply variant the API layer waits for after sending a command of
      this kind, or None when it waits for none (`fmi3FreeInstance` drops
      the slave, which sends and returns). */
  function Awaited(k: Fmi3Kind): (r: Option<Fmi3ReturnVariant>)
    requires SentByApi(k)
    ensures r.None? <==> k == Fmi3FreeInstance
  {
    match k
    case Fmi3InstantiateCoSimulation => Some(Empty)
    case Fmi3DoStep => Some(DoStep)
    case Fmi3UpdateDiscreteStates => Some(UpdateDiscreteStates)
    case Fmi3Get(t) => Some(GetVariant(t))
    case Fmi3GetIntervalDecimal => Some(GetIntervalDecimal)
    case Fmi3GetIntervalFraction => Some(GetIntervalFraction)
    case Fmi3GetShiftDecimal => Some(GetShiftDecimal)
    case Fmi3GetShiftFraction => Some(GetShiftFraction)
    case Fmi3SerializeFmuState => Some(SerializeFmuState)
    case Fmi3FreeInstance => None
    case _ => Some(Status)
  }

  /** What a backend's command loop does with a command of some kind,
      before its model is consulted. */
  datatype Routing =
    | Instantiate                   // build the model, reply with Empty
    | Acknowledge(variant: Fmi3ReturnVariant) // reply without touching the model
    | Answer(variant: Fmi3ReturnVariant)  // call the model and reply with this variant
    | Leave(code: int)              // end the process without a reply
    | Skip                          // send nothing and receive again
    | Fail(exception: Exception)    // raise before anything is sent

  /** A routing table answers the API layer when every command the API
      sends and waits on is instantiated or answered with the awaited
      variant, and free-instance ends the process with code 0. */
  predicate AnswersAwaited(route: Fmi3Kind -> Routing, k: Fmi3Kind)
    requires SentByApi(k)
  {
    match Awaited(k)
    case None => route(k) == Leave(0)
    case Some(v) =>
      (route(k) == Instantiate && v == Empty)
      || route(k) == Answer(v) || route(k) == Acknowledge(v)
  }

  /** The variant of the reply a routing sends, if it sends one. */
  function RoutedVariant(r: Routing): (v: Option<Fmi3ReturnVariant>)
    ensures v.Some? <==> r.Instantiate? || r.Acknowledge? || r.Answer?
  {
    match r
    case Instantiate => Some(Empty)
    case Acknowledge(v) => Some(v)
    case Answer(v) => Some(v)
    case _ => None
  }

  /** How a backend handles a command routed by `route`: `instantiate`
      builds a model from an instantiate command's fields, `empty` is the
      payload of an Empty reply, and `call` is the model method the command
      names together with building the reply's payload, which may raise.
      Before a model exists, every call raises `unbound`. */
  function Handled<M, A, P, L>(route: Fmi3Kind -> Routing, unbound: Exception, instantiate: A -> M, empty: P,
                               call: (M, Command<A>) -> Outcome<(M, P)>,
                               model: Option<M>, c: Command<A>): (h: Handling<Option<M>, Fmi3Reply<P>, L>)
    ensures h.logs == []
    ensures h.action.Reply? <==> (RoutedVariant(route(c.kind)).Some?
      && (route(c.kind).Answer? ==> model.Some? && call(model.value, c).Returned?))
    ensures h.action.Reply? ==> Some(h.action.reply.variant) == RoutedVariant(route(c.kind))
    ensures h.action.Crash? <==>
      route(c.kind).Fail? || (route(c.kind).Answer? && (model.None? || call(model.value, c).Threw?))
    ensures h.action.Crash? && route(c.kind).Answer? && model.None? ==> h.action.exception == unbound
    ensures route(c.kind).Fail? ==> h == Handling([], Crash(route(c.kind).exception), model)
    ensures h.action.Exit? <==> route(c.kind).Leave?
    ensures h.action.Exit? ==> h.action.code == route(c.kind).code && h.next == model
    ensures h.action.Ignore? <==> route(c.kind).Skip?
    ensures !h.action.ReplyThenExit?
  {
    match route(c.kind)
    case Instantiate => Handling([], Reply(Fmi3Reply(Empty, empty)), Some(instantiate(c.args)))
    case Acknowledge(v) => Handling([], Reply(Fmi3Reply(v, empty)), model)
    case Answer(v) =>
      if model.None? then Handling([], Crash(unbound), model)
      else
        (match call(model.value, c)
         case Threw(e) => Handling([], Crash(e), model)
         case Returned((m, p)) => Handling([], Reply(Fmi3Reply(v, p)), Some(m)))
    case Leave(code) => Handling([], Exit(code), model)
    case Skip => Handling([], Ignore, model)
    case Fail(e) => Handling([], Crash(e), model)
  }

  /** `Handled` as the model function of a command loop. */
  function Handler<M, A, P, L>(route: Fmi3Kind -> Routing, unbound: Exception, instantiate: A -> M, empty: P,
                               call: (M, Command<A>) -> Outcome<(M, P)>)
    : (handle: (Option<M>, Command<A>) -> Handling<Option<M>, Fmi3Reply<P>, L>)
  {
    (s, c) => Handled(route, unbound, instantiate, empty, call, s, c)
  }

  /** Commands the API layer sends and waits on, each routed to the reply
      it waits for. */
  predicate AllAnswered(route: Fmi3Kind -> Routing, msgs: seq<Command>)
  {
    forall i | 0 <= i < |msgs| ::
      SentByApi(msgs[i].kind) && msgs[i].kind != Fmi3FreeInstance && AnswersAwaited(route, msgs[i].kind)
  }

  /** One reply per command, in order, each of the variant the API layer
      waits for after sending that command. */
  predicate RepliedAsAwaited<A, P, L>(sent: seq<Sent<Fmi3Reply<P>, L>>, msgs: seq<Command<A>>)
  {
    |sent| == |msgs| && forall i | 0 <= i < |msgs| ::
      SentByApi(msgs[i].kind) && sent[i].Replied? && Some(sent[i].reply.variant) == Awaited(msgs[i].kind)
  }

  /** With a model, a command routed to the reply the API layer awaits,
      whose model call returns, is answered with that reply and leaves a
      model. */
  lemma AnsweredStep<M, A, P, L>(
    route: Fmi3Kind -> Routing, unbound: Exception, instantiate: A -> M, empty: P,
    call: (M, Command<A>) -> Outcome<(M, P)>, model: Option<M>, c: Command<A>)
    requires model.Some? && SentByApi(c.kind) && c.kind != Fmi3FreeInstance && AnswersAwaited(route, c.kind)
    requires call(model.value, c).Returned?
    ensures var h := Handled<M, A, P, L>(route, unbound, instantiate, empty, call, model, c);
      h.logs == [] && h.action.Reply? && Some(h.action.reply.variant) == Awaited(c.kind) && h.next.Some?
  {
  }

  /** Once a model exists, a backend whose routing answers what the API
      layer awaits, and whose model calls return, sends one reply per
      command, in order, each of the variant the API layer waits for; the
      loop then waits for more. */
  lemma {:induction false} RepliesAwaited<M, A, P, L>(
    route: Fmi3Kind -> Routing, unbound: Exception, instantiate: A -> M, empty: P,
    call: (M, Command<A>) -> Outcome<(M, P)>, isContinue: Command<A> -> bool, refusal: int,
    model: Option<M>, msgs: seq<Command<A>>)
    requires model.Some?
    requires AllAnswered(route, msgs)
    requires forall m: M, i | 0 <= i < |msgs| :: call(m, msgs[i]).Returned?
    ensures var handle := Handler<M, A, P, L>(route, unbound, instantiate, empty, call);
      var r := Served(handle, isContinue, refusal, model, msgs);
      r.ending == Waiting && r.state.Some? && RepliedAsAwaited(r.sent, msgs)
    decreases |msgs|
  {
    var handle := Handler<M, A, P, L>(route, unbound, instantiate, empty, call);
    if |msgs| > 0 {
      AnsweredStep<M, A, P, L>(route, unbound, instantiate, empty, call, model, msgs[0]);
      var h := handle(model, msgs[0]);
      ServedReply(handle, isContinue, refusal, model, msgs);
      assert AllAnswered(route, msgs[1..]) by {
        forall i | 0 <= i < |msgs| - 1 ensures msgs[1..][i] == msgs[i + 1] { }
      }
      forall m: M, i | 0 <= i < |msgs| - 1 ensures call(m, msgs[1..][i]).Returned? {
        assert msgs[1..][i] == msgs[i + 1];
      }
      RepliesAwaited<M, A, P, L>(route, unbound, instantiate, empty, call, isContinue, refusal, h.next, msgs[1..]);
      var rest := Served(handle, isContinue, refusal, h.next, msgs[1..]);
      var r := Served(handle, isContinue, refusal, model, msgs);
      forall i | 0 <= i < |msgs|
        ensures SentByApi(msgs[i].kind) && r.sent[i].Replied? && Some(r.sent[i].reply.variant) == Awaited(msgs[i].kind)
      {
        if i > 0 {
          assert r.sent[i] == rest.sent[i - 1] && msgs[1..][i - 1] == msgs[i];
        }
      }
    }
  }

  /** A whole session that starts by instantiating the model: the
      handshake, the Empty reply to the instantiation, then one awaited
      reply per command. */
  lemma SessionRepliesAwaited<M, A, P, L>(
    route: Fmi3Kind -> Routing, unbound: Exception, instantiate: A -> M, empty: P,
    call: (M, Command<A>) -> Outcome<(M, P)>, isContinue: Command<A> -> bool, refusal: int,
    msgs: seq<Command<A>>)
    requires |msgs| > 0 && msgs[0].kind == Fmi3InstantiateCoSimulation && route(msgs[0].kind) == Instantiate
    requires AllAnswered(route, msgs[1..])
    requires forall m: M, i | 1 <= i < |msgs| :: call(m, msgs[i]).Returned?
    ensures var handle := Handler<M, A, P, L>(route, unbound, instantiate, empty, call);
      var r := Session(handle, isContinue, refusal, None, msgs);
      r.ending == Waiting && |r.sent| > 0 && r.sent[0] == Handshake(HandshakeOk)
      && RepliedAsAwaited(r.sent[1..], msgs)
  {
    var handle := Handler<M, A, P, L>(route, unbound, instantiate, empty, call);
    var h := handle(None, msgs[0]);
    ServedReply(handle, isContinue, refusal, None, msgs);
    forall m: M, i | 0 <= i < |msgs| - 1 ensures call(m, msgs[1..][i]).Returned? {
      assert msgs[1..][i] == msgs[i + 1];
    }
    RepliesAwaited<M, A, P, L>(route, unbound, instantiate, empty, call, isContinue, refusal, h.next, msgs[1..]);
    var rest := Served(handle, isContinue, refusal, h.next, msgs[1..]);
    var r := Session(handle, isContinue, refusal, None, msgs);
    assert r.sent[1..] == [Replied(h.action.reply)] + rest.sent;
    forall i | 0 <= i < |msgs|
      ensures SentByApi(msgs[i].kind) && r.sent[1..][i].Replied? && Some(r.sent[1..][i].reply.variant) == Awaited(msgs[i].kind)
    {
      if i > 0 {
        assert r.sent[1..][i] == rest.sent[i - 1] && msgs[1..][i - 1] == msgs[i];
      }
    }
  }

  /** A command routed to Leave ends the session there, without a reply:
      nothing after it is read. */
  lemma LeaveEndsSession<M, A, P, L>(
    route: Fmi3Kind -> Routing, unbound: Exception, instantiate: A -> M, empty: P,
    call: (M, Command<A>) -> Outcome<(M, P)>, isContinue: Command<A> -> bool, refusal: int,
    model: Option<M>, c: Command<A>, rest: seq<Command<A>>)
    requires route(c.kind).Leave?
    ensures var handle := Handler<M, A, P, L>(route, unbound, instantiate, empty, call);
      Served(handle, isContinue, refusal, model, [c] + rest) == Run([], Exited(route(c.kind).code), model)
  {
    var handle := Handler<M, A, P, L>(route, unbound, instantiate, empty, call);
    ExitEndsRun(handle, isContinue, refusal, model, c, rest);
  }

  /** A command routed to Skip is answered by nothing, and the loop goes on
      with the next command as if it had not come. */
  lemma SkipIgnored<M, A, P, L>(
    route: Fmi3Kind -> Routing, unbound: Exception, instantiate: A -> M, empty: P,
    call: (M, Command<A>) -> Outcome<(M, P)>, isContinue: Command<A> -> bool, refusal: int,
    model: Option<M>, c: Command<A>, rest: seq<Command<A>>)
    requires route(c.kind) == Skip
    ensures var handle := Handler<M, A, P, L>(route, unbound, instantiate, empty, call);
      Served(handle, isContinue, refusal, model, [c] + rest) == Served(handle, isContinue, refusal, model, rest)
  {
    var handle := Handler<M, A, P, L>(route, unbound, instantiate, empty, call);
    IgnoredCommand(handle, isContinue, refusal, model, c, rest);
  }

  // ------------------------------------------------------- byte lists

  /** A protobuf `bytes` value. */
  datatype ByteString = ByteString(contents: seq<byte>)

  /** The byte strings holding each array's bytes. */
  function ToByteStrings(arrays: seq<seq<byte>>): (r: seq<ByteString>)
    ensures |r| == |arrays|
    ensures forall i | 0 <= i < |arrays| :: r[i].contents == arrays[i]
  {
    seq(|arrays|, i requires 0 <= i < |arrays| => ByteString(arrays[i]))
  }

  /** The arrays holding each byte string's bytes. */
  function ToByteArrays(strings: seq<ByteString>): (r: seq<seq<byte>>)
    ensures |r| == |strings|
    ensures forall i | 0 <= i < |strings| :: r[i] == strings[i].contents
  {
    seq(|strings|, i requires 0 <= i < |strings| => strings[i].contents)
  }

  /** Converting to byte strings and back gives the arrays again. */
  lemma ByteArraysRoundTrip(arrays: seq<seq<byte>>)
    ensures ToByteArrays(ToByteStrings(arrays)) == arrays
  {
  }

  /** Converting to arrays and back gives the byte strings again. */
  lemma ByteStringsRoundTrip(strings: seq<ByteString>)
    ensures ToByteStrings(ToByteArrays(strings)) == strings
  {
  }

  /** `ConvertToByteStringList` / `convertToByteStringList`: a new list
      holding a copy of each array, in order. */
  method ConvertToByteStringList(arrays: seq<seq<byte>>) returns (list: seq<ByteString>)
    ensures list == ToByteStrings(arrays)
  {
    list := [];
    for i := 0 to |arrays|
      invariant list == ToByteStrings(arrays[..i])
    {
      assert arrays[..i + 1] == arrays[..i] + [arrays[i]];
      list := list + [ByteString(arrays[i])];
    }
    assert arrays[..|arrays|] == arrays;
  }

  /** `ConvertToByteArrayList` / `convertToByteArrayList`: a new list
      holding each byte string's bytes, in order. */
  method ConvertToByteArrayList(strings: seq<ByteString>) returns (list: seq<seq<byte>>)
    ensures list == ToByteArrays(strings)
  {
    list := [];
    for i := 0 to |strings|
      invariant list == ToByteArrays(strings[..i])
    {
      assert strings[..i + 1] == strings[..i] + [strings[i]];
      list := list + [strings[i].contents];
    }
    assert strings[..|strings|] == strings;
  }
}
