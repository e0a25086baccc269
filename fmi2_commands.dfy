/** The FMI 2.0 commands as the backends receive them, the reply each one
    is decoded as by the API layer's FMI 2.0 dispatcher
    (fmiapi/src/fmi2_dispatcher.rs), and the routing every FMI 2.0 backend
    loop shares: build the model, call it and reply, reply and leave,
    leave, or drop the command. Unlike the FMI 3.0 models, an FMI 2.0 model
    logs through a callback while it handles a command. */
module Fmi2Commands {
  import opened Wrappers
  import opened Exceptions
  import opened Dispatching
  import opened BackendLoops
  import opened Floats

  /** The cases of the `Fmi2Command` oneof, with the unset case. */
  datatype Fmi2Kind =
    | Fmi2Instantiate | Fmi2SetupExperiment | Fmi2EnterInitializationMode | Fmi2ExitInitializationMode
    | Fmi2DoStep | Fmi2CancelStep | Fmi2Terminate | Fmi2Reset | Fmi2FreeInstance
    | Fmi2SetReal | Fmi2SetInteger | Fmi2SetBoolean | Fmi2SetString
    | Fmi2GetReal | Fmi2GetInteger | Fmi2GetBoolean | Fmi2GetString
    | Fmi2SerializeFmuState | Fmi2DeserializeFmuState | Fmi2SetDebugLogging
    | Fmi2GetRealOutputDerivatives | Fmi2SetRealInputDerivatives | Fmi2GetDirectionalDerivatives
    | Fmi2CallbackContinue | CommandNotSet

  /** A received command: its case and its fields. */
  datatype Fmi2Message<A> = Fmi2Message(kind: Fmi2Kind, args: A)

  /** The FMI 2.0 return messages. */
  datatype Fmi2ReturnType =
    | EmptyReturn | StatusReturn | FreeInstanceReturn | SerializeFmuStateReturn
    | GetRealReturn | GetIntegerReturn | GetBooleanReturn | GetStringReturn
    | GetRealOutputDerivativesReturn | GetDirectionalDerivativesReturn

  /** A reply: which return message, and what it carries. */
  datatype Fmi2Reply<P> = Fmi2Reply(variant: Fmi2ReturnType, payload: P)

  /** The commands the C functions send: all but the callback
      acknowledgement, which only answers a log reply, and the unset case. */
  predicate SentByApi(k: Fmi2Kind)
  {
    k != Fmi2CallbackContinue && k != CommandNotSet
  }

  /** The message the dispatcher decodes the reply to a command as; None
      for free-instance, which it sends without receiving. */
  function Awaited(k: Fmi2Kind): (v: Option<Fmi2ReturnType>)
    requires SentByApi(k)
    ensures v.None? <==> k == Fmi2FreeInstance
  {
    match k
    case Fmi2Instantiate => Some(EmptyReturn)
    case Fmi2FreeInstance => None
    case Fmi2SerializeFmuState => Some(SerializeFmuStateReturn)
    case Fmi2GetReal => Some(GetRealReturn)
    case Fmi2GetInteger => Some(GetIntegerReturn)
    case Fmi2GetBoolean => Some(GetBooleanReturn)
    case Fmi2GetString => Some(GetStringReturn)
    case Fmi2GetRealOutputDerivatives => Some(GetRealOutputDerivativesReturn)
    case Fmi2GetDirectionalDerivatives => Some(GetDirectionalDerivativesReturn)
    case _ => Some(StatusReturn)
  }

  /** What a backend's loop does with a command. */
  datatype Fmi2Routing =
    | Create                                 // build the model, reply with Empty
    | Answer(variant: Fmi2ReturnType)        // call the model and reply with this message
    | Farewell(variant: Fmi2ReturnType, code: int) // reply without the model, then end the process
    | Leave(code: int)                       // end the process without a reply
    | Skip                                   // send nothing and receive again
    | Fail(exception: Exception)             // raise before anything is sent

  /** A routing answers the API layer for a command when the reply is the
      one the dispatcher decodes, and free-instance ends the process with 0
      (a reply sent before that is never read). */
  predicate AnswersAwaited(route: Fmi2Kind -> Fmi2Routing, k: Fmi2Kind)
    requires SentByApi(k)
  {
    match Awaited(k)
    case None => route(k) == Leave(0) || route(k) == Farewell(FreeInstanceReturn, 0)
    case Some(v) => (route(k) == Create && v == EmptyReturn) || route(k) == Answer(v)
  }

  /** The message a routing replies with, if any. */
  function RoutedVariant(r: Fmi2Routing): (v: Option<Fmi2ReturnType>)
    ensures v.Some? <==> r.Create? || r.Answer? || r.Farewell?
  {
    match r
    case Create => Some(EmptyReturn)
    case Answer(v) => Some(v)
    case Farewell(v, _) => Some(v)
    case _ => None
  }

  /** How a backend handles a command routed by `route`: `instantiate`
      builds a model bound to the log callback, `empty` is the payload of a
      reply that carries nothing, `call` is the model method the command
      names with the building of the reply, which may raise, and `logsOf`
      the events the model logs during that call. Before a model exists,
      every call raises `unbound`. */
  function Handled<M, A, P, L>(route: Fmi2Kind -> Fmi2Routing, unbound: Exception, instantiate: A -> M, empty: P,
                               call: (M, Fmi2Message<A>) -> Outcome<(M, P)>, logsOf: (M, Fmi2Message<A>) -> seq<L>,
                               model: Option<M>, c: Fmi2Message<A>): (h: Handling<Option<M>, Fmi2Reply<P>, L>)
    ensures h.logs != [] ==> route(c.kind).Answer? && model.Some? && h.logs == logsOf(model.value, c)
    ensures h.action.Reply? <==> (route(c.kind).Create?
      || (route(c.kind).Answer? && model.Some? && call(model.value, c).Returned?))
    ensures h.action.ReplyThenExit? <==> route(c.kind).Farewell?
    ensures (h.action.Reply? || h.action.ReplyThenExit?) ==> Some(h.action.reply.variant) == RoutedVariant(route(c.kind))
    ensures h.action.ReplyThenExit? ==> h.action.code == route(c.kind).code && h.next == model
    ensures h.action.Crash? <==>
      route(c.kind).Fail? || (route(c.kind).Answer? && (model.None? || call(model.value, c).Threw?))
    ensures h.action.Crash? && route(c.kind).Answer? && model.None? ==> h.action.exception == unbound
    ensures route(c.kind).Fail? ==> h == Handling([], Crash(route(c.kind).exception), model)
    ensures h.action.Exit? <==> route(c.kind).Leave?
    ensures h.action.Exit? ==> h.action.code == route(c.kind).code && h.next == model
    ensures h.action.Ignore? <==> route(c.kind).Skip?
  {
    match route(c.kind)
    case Create => Handling([], Reply(Fmi2Reply(EmptyReturn, empty)), Some(instantiate(c.args)))
    case Answer(v) =>
      if model.None? then Handling([], Crash(unbound), model)
      else
        var logs := logsOf(model.value, c);
        (match call(model.value, c)
         case Threw(e) => Handling(logs, Crash(e), model)
         case Returned((m, p)) => Handling(logs, Reply(Fmi2Reply(v, p)), Some(m)))
    case Farewell(v, code) => Handling([], ReplyThenExit(Fmi2Reply(v, empty), code), model)
    case Leave(code) => Handling([], Exit(code), model)
    case Skip => Handling([], Ignore, model)
    case Fail(e) => Handling([], Crash(e), model)
  }

  /** `Handled` as the model function of a command loop. */
  function Handler<M, A, P, L>(route: Fmi2Kind -> Fmi2Routing, unbound: Exception, instantiate: A -> M, empty: P,
                               call: (M, Fmi2Message<A>) -> Outcome<(M, P)>, logsOf: (M, Fmi2Message<A>) -> seq<L>)
    : (handle: (Option<M>, Fmi2Message<A>) -> Handling<Option<M>, Fmi2Reply<P>, L>)
  {
    (s, c) => Handled(route, unbound, instantiate, empty, call, logsOf, s, c)
  }

  /** The callback acknowledgement. */
  function IsContinue<A>(c: Fmi2Message<A>): bool
  {
    c.kind == Fmi2CallbackContinue
  }

  /** Commands the API layer sends and waits on, each routed to the reply
      it waits for. */
  predicate AllAnswered(route: Fmi2Kind -> Fmi2Routing, msgs: seq<Fmi2Message>)
  {
    forall i | 0 <= i < |msgs| ::
      SentByApi(msgs[i].kind) && msgs[i].kind != Fmi2FreeInstance && AnswersAwaited(route, msgs[i].kind)
  }

  /** One reply per command, in order, each the message the dispatcher
      decodes after sending that command. */
  predicate RepliedAsAwaited<A, P, L>(sent: seq<Sent<Fmi2Reply<P>, L>>, msgs: seq<Fmi2Message<A>>)
  {
    |sent| == |msgs| && forall i | 0 <= i < |msgs| ::
      SentByApi(msgs[i].kind) && sent[i].Replied? && Some(sent[i].reply.variant) == Awaited(msgs[i].kind)
  }

  /** With a model, a command routed to the awaited reply, whose model call
      returns and logs nothing, is answered with that reply. */
  lemma AnsweredStep<M, A, P, L>(
    route: Fmi2Kind -> Fmi2Routing, unbound: Exception, instantiate: A -> M, empty: P,
    call: (M, Fmi2Message<A>) -> Outcome<(M, P)>, logsOf: (M, Fmi2Message<A>) -> seq<L>,
    model: Option<M>, c: Fmi2Message<A>)
    requires model.Some? && SentByApi(c.kind) && c.kind != Fmi2FreeInstance && AnswersAwaited(route, c.kind)
    requires call(model.value, c).Returned? && logsOf(model.value, c) == []
    ensures var h := Handled<M, A, P, L>(route, unbound, instantiate, empty, call, logsOf, model, c);
      h.logs == [] && h.action.Reply? && Some(h.action.reply.variant) == Awaited(c.kind) && h.next.Some?
  {
  }

  /** Once a model exists, a backend whose routing answers what the API
      layer awaits, and whose model calls return without logging, sends one
      reply per command, in order, each the one the dispatcher decodes; the
      loop then waits for more. */
  lemma {:induction false} RepliesAwaited<M, A, P, L>(
    route: Fmi2Kind -> Fmi2Routing, unbound: Exception, instantiate: A -> M, empty: P,
    call: (M, Fmi2Message<A>) -> Outcome<(M, P)>, logsOf: (M, Fmi2Message<A>) -> seq<L>, refusal: int,
    model: Option<M>, msgs: seq<Fmi2Message<A>>)
    requires model.Some?
    requires AllAnswered(route, msgs)
    requires forall m: M, i | 0 <= i < |msgs| :: call(m, msgs[i]).Returned? && logsOf(m, msgs[i]) == []
    ensures var handle := Handler<M, A, P, L>(route, unbound, instantiate, empty, call, logsOf);
      var r := Served(handle, IsContinue, refusal, model, msgs);
      r.ending == Waiting && r.state.Some? && RepliedAsAwaited(r.sent, msgs)
    decreases |msgs|
  {
    var handle := Handler<M, A, P, L>(route, unbound, instantiate, empty, call, logsOf);
    if |msgs| > 0 {
      AnsweredStep<M, A, P, L>(route, unbound, instantiate, empty, call, logsOf, model, msgs[0]);
      var h := handle(model, msgs[0]);
      ServedReply(handle, IsContinue, refusal, model, msgs);
      assert AllAnswered(route, msgs[1..]) by {
        forall i | 0 <= i < |msgs| - 1 ensures msgs[1..][i] == msgs[i + 1] { }
      }
      forall m: M, i | 0 <= i < |msgs| - 1
        ensures call(m, msgs[1..][i]).Returned? && logsOf(m, msgs[1..][i]) == []
      {
        assert msgs[1..][i] == msgs[i + 1];
      }
      RepliesAwaited<M, A, P, L>(route, unbound, instantiate, empty, call, logsOf, refusal, h.next, msgs[1..]);
      var rest := Served(handle, IsContinue, refusal, h.next, msgs[1..]);
      var r := Served(handle, IsContinue, refusal, model, msgs);
      forall i | 0 <= i < |msgs|
        ensures SentByApi(msgs[i].kind) && r.sent[i].Replied? && Some(r.sent[i].reply.variant) == Awaited(msgs[i].kind)
      {
        if i > 0 {
          assert r.sent[i] == rest.sent[i - 1] && msgs[1..][i - 1] == msgs[i];
        }
      }
    }
  }

  /** A whole session that starts by instantiating the model: the
      handshake, the Empty reply to the instantiation, then one awaited
      reply per command. */
  lemma SessionRepliesAwaited<M, A, P, L>(
    route: Fmi2Kind -> Fmi2Routing, unbound: Exception, instantiate: A -> M, empty: P,
    call: (M, Fmi2Message<A>) -> Outcome<(M, P)>, logsOf: (M, Fmi2Message<A>) -> seq<L>, refusal: int,
    msgs: seq<Fmi2Message<A>>)
    requires |msgs| > 0 && msgs[0].kind == Fmi2Instantiate && route(msgs[0].kind) == Create
    requires AllAnswered(route, msgs[1..])
    requires forall m: M, i | 1 <= i < |msgs| :: call(m, msgs[i]).Returned? && logsOf(m, msgs[i]) == []
    ensures var handle := Handler<M, A, P, L>(route, unbound, instantiate, empty, call, logsOf);
      var r := Session(handle, IsContinue, refusal, None, msgs);
      r.ending == Waiting && |r.sent| > 0 && r.sent[0] == Handshake(HandshakeOk)
      && RepliedAsAwaited(r.sent[1..], msgs)
  {
    var handle := Handler<M, A, P, L>(route, unbound, instantiate, empty, call, logsOf);
    var h := handle(None, msgs[0]);
    ServedReply(handle, IsContinue, refusal, None, msgs);
    forall m: M, i | 0 <= i < |msgs| - 1
      ensures call(m, msgs[1..][i]).Returned? && logsOf(m, msgs[1..][i]) == []
    {
      assert msgs[1..][i] == msgs[i + 1];
    }
    RepliesAwaited<M, A, P, L>(route, unbound, instantiate, empty, call, logsOf, refusal, h.next, msgs[1..]);
    var rest := Served(handle, IsContinue, refusal, h.next, msgs[1..]);
    var r := Session(handle, IsContinue, refusal, None, msgs);
    assert r.sent[1..] == [Replied(h.action.reply)] + rest.sent;
    forall i | 0 <= i < |msgs|
      ensures SentByApi(msgs[i].kind) && r.sent[1..][i].Replied? && Some(r.sent[1..][i].reply.variant) == Awaited(msgs[i].kind)
    {
      if i > 0 {
        assert r.sent[1..][i] == rest.sent[i - 1] && msgs[1..][i - 1] == msgs[i];
      }
    }
  }

  /** A model call that logs: each event goes out as a log reply and is
      acknowledged by one continue command, and the reply to the command
      comes after all of them. */
  lemma LoggedAnswer<M, A, P, L>(
    route: Fmi2Kind -> Fmi2Routing, unbound: Exception, instantiate: A -> M, empty: P,
    call: (M, Fmi2Message<A>) -> Outcome<(M, P)>, logsOf: (M, Fmi2Message<A>) -> seq<L>, refusal: int,
    m: M, msgs: seq<Fmi2Message<A>>)
    requires |msgs| > 0 && route(msgs[0].kind).Answer? && call(m, msgs[0]).Returned?
    requires |msgs| > |logsOf(m, msgs[0])|
    requires forall j | 1 <= j <= |logsOf(m, msgs[0])| :: msgs[j].kind == Fmi2CallbackContinue
    ensures var handle := Handler<M, A, P, L>(route, unbound, instantiate, empty, call, logsOf);
      var events := logsOf(m, msgs[0]);
      Step(handle, IsContinue, refusal, Some(m), msgs)
      == (Logs(events) + [Replied(Fmi2Reply(route(msgs[0].kind).variant, call(m, msgs[0]).value.1))],
          1 + |events|, None, Some(call(m, msgs[0]).value.0))
  {
    var handle := Handler<M, A, P, L>(route, unbound, instantiate, empty, call, logsOf);
    LoggedThenReplied(handle, IsContinue, refusal, Some(m), msgs);
  }

  /** A command other than the acknowledgement after a log reply ends the
      process with the backend's `refusal` code; no reply is sent. */
  lemma LogRefused<M, A, P, L>(
    route: Fmi2Kind -> Fmi2Routing, unbound: Exception, instantiate: A -> M, empty: P,
    call: (M, Fmi2Message<A>) -> Outcome<(M, P)>, logsOf: (M, Fmi2Message<A>) -> seq<L>, refusal: int,
    m: M, msgs: seq<Fmi2Message<A>>)
    requires |msgs| > 1 && route(msgs[0].kind).Answer? && |logsOf(m, msgs[0])| > 0
    requires msgs[1].kind != Fmi2CallbackContinue
    ensures var handle := Handler<M, A, P, L>(route, unbound, instantiate, empty, call, logsOf);
      var r := Served(handle, IsContinue, refusal, Some(m), msgs);
      r.sent == [Logged(logsOf(m, msgs[0])[0])] && r.ending == Exited(refusal)
  {
    var handle := Handler<M, A, P, L>(route, unbound, instantiate, empty, call, logsOf);
    var events := logsOf(m, msgs[0]);
    CallbackRefused<Fmi2Message<A>, Fmi2Reply<P>, L>(events, msgs[1..], IsContinue, refusal, 0);
    assert Logs<Fmi2Reply<P>, L>(events[..1]) == [Logged(events[0])];
  }

  /** A command routed to Leave ends the session there, without a reply. */
  lemma LeaveEndsSession<M, A, P, L>(
    route: Fmi2Kind -> Fmi2Routing, unbound: Exception, instantiate: A -> M, empty: P,
    call: (M, Fmi2Message<A>) -> Outcome<(M, P)>, logsOf: (M, Fmi2Message<A>) -> seq<L>, refusal: int,
    model: Option<M>, c: Fmi2Message<A>, rest: seq<Fmi2Message<A>>)
    requires route(c.kind).Leave?
    ensures var handle := Handler<M, A, P, L>(route, unbound, instantiate, empty, call, logsOf);
      Served(handle, IsContinue, refusal, model, [c] + rest) == Run([], Exited(route(c.kind).code), model)
  {
    var handle := Handler<M, A, P, L>(route, unbound, instantiate, empty, call, logsOf);
    ExitEndsRun(handle, IsContinue, refusal, model, c, rest);
  }

  /** A command routed to Skip is answered by nothing, and the loop goes on
      with the next command as if it had not come. */
  lemma SkipIgnored<M, A, P, L>(
    route: Fmi2Kind -> Fmi2Routing, unbound: Exception, instantiate: A -> M, empty: P,
    call: (M, Fmi2Message<A>) -> Outcome<(M, P)>, logsOf: (M, Fmi2Message<A>) -> seq<L>, refusal: int,
    model: Option<M>, c: Fmi2Message<A>, rest: seq<Fmi2Message<A>>)
    requires route(c.kind) == Skip
    ensures var handle := Handler<M, A, P, L>(route, unbound, instantiate, empty, call, logsOf);
      Served(handle, IsContinue, refusal, model, [c] + rest) == Served(handle, IsContinue, refusal, model, rest)
  {
    var handle := Handler<M, A, P, L>(route, unbound, instantiate, empty, call, logsOf);
    IgnoredCommand(handle, IsContinue, refusal, model, c, rest);
  }

  /** `Fmi2SetupExperiment` as parsed: the stop time and the tolerance are
      optional fields, each read as its value (0 when absent) and whether
      it is present. */
  datatype SetupWire = SetupWire(startTime: f64, hasStopTime: bool, stopTime: f64, hasTolerance: bool, tolerance: f64)

  /** The command the API layer sends, after the round trip through the
      wire: an absent optional reads as present false and value 0. */
  function SetupReceived(startTime: f64, stopTime: Option<f64>, tolerance: Option<f64>): (w: SetupWire)
    ensures w.hasStopTime <==> stopTime.Some?
    ensures w.hasTolerance <==> tolerance.Some?
  {
    SetupWire(startTime, stopTime.Some?, if stopTime.Some? then stopTime.value else 0,
              tolerance.Some?, if tolerance.Some? then tolerance.value else 0)
  }

  /** The arguments the C# and Java loops pass to `Fmi2SetupExperiment`:
      the stop time and the tolerance, or null where the field is absent. */
  function SetupArguments(w: SetupWire): (r: (f64, Option<f64>, Option<f64>))
    ensures r.0 == w.startTime
    ensures r.1.Some? <==> w.hasStopTime
    ensures r.2.Some? <==> w.hasTolerance
  {
    (w.startTime, if w.hasStopTime then Some(w.stopTime) else None,
     if w.hasTolerance then Some(w.tolerance) else None)
  }

  /** The model receives exactly what the C function was given: a stop
      time or tolerance where the API layer sent one, and null otherwise. */
  lemma SetupArgumentsRoundTrip(startTime: f64, stopTime: Option<f64>, tolerance: Option<f64>)
    ensures SetupArguments(SetupReceived(startTime, stopTime, tolerance)) == (startTime, stopTime, tolerance)
  {
  }
}
