/** The Python FMI 2.0 backend (assets/python/fmi2/backend.py and
    abstract_backend.py): the script sends the handshake, then matches each
    command's oneof group; `model` is bound by the instantiation, with
    `log_callback` as its logger; free-instance is answered before the
    process exits with 0, and every other group without a case, the cancel
    command among them, ends the process with -1. */
module PythonFmi2Backend {
  import opened Wrappers
  import opened Exceptions
  import opened Floats
  import opened Dispatching
  import opened BackendLoops
  import opened Fmi2Commands

  /** What `unknown_command` ends the process with. */
  const Refusal: int := -1

  /** The commands the dispatcher sends that this loop has no case for. */
  predicate Unanswered(k: Fmi2Kind)
  {
    k in {Fmi2CancelStep, Fmi2GetRealOutputDerivatives, Fmi2SetRealInputDerivatives, Fmi2GetDirectionalDerivatives}
  }

  /** The cases of the `match group`; `getattr(command, None)` raises
      `TypeError` for a command whose oneof is unset. */
  function Route(k: Fmi2Kind): (r: Fmi2Routing)
  {
    match k
    case Fmi2Instantiate => Create
    case Fmi2DoStep => Answer(StatusReturn)
    case Fmi2SetDebugLogging => Answer(StatusReturn)
    case Fmi2SetupExperiment => Answer(StatusReturn)
    case Fmi2EnterInitializationMode => Answer(StatusReturn)
    case Fmi2ExitInitializationMode => Answer(StatusReturn)
    case Fmi2FreeInstance => Farewell(FreeInstanceReturn, 0)
    case Fmi2Terminate => Answer(StatusReturn)
    case Fmi2Reset => Answer(StatusReturn)
    case Fmi2SerializeFmuState => Answer(SerializeFmuStateReturn)
    case Fmi2DeserializeFmuState => Answer(StatusReturn)
    case Fmi2GetReal => Answer(GetRealReturn)
    case Fmi2GetInteger => Answer(GetIntegerReturn)
    case Fmi2GetBoolean => Answer(GetBooleanReturn)
    case Fmi2GetString => Answer(GetStringReturn)
    case Fmi2SetReal => Answer(StatusReturn)
    case Fmi2SetInteger => Answer(StatusReturn)
    case Fmi2SetBoolean => Answer(StatusReturn)
    case Fmi2SetString => Answer(StatusReturn)
    case CommandNotSet => Fail(TypeError)
    case _ => Leave(Refusal)   // unknown_command
  }

  /** Every command the dispatcher sends is routed to the message it
      decodes, the debug-logging switch included, except the cancel command
      and the three derivative commands; free-instance is answered and ends
      the process with 0. */
  lemma RouteAnswersAwaited(k: Fmi2Kind)
    requires SentByApi(k) && !Unanswered(k)
    ensures AnswersAwaited(Route, k)
  {
  }

  /** The process ends with -1 exactly for the cancel command, the
      derivative commands and a stray callback acknowledgement. */
  lemma RouteExits(k: Fmi2Kind)
    ensures Route(k) == Leave(-1) <==> (Unanswered(k) || k == Fmi2CallbackContinue)
    ensures Route(k).Fail? <==> k == CommandNotSet
  {
  }

  /** `recv_command`: the oneof group and its payload; `getattr` with the
      group None raises `TypeError` for a command whose oneof is unset. */
  function RecvCommand<A>(c: Fmi2Message<A>): (r: Outcome<(Fmi2Kind, A)>)
    ensures r.Returned? <==> c.kind != CommandNotSet
    ensures r.Returned? ==> r.value == (c.kind, c.args)
  {
    if c.kind == CommandNotSet then Threw(TypeError) else Returned((c.kind, c.args))
  }

  /** `fmi2SetupExperiment` is called with the fields as read, present or
      not: an absent stop time or tolerance arrives as 0. */
  function SetupArgumentsPython(w: SetupWire): (r: (f64, Option<f64>, Option<f64>))
    ensures r == (w.startTime, Some(w.stopTime), Some(w.tolerance))
  {
    (w.startTime, Some(w.stopTime), Some(w.tolerance))
  }

  /** Unlike the C# and Java loops, this loop cannot tell a missing stop
      time or tolerance from 0: both reach the model as 0. */
  lemma SetupPresenceLost(startTime: f64)
    ensures SetupArgumentsPython(SetupReceived(startTime, None, None))
         == SetupArgumentsPython(SetupReceived(startTime, Some(0), Some(0)))
    ensures SetupArguments(SetupReceived(startTime, None, None))
         != SetupArguments(SetupReceived(startTime, Some(0), Some(0)))
  {
  }

  // ------------------------------------------- building the replies

  /** The fields of `Fmi2Return`, by the names `status_reply` and
      `log_callback` of abstract_backend.py and the C# backend's
      properties give them. */
  const ReturnFields: set<string> :=
    {"status", "log", "empty", "free_instance", "serialize_fmu_state",
     "get_real", "get_integer", "get_boolean", "get_string"}

  /** The keyword a reply is built with in backend.py: the name of the
      return message's type. */
  function KeywordAsWritten(v: Fmi2ReturnType): (kw: string)
    ensures |kw| > 13
  {
    match v
    case EmptyReturn => "Fmi2EmptyReturn"
    case StatusReturn => "Fmi2StatusReturn"
    case FreeInstanceReturn => "Fmi2FreeInstanceReturn"
    case SerializeFmuStateReturn => "Fmi2SerializeFmuStateReturn"
    case GetRealReturn => "Fmi2GetRealReturn"
    case GetIntegerReturn => "Fmi2GetIntegerReturn"
    case GetBooleanReturn => "Fmi2GetBooleanReturn"
    case GetStringReturn => "Fmi2GetStringReturn"
    case GetRealOutputDerivativesReturn => "Fmi2GetRealOutputDerivativesReturn"
    case GetDirectionalDerivativesReturn => "Fmi2GetDirectionalDerivativesReturn"
  }

  /** The keyword backend.py builds a log reply with. */
  const LogKeywordAsWritten: string := "Fmi2LogReturn"

  /** The field a reply is set through, as the rest of the backends name
      it. */
  function Keyword(v: Fmi2ReturnType): (kw: string)
    ensures v !in {GetRealOutputDerivativesReturn, GetDirectionalDerivativesReturn} ==> kw in ReturnFields
  {
    match v
    case EmptyReturn => "empty"
    case StatusReturn => "status"
    case FreeInstanceReturn => "free_instance"
    case SerializeFmuStateReturn => "serialize_fmu_state"
    case GetRealReturn => "get_real"
    case GetIntegerReturn => "get_integer"
    case GetBooleanReturn => "get_boolean"
    case GetStringReturn => "get_string"
    case GetRealOutputDerivativesReturn => "get_real_output_derivatives"
    case GetDirectionalDerivativesReturn => "get_directional_derivatives"
  }

  /** The keyword a log reply is built with. */
  const LogKeyword: string := "log"

  /** Sending what the model's handling produced, with each message built
      by `Fmi2Return(keyword=...)`: a keyword that names no field raises
      `ValueError` before the message is sent. The first log event is
      built first, then the reply. */
  function Sending<S, P, L>(keywordOf: Fmi2ReturnType -> string, logKeyword: string,
                            h: Handling<S, Fmi2Reply<P>, L>): (r: Handling<S, Fmi2Reply<P>, L>)
    ensures r.next == h.next
    ensures r == h || r.action == Crash(ValueError)
    ensures h.logs != [] && logKeyword !in ReturnFields ==> r == Handling([], Crash(ValueError), h.next)
    ensures r.logs == h.logs || r.logs == []
  {
    if h.logs != [] && logKeyword !in ReturnFields then Handling([], Crash(ValueError), h.next)
    else match h.action
      case Reply(reply) =>
        if keywordOf(reply.variant) in ReturnFields then h else Handling(h.logs, Crash(ValueError), h.next)
      case ReplyThenExit(reply, _) =>
        if keywordOf(reply.variant) in ReturnFields then h else Handling(h.logs, Crash(ValueError), h.next)
      case _ => h
  }

  /** No keyword backend.py builds a message with names a field: every log
      event and every reply raises `ValueError`. */
  lemma KeywordsAsWrittenRejected(v: Fmi2ReturnType)
    ensures KeywordAsWritten(v) !in ReturnFields
    ensures LogKeywordAsWritten !in ReturnFields
  {
  }

  /** As written, whatever the model's handling sends, the loop crashes
      with `ValueError` instead. */
  lemma SendingAsWrittenCrashes<S, P, L>(h: Handling<S, Fmi2Reply<P>, L>)
    requires h.logs != [] || h.action.Reply? || h.action.ReplyThenExit?
    ensures Sending(KeywordAsWritten, LogKeywordAsWritten, h).action == Crash(ValueError)
  {
    if h.logs == [] {
      KeywordsAsWrittenRejected(h.action.reply.variant);
    }
  }

  /** With the field names, every reply this loop routes to and every log
      event is sent as the model's handling produced it. */
  lemma SendingUnchanged<M, A, P, L>(instantiate: A -> M, empty: P, call: (M, Fmi2Message<A>) -> Outcome<(M, P)>,
                                     logsOf: (M, Fmi2Message<A>) -> seq<L>, model: Option<M>, c: Fmi2Message<A>)
    ensures var h := Handled(Route, NameError, instantiate, empty, call, logsOf, model, c);
      Sending(Keyword, LogKeyword, h) == h
  {
  }

  /** The loop as written. */
  function HandlerAsWritten<M, A, P, L>(instantiate: A -> M, empty: P, call: (M, Fmi2Message<A>) -> Outcome<(M, P)>,
                                        logsOf: (M, Fmi2Message<A>) -> seq<L>)
    : (handle: (Option<M>, Fmi2Message<A>) -> Handling<Option<M>, Fmi2Reply<P>, L>)
  {
    (s, c) => Sending(KeywordAsWritten, LogKeywordAsWritten, Handled(Route, NameError, instantiate, empty, call, logsOf, s, c))
  }

  /** As written, the backend dies on the first command: the Empty reply to
      the instantiation raises `ValueError`, after the handshake and before
      anything else is sent. */
  lemma InstantiateCrashesAsWritten<M, A, P, L>(instantiate: A -> M, empty: P,
                                                call: (M, Fmi2Message<A>) -> Outcome<(M, P)>,
                                                logsOf: (M, Fmi2Message<A>) -> seq<L>,
                                                c: Fmi2Message<A>, rest: seq<Fmi2Message<A>>)
    requires c.kind == Fmi2Instantiate
    ensures var handle := HandlerAsWritten(instantiate, empty, call, logsOf);
      Session(handle, IsContinue, Refusal, None, [c] + rest)
      == Run([Handshake(HandshakeOk)], Crashed(ValueError), Some(instantiate(c.args)))
  {
    var handle := HandlerAsWritten(instantiate, empty, call, logsOf);
    KeywordsAsWrittenRejected(EmptyReturn);
    assert handle(None, c) == Handling([], Crash(ValueError), Some(instantiate(c.args)));
    assert ([c] + rest)[0] == c;
    assert Callbacks<Fmi2Message<A>, Fmi2Reply<P>, L>([], ([c] + rest)[1..], IsContinue, Refusal) == ([], 0, None);
  }

  /** With the field names, a session that instantiates and then sends only
      commands this loop answers, whose model calls return without logging,
      is answered reply for reply as the dispatcher decodes. */
  lemma SessionAnswered<M, A, P, L>(instantiate: A -> M, empty: P, call: (M, Fmi2Message<A>) -> Outcome<(M, P)>,
                                    logsOf: (M, Fmi2Message<A>) -> seq<L>, msgs: seq<Fmi2Message<A>>)
    requires |msgs| > 0 && msgs[0].kind == Fmi2Instantiate
    requires forall i | 1 <= i < |msgs| ::
      SentByApi(msgs[i].kind) && msgs[i].kind != Fmi2FreeInstance && !Unanswered(msgs[i].kind)
    requires forall m: M, i | 1 <= i < |msgs| :: call(m, msgs[i]).Returned? && logsOf(m, msgs[i]) == []
    ensures var handle := Handler<M, A, P, L>(Route, NameError, instantiate, empty, call, logsOf);
      var r := Session(handle, IsContinue, Refusal, None, msgs);
      r.ending == Waiting && |r.sent| > 0 && r.sent[0] == Handshake(HandshakeOk)
      && RepliedAsAwaited(r.sent[1..], msgs)
  {
    forall i | 0 <= i < |msgs| - 1
      ensures SentByApi(msgs[1..][i].kind) && msgs[1..][i].kind != Fmi2FreeInstance
        && AnswersAwaited(Route, msgs[1..][i].kind)
    {
      assert msgs[1..][i] == msgs[i + 1];
      RouteAnswersAwaited(msgs[i + 1].kind);
    }
    assert Route(msgs[0].kind) == Create;
    SessionRepliesAwaited<M, A, P, L>(Route, NameError, instantiate, empty, call, logsOf, Refusal, msgs);
  }

  /** `fmi2CancelStep` waits for a status reply, but the loop has no case
      for it and ends the process with -1. */
  lemma CancelStepEndsProcess<M, A, P, L>(instantiate: A -> M, empty: P,
                                          call: (M, Fmi2Message<A>) -> Outcome<(M, P)>,
                                          logsOf: (M, Fmi2Message<A>) -> seq<L>, model: Option<M>,
                                          c: Fmi2Message<A>, rest: seq<Fmi2Message<A>>)
    requires c.kind == Fmi2CancelStep
    ensures Awaited(c.kind) == Some(StatusReturn)
    ensures var handle := Handler<M, A, P, L>(Route, NameError, instantiate, empty, call, logsOf);
      Served(handle, IsContinue, Refusal, model, [c] + rest) == Run([], Exited(-1), model)
  {
    LeaveEndsSession<M, A, P, L>(Route, NameError, instantiate, empty, call, logsOf, Refusal, model, c, rest);
  }

  /** Free-instance sends `Fmi2FreeInstanceReturn` and then ends the
      process with 0. */
  lemma FreeInstanceRepliesThenExits<M, A, P, L>(instantiate: A -> M, empty: P,
                                                 call: (M, Fmi2Message<A>) -> Outcome<(M, P)>,
                                                 logsOf: (M, Fmi2Message<A>) -> seq<L>, model: Option<M>,
                                                 c: Fmi2Message<A>, rest: seq<Fmi2Message<A>>)
    requires c.kind == Fmi2FreeInstance
    ensures var handle := Handler<M, A, P, L>(Route, NameError, instantiate, empty, call, logsOf);
      Served(handle, IsContinue, Refusal, model, [c] + rest)
      == Run([Replied(Fmi2Reply(FreeInstanceReturn, empty))], Exited(0), model)
  {
    var handle := Handler<M, A, P, L>(Route, NameError, instantiate, empty, call, logsOf);
    ExitEndsRun(handle, IsContinue, Refusal, model, c, rest);
  }

  /** `log_callback`: a command other than the acknowledgement after a log
      reply goes to `unknown_command`, which ends the process with -1. */
  lemma LogRefusedEndsProcess<M, A, P, L>(instantiate: A -> M, empty: P,
                                          call: (M, Fmi2Message<A>) -> Outcome<(M, P)>,
                                          logsOf: (M, Fmi2Message<A>) -> seq<L>, m: M, msgs: seq<Fmi2Message<A>>)
    requires |msgs| > 1 && Route(msgs[0].kind).Answer? && |logsOf(m, msgs[0])| > 0
    requires msgs[1].kind != Fmi2CallbackContinue
    ensures var handle := Handler<M, A, P, L>(Route, NameError, instantiate, empty, call, logsOf);
      var r := Served(handle, IsContinue, Refusal, Some(m), msgs);
      r.sent == [Logged(logsOf(m, msgs[0])[0])] && r.ending == Exited(-1)
  {
    LogRefused<M, A, P, L>(Route, NameError, instantiate, empty, call, logsOf, Refusal, m, msgs);
  }

  /** `status_reply` of abstract_backend.py: the status in the `status`
      field, which the schema has. */
  function StatusReply<S>(status: S): (r: (string, Fmi2Reply<S>))
    ensures r.0 in ReturnFields && r.1.variant == StatusReturn && r.1.payload == status
  {
    ("status", Fmi2Reply(StatusReturn, status))
  }
}
