/** The C# FMI 2.0 backend's command loop (assets/csharp/backend_body.cs):
    after the handshake, each command is switched on its case; the model is
    built by the instantiation, bound to `logCallback`, and starts out null;
    free-instance is answered before the process exits with 0, and any
    case without a branch ends the process with -1. */
module CsharpFmi2Backend {
  import opened Wrappers
  import opened Exceptions
  import opened Dispatching
  import opened BackendLoops
  import opened Fmi2Commands

  /** What `logCallback` and `HandleUnexpectedCommand` end the process
      with. */
  const Refusal: int := -1

  /** The commands the dispatcher sends that this loop has no branch for. */
  predicate Unanswered(k: Fmi2Kind)
  {
    k in {Fmi2SetDebugLogging, Fmi2GetRealOutputDerivatives, Fmi2SetRealInputDerivatives,
          Fmi2GetDirectionalDerivatives}
  }

  /** The branches of `CommandReplyLoop`. */
  function Route(k: Fmi2Kind): (r: Fmi2Routing)
  {
    match k
    case Fmi2Instantiate => Create
    case Fmi2SetupExperiment => Answer(StatusReturn)
    case Fmi2EnterInitializationMode => Answer(StatusReturn)
    case Fmi2ExitInitializationMode => Answer(StatusReturn)
    case Fmi2DoStep => Answer(StatusReturn)
    case Fmi2SetReal => Answer(StatusReturn)
    case Fmi2SetInteger => Answer(StatusReturn)
    case Fmi2SetBoolean => Answer(StatusReturn)
    case Fmi2SetString => Answer(StatusReturn)
    case Fmi2GetReal => Answer(GetRealReturn)
    case Fmi2GetInteger => Answer(GetIntegerReturn)
    case Fmi2GetBoolean => Answer(GetBooleanReturn)
    case Fmi2GetString => Answer(GetStringReturn)
    case Fmi2CancelStep => Answer(StatusReturn)
    case Fmi2Reset => Answer(StatusReturn)
    case Fmi2Terminate => Answer(StatusReturn)
    case Fmi2SerializeFmuState => Answer(SerializeFmuStateReturn)
    case Fmi2DeserializeFmuState => Answer(StatusReturn)
    case Fmi2FreeInstance => Farewell(FreeInstanceReturn, 0)
    case _ => Leave(Refusal)   // HandleUnexpectedCommand
  }

  /** Every command the dispatcher sends is answered with the message it
      decodes, except the debug-logging switch and the three derivative
      commands; free-instance is answered and ends the process with 0. */
  lemma RouteAnswersAwaited(k: Fmi2Kind)
    requires SentByApi(k) && !Unanswered(k)
    ensures AnswersAwaited(Route, k)
  {
  }

  /** The process ends with -1 exactly for the debug-logging switch, the
      derivative commands and the commands the dispatcher never sends. */
  lemma RouteExits(k: Fmi2Kind)
    ensures Route(k) == Leave(-1) <==> (!SentByApi(k) || Unanswered(k))
    ensures Route(k).Farewell? <==> k == Fmi2FreeInstance
  {
  }

  /** The loop's handling of a command; a call on the null model raises
      `NullReferenceException`. */
  function Handle<M, A, P, L>(instantiate: A -> M, empty: P, call: (M, Fmi2Message<A>) -> Outcome<(M, P)>,
                              logsOf: (M, Fmi2Message<A>) -> seq<L>, model: Option<M>, c: Fmi2Message<A>)
    : (h: Handling<Option<M>, Fmi2Reply<P>, L>)
    ensures c.kind == Fmi2Instantiate ==>
      h == Handling([], Reply(Fmi2Reply(EmptyReturn, empty)), Some(instantiate(c.args)))
    ensures c.kind == Fmi2FreeInstance ==>
      h == Handling([], ReplyThenExit(Fmi2Reply(FreeInstanceReturn, empty), 0), model)
    ensures Route(c.kind).Answer? && model.None? ==> h.action == Crash(NullReferenceException)
  {
    Handled(Route, NullReferenceException, instantiate, empty, call, logsOf, model, c)
  }

  /** A session that instantiates and then sends only commands the
      dispatcher sends and this loop answers, whose model calls return
      without logging, is answered reply for reply as the dispatcher
      decodes. */
  lemma SessionAnswered<M, A, P, L>(instantiate: A -> M, empty: P, call: (M, Fmi2Message<A>) -> Outcome<(M, P)>,
                                    logsOf: (M, Fmi2Message<A>) -> seq<L>, msgs: seq<Fmi2Message<A>>)
    requires |msgs| > 0 && msgs[0].kind == Fmi2Instantiate
    requires forall i | 1 <= i < |msgs| ::
      SentByApi(msgs[i].kind) && msgs[i].kind != Fmi2FreeInstance && !Unanswered(msgs[i].kind)
    requires forall m: M, i | 1 <= i < |msgs| :: call(m, msgs[i]).Returned? && logsOf(m, msgs[i]) == []
    ensures var handle := Handler<M, A, P, L>(Route, NullReferenceException, instantiate, empty, call, logsOf);
      var r := Session(handle, IsContinue, Refusal, None, msgs);
      r.ending == Waiting && |r.sent| > 0 && r.sent[0] == Handshake(HandshakeOk)
      && RepliedAsAwaited(r.sent[1..], msgs)
  {
    forall i | 0 <= i < |msgs| - 1
      ensures SentByApi(msgs[1..][i].kind) && msgs[1..][i].kind != Fmi2FreeInstance
        && AnswersAwaited(Route, msgs[1..][i].kind)
    {
      assert msgs[1..][i] == msgs[i + 1];
      RouteAnswersAwaited(msgs[i + 1].kind);
    }
    assert Route(msgs[0].kind) == Create;
    SessionRepliesAwaited<M, A, P, L>(Route, NullReferenceException, instantiate, empty, call, logsOf, Refusal, msgs);
  }

  /** Free-instance sends `Fmi2FreeInstanceReturn` and then ends the
      process with 0: nothing after it is read. */
  lemma FreeInstanceRepliesThenExits<M, A, P, L>(instantiate: A -> M, empty: P,
                                                 call: (M, Fmi2Message<A>) -> Outcome<(M, P)>,
                                                 logsOf: (M, Fmi2Message<A>) -> seq<L>, model: Option<M>,
                                                 c: Fmi2Message<A>, rest: seq<Fmi2Message<A>>)
    requires c.kind == Fmi2FreeInstance
    ensures var handle := Handler<M, A, P, L>(Route, NullReferenceException, instantiate, empty, call, logsOf);
      Served(handle, IsContinue, Refusal, model, [c] + rest)
      == Run([Replied(Fmi2Reply(FreeInstanceReturn, empty))], Exited(0), model)
  {
    var handle := Handler<M, A, P, L>(Route, NullReferenceException, instantiate, empty, call, logsOf);
    ExitEndsRun(handle, IsContinue, Refusal, model, c, rest);
  }

  /** `fmi2SetDebugLogging` waits for a status reply, but the backend ends
      the process at that command without a reply. */
  lemma DebugLoggingEndsProcess<M, A, P, L>(instantiate: A -> M, empty: P,
                                            call: (M, Fmi2Message<A>) -> Outcome<(M, P)>,
                                            logsOf: (M, Fmi2Message<A>) -> seq<L>, model: Option<M>,
                                            c: Fmi2Message<A>, rest: seq<Fmi2Message<A>>)
    requires c.kind == Fmi2SetDebugLogging
    ensures Awaited(c.kind) == Some(StatusReturn)
    ensures var handle := Handler<M, A, P, L>(Route, NullReferenceException, instantiate, empty, call, logsOf);
      Served(handle, IsContinue, Refusal, model, [c] + rest) == Run([], Exited(-1), model)
  {
    LeaveEndsSession<M, A, P, L>(Route, NullReferenceException, instantiate, empty, call, logsOf, Refusal, model, c, rest);
  }

  /** `logCallback`: a command other than the acknowledgement after a log
      reply ends the process with -1. */
  lemma LogRefusedEndsProcess<M, A, P, L>(instantiate: A -> M, empty: P,
                                          call: (M, Fmi2Message<A>) -> Outcome<(M, P)>,
                                          logsOf: (M, Fmi2Message<A>) -> seq<L>, m: M, msgs: seq<Fmi2Message<A>>)
    requires |msgs| > 1 && Route(msgs[0].kind).Answer? && |logsOf(m, msgs[0])| > 0
    requires msgs[1].kind != Fmi2CallbackContinue
    ensures var handle := Handler<M, A, P, L>(Route, NullReferenceException, instantiate, empty, call, logsOf);
      var r := Served(handle, IsContinue, Refusal, Some(m), msgs);
      r.sent == [Logged(logsOf(m, msgs[0])[0])] && r.ending == Exited(-1)
  {
    LogRefused<M, A, P, L>(Route, NullReferenceException, instantiate, empty, call, logsOf, Refusal, m, msgs);
  }
}
