/** The Java FMI 2.0 backend's command loop
    (assets/java/src/fmi2/java/AbstractBackend.java): after the handshake,
    each command is switched on its case; the static model starts out null
    and logs through `loggingCallback`; free-instance ends the process with
    0 without a reply, and an unset command or a case without a branch is
    dropped without a reply. */
module JavaFmi2Backend {
  import opened Wrappers
  import opened Exceptions
  import opened Fmi2Types
  import opened Dispatching
  import opened BackendLoops
  import opened Fmi2Commands

  /** What `loggingCallback` ends the process with when the command after
      a log reply is not the acknowledgement. */
  const Refusal: int := 1

  /** `ordinal()` of `Model.Fmi2Status`, in declaration order. */
  function Ordinal(s: Fmi2Status): (n: nat)
    ensures n <= 5
  {
    match s
    case Ok => 0
    case Warning => 1
    case Discard => 2
    case Error => 3
    case Fatal => 4
    case Pending => 5
  }

  /** `Fmi2Status.forNumber(status.ordinal())`: the protobuf status with
      that number, or null. */
  function ToProtobufStatus(s: Fmi2Status): (r: Option<Fmi2Status>)
  {
    StatusFromValue(Ordinal(s))
  }

  /** Every model status, Pending included, converts to the protobuf status
      of the same name: the two enumerations list the same six statuses in
      the same order. */
  lemma ToProtobufStatusTotal(s: Fmi2Status)
    ensures ToProtobufStatus(s) == Some(s)
    ensures StatusValue(ToProtobufStatus(s).value) == Ordinal(s)
  {
  }

  /** `sendStatusReply`: the converted status in a status reply. */
  function StatusReply(s: Fmi2Status): (r: Fmi2Reply<Fmi2Status>)
    ensures r.variant == StatusReturn && r.payload == s
  {
    ToProtobufStatusTotal(s);
    Fmi2Reply(StatusReturn, ToProtobufStatus(s).value)
  }

  /** The derivative commands, which this loop has no branch for. */
  predicate Unanswered(k: Fmi2Kind)
  {
    k in {Fmi2GetRealOutputDerivatives, Fmi2SetRealInputDerivatives, Fmi2GetDirectionalDerivatives}
  }

  /** The branches of `commandReplyLoop`. */
  function Route(k: Fmi2Kind): (r: Fmi2Routing)
  {
    match k
    case Fmi2Instantiate => Create
    case Fmi2SetReal => Answer(StatusReturn)
    case Fmi2SetInteger => Answer(StatusReturn)
    case Fmi2SetBoolean => Answer(StatusReturn)
    case Fmi2SetString => Answer(StatusReturn)
    case Fmi2GetReal => Answer(GetRealReturn)
    case Fmi2GetInteger => Answer(GetIntegerReturn)
    case Fmi2GetBoolean => Answer(GetBooleanReturn)
    case Fmi2GetString => Answer(GetStringReturn)
    case Fmi2DoStep => Answer(StatusReturn)
    case Fmi2SetupExperiment => Answer(StatusReturn)
    case Fmi2EnterInitializationMode => Answer(StatusReturn)
    case Fmi2ExitInitializationMode => Answer(StatusReturn)
    case Fmi2FreeInstance => Leave(0)
    case Fmi2Reset => Answer(StatusReturn)
    case Fmi2Terminate => Answer(StatusReturn)
    case Fmi2CancelStep => Answer(StatusReturn)
    case Fmi2SerializeFmuState => Answer(SerializeFmuStateReturn)
    case Fmi2DeserializeFmuState => Answer(StatusReturn)
    case Fmi2SetDebugLogging => Answer(StatusReturn)
    case _ => Skip
  }

  /** Every command the dispatcher sends, the debug-logging switch
      included, is answered with the message it decodes, except the three
      derivative commands; free-instance ends the process with 0. */
  lemma RouteAnswersAwaited(k: Fmi2Kind)
    requires SentByApi(k) && !Unanswered(k)
    ensures AnswersAwaited(Route, k)
  {
  }

  /** A command is dropped exactly when the dispatcher never sends it or it
      is a derivative command; only free-instance ends the process. */
  lemma RouteDrops(k: Fmi2Kind)
    ensures Route(k) == Skip <==> (!SentByApi(k) || Unanswered(k))
    ensures Route(k).Leave? <==> k == Fmi2FreeInstance
    ensures !Route(k).Farewell?
  {
  }

  /** The loop's handling of a command; a call on the null model raises
      `NullPointerException`. */
  function Handle<M, A, P, L>(instantiate: A -> M, empty: P, call: (M, Fmi2Message<A>) -> Outcome<(M, P)>,
                              logsOf: (M, Fmi2Message<A>) -> seq<L>, model: Option<M>, c: Fmi2Message<A>)
    : (h: Handling<Option<M>, Fmi2Reply<P>, L>)
    ensures c.kind == Fmi2Instantiate ==>
      h == Handling([], Reply(Fmi2Reply(EmptyReturn, empty)), Some(instantiate(c.args)))
    ensures c.kind == Fmi2FreeInstance ==> h == Handling([], Exit(0), model)
    ensures Route(c.kind).Answer? && model.None? ==> h.action == Crash(NullPointerException)
  {
    Handled(Route, NullPointerException, instantiate, empty, call, logsOf, model, c)
  }

  /** A session that instantiates and then sends only commands this loop
      answers, whose model calls return without logging, is answered reply
      for reply as the dispatcher decodes. */
  lemma SessionAnswered<M, A, P, L>(instantiate: A -> M, empty: P, call: (M, Fmi2Message<A>) -> Outcome<(M, P)>,
                                    logsOf: (M, Fmi2Message<A>) -> seq<L>, msgs: seq<Fmi2Message<A>>)
    requires |msgs| > 0 && msgs[0].kind == Fmi2Instantiate
    requires forall i | 1 <= i < |msgs| ::
      SentByApi(msgs[i].kind) && msgs[i].kind != Fmi2FreeInstance && !Unanswered(msgs[i].kind)
    requires forall m: M, i | 1 <= i < |msgs| :: call(m, msgs[i]).Returned? && logsOf(m, msgs[i]) == []
    ensures var handle := Handler<M, A, P, L>(Route, NullPointerException, instantiate, empty, call, logsOf);
      var r := Session(handle, IsContinue, Refusal, None, msgs);
      r.ending == Waiting && |r.sent| > 0 && r.sent[0] == Handshake(HandshakeOk)
      && RepliedAsAwaited(r.sent[1..], msgs)
  {
    forall i | 0 <= i < |msgs| - 1
      ensures SentByApi(msgs[1..][i].kind) && msgs[1..][i].kind != Fmi2FreeInstance
        && AnswersAwaited(Route, msgs[1..][i].kind)
    {
      assert msgs[1..][i] == msgs[i + 1];
      RouteAnswersAwaited(msgs[i + 1].kind);
    }
    assert Route(msgs[0].kind) == Create;
    SessionRepliesAwaited<M, A, P, L>(Route, NullPointerException, instantiate, empty, call, logsOf, Refusal, msgs);
  }

  /** Free-instance ends the process with 0 without a reply. */
  lemma FreeInstanceExits<M, A, P, L>(instantiate: A -> M, empty: P, call: (M, Fmi2Message<A>) -> Outcome<(M, P)>,
                                      logsOf: (M, Fmi2Message<A>) -> seq<L>, model: Option<M>,
                                      c: Fmi2Message<A>, rest: seq<Fmi2Message<A>>)
    requires c.kind == Fmi2FreeInstance
    ensures var handle := Handler<M, A, P, L>(Route, NullPointerException, instantiate, empty, call, logsOf);
      Served(handle, IsContinue, Refusal, model, [c] + rest) == Run([], Exited(0), model)
  {
    LeaveEndsSession<M, A, P, L>(Route, NullPointerException, instantiate, empty, call, logsOf, Refusal, model, c, rest);
  }

  /** An unset command, and a command without a branch, is dropped: the
      loop goes on with the next one. */
  lemma UnmatchedCommandDropped<M, A, P, L>(instantiate: A -> M, empty: P, call: (M, Fmi2Message<A>) -> Outcome<(M, P)>,
                                          logsOf: (M, Fmi2Message<A>) -> seq<L>, model: Option<M>,
                                          c: Fmi2Message<A>, rest: seq<Fmi2Message<A>>)
    requires !SentByApi(c.kind) || Unanswered(c.kind)
    ensures var handle := Handler<M, A, P, L>(Route, NullPointerException, instantiate, empty, call, logsOf);
      Served(handle, IsContinue, Refusal, model, [c] + rest) == Served(handle, IsContinue, Refusal, model, rest)
  {
    SkipIgnored<M, A, P, L>(Route, NullPointerException, instantiate, empty, call, logsOf, Refusal, model, c, rest);
  }

  /** `loggingCallback`: a command other than the acknowledgement after a
      log reply ends the process with 1. */
  lemma LogRefusedEndsProcess<M, A, P, L>(instantiate: A -> M, empty: P,
                                          call: (M, Fmi2Message<A>) -> Outcome<(M, P)>,
                                          logsOf: (M, Fmi2Message<A>) -> seq<L>, m: M, msgs: seq<Fmi2Message<A>>)
    requires |msgs| > 1 && Route(msgs[0].kind).Answer? && |logsOf(m, msgs[0])| > 0
    requires msgs[1].kind != Fmi2CallbackContinue
    ensures var handle := Handler<M, A, P, L>(Route, NullPointerException, instantiate, empty, call, logsOf);
      var r := Served(handle, IsContinue, Refusal, Some(m), msgs);
      r.sent == [Logged(logsOf(m, msgs[0])[0])] && r.ending == Exited(1)
  {
    LogRefused<M, A, P, L>(Route, NullPointerException, instantiate, empty, call, logsOf, Refusal, m, msgs);
  }
}
