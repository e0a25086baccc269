/** The Java FMI 3.0 backend's command loop
    (assets/java/src/fmi3/java/AbstractBackend.java): after the handshake,
    each command is switched on its case; the static model field starts
    out null, and the debug-logging switch, an unset command and any case
    without a branch are dropped without a reply. */
module JavaFmi3Backend {
  import opened Wrappers
  import opened Exceptions
  import opened Fmi3Types
  import opened ProtobufExtensions
  import opened Dispatching
  import opened BackendLoops
  import opened Fmi3Commands

  /** `Model.Fmi3Status`, in declaration order. */
  datatype JavaFmi3Status = OK | Warning | Discard | Error | Fatal | Pending

  /** `ordinal()`. */
  function Ordinal(s: JavaFmi3Status): (n: nat)
    ensures n <= 5
  {
    match s
    case OK => 0
    case Warning => 1
    case Discard => 2
    case Error => 3
    case Fatal => 4
    case Pending => 5
  }

  /** `Fmi3Status.forNumber`: the protobuf status with that number, or null. */
  function ForNumber(n: int): (r: Option<ProtoFmi3Status>)
    ensures r.Some? <==> 0 <= n <= 4
    ensures r.Some? ==> ProtoValue(r.value) == n
  {
    if n == 0 then Some(ProtoOk)
    else if n == 1 then Some(ProtoWarning)
    else if n == 2 then Some(ProtoDiscard)
    else if n == 3 then Some(ProtoError)
    else if n == 4 then Some(ProtoFatal)
    else None
  }

  /** `toProtobufStatus`: by ordinal. */
  function ToProtobufStatus(s: JavaFmi3Status): (r: Option<ProtoFmi3Status>)
  {
    ForNumber(Ordinal(s))
  }

  /** Every status but Pending has a protobuf status with its own number,
      and different statuses convert to different ones; Pending converts to
      null. */
  lemma ToProtobufStatusByOrdinal(s: JavaFmi3Status, t: JavaFmi3Status)
    ensures ToProtobufStatus(s).Some? <==> s != Pending
    ensures ToProtobufStatus(s).Some? ==> ProtoValue(ToProtobufStatus(s).value) == Ordinal(s)
    ensures ToProtobufStatus(s).Some? && ToProtobufStatus(s) == ToProtobufStatus(t) ==> s == t
  {
  }

  /** Each status converts to the protobuf status of the same name. */
  lemma ToProtobufStatusNames()
    ensures ToProtobufStatus(OK) == Some(ProtoOk) && ToProtobufStatus(Warning) == Some(ProtoWarning)
    ensures ToProtobufStatus(Discard) == Some(ProtoDiscard) && ToProtobufStatus(Error) == Some(ProtoError)
    ensures ToProtobufStatus(Fatal) == Some(ProtoFatal)
  {
  }

  /** `sendStatusReply`: the status reply, or the `NullPointerException`
      `setStatus(null)` raises for Pending. */
  function StatusReply(s: JavaFmi3Status): (r: Outcome<Fmi3Reply<ProtoFmi3Status>>)
    ensures r.Returned? <==> s != Pending
    ensures r.Returned? ==> r.value.variant == Status && ProtoValue(r.value.payload) == Ordinal(s)
    ensures r.Threw? ==> r.exception == NullPointerException
  {
    match ToProtobufStatus(s)
    case None => Threw(NullPointerException)
    case Some(p) => Returned(Fmi3Reply(Status, p))
  }

  /** The branches of `commandReplyLoop`. */
  function Route(k: Fmi3Kind): (r: Routing)
  {
    match k
    case Fmi3InstantiateCoSimulation => Instantiate
    case Fmi3EnterInitializationMode => Answer(Status)
    case Fmi3ExitInitializationMode => Answer(Status)
    case Fmi3EnterConfigurationMode => Answer(Status)
    case Fmi3ExitConfigurationMode => Answer(Status)
    case Fmi3EnterEventMode => Answer(Status)
    case Fmi3EnterStepMode => Answer(Status)
    case Fmi3DoStep => Answer(DoStep)
    case Fmi3UpdateDiscreteStates => Answer(UpdateDiscreteStates)
    case Fmi3Set(_) => Answer(Status)
    case Fmi3SetIntervalDecimal => Answer(Status)
    case Fmi3SetIntervalFraction => Answer(Status)
    case Fmi3SetShiftDecimal => Answer(Status)
    case Fmi3SetShiftFraction => Answer(Status)
    case Fmi3Get(t) => Answer(GetVariant(t))
    case Fmi3GetIntervalDecimal => Answer(GetIntervalDecimal)
    case Fmi3GetIntervalFraction => Answer(GetIntervalFraction)
    case Fmi3GetShiftDecimal => Answer(GetShiftDecimal)
    case Fmi3GetShiftFraction => Answer(GetShiftFraction)
    case Fmi3Reset => Answer(Status)
    case Fmi3Terminate => Answer(Status)
    case Fmi3SerializeFmuState => Answer(SerializeFmuState)
    case Fmi3DeserializeFmuState => Answer(Status)
    case Fmi3FreeInstance => Leave(0)
    case _ => Skip
  }

  /** Every command the API layer sends and waits on is answered with the
      reply it waits for, except the debug-logging switch, and free-instance
      ends the process with 0 without a reply. */
  lemma RouteAnswersAwaited(k: Fmi3Kind)
    requires SentByApi(k) && k != Fmi3SetDebugLogging
    ensures AnswersAwaited(Route, k)
  {
  }

  /** A command is dropped exactly when the API layer never sends it or it
      is the debug-logging switch; only free-instance ends the process. */
  lemma RouteDrops(k: Fmi3Kind)
    ensures Route(k) == Skip <==> !SentByApi(k) || k == Fmi3SetDebugLogging
    ensures Route(k).Leave? <==> k == Fmi3FreeInstance
  {
  }

  /** The loop's handling of a command; a call on the null model raises
      `NullPointerException`. */
  function Handle<M, A, P>(instantiate: A -> M, empty: P, call: (M, Command<A>) -> Outcome<(M, P)>,
                           model: Option<M>, c: Command<A>): (h: Handling<Option<M>, Fmi3Reply<P>, ()>)
    ensures c.kind == Fmi3InstantiateCoSimulation ==>
      h == Handling([], Reply(Fmi3Reply(Empty, empty)), Some(instantiate(c.args)))
    ensures Route(c.kind).Answer? && model.None? ==> h.action == Crash(NullPointerException)
  {
    Handled(Route, NullPointerException, instantiate, empty, call, model, c)
  }

  /** A session that instantiates and then sends only commands the API
      layer awaits a reply to (the debug-logging switch excepted), whose
      model calls return, is answered reply for reply as the API layer
      expects. */
  lemma SessionAnswered<M, A, P>(instantiate: A -> M, empty: P, call: (M, Command<A>) -> Outcome<(M, P)>,
                                 isContinue: Command<A> -> bool, msgs: seq<Command<A>>)
    requires |msgs| > 0 && msgs[0].kind == Fmi3InstantiateCoSimulation
    requires forall i | 1 <= i < |msgs| ::
      SentByApi(msgs[i].kind) && msgs[i].kind != Fmi3FreeInstance && msgs[i].kind != Fmi3SetDebugLogging
    requires forall m: M, i | 1 <= i < |msgs| :: call(m, msgs[i]).Returned?
    ensures var handle := Handler<M, A, P, ()>(Route, NullPointerException, instantiate, empty, call);
      var r := Session(handle, isContinue, 1, None, msgs);
      r.ending == Waiting && |r.sent| > 0 && r.sent[0] == Handshake(HandshakeOk)
      && RepliedAsAwaited(r.sent[1..], msgs)
  {
    forall i | 0 <= i < |msgs| - 1
      ensures SentByApi(msgs[1..][i].kind) && msgs[1..][i].kind != Fmi3FreeInstance
        && AnswersAwaited(Route, msgs[1..][i].kind)
    {
      assert msgs[1..][i] == msgs[i + 1];
      RouteAnswersAwaited(msgs[i + 1].kind);
    }
    assert Route(msgs[0].kind) == Instantiate;
    SessionRepliesAwaited<M, A, P, ()>(Route, NullPointerException, instantiate, empty, call, isContinue, 1, msgs);
  }

  /** `fmi3SetDebugLogging` waits for a status reply, but the backend drops
      that command and goes on receiving as if it had not come. */
  lemma DebugLoggingDropped<M, A, P>(instantiate: A -> M, empty: P, call: (M, Command<A>) -> Outcome<(M, P)>,
                                     isContinue: Command<A> -> bool, model: Option<M>,
                                     c: Command<A>, rest: seq<Command<A>>)
    requires c.kind == Fmi3SetDebugLogging
    ensures Awaited(c.kind) == Some(Status)
    ensures var handle := Handler<M, A, P, ()>(Route, NullPointerException, instantiate, empty, call);
      Served(handle, isContinue, 1, model, [c] + rest) == Served(handle, isContinue, 1, model, rest)
  {
    SkipIgnored<M, A, P, ()>(Route, NullPointerException, instantiate, empty, call, isContinue, 1, model, c, rest);
  }
}
