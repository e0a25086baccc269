/** The C# FMI 3.0 backend's command loop (assets/csharp/fmi3/backend_body.cs):
    after the handshake, each command is switched on its case; the model
    is built by the co-simulation instantiation and starts out null, and
    any case without a branch ends the process with -1. */
module CsharpFmi3Backend {
  import opened Wrappers
  import opened Exceptions
  import opened Fmi3Types
  import opened ProtobufExtensions
  import opened Dispatching
  import opened BackendLoops
  import opened Fmi3Commands
  import CM = CsharpFmi3Model
  import FE = Fmi3Example
  import Values

  /** The branches of `CommandReplyLoop`. */
  function Route(k: Fmi3Kind): (r: Routing)
  {
    match k
    case Fmi3InstantiateCoSimulation => Instantiate
    case Fmi3EnterInitializationMode => Answer(Status)
    case Fmi3ExitInitializationMode => Answer(Status)
    case Fmi3EnterConfigurationMode => Answer(Status)
    case Fmi3ExitConfigurationMode => Answer(Status)
    case Fmi3EnterEventMode => Answer(Status)
    case Fmi3EnterStepMode => Answer(Status)
    case Fmi3DoStep => Answer(DoStep)
    case Fmi3UpdateDiscreteStates => Answer(UpdateDiscreteStates)
    case Fmi3Set(_) => Answer(Status)
    case Fmi3SetIntervalDecimal => Answer(Status)
    case Fmi3SetIntervalFraction => Answer(Status)
    case Fmi3SetShiftDecimal => Answer(Status)
    case Fmi3SetShiftFraction => Answer(Status)
    case Fmi3Get(t) => Answer(GetVariant(t))
    case Fmi3GetIntervalDecimal => Answer(GetIntervalDecimal)
    case Fmi3GetIntervalFraction => Answer(GetIntervalFraction)
    case Fmi3GetShiftDecimal => Answer(GetShiftDecimal)
    case Fmi3GetShiftFraction => Answer(GetShiftFraction)
    case Fmi3Reset => Answer(Status)
    case Fmi3Terminate => Answer(Status)
    case Fmi3SerializeFmuState => Answer(SerializeFmuState)
    case Fmi3DeserializeFmuState => Answer(Status)
    case Fmi3FreeInstance => Leave(0)
    case _ => Leave(-1)   // HandleUnexpectedCommand
  }

  /** Every command the API layer sends and waits on is answered with the
      reply it waits for, except the debug-logging switch, and free-instance
      ends the process with 0 without a reply. */
  lemma RouteAnswersAwaited(k: Fmi3Kind)
    requires SentByApi(k) && k != Fmi3SetDebugLogging
    ensures AnswersAwaited(Route, k)
  {
  }

  /** The process ends with -1 exactly for the debug-logging switch and the
      commands the API layer never sends. */
  lemma RouteExits(k: Fmi3Kind)
    ensures Route(k) == Leave(-1) <==> !SentByApi(k) || k == Fmi3SetDebugLogging
    ensures Route(k).Leave? <==> Route(k) == Leave(-1) || k == Fmi3FreeInstance
  {
  }

  /** The loop's handling of a command; a call on the null model raises
      `NullReferenceException`. */
  function Handle<M, A, P>(instantiate: A -> M, empty: P, call: (M, Command<A>) -> Outcome<(M, P)>,
                           model: Option<M>, c: Command<A>): (h: Handling<Option<M>, Fmi3Reply<P>, ()>)
    ensures c.kind == Fmi3InstantiateCoSimulation ==>
      h == Handling([], Reply(Fmi3Reply(Empty, empty)), Some(instantiate(c.args)))
    ensures Route(c.kind).Answer? && model.None? ==> h.action == Crash(NullReferenceException)
  {
    Handled(Route, NullReferenceException, instantiate, empty, call, model, c)
  }

  /** A session that instantiates and then sends only commands the API
      layer awaits a reply to (the debug-logging switch excepted), whose
      model calls return, is answered reply for reply as the API layer
      expects. */
  lemma SessionAnswered<M, A, P>(instantiate: A -> M, empty: P, call: (M, Command<A>) -> Outcome<(M, P)>,
                                 isContinue: Command<A> -> bool, msgs: seq<Command<A>>)
    requires |msgs| > 0 && msgs[0].kind == Fmi3InstantiateCoSimulation
    requires forall i | 1 <= i < |msgs| ::
      SentByApi(msgs[i].kind) && msgs[i].kind != Fmi3FreeInstance && msgs[i].kind != Fmi3SetDebugLogging
    requires forall m: M, i | 1 <= i < |msgs| :: call(m, msgs[i]).Returned?
    ensures var handle := Handler<M, A, P, ()>(Route, NullReferenceException, instantiate, empty, call);
      var r := Session(handle, isContinue, -1, None, msgs);
      r.ending == Waiting && |r.sent| > 0 && r.sent[0] == Handshake(HandshakeOk)
      && RepliedAsAwaited(r.sent[1..], msgs)
  {
    forall i | 0 <= i < |msgs| - 1
      ensures SentByApi(msgs[1..][i].kind) && msgs[1..][i].kind != Fmi3FreeInstance
        && AnswersAwaited(Route, msgs[1..][i].kind)
    {
      assert msgs[1..][i] == msgs[i + 1];
      RouteAnswersAwaited(msgs[i + 1].kind);
    }
    assert Route(msgs[0].kind) == Instantiate;
    SessionRepliesAwaited<M, A, P, ()>(Route, NullReferenceException, instantiate, empty, call, isContinue, -1, msgs);
  }

  /** `fmi3SetDebugLogging` waits for a status reply, but the backend ends
      the process at that command: nothing is sent and nothing after it is
      read. */
  lemma DebugLoggingEndsProcess<M, A, P>(instantiate: A -> M, empty: P, call: (M, Command<A>) -> Outcome<(M, P)>,
                                         isContinue: Command<A> -> bool, model: Option<M>,
                                         c: Command<A>, rest: seq<Command<A>>)
    requires c.kind == Fmi3SetDebugLogging
    ensures Awaited(c.kind) == Some(Status)
    ensures var handle := Handler<M, A, P, ()>(Route, NullReferenceException, instantiate, empty, call);
      Served(handle, isContinue, -1, model, [c] + rest) == Run([], Exited(-1), model)
  {
    LeaveEndsSession<M, A, P, ()>(Route, NullReferenceException, instantiate, empty, call, isContinue, -1, model, c, rest);
  }

  // ------------------------------------------------------------ getters

  /** A getter's branch as written: the values are added to the reply with
      `AddRange`, which raises `ArgumentNullException` for the null list the
      model returns with an error status; the binary getter first converts
      the list, whose `foreach` raises `NullReferenceException`. */
  function GetterReplyAsWritten<V>(t: ValueType, result: (ProtoFmi3Status, Option<seq<V>>))
    : (r: Outcome<(ProtoFmi3Status, seq<V>)>)
    ensures r.Returned? <==> result.1.Some?
    ensures r.Returned? ==> r.value == (result.0, result.1.value)
  {
    match result.1
    case None => Threw(if t == Binary then NullReferenceException else ArgumentNullException)
    case Some(values) => Returned((result.0, values))
  }

  /** A getter's branch as intended: the model's status is replied, with no
      values when the model gives none. */
  function GetterReply<V>(t: ValueType, result: (ProtoFmi3Status, Option<seq<V>>))
    : (r: (ProtoFmi3Status, seq<V>))
    ensures r.0 == result.0
    ensures result.1.Some? ==> r.1 == result.1.value
    ensures result.1.None? ==> r.1 == []
  {
    (result.0, match result.1 case None => [] case Some(values) => values)
  }

  /** The two agree whenever the model gives values. */
  lemma GetterRepliesAgree<V>(t: ValueType, result: (ProtoFmi3Status, Option<seq<V>>))
    requires result.1.Some?
    ensures GetterReplyAsWritten(t, result) == Returned(GetterReply(t, result))
  {
  }

  /** Reading a clocked variable outside event and initialization mode: the
      example model answers (Error, null), so the branch as written crashes
      the backend where the API layer waits for an error status; as
      intended, the error status is replied with no values. */
  lemma ClockReadCrashes(t: ValueType, m: FE.Mode, s: CM.Slots, refs: seq<nat>, k: Values.Kind)
    requires CM.ClockUnreadable(m, refs)
    ensures CM.GetResult(m, s, refs, k) == Returned((ProtoError, None))
    ensures GetterReplyAsWritten(t, CM.GetResult(m, s, refs, k).value).Threw?
    ensures GetterReply(t, CM.GetResult(m, s, refs, k).value) == (ProtoError, [])
  {
  }

  /** A concrete case: reading reference 1001 in step mode. */
  lemma ClockReadInStepMode(s: CM.Slots, k: Values.Kind)
    ensures GetterReplyAsWritten(Float64, CM.GetResult(FE.StepMode, s, [1001], k).value) == Threw(ArgumentNullException)
  {
    assert CM.IsClocked([1001][0]);
  }
}
