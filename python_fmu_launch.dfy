/** The launcher of the older Python FMU template
    (tool/unifmu/resources/backends/python_fmu/launch.py): it maps value
    references to attribute names, defines the getter and setter closures
    over the slave object, binds the command codes to handlers and then
    answers each received command on a request/reply socket. */
module PythonFmuLaunch {
  import opened Wrappers
  import opened Exceptions
  import opened Values
  import opened Batches
  import opened Fmi2Types
  import opened PythonFmi2Tool

  // --------------------------------------------------------------- closures

  /** `get_xxx`: (ok, the values in reference order), or (error, None)
      when a reference is missing from the table or names no attribute. */
  function GetAll(table: map<nat, string>, attrs: Attributes, refs: seq<nat>)
    : (r: (Fmi2Status, Option<seq<Value>>))
    ensures r.0 == Ok || r == (Error, None)
  {
    match LookupAll(table, refs)
    case None => (Error, None)
    case Some(names) =>
      match LookupAll(attrs, names)
      case None => (Error, None)
      case Some(values) => (Ok, Some(values))
  }

  /** The getter answers ok exactly when every reference is readable, and
      then with the attributes the references name, in order. */
  lemma GetAllOk(table: map<nat, string>, attrs: Attributes, refs: seq<nat>)
    ensures GetAll(table, attrs, refs).0 == Ok <==> Readable(table, attrs, refs)
    ensures Readable(table, attrs, refs) ==>
      var values := GetAll(table, attrs, refs).1;
      values.Some? && |values.value| == |refs| &&
      forall i | 0 <= i < |refs| :: values.value[i] == attrs[table[refs[i]]]
  {
    if LookupAll(table, refs).Some? {
      var names := LookupAll(table, refs).value;
      assert forall i | 0 <= i < |refs| :: names[i] == table[refs[i]];
    }
  }

  /** `set_xxx`: every reference is mapped before any write, so a missing
      one answers error with nothing written; otherwise the zipped pairs
      are written in order and the first read-only attribute answers
      error with the earlier pairs kept. */
  function SetAll(table: map<nat, string>, attrs: Attributes, readOnly: set<string>,
                  refs: seq<nat>, values: seq<Value>): (r: (Fmi2Status, Attributes))
    ensures r.0 == Ok || r.0 == Error
  {
    match LookupAll(table, refs)
    case None => (Error, attrs)
    case Some(names) =>
      var j := FirstReadOnly(names, Min(|names|, |values|), readOnly);
      (if j < Min(|names|, |values|) then Error else Ok, Store(attrs, names[..j], values[..j]))
  }

  /** A reference missing from the table writes nothing. */
  lemma SetAllUnknown(table: map<nat, string>, attrs: Attributes, readOnly: set<string>,
                      refs: seq<nat>, values: seq<Value>, i: nat)
    requires i < |refs| && refs[i] !in table
    ensures SetAll(table, attrs, readOnly, refs, values) == (Error, attrs)
  {
  }

  /** With every reference naming a writable attribute the setter answers
      ok, and the getter then reads the last value written. */
  lemma SetAllThenGetAll(table: map<nat, string>, attrs: Attributes, readOnly: set<string>,
                         refs: seq<nat>, values: seq<Value>, i: nat)
    requires forall k | 0 <= k < |refs| :: refs[k] in table && table[refs[k]] !in readOnly
    requires i < Min(|refs|, |values|)
    requires forall k | i < k < Min(|refs|, |values|) :: table[refs[k]] != table[refs[i]]
    ensures SetAll(table, attrs, readOnly, refs, values).0 == Ok
    ensures GetAll(table, SetAll(table, attrs, readOnly, refs, values).1, [refs[i]]) == (Ok, Some([values[i]]))
  {
    var names := LookupAll(table, refs).value;
    var n := Min(|names|, |values|);
    assert FirstReadOnly(names, n, readOnly) == n;
    StoreLast(attrs, names[..n], values[..n], i);
    var after := SetAll(table, attrs, readOnly, refs, values).1;
    assert [refs[i]][1..] == [] && [names[i]][1..] == [];
    assert LookupAll(table, [refs[i]]) == Some([names[i]] + []);
    assert LookupAll(after, [names[i]]) == Some([values[i]] + []);
    assert [values[i]] + [] == [values[i]];
  }

  // ------------------------------------------------------------ code tables

  /** What a command code is bound to. */
  datatype Handler =
    | SetDebugLogging | SetupExperiment | EnterInitializationMode | ExitInitializationMode
    | Terminate | Reset | SetXxx | GetXxx | Serialize | Deserialize | GetDirectionalDerivative
    | SetInputDerivatives | GetOutputDerivatives | DoStep | CancelStep | GetXxxStatus

  /** `command_to_slave_methods`: the handler a code is bound to, if any. */
  function SlaveMethod(kind: int): Option<Handler>
  {
    match kind
    case 0 => Some(SetDebugLogging)
    case 1 => Some(SetupExperiment)
    case 3 => Some(EnterInitializationMode)
    case 4 => Some(ExitInitializationMode)
    case 5 => Some(Terminate)
    case 6 => Some(Reset)
    case 7 => Some(SetXxx)
    case 8 => Some(GetXxx)
    case 9 => Some(Serialize)
    case 10 => Some(Deserialize)
    case 11 => Some(GetDirectionalDerivative)
    case 12 => Some(SetInputDerivatives)
    case 13 => Some(GetOutputDerivatives)
    case 14 => Some(DoStep)
    case 15 => Some(CancelStep)
    case 16 => Some(GetXxxStatus)
    case _ => None
  }

  /** `command_to_free_function`: the code of `free_instance`. */
  const FreeInstanceCode := 2

  /** The code each handler is bound to. */
  function CodeOf(h: Handler): (k: int)
    ensures 0 <= k <= 16 && k != FreeInstanceCode
  {
    match h
    case SetDebugLogging => 0
    case SetupExperiment => 1
    case EnterInitializationMode => 3
    case ExitInitializationMode => 4
    case Terminate => 5
    case Reset => 6
    case SetXxx => 7
    case GetXxx => 8
    case Serialize => 9
    case Deserialize => 10
    case GetDirectionalDerivative => 11
    case SetInputDerivatives => 12
    case GetOutputDerivatives => 13
    case DoStep => 14
    case CancelStep => 15
    case GetXxxStatus => 16
  }

  /** The table binds exactly the codes 0, 1 and 3 to 16, each to a
      different handler, so that no bound code is the free function's, as
      the launcher asserts. */
  lemma CodeTable(k: int, h: Handler)
    ensures SlaveMethod(k).Some? <==> k == 0 || k == 1 || 3 <= k <= 16
    ensures SlaveMethod(CodeOf(h)) == Some(h)
    ensures SlaveMethod(k) == Some(h) ==> k == CodeOf(h)
    ensures SlaveMethod(FreeInstanceCode).None?
  {
  }

  // ------------------------------------------------------------------- loop

  /** A received command: its code and the arguments the getter and setter
      closures take. */
  datatype Message = Message(kind: int, refs: seq<nat>, values: seq<Value>)

  /** A sent reply: a status, the getter's pair, the `None` sent on
      `free_instance`, or whatever an author's method returned. */
  datatype Reply =
    | StatusReply(status: Fmi2Status)
    | ValuesReply(status: Fmi2Status, values: Option<seq<Value>>)
    | NoneReply
    | Returns(value: Value)

  /** How the loop has ended so far. */
  datatype Ending = Waiting | Exited(code: int) | Raised(exception: Exception)

  /** The replies sent, how the loop ended and the attributes afterwards. */
  datatype Run = Run(replies: seq<Reply>, ending: Ending, attrs: Attributes)

  /** The base class's methods, which the template's author overrides: the
      lifecycle methods and `do_step` return ok, the others raise. */
  function Default(h: Handler): (r: Outcome<Reply>)
    ensures r.Returned? <==> h in {SetDebugLogging, SetupExperiment, EnterInitializationMode,
                                   ExitInitializationMode, Terminate, Reset, DoStep}
    ensures r.Returned? ==> r.value == StatusReply(Ok)
    ensures r.Threw? ==> r.exception == NotImplementedError
  {
    match h
    case SetDebugLogging => Returned(StatusReply(Ok))
    case SetupExperiment => Returned(StatusReply(Ok))
    case EnterInitializationMode => Returned(StatusReply(Ok))
    case ExitInitializationMode => Returned(StatusReply(Ok))
    case Terminate => Returned(StatusReply(Ok))
    case Reset => Returned(StatusReply(Ok))
    case DoStep => Returned(StatusReply(Ok))
    case _ => Threw(NotImplementedError)
  }

  /** One bound command: the closures act on the attributes, and every
      other handler is the slave's method, whose exception ends the
      process. */
  function Handled(table: map<nat, string>, readOnly: set<string>, slave: Handler -> Outcome<Reply>,
                   attrs: Attributes, m: Message, h: Handler): (r: Outcome<(Reply, Attributes)>)
    ensures h == GetXxx ==> r.Returned? && r.value.1 == attrs && r.value.0.ValuesReply?
    ensures h == SetXxx ==> r.Returned? && r.value.0.StatusReply?
    ensures h != GetXxx && h != SetXxx ==> r.Threw? == slave(h).Threw? && (r.Returned? ==> r.value.1 == attrs)
  {
    match h
    case SetXxx =>
      var (status, written) := SetAll(table, attrs, readOnly, m.refs, m.values);
      Returned((StatusReply(status), written))
    case GetXxx =>
      var (status, values) := GetAll(table, attrs, m.refs);
      Returned((ValuesReply(status, values), attrs))
    case _ =>
      match slave(h)
      case Threw(e) => Threw(e)
      case Returned(reply) => Returned((reply, attrs))
  }

  /** One received command: a bound code is handled and its result
      replied, unless the handler raises, which ends the process; code 2
      replies `None` and exits with 0; any other code is dropped without a
      reply. */
  function Step(table: map<nat, string>, readOnly: set<string>, slave: Handler -> Outcome<Reply>,
                attrs: Attributes, m: Message): (r: (seq<Reply>, Ending, Attributes))
    ensures |r.0| <= 1
    ensures r.1.Exited? ==> r.1.code == 0 && r.0 == [NoneReply]
    ensures r.1 == Waiting <==> (SlaveMethod(m.kind).Some? && |r.0| == 1) || (SlaveMethod(m.kind).None? && m.kind != FreeInstanceCode)
  {
    match SlaveMethod(m.kind)
    case Some(h) =>
      (match Handled(table, readOnly, slave, attrs, m, h)
       case Threw(e) => ([], Raised(e), attrs)
       case Returned((reply, after)) => ([reply], Waiting, after))
    case None =>
      if m.kind == FreeInstanceCode then ([NoneReply], Exited(0), attrs) else ([], Waiting, attrs)
  }

  /** The event loop over the received commands, up to the first one that
      ends the process. */
  function Served(table: map<nat, string>, readOnly: set<string>, slave: Handler -> Outcome<Reply>,
                  attrs: Attributes, msgs: seq<Message>): (r: Run)
    ensures r.ending.Exited? ==> r.ending.code == 0 && |r.replies| > 0 && r.replies[|r.replies| - 1] == NoneReply
    ensures |r.replies| <= |msgs|
    decreases |msgs|
  {
    if |msgs| == 0 then Run([], Waiting, attrs)
    else
      var (sent, ending, after) := Step(table, readOnly, slave, attrs, msgs[0]);
      if ending != Waiting then Run(sent, ending, after)
      else
        var rest := Served(table, readOnly, slave, after, msgs[1..]);
        Run(sent + rest.replies, rest.ending, rest.attrs)
  }

  /** The number of commands with a bound code. */
  function BoundCount(msgs: seq<Message>): (n: nat)
    ensures n <= |msgs|
  {
    if |msgs| == 0 then 0
    else (if SlaveMethod(msgs[0].kind).Some? then 1 else 0) + BoundCount(msgs[1..])
  }

  /** While the loop keeps waiting, it has sent exactly one reply per
      command with a bound code and none for any other code. */
  lemma {:induction false} OneReplyPerBoundCommand(table: map<nat, string>, readOnly: set<string>,
                                                   slave: Handler -> Outcome<Reply>,
                                                   attrs: Attributes, msgs: seq<Message>)
    requires Served(table, readOnly, slave, attrs, msgs).ending == Waiting
    ensures |Served(table, readOnly, slave, attrs, msgs).replies| == BoundCount(msgs)
    decreases |msgs|
  {
    if |msgs| > 0 {
      if SlaveMethod(msgs[0].kind).Some? {
        var after := Handled(table, readOnly, slave, attrs, msgs[0], SlaveMethod(msgs[0].kind).value).value.1;
        OneReplyPerBoundCommand(table, readOnly, slave, after, msgs[1..]);
      } else {
        OneReplyPerBoundCommand(table, readOnly, slave, attrs, msgs[1..]);
      }
    }
  }

  /** A getter command answers with the getter closure on the attributes
      as they are after the commands before it. */
  lemma GetterReplies(table: map<nat, string>, readOnly: set<string>, slave: Handler -> Outcome<Reply>,
                      attrs: Attributes, refs: seq<nat>, rest: seq<Message>)
    ensures Served(table, readOnly, slave, attrs, [Message(8, refs, [])] + rest).replies[0] ==
      ValuesReply(GetAll(table, attrs, refs).0, GetAll(table, attrs, refs).1)
  {
    assert ([Message(8, refs, [])] + rest)[1..] == rest;
  }

  /** Under the base class's methods an unimplemented handler ends the
      process with `NotImplementedError` and no reply. */
  lemma UnimplementedRaises(table: map<nat, string>, readOnly: set<string>, attrs: Attributes,
                            msgs: seq<Message>)
    requires |msgs| > 0 && msgs[0].kind == 9
    ensures Served(table, readOnly, Default, attrs, msgs) == Run([], Raised(NotImplementedError), attrs)
  {
  }

  /** The loop, sending each reply as it goes. */
  method Serve(table: map<nat, string>, readOnly: set<string>, slave: Handler -> Outcome<Reply>,
               attrs: Attributes, msgs: seq<Message>)
    returns (replies: seq<Reply>, ending: Ending, after: Attributes)
    ensures Run(replies, ending, after) == Served(table, readOnly, slave, attrs, msgs)
  {
    replies, ending, after := [], Waiting, attrs;
    var i := 0;
    while i < |msgs| && ending == Waiting
      invariant i <= |msgs|
      invariant ending == Waiting ==>
        Served(table, readOnly, slave, attrs, msgs) == Then(replies, Served(table, readOnly, slave, after, msgs[i..]))
      invariant ending != Waiting ==> Served(table, readOnly, slave, attrs, msgs) == Run(replies, ending, after)
    {
      ghost var before := replies;
      var (sent, next, written) := Step(table, readOnly, slave, after, msgs[i]);
      replies, ending, after := replies + sent, next, written;
      assert msgs[i..][1..] == msgs[i + 1..];
      ThenAppend(before, sent, Served(table, readOnly, slave, after, msgs[i + 1..]));
      i := i + 1;
    }
    if ending == Waiting {
      assert msgs[i..] == [];
    }
  }

  /** The replies already sent, followed by those of the rest of the run. */
  function Then(replies: seq<Reply>, r: Run): (t: Run)
    ensures t.ending == r.ending && t.attrs == r.attrs && |t.replies| == |replies| + |r.replies|
  {
    Run(replies + r.replies, r.ending, r.attrs)
  }

  /** Replies sent in two installments read as one prefix. */
  lemma ThenAppend(a: seq<Reply>, b: seq<Reply>, r: Run)
    ensures Then(a, Run(b + r.replies, r.ending, r.attrs)) == Then(a + b, r)
  {
    assert a + (b + r.replies) == (a + b) + r.replies;
  }
}
