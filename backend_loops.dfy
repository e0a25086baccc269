/** The skeleton every backend process shares (the C#, Java and Python
    backends of both FMI versions): it sends a handshake reply, then
    receives a command, lets its model handle it and answers, for as long
    as the process lives. While the model handles a command it may emit log
    events: each is sent as a log reply, after which the backend waits for
    the API layer's continue command before the model goes on.

    The socket is a sequence of received commands and a sequence of sent
    messages; the model is a function from its state and a command to the
    events it logs, what the loop does next and its new state. */
module BackendLoops {
  import opened Wrappers
  import opened Exceptions
  import opened Dispatching

  /** What the loop does once the model has handled a command. */
  datatype Action<R> =
    | Reply(reply: R)                      // send one reply, then receive again
    | ReplyThenExit(reply: R, code: int)   // send one reply, then end the process
    | Exit(code: int)                      // end the process without a reply
    | Ignore                               // send nothing and receive again
    | Crash(exception: Exception)          // an exception nothing catches ends the process

  /** A message the backend sends. */
  datatype Sent<R, L> = Handshake(status: HandshakeStatus) | Replied(reply: R) | Logged(event: L)

  /** How a run over a finite sequence of commands ends: blocked in a
      receive, or with the process gone. */
  datatype Ending = Waiting | Exited(code: int) | Crashed(exception: Exception)

  /** The model's handling of one command. */
  datatype Handling<S, R, L> = Handling(logs: seq<L>, action: Action<R>, next: S)

  /** Everything a run sent, how it ended, and the model's final state. */
  datatype Run<S, R, L> = Run(sent: seq<Sent<R, L>>, ending: Ending, state: S)

  /** The value a handshake status travels as. */
  function HandshakeValue(h: HandshakeStatus): (n: int)
    ensures HandshakeFromValue(n) == Some(h)
  {
    match h
    case HandshakeOk => 0
    case HandshakeError => 1
  }

  /** The handshake every backend sends is the one the API layer's
      `await_handshake` accepts. */
  lemma HandshakeAccepted()
    ensures AwaitHandshake(Success(HandshakeValue(HandshakeOk))) == Success(())
  {
  }

  /** Log replies for each event, in order. */
  function Logs<R, L>(events: seq<L>): (r: seq<Sent<R, L>>)
    ensures |r| == |events|
    ensures forall j | 0 <= j < |events| :: r[j] == Logged(events[j])
  {
    seq(|events|, j requires 0 <= j < |events| => Logged(events[j]))
  }

  /** The log callback run once per event the model emits: the event is sent
      as a log reply and the next command is received; a continue command
      returns to the model and anything else ends the process with
      `refusal`. The result is what was sent, how many commands were
      received, and the ending if the callbacks did not all return
      (Waiting when the commands ran out). */
  function Callbacks<C, R, L>(events: seq<L>, msgs: seq<C>, isContinue: C -> bool, refusal: int)
    : (r: (seq<Sent<R, L>>, nat, Option<Ending>))
    ensures r.1 <= |msgs| && r.1 <= |events|
    ensures r.2.None? ==> r.1 == |events| && |r.0| == |events|
    ensures r.2.Some? ==> 0 < |r.0| <= |events| && (r.2.value == Waiting || r.2.value == Exited(refusal))
    decreases |events|
  {
    if |events| == 0 then ([], 0, None)
    else if |msgs| == 0 then ([Logged(events[0])], 0, Some(Waiting))
    else if !isContinue(msgs[0]) then ([Logged(events[0])], 1, Some(Exited(refusal)))
    else
      var (sent, used, stop) := Callbacks(events[1..], msgs[1..], isContinue, refusal);
      ([Logged(events[0])] + sent, 1 + used, stop)
  }

  /** When every event is answered by a continue command, each event is
      sent once, in order, and one command is received per event. */
  lemma {:induction false} CallbacksContinued<C, R, L>(events: seq<L>, msgs: seq<C>, isContinue: C -> bool, refusal: int)
    requires |events| <= |msgs|
    requires forall j | 0 <= j < |events| :: isContinue(msgs[j])
    ensures Callbacks<C, R, L>(events, msgs, isContinue, refusal) == (Logs(events), |events|, None)
    decreases |events|
  {
    if |events| > 0 {
      CallbacksContinued<C, R, L>(events[1..], msgs[1..], isContinue, refusal);
      assert [Logged(events[0])] + Logs<R, L>(events[1..]) == Logs(events);
    }
  }

  /** The first event the API layer does not answer with a continue
      command ends the process right after its log reply. */
  lemma CallbackRefused<C, R, L>(events: seq<L>, msgs: seq<C>, isContinue: C -> bool, refusal: int, k: nat)
    requires k < |events| && k < |msgs|
    requires forall j | 0 <= j < k :: isContinue(msgs[j])
    requires !isContinue(msgs[k])
    ensures Callbacks<C, R, L>(events, msgs, isContinue, refusal) == (Logs(events[..k + 1]), k + 1, Some(Exited(refusal)))
    decreases k
  {
    if k > 0 {
      CallbackRefused<C, R, L>(events[1..], msgs[1..], isContinue, refusal, k - 1);
      assert events[1..][..k] == events[1..k + 1];
      assert [Logged(events[0])] + Logs<R, L>(events[1..k + 1]) == Logs(events[..k + 1]);
    } else {
      assert Logs<R, L>(events[..1]) == [Logged(events[0])];
    }
  }

  /** One pass of the loop body: receive msgs[0], let the model handle it
      (running the callback for each event it logs), then act. The result
      is what was sent, how many commands were received, the ending if the
      process ended (None: the loop goes on) and the model's new state. */
  function Step<S, C, R, L>(handle: (S, C) -> Handling<S, R, L>, isContinue: C -> bool, refusal: int,
                            state: S, msgs: seq<C>): (r: (seq<Sent<R, L>>, nat, Option<Ending>, S))
    requires |msgs| > 0
    ensures 1 <= r.1 <= |msgs|
  {
    var h := handle(state, msgs[0]);
    var (logged, used, stop) := Callbacks(h.logs, msgs[1..], isContinue, refusal);
    if stop.Some? then (logged, 1 + used, stop, h.next)
    else match h.action
      case Reply(reply) => (logged + [Replied(reply)], 1 + used, None, h.next)
      case ReplyThenExit(reply, code) => (logged + [Replied(reply)], 1 + used, Some(Exited(code)), h.next)
      case Exit(code) => (logged, 1 + used, Some(Exited(code)), h.next)
      case Ignore => (logged, 1 + used, None, h.next)
      case Crash(e) => (logged, 1 + used, Some(Crashed(e)), h.next)
  }

  /** The command loop over the received commands, up to the first one that
      ends the process. */
  function Served<S, C, R, L>(handle: (S, C) -> Handling<S, R, L>, isContinue: C -> bool, refusal: int,
                              state: S, msgs: seq<C>): (r: Run<S, R, L>)
    decreases |msgs|
  {
    if |msgs| == 0 then Run([], Waiting, state)
    else
      var (sent, used, stop, next) := Step(handle, isContinue, refusal, state, msgs);
      if stop.Some? then Run(sent, stop.value, next)
      else Then(sent, Served(handle, isContinue, refusal, next, msgs[used..]))
  }

  /** The whole process: the handshake, then the command loop. */
  function Session<S, C, R, L>(handle: (S, C) -> Handling<S, R, L>, isContinue: C -> bool, refusal: int,
                               state: S, msgs: seq<C>): (r: Run<S, R, L>)
  {
    Then([Handshake(HandshakeOk)], Served(handle, isContinue, refusal, state, msgs))
  }

  /** Messages already sent, followed by those of the rest of a run. */
  function Then<S, R, L>(prefix: seq<Sent<R, L>>, r: Run<S, R, L>): (t: Run<S, R, L>)
    ensures t.ending == r.ending && t.state == r.state && |t.sent| == |prefix| + |r.sent|
    ensures t.sent[..|prefix|] == prefix && t.sent[|prefix|..] == r.sent
  {
    Run(prefix + r.sent, r.ending, r.state)
  }

  /** Messages sent in two installments read as one prefix. */
  lemma ThenAppend<S, R, L>(a: seq<Sent<R, L>>, b: seq<Sent<R, L>>, r: Run<S, R, L>)
    ensures Then(a, Then(b, r)) == Then(a + b, r)
  {
    assert a + (b + r.sent) == (a + b) + r.sent;
  }

  /** The first message of every session is an Ok handshake reply, whatever
      the commands. */
  lemma HandshakeFirst<S, C, R, L>(handle: (S, C) -> Handling<S, R, L>, isContinue: C -> bool, refusal: int,
                                   state: S, msgs: seq<C>)
    ensures var r := Session(handle, isContinue, refusal, state, msgs);
      |r.sent| > 0 && r.sent[0] == Handshake(HandshakeOk)
  {
  }

  /** A model that answers every command with one reply, without logging,
      makes the loop send exactly one reply per command, in order, and each
      reply is of the family `expected` names for its command; the loop
      then waits for more. */
  lemma {:induction false} OneReplyPerCommand<S, C, R, L, F>(
    handle: (S, C) -> Handling<S, R, L>, isContinue: C -> bool, refusal: int,
    state: S, msgs: seq<C>, family: R -> F, expected: C -> F)
    requires forall s: S, i | 0 <= i < |msgs| ::
      handle(s, msgs[i]).logs == [] && handle(s, msgs[i]).action.Reply?
      && family(handle(s, msgs[i]).action.reply) == expected(msgs[i])
    ensures var r := Served(handle, isContinue, refusal, state, msgs);
      r.ending == Waiting && |r.sent| == |msgs|
      && forall i | 0 <= i < |msgs| :: r.sent[i].Replied? && family(r.sent[i].reply) == expected(msgs[i])
    decreases |msgs|
  {
    if |msgs| > 0 {
      forall s: S, i | 0 <= i < |msgs| - 1
        ensures handle(s, msgs[1..][i]).logs == [] && handle(s, msgs[1..][i]).action.Reply?
          && family(handle(s, msgs[1..][i]).action.reply) == expected(msgs[1..][i])
      {
        assert msgs[1..][i] == msgs[i + 1];
      }
      OneReplyPerCommand(handle, isContinue, refusal, handle(state, msgs[0]).next, msgs[1..], family, expected);
      var h := handle(state, msgs[0]);
      assert Callbacks<C, R, L>(h.logs, msgs[1..], isContinue, refusal) == ([], 0, None);
      var rest := Served(handle, isContinue, refusal, h.next, msgs[1..]);
      var r := Served(handle, isContinue, refusal, state, msgs);
      assert r.sent == [Replied(h.action.reply)] + rest.sent;
      forall i | 0 <= i < |msgs|
        ensures r.sent[i].Replied? && family(r.sent[i].reply) == expected(msgs[i])
      {
        if i > 0 {
          assert r.sent[i] == rest.sent[i - 1];
        }
      }
    }
  }

  /** A command the model answers with one reply, without logging: the
      reply is sent and the loop goes on with the next command. */
  lemma ServedReply<S, C, R, L>(handle: (S, C) -> Handling<S, R, L>, isContinue: C -> bool, refusal: int,
                                state: S, msgs: seq<C>)
    requires |msgs| > 0 && handle(state, msgs[0]).logs == [] && handle(state, msgs[0]).action.Reply?
    ensures var h := handle(state, msgs[0]);
      Served(handle, isContinue, refusal, state, msgs)
      == Then([Replied(h.action.reply)], Served(handle, isContinue, refusal, h.next, msgs[1..]))
  {
    var h := handle(state, msgs[0]);
    assert Callbacks<C, R, L>(h.logs, msgs[1..], isContinue, refusal) == ([], 0, None);
    var one: seq<Sent<R, L>> := [Replied(h.action.reply)];
    assert [] + one == one;
  }

  /** A command whose handling ends the process decides how the run ends:
      no later command is read or answered. */
  lemma ExitEndsRun<S, C, R, L>(handle: (S, C) -> Handling<S, R, L>, isContinue: C -> bool, refusal: int,
                                state: S, c: C, rest: seq<C>)
    requires handle(state, c).logs == []
    requires handle(state, c).action.Exit? || handle(state, c).action.ReplyThenExit?
    ensures var h := handle(state, c);
      Served(handle, isContinue, refusal, state, [c] + rest)
      == Run(if h.action.Exit? then [] else [Replied(h.action.reply)], Exited(h.action.code), h.next)
  {
    assert ([c] + rest)[0] == c;
  }

  /** A command the loop ignores is answered by nothing, and the loop goes
      on with the next command. */
  lemma IgnoredCommand<S, C, R, L>(handle: (S, C) -> Handling<S, R, L>, isContinue: C -> bool, refusal: int,
                                   state: S, c: C, rest: seq<C>)
    requires handle(state, c).logs == [] && handle(state, c).action == Ignore
    ensures Served(handle, isContinue, refusal, state, [c] + rest)
         == Served(handle, isContinue, refusal, handle(state, c).next, rest)
  {
    assert ([c] + rest)[0] == c && ([c] + rest)[1..] == rest;
    assert Then([], Served(handle, isContinue, refusal, handle(state, c).next, rest))
        == Served(handle, isContinue, refusal, handle(state, c).next, rest);
  }

  /** While the model logs, the reply to the command comes after all of its
      log replies, each acknowledged by one continue command. */
  lemma LoggedThenReplied<S, C, R, L>(handle: (S, C) -> Handling<S, R, L>, isContinue: C -> bool, refusal: int,
                                      state: S, msgs: seq<C>)
    requires |msgs| > 0 && |msgs| > |handle(state, msgs[0]).logs|
    requires forall j | 1 <= j <= |handle(state, msgs[0]).logs| :: isContinue(msgs[j])
    requires handle(state, msgs[0]).action.Reply?
    ensures var h := handle(state, msgs[0]);
      Step(handle, isContinue, refusal, state, msgs)
      == (Logs(h.logs) + [Replied(h.action.reply)], 1 + |h.logs|, None, h.next)
  {
    var h := handle(state, msgs[0]);
    forall j | 0 <= j < |h.logs|
      ensures isContinue(msgs[1..][j])
    {
      assert msgs[1..][j] == msgs[j + 1];
    }
    CallbacksContinued<C, R, L>(h.logs, msgs[1..], isContinue, refusal);
  }

  /** The command loop of `main`: the handshake, then one Step per pass
      until the commands run out or the process ends. */
  method Serve<S, C, R, L>(handle: (S, C) -> Handling<S, R, L>, isContinue: C -> bool, refusal: int,
                           state: S, msgs: seq<C>)
    returns (sent: seq<Sent<R, L>>, ending: Ending, after: S)
    ensures Run(sent, ending, after) == Session(handle, isContinue, refusal, state, msgs)
  {
    sent, ending, after := [Handshake(HandshakeOk)], Waiting, state;
    var i := 0;
    var stop: Option<Ending> := None;
    while i < |msgs| && stop.None?
      invariant i <= |msgs|
      invariant stop.None? ==>
        Session(handle, isContinue, refusal, state, msgs) == Then(sent, Served(handle, isContinue, refusal, after, msgs[i..]))
      invariant stop.Some? ==> Session(handle, isContinue, refusal, state, msgs) == Run(sent, stop.value, after)
      decreases |msgs| - i
    {
      ghost var before := sent;
      var (out, used, s, next) := Step(handle, isContinue, refusal, after, msgs[i..]);
      sent, stop, after := sent + out, s, next;
      assert msgs[i..][used..] == msgs[i + used..];
      ThenAppend(before, out, Served(handle, isContinue, refusal, after, msgs[i + used..]));
      i := i + used;
    }
    if stop.Some? {
      ending := stop.value;
    } else {
      assert msgs[i..] == [];
    }
  }
}
