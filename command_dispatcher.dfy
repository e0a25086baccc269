/** The socket dispatchers the FMI 2.0 C functions and the older FMI 3.0
    bindings talk through (fmiapi/src/fmi2_dispatcher.rs,
    fmiapi/src/fmi3_dispatcher.rs): a command is encoded and sent, and one
    reply is received and decoded as the return type the caller names. There
    is no log sub-protocol at this level. The socket is modelled by the
    commands sent so far, whether sending fails, and the script of what each
    receive yields. */
module CommandDispatching {
  import opened Wrappers

  /** `DispatcherError` of both dispatchers; sending fails as SocketError
      and decoding as DecodeError (the decoder's own error is not kept). */
  datatype CommandDispatcherError = DecodeError | EncodeError | SocketError | Timeout | BackendImplementationError

  /** The outcome of a call that may panic: its value, its error, or a
      panic (an `unwrap` on a failed receive or on an unknown status). */
  datatype Call<T> = Done(value: T) | Failed(error: CommandDispatcherError) | Panicked

  /** What one receive yields from a script of replies: `None` stands for
      bytes that do not decode as the expected message; an exhausted script
      stands for a failed socket receive, whose `unwrap` panics. */
  function Received<W>(incoming: seq<Option<W>>): (r: Call<W>)
    ensures incoming == [] <==> r.Panicked?
    ensures r.Done? <==> incoming != [] && incoming[0].Some?
    ensures r.Done? ==> r.value == incoming[0].value
    ensures r.Failed? ==> r.error == DecodeError
  {
    if incoming == [] then Panicked
    else if incoming[0].None? then Failed(DecodeError)
    else Done(incoming[0].value)
  }

  function Rest<W>(incoming: seq<Option<W>>): (r: seq<Option<W>>)
    ensures incoming != [] ==> incoming == [incoming[0]] + r
    ensures incoming == [] ==> r == []
  {
    if incoming == [] then [] else incoming[1..]
  }

  /** What `send_and_recv` yields: the send error without a receive, or
      what the receive yields. */
  function Exchanged<W>(sendFails: bool, incoming: seq<Option<W>>): (r: Call<W>)
    ensures sendFails ==> r == Failed(SocketError)
    ensures !sendFails ==> r == Received(incoming)
  {
    if sendFails then Failed(SocketError) else Received(incoming)
  }

  class CommandDispatcher<Cmd, W> {
    var sent: seq<Cmd>
    const sendFails: bool
    var incoming: seq<Option<W>>

    constructor (sendFails: bool, incoming: seq<Option<W>>)
      ensures this.sendFails == sendFails && this.incoming == incoming && sent == []
    {
      this.sendFails := sendFails;
      this.incoming := incoming;
      sent := [];
    }

    /** `send`: a failed socket send is a SocketError. */
    method Send(cmd: Cmd) returns (r: Call<()>)
      modifies this
      ensures incoming == old(incoming)
      ensures sendFails ==> r == Failed(SocketError) && sent == old(sent)
      ensures !sendFails ==> r == Done(()) && sent == old(sent) + [cmd]
    {
      if sendFails {
        return Failed(SocketError);
      }
      sent := sent + [cmd];
      r := Done(());
    }

    /** `recv`: one reply is taken from the script and decoded. */
    method Recv() returns (r: Call<W>)
      modifies this
      ensures sent == old(sent)
      ensures r == Received(old(incoming)) && incoming == Rest(old(incoming))
    {
      if incoming == [] {
        return Panicked;
      }
      r := if incoming[0].None? then Failed(DecodeError) else Done(incoming[0].value);
      incoming := incoming[1..];
    }

    /** `send_and_recv`: a failed send returns its error without receiving. */
    method SendAndRecv(cmd: Cmd) returns (r: Call<W>)
      modifies this
      ensures r == Exchanged(sendFails, old(incoming))
      ensures sendFails ==> sent == old(sent) && incoming == old(incoming)
      ensures !sendFails ==> sent == old(sent) + [cmd] && incoming == Rest(old(incoming))
    {
      var s := Send(cmd);
      if s.Failed? {
        return Failed(s.error);
      }
      r := Recv();
    }
  }

  /** The commands one exchange sends: `cmd`, or nothing when sending fails. */
  function SentWith<Cmd>(sendFails: bool, cmd: Cmd): (r: seq<Cmd>)
    ensures sendFails <==> r == []
    ensures r != [] ==> r == [cmd]
  {
    if sendFails then [] else [cmd]
  }

  /** `d` has exchanged `cmd` once with the backend: sent it unless sending
      fails, and then consumed one reply. */
  twostate predicate ExchangedOnce<Cmd, W>(d: CommandDispatcher<Cmd, W>, cmd: Cmd)
    reads d
  {
    d.sent == old(d.sent) + SentWith(d.sendFails, cmd)
    && d.incoming == (if d.sendFails then old(d.incoming) else Rest(old(d.incoming)))
  }

  /** The reply mapping the getters apply to a value list: an empty list
      becomes None. */
  function NonEmpty<T>(vs: seq<T>): (r: Option<seq<T>>)
    ensures r.None? <==> vs == []
    ensures r.Some? ==> r.value == vs
  {
    if vs == [] then None else Some(vs)
  }
}
