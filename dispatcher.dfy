/** The link from the Rust API layer to its backend
    (fmiapi/src/common/dispatcher/mod.rs). The socket is modelled by the
    messages sent so far and by the script `incoming` of what each receive
    will yield; a broken socket makes every send fail. */
module Dispatching {
  import opened Wrappers

  datatype DispatcherError =
    | MalformedHandshake(value: int)
    | DeniedHandshake
    | Socket
    | Subprocess
    | RuntimeSetup

  /** Where the backend runs (fmiapi/src/common/spawn/launch_config.rs). */
  datatype BackendLocation = Local | Remote

  /** `Dispatcher`: `Local` and `Remote` forward `send`, `recv` and
      `send_and_recv` to the same socket operations, so one class serves
      both; the subprocess monitor that a local dispatcher races against
      the socket is not modelled. */
  class Dispatcher<Msg, Reply> {
    const location: BackendLocation
    var sent: seq<Msg>
    var sendFault: Option<DispatcherError>
    var incoming: seq<Result<Reply, DispatcherError>>

    constructor (location: BackendLocation, incoming: seq<Result<Reply, DispatcherError>>, sendFault: Option<DispatcherError>)
      ensures this.location == location && this.incoming == incoming && this.sendFault == sendFault
      ensures sent == []
    {
      this.location := location;
      this.incoming := incoming;
      this.sendFault := sendFault;
      sent := [];
    }

    method Send(msg: Msg) returns (r: Result<(), DispatcherError>)
      modifies this
      ensures sendFault == old(sendFault) && incoming == old(incoming)
      ensures sendFault.None? ==> r.Success? && sent == old(sent) + [msg]
      ensures sendFault.Some? ==> r == Failure(sendFault.value) && sent == old(sent)
    {
      if sendFault.Some? {
        return Failure(sendFault.value);
      }
      sent := sent + [msg];
      r := Success(());
    }

    /** A receive with nothing left to come fails as a socket error. */
    method Recv() returns (r: Result<Reply, DispatcherError>)
      modifies this
      ensures sendFault == old(sendFault) && sent == old(sent)
      ensures old(incoming) == [] ==> r == Failure(Socket) && incoming == []
      ensures old(incoming) != [] ==> r == old(incoming)[0] && incoming == old(incoming)[1..]
    {
      if incoming == [] {
        return Failure(Socket);
      }
      r := incoming[0];
      incoming := incoming[1..];
    }

    /** `send_and_recv`: a send followed by a receive on the same socket;
        a failed send returns its error without receiving. */
    method SendAndRecv(msg: Msg) returns (r: Result<Reply, DispatcherError>)
      modifies this
      ensures sendFault == old(sendFault)
      ensures sendFault.Some? ==> r == Failure(sendFault.value) && sent == old(sent) && incoming == old(incoming)
      ensures sendFault.None? ==> sent == old(sent) + [msg] && r == Head(old(incoming)) && incoming == Tail(old(incoming))
    {
      var s := Send(msg);
      if s.Failure? {
        return Failure(s.error);
      }
      r := Recv();
    }
  }

  /** What one receive yields from a script. */
  function Head<R>(incoming: seq<Result<R, DispatcherError>>): (r: Result<R, DispatcherError>)
    ensures incoming != [] ==> r == incoming[0]
    ensures incoming == [] ==> r == Failure(Socket)
  {
    if incoming == [] then Failure(Socket) else incoming[0]
  }

  function Tail<R>(incoming: seq<Result<R, DispatcherError>>): (r: seq<Result<R, DispatcherError>>)
    ensures incoming != [] ==> incoming == [incoming[0]] + r
    ensures incoming == [] ==> r == []
  {
    if incoming == [] then [] else incoming[1..]
  }

  /** The handshake status values; the enumeration's declaration is not part
      of this model and Ok = 0, Error = 1 is assumed. */
  datatype HandshakeStatus = HandshakeOk | HandshakeError

  function HandshakeFromValue(n: int): (r: Option<HandshakeStatus>)
    ensures r.Some? <==> n in {0, 1}
  {
    if n == 0 then Some(HandshakeOk) else if n == 1 then Some(HandshakeError) else None
  }

  /** `await_handshake`, given what its one receive of a HandshakeReply
      yielded: a receive error propagates, status Ok succeeds, another known
      status is a denial and an unknown value is malformed. */
  function AwaitHandshake(received: Result<int, DispatcherError>): (r: Result<(), DispatcherError>)
    ensures received.Failure? ==> r == Failure(received.error)
    ensures r.Success? <==> received == Success(0)
    ensures received.Success? ==> (r == Failure(DeniedHandshake) <==> received.value == 1)
    ensures received.Success? && received.value !in {0, 1} ==> r == Failure(MalformedHandshake(received.value))
  {
    match received
    case Failure(e) => Failure(e)
    case Success(status) =>
      match HandshakeFromValue(status)
      case Some(HandshakeOk) => Success(())
      case Some(_) => Failure(DeniedHandshake)
      case None => Failure(MalformedHandshake(status))
  }
}
