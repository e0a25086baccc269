/** The slave registry of the oldest C API library (src/lib.rs): each
    instantiated slave gets the smallest free handle, under which its
    command socket and its backend process are kept in two global maps.
    The process itself, the handshake and the configuration file that
    `fmi2Instantiate` reads before registering are not part of this model;
    a process is known by an identifier. */
module SocketWrapper {
  import opened Wrappers
  import opened Fmi2Types
  import opened LegacyCalls

  class SlaveRegistry {
    /** `HANDLE_TO_SOCKETS` and `HANDLE_TO_PROCESS`. */
    var sockets: map<int, CommandSocket>
    var processes: map<int, nat>

    constructor ()
      ensures sockets == map[] && processes == map[]
    {
      sockets := map[];
      processes := map[];
    }

    /** The end of `fmi2Instantiate`: the handle counts up from 0 past every
        handle with a socket, and the socket and the process are registered
        under it. */
    method Register(socket: CommandSocket, process: nat) returns (handle: int)
      modifies this
      ensures 0 <= handle && handle !in old(sockets)
      ensures forall k :: 0 <= k < handle ==> k in old(sockets)
      ensures sockets == old(sockets)[handle := socket]
      ensures processes == old(processes)[handle := process]
    {
      handle := 0;
      while handle in sockets
        invariant sockets == old(sockets) && processes == old(processes)
        invariant 0 <= handle <= |sockets.Keys|
        invariant forall k :: 0 <= k < handle ==> k in sockets
        decreases |sockets.Keys| - handle
      {
        RangeWithin(sockets.Keys, handle + 1);
        handle := handle + 1;
      }
      sockets := sockets[handle := socket];
      processes := processes[handle := process];
    }

    /** `fmi2FreeInstance`: FreeInstance is sent over the slave's socket
        (a missing socket or a failed exchange is ignored), then the process
        and the socket are removed. A handle without a process panics before
        anything is removed, and one without a socket after the process is
        removed; the panic is caught. */
    method FreeInstance(handle: int, exchange: Exchange<int>)
      modifies this, if handle in sockets then {sockets[handle]} else {}
      ensures handle in old(sockets) ==>
        old(sockets)[handle].sent == old(sockets[handle].sent) + (if exchange.NotSent? then [] else [LegacyCommand.FreeInstance])
      ensures handle !in old(processes) ==> sockets == old(sockets) && processes == old(processes)
      ensures handle in old(processes) ==>
        processes == old(processes) - {handle} && sockets == old(sockets) - {handle}
    {
      if handle in sockets {
        var status := sockets[handle].ExecuteStatus(LegacyCommand.FreeInstance, exchange);
      }
      if handle !in processes {
        return;
      }
      processes := processes - {handle};
      sockets := sockets - {handle};
    }
  }

  /** The handles 0 .. n - 1. */
  function Range(n: nat): (r: set<int>)
    ensures forall k :: k in r <==> 0 <= k < n
    ensures |r| == n
  {
    if n == 0 then {} else
      assert n - 1 !in Range(n - 1);
      Range(n - 1) + {n - 1}
  }

  /** A set that holds 0 .. n - 1 has at least n elements. */
  lemma RangeWithin(keys: set<int>, n: nat)
    requires forall k :: 0 <= k < n ==> k in keys
    ensures n <= |keys|
  {
    var range := Range(n);
    assert keys == range + (keys - range);
  }

  /** The functions of src/lib.rs that only report that they are not
      implemented. */
  datatype StubOperation =
    | CancelStep | GetDirectionalDerivative | SetRealInputDerivatives | GetRealOutputDerivatives
    | SetFmuState | GetFmuState | FreeFmuState | SerializeFmuState | DeserializeFmuState
    | SerializedFmuStateSize | GetStatus | GetRealStatus | GetIntegerStatus | GetBooleanStatus
    | GetStringStatus

  /** Each stub returns Error without contacting the backend. */
  function StubStatus(op: StubOperation): (status: int)
    ensures StatusFromValue(status) == Some(Error)
  {
    StatusValue(Error)
  }
}
