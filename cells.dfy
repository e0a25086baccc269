/** The importer-side variables the C functions write through pointers, and
    the state buffer handed out as an FMU state. */
module Cells {
  import opened Bytes
  import opened Floats

  /** `SlaveState`, declared alike in fmiapi/src/fmi2.rs,
      fmiapi/src/fmi2/fmi2_slave.rs and fmiapi/src/fmi3/fmi3_slave.rs: the
      serialized state of a backend. */
  class SlaveState {
    var bytes: seq<byte>

    /** `SlaveState::new`: a copy of the given bytes. */
    constructor (bytes: seq<byte>)
      ensures this.bytes == bytes
    {
      this.bytes := bytes;
    }
  }

  /** The importer's FMU-state variable, which holds a state handle or
      null. */
  class StateCell {
    var state: SlaveState?

    constructor (state: SlaveState?)
      ensures this.state == state
    {
      this.state := state;
    }
  }

  /** An importer variable a `*mut f64` points at. */
  class Float64Cell {
    var value: f64

    constructor (value: f64)
      ensures this.value == value
    {
      this.value := value;
    }
  }

  /** An importer variable a `*mut bool` points at. */
  class BoolCell {
    var value: bool

    constructor (value: bool)
      ensures this.value == value
    {
      this.value := value;
    }
  }

  /** `copy_from_slice` and `ptr::copy` into an importer's array: `vs` is
      copied to the front of `a` and the rest of `a` is left as it was. */
  method CopyInto<T>(a: array<T>, vs: seq<T>)
    requires |vs| <= a.Length
    modifies a
    ensures a[..|vs|] == vs && a[|vs|..] == old(a[|vs|..])
    ensures |vs| == a.Length ==> a[..] == vs
  {
    var k := 0;
    while k < |vs|
      invariant 0 <= k <= |vs|
      invariant a[..k] == vs[..k]
      invariant a[|vs|..] == old(a[|vs|..])
    {
      a[k] := vs[k];
      k := k + 1;
    }
    assert a[..] == a[..|vs|] + a[|vs|..];
  }
}
