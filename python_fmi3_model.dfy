/** The Python FMI 3.0 example model (assets/python/fmi3/model.py):
    attributes reached through `setattr`/`getattr` by the names two tables
    give the references, a `configuration_mode` flag instead of a mode
    field, a setter that stops at the first tunable parameter outside
    configuration mode with the earlier pairs already written, and a state
    image that is the tuple of the input and parameter fields. Python does
    not check the type of what a setter stores, so the recomputation of the
    outputs can raise. */
module PythonFmi3Model {
  import opened Wrappers
  import opened Bytes
  import opened Floats
  import opened Batches
  import opened Exceptions
  import opened Values
  import opened Outputs
  import opened PythonOps
  import opened Fmi3Example
  import opened Fmi3Types

  // ----------------------------------------------------------------- registry

  /** The keys of `reference_to_attribute`: the a/b/c triples 0..38, `time`
      at 999 and clock_a..c at 1001..1003. */
  predicate IsAttribute(r: nat) { r <= 38 || r == 999 || 1001 <= r <= 1003 }

  /** The keys of `tunable_parameters`: 100..112. */
  predicate IsTunable(r: nat) { 100 <= r <= 112 }

  /** The keys of `all_references`, the union of the two tables. */
  predicate InAllReferences(r: nat) { IsAttribute(r) || IsTunable(r) }

  /** The attributes' values, by the reference that names each; an
      attribute never assigned is absent. */
  type Attrs = map<nat, Value>

  /** The fields `fmi3Reset` assigns and the state tuple carries: the a and
      b of each triple, the tunable parameters, clock_a and clock_b. */
  predicate IsStateField(r: nat) { (r <= 38 && r % 3 != 2) || IsTunable(r) || r == 1001 || r == 1002 }

  /** The c of each triple, which `_update_outputs` assigns. */
  predicate IsOutput(r: nat) { r <= 38 && r % 3 == 2 }

  function OutputRefs(): (s: set<nat>)
    ensures forall x :: x in s <==> IsOutput(x)
  {
    set x: nat | x < 39 && IsOutput(x)
  }

  /** The value `fmi3Reset` gives a field, by the position of its triple or
      parameter in the order float32, float64, the eight integer types,
      boolean, string, binary; the clocks are booleans. */
  function ResetValue(r: nat): Value
    requires IsStateField(r)
  {
    var i := if r <= 38 then r / 3 else if IsTunable(r) then r - 100 else 10;
    if i < 2 then Double(PositiveZero)
    else if i < 10 then Int(0)
    else if i == 10 then Boolean(false)
    else if i == 11 then Text("")
    else Binary([0])
  }

  /** The assignments of `fmi3Reset`. */
  function ResetValues(): (m: Attrs)
    ensures forall r :: r in m <==> IsStateField(r)
  {
    map r: nat | r < 1003 && IsStateField(r) :: ResetValue(r)
  }

  /** Every field the reset assigns is present. Nothing deletes an
      attribute, so this holds from construction on. */
  ghost predicate HasFields(a: Attrs)
  {
    forall r | IsStateField(r) :: r in a
  }

  /** Every field the reset assigns holds a value of the type the reset
      gave it. */
  ghost predicate Typed(a: Attrs)
  {
    forall r | IsStateField(r) :: r in a && KindOf(a[r]) == KindOf(ResetValue(r))
  }

  // ------------------------------------------------------------------ outputs

  /** Triple k is the references 3k, 3k + 1 and 3k + 2. */
  lemma Triple(k: nat)
    requires k < 13
    ensures IsStateField(3 * k) && IsStateField(3 * k + 1) && IsOutput(3 * k + 2)
    ensures (3 * k) / 3 == k && (3 * k + 1) / 3 == k && (3 * k + 2) / 3 == k
  {
  }

  /** The c of triple k (k < 13) from its a and b: `or` for the booleans,
      the zipped XOR for the byte strings and `+` for the rest. */
  function OutputOf(a: Attrs, k: nat, ops: FloatOps): (r: Outcome<Value>)
    requires k < 13 && HasFields(a)
    ensures r.Threw? ==> r.exception == TypeError
  {
    Triple(k);
    var x := a[3 * k];
    var y := a[3 * k + 1];
    if k == 10 then Returned(Or(x, y))
    else if k == 12 then XorBytes(x, y)
    else Add(x, y, ops)
  }

  /** `_update_outputs`: every c from its triple's a and b. Each operator
      that raises raises `TypeError`, and no c is an operand of another, so
      the order of the assignments does not show in the result. */
  function UpdateOutputs(a: Attrs, ops: FloatOps): (r: Outcome<Attrs>)
    requires HasFields(a)
    ensures r.Threw? ==> r.exception == TypeError
    ensures r.Returned? ==> HasFields(r.value)
  {
    if forall k | 0 <= k < 13 :: OutputOf(a, k, ops).Returned? then
      Returned(map x | x in a.Keys + OutputRefs() ::
        if IsOutput(x) then OutputOf(a, x / 3, ops).value else a[x])
    else Threw(TypeError)
  }

  /** Afterwards every c is its triple's result and nothing else changed. */
  lemma UpdateOutputsValues(a: Attrs, ops: FloatOps, x: nat)
    requires HasFields(a) && UpdateOutputs(a, ops).Returned?
    ensures x in UpdateOutputs(a, ops).value <==> x in a || IsOutput(x)
    ensures IsOutput(x) ==> UpdateOutputs(a, ops).value[x] == OutputOf(a, x / 3, ops).value
    ensures !IsOutput(x) && x in a ==> UpdateOutputs(a, ops).value[x] == a[x]
  {
  }

  /** The recomputation leaves every triple's operands, so every
      operator's result, as they were. */
  lemma OperandsKept(a: Attrs, ops: FloatOps, k: nat)
    requires HasFields(a) && UpdateOutputs(a, ops).Returned? && k < 13
    ensures OutputOf(UpdateOutputs(a, ops).value, k, ops) == OutputOf(a, k, ops)
  {
    Triple(k);
    UpdateOutputsValues(a, ops, 3 * k);
    UpdateOutputsValues(a, ops, 3 * k + 1);
  }

  /** Recomputing the outputs a second time changes nothing. */
  lemma UpdateOutputsIdempotent(a: Attrs, ops: FloatOps)
    requires HasFields(a) && UpdateOutputs(a, ops).Returned?
    ensures UpdateOutputs(UpdateOutputs(a, ops).value, ops) == UpdateOutputs(a, ops)
  {
    var b := UpdateOutputs(a, ops).value;
    forall k | 0 <= k < 13 ensures OutputOf(b, k, ops) == OutputOf(a, k, ops) {
      OperandsKept(a, ops, k);
    }
    assert UpdateOutputs(b, ops).Returned?;
    var c := UpdateOutputs(b, ops).value;
    forall x: nat ensures (x in c <==> x in b) && (x in b ==> c[x] == b[x]) {
      UpdateOutputsValues(a, ops, x);
      UpdateOutputsValues(b, ops, x);
    }
    assert c == b;
  }

  /** With every field of its reset type, no operator raises. */
  lemma TypedOutputs(a: Attrs, ops: FloatOps)
    requires Typed(a)
    ensures UpdateOutputs(a, ops).Returned?
  {
    forall k | 0 <= k < 13 ensures OutputOf(a, k, ops).Returned? {
      Triple(k);
    }
  }

  /** `_update_clocks`: clock_c is `clock_a and clock_b`. */
  function UpdateClocks(a: Attrs): (r: Attrs)
    requires HasFields(a)
    ensures 1001 in a && 1002 in a && 1003 in r && r[1003] == And(a[1001], a[1002]) && HasFields(r)
    ensures forall x | x in a && x != 1003 :: x in r && r[x] == a[x]
  {
    assert IsStateField(1001) && IsStateField(1002);
    a[1003 := And(a[1001], a[1002])]
  }

  /** The outputs, then the clocks: how the reset and the restore end. */
  function Refresh(a: Attrs, ops: FloatOps): (r: Outcome<Attrs>)
    requires HasFields(a)
    ensures r.Returned? ==> HasFields(r.value)
  {
    match UpdateOutputs(a, ops)
    case Threw(e) => Threw(e)
    case Returned(b) => Returned(UpdateClocks(b))
  }

  /** The attributes after `fmi3Reset` from a, which assigns every state
      field before recomputing, so nothing can raise. */
  function AfterReset(a: Attrs, ops: FloatOps): (r: Attrs)
    ensures HasFields(r) && Typed(r)
    ensures 1003 in r && forall x | IsOutput(x) :: x in r
  {
    var b := a + ResetValues();
    assert Typed(b);
    TypedOutputs(b, ops);
    var r := Refresh(b, ops).value;
    assert Typed(r) by {
      forall x | IsStateField(x) ensures x in r && r[x] == b[x] {
        UpdateOutputsValues(b, ops, x);
      }
    }
    forall x | IsOutput(x) ensures x in r {
      UpdateOutputsValues(b, ops, x);
    }
    r
  }

  /** The attributes after construction: the reset from none. */
  function Initial(ops: FloatOps): (r: Attrs)
    ensures HasFields(r) && Typed(r)
  {
    AfterReset(map[], ops)
  }

  /** After the reset every input, parameter and clock holds its reset
      value, and `time` is assigned only if it was before. */
  lemma ResetInputs(a: Attrs, ops: FloatOps, x: nat)
    ensures IsStateField(x) ==> AfterReset(a, ops)[x] == ResetValue(x)
    ensures x == 999 ==> (x in AfterReset(a, ops) <==> x in a)
  {
    var b := a + ResetValues();
    assert Typed(b);
    TypedOutputs(b, ops);
    UpdateOutputsValues(b, ops, x);
  }

  /** The reset is the recomputation of the reset values written over a. */
  lemma AfterResetIs(a: Attrs, ops: FloatOps)
    ensures HasFields(a + ResetValues()) && Typed(a + ResetValues())
    ensures UpdateOutputs(a + ResetValues(), ops).Returned?
    ensures AfterReset(a, ops) == UpdateClocks(UpdateOutputs(a + ResetValues(), ops).value)
  {
    assert Typed(a + ResetValues());
    TypedOutputs(a + ResetValues(), ops);
  }

  /** After the reset every output is the combination of the reset
      values: the integer sums 0, `False or False`, the empty
      concatenation and [0] XOR [0] = [0]. */
  lemma ResetOutputs(a: Attrs, ops: FloatOps, k: nat)
    requires 2 <= k < 13
    ensures k < 10 ==> AfterReset(a, ops)[3 * k + 2] == Int(0)
    ensures k == 10 ==> AfterReset(a, ops)[3 * k + 2] == Boolean(false)
    ensures k == 11 ==> AfterReset(a, ops)[3 * k + 2] == Text("")
    ensures k == 12 ==> AfterReset(a, ops)[3 * k + 2] == Binary([0])
  {
    var b := a + ResetValues();
    AfterResetIs(a, ops);
    Triple(k);
    UpdateOutputsValues(b, ops, 3 * k + 2);
    var o := UpdateOutputs(b, ops).value;
    assert AfterReset(a, ops)[3 * k + 2] == o[3 * k + 2];
    ResetOperands(b, ops, k);
  }

  /** The outputs' operators on the reset values. */
  lemma ResetOperands(b: Attrs, ops: FloatOps, k: nat)
    requires 2 <= k < 13 && HasFields(b)
    requires b[3 * k] == ResetValue(3 * k) && b[3 * k + 1] == ResetValue(3 * k + 1)
    ensures k < 10 ==> OutputOf(b, k, ops) == Returned(Int(0))
    ensures k == 10 ==> OutputOf(b, k, ops) == Returned(Boolean(false))
    ensures k == 11 ==> OutputOf(b, k, ops) == Returned(Text(""))
    ensures k == 12 ==> OutputOf(b, k, ops) == Returned(Binary([0]))
  {
    Triple(k);
    assert Xor([0], [0]) == [0];
    assert "" + "" == "";
  }

  /** After the reset clock_c is `False and False`. */
  lemma ResetClock(a: Attrs, ops: FloatOps)
    ensures AfterReset(a, ops)[1003] == Boolean(false)
  {
    var b := a + ResetValues();
    assert Typed(b);
    TypedOutputs(b, ops);
    assert IsStateField(1001) && IsStateField(1002);
    UpdateOutputsValues(b, ops, 1001);
    UpdateOutputsValues(b, ops, 1002);
  }

  // ------------------------------------------------------------------ setters

  /** Whether `_set_value` finds the reference in the table it consults:
      `all_references` in configuration mode, `reference_to_attribute`
      otherwise. */
  predicate Known(configuration: bool, r: nat)
  {
    if configuration then InAllReferences(r) else IsAttribute(r)
  }

  /** The index of the first pair `_set_value` does not write: the first
      reference the table lacks, or Min(|refs|, |values|) when there is
      none. A tunable parameter is never in `reference_to_attribute`, so
      outside configuration mode it stops the batch too. */
  function Refused(configuration: bool, refs: seq<nat>, values: seq<Value>): (j: nat)
    ensures j <= Min(|refs|, |values|)
    ensures forall i | 0 <= i < j :: Known(configuration, refs[i])
    ensures j < Min(|refs|, |values|) ==> !Known(configuration, refs[j])
    decreases |refs|
  {
    if |refs| == 0 || |values| == 0 || !Known(configuration, refs[0]) then 0
    else 1 + Refused(configuration, refs[1..], values[1..])
  }

  /** `_set_value`: the pairs before the first refused one are written in
      order; then Ok if every pair was written, Error if the refused
      reference is a tunable parameter outside configuration mode, and
      `KeyError` otherwise. A batch is not all-or-nothing. */
  function SetResult(configuration: bool, a: Attrs, refs: seq<nat>, values: seq<Value>): (Outcome<ProtoFmi3Status>, Attrs)
  {
    var j := Refused(configuration, refs, values);
    (if j == Min(|refs|, |values|) then Returned(ProtoOk)
     else if !configuration && IsTunable(refs[j]) then Returned(ProtoError)
     else Threw(KeyError),
     Store(a, refs[..j], values[..j]))
  }

  /** The write loop of `_set_value`. */
  method WriteAttributes(configuration: bool, a: Attrs, refs: seq<nat>, values: seq<Value>)
    returns (outcome: Outcome<ProtoFmi3Status>, written: Attrs)
    ensures (outcome, written) == SetResult(configuration, a, refs, values)
  {
    var j := Refused(configuration, refs, values);
    written := a;
    var i := 0;
    assert refs[..0] == [] && values[..0] == [];
    while i < |refs| && i < |values|
      invariant i <= j && written == Store(a, refs[..i], values[..i])
    {
      if !configuration && IsTunable(refs[i]) {
        return Returned(ProtoError), written;
      }
      if !Known(configuration, refs[i]) {
        return Threw(KeyError), written;
      }
      assert refs[..i + 1] == refs[..i] + [refs[i]] && values[..i + 1] == values[..i] + [values[i]];
      StoreSnoc(a, refs[..i], values[..i], refs[i], values[i]);
      written := written[refs[i] := values[i]];
      i := i + 1;
    }
    return Returned(ProtoOk), written;
  }

  /** Outside configuration mode a tunable parameter after a writable pair
      fails the batch with Error, and the first pair stays written. */
  lemma PartialBatch(a: Attrs, r0: nat, r1: nat, v0: Value, v1: Value)
    requires IsAttribute(r0) && IsTunable(r1)
    ensures SetResult(false, a, [r0, r1], [v0, v1]) == (Returned(ProtoError), a[r0 := v0])
  {
    assert Refused(false, [r0, r1], [v0, v1]) == 1 by {
      assert [r0, r1][1..] == [r1] && [v0, v1][1..] == [v1];
    }
    assert [r0, r1][..1] == [r0] && [v0, v1][..1] == [v0];
    assert [r0][1..] == [] && [v0][1..] == [];
    assert Store(a, [r0], [v0]) == Store(a[r0 := v0], [], []);
  }

  /** In configuration mode a batch over `all_references` writes every
      pair, the last pair for a reference deciding its value. */
  lemma ConfigurationWritesAll(a: Attrs, refs: seq<nat>, values: seq<Value>)
    requires forall r | r in refs :: InAllReferences(r)
    ensures SetResult(true, a, refs, values) == (Returned(ProtoOk), Store(a, refs, values))
  {
    var n := Min(|refs|, |values|);
    forall i | 0 <= i < n ensures Known(true, refs[i]) {
      assert refs[i] in refs;
    }
    StorePrefix(a, refs, values);
  }

  /** In configuration mode the last value written to a reference is the
      one read back. */
  lemma ReadBack(a: Attrs, refs: seq<nat>, values: seq<Value>, i: nat)
    requires forall r | r in refs :: InAllReferences(r)
    requires i < Min(|refs|, |values|)
    requires forall j | i < j < Min(|refs|, |values|) :: refs[j] != refs[i]
    ensures SetResult(true, a, refs, values).0 == Returned(ProtoOk)
    ensures Readable(SetResult(true, a, refs, values).1, refs[i])
    ensures SetResult(true, a, refs, values).1[refs[i]] == values[i]
  {
    ConfigurationWritesAll(a, refs, values);
    StoreLast(a, refs, values, i);
    assert refs[i] in refs;
  }

  /** Only the first Min(|refs|, |values|) pairs of a batch matter. */
  lemma {:induction false} StorePrefix(a: Attrs, refs: seq<nat>, values: seq<Value>)
    ensures Store(a, refs[..Min(|refs|, |values|)], values[..Min(|refs|, |values|)]) == Store(a, refs, values)
    decreases |refs|
  {
    var n := Min(|refs|, |values|);
    if n > 0 {
      assert refs[..n][1..] == refs[1..][..n - 1] && values[..n][1..] == values[1..][..n - 1];
      StorePrefix(a[refs[0] := values[0]], refs[1..], values[1..]);
    }
  }

  // ------------------------------------------------------------------ getters

  /** `getattr` finds the attribute the table names. */
  predicate Readable(a: Attrs, r: nat)
  {
    InAllReferences(r) && r in a
  }

  /** The read loop of `_get_value`: the attributes in reference order; a
      reference outside `all_references` raises `KeyError`, and one whose
      attribute was never assigned (`time`) raises `AttributeError`. */
  method ReadAttributes(a: Attrs, refs: seq<nat>) returns (r: Outcome<seq<Value>>)
    ensures r.Returned? <==> forall i | 0 <= i < |refs| :: Readable(a, refs[i])
    ensures r.Returned? ==> |r.value| == |refs| && forall i | 0 <= i < |refs| :: r.value[i] == a[refs[i]]
    ensures r.Threw? ==> exists j | 0 <= j < |refs| ::
      && (forall i | 0 <= i < j :: Readable(a, refs[i]))
      && !Readable(a, refs[j])
      && r.exception == (if InAllReferences(refs[j]) then AttributeError else KeyError)
  {
    var values: seq<Value> := [];
    var i := 0;
    while i < |refs|
      invariant i <= |refs| && |values| == i
      invariant forall k | 0 <= k < i :: Readable(a, refs[k]) && values[k] == a[refs[k]]
    {
      if !InAllReferences(refs[i]) {
        return Threw(KeyError);
      }
      if refs[i] !in a {
        return Threw(AttributeError);
      }
      values := values + [a[refs[i]]];
      i := i + 1;
    }
    return Returned(values);
  }

  /** `fmi3GetIntervalDecimal`'s loop: the stored interval of each
      reference, `KeyError` for a reference with none. */
  method ReadIntervals(intervals: map<nat, f64>, refs: seq<nat>) returns (r: Outcome<seq<f64>>)
    ensures r.Returned? <==> forall i | 0 <= i < |refs| :: refs[i] in intervals
    ensures r.Returned? ==> |r.value| == |refs| && forall i | 0 <= i < |refs| :: r.value[i] == intervals[refs[i]]
    ensures r.Threw? ==> r.exception == KeyError
  {
    var values: seq<f64> := [];
    var i := 0;
    while i < |refs|
      invariant i <= |refs| && |values| == i
      invariant forall k | 0 <= k < i :: refs[k] in intervals && values[k] == intervals[refs[k]]
    {
      if refs[i] !in intervals {
        return Threw(KeyError);
      }
      values := values + [intervals[refs[i]]];
      i := i + 1;
    }
    return Returned(values);
  }

  // -------------------------------------------------------------- state image

  /** The references of the fields in the order the state tuple lists
      them: the a and b of each triple, the thirteen tunable parameters,
      clock_a and clock_b. */
  function StateOrder(): (s: seq<nat>)
    ensures |s| == 41
  {
    seq(41, i requires 0 <= i < 41 =>
      if i < 26 then 3 * (i / 2) + i % 2 else if i < 39 then 100 + (i - 26) else 1001 + (i - 39))
  }

  /** The tuple lists each state field exactly once and nothing else. */
  lemma StateOrderFields()
    ensures forall i | 0 <= i < 41 :: IsStateField(StateOrder()[i])
    ensures forall i, j | 0 <= i < j < 41 :: StateOrder()[i] != StateOrder()[j]
    ensures forall r | IsStateField(r) :: r in StateOrder()
  {
    var s := StateOrder();
    forall r | IsStateField(r) ensures r in s {
      var i := if r <= 38 then 2 * (r / 3) + r % 3 else if IsTunable(r) then r - 74 else r - 962;
      assert s[i] == r;
    }
  }

  /** `pickle.dumps` of the field tuple, as the tuple. */
  function Dump(a: Attrs): (image: seq<Value>)
    requires HasFields(a)
    ensures |image| == 41
  {
    StateOrderFields();
    seq(41, i requires 0 <= i < 41 => a[StateOrder()[i]])
  }

  /** The assignments of `fmi3DeserializeFmuState`: the tuple's values to
      the fields in order. */
  function Load(a: Attrs, image: seq<Value>): (r: Attrs)
    requires HasFields(a) && |image| == 41
    ensures forall x :: x in r <==> x in a
  {
    StateOrderFields();
    StoreKeys(a, StateOrder(), image);
    forall i | 0 <= i < 41 ensures StateOrder()[i] in a {
    }
    Store(a, StateOrder(), image)
  }

  /** `fmi3DeserializeFmuState` on attributes a: a tuple of another length
      fails to unpack; otherwise its values are assigned to the fields in
      order, and the outputs and clock_c recomputed. */
  function Restore(a: Attrs, image: seq<Value>, ops: FloatOps): (r: (Outcome<ProtoFmi3Status>, Attrs))
    requires HasFields(a)
    ensures HasFields(r.1)
  {
    if |image| != 41 then (Threw(ValueError), a)
    else
      var loaded := Load(a, image);
      match Refresh(loaded, ops)
      case Threw(e) => (Threw(e), loaded)
      case Returned(b) => (Returned(ProtoOk), b)
  }

  /** Restoring the tuple a model dumped assigns every field the value it
      had. */
  lemma LoadDump(a: Attrs)
    requires HasFields(a)
    ensures Load(a, Dump(a)) == a
  {
    forall x | x in a ensures Load(a, Dump(a))[x] == a[x] {
      LoadDumpField(a, x);
    }
  }

  /** One field of LoadDump: the field is either in the tuple, whose last
      assignment to it is its own value, or not assigned at all. */
  lemma LoadDumpField(a: Attrs, x: nat)
    requires HasFields(a) && x in a
    ensures Load(a, Dump(a))[x] == a[x]
  {
    var s := StateOrder();
    var image := Dump(a);
    StateOrderFields();
    if i :| 0 <= i < 41 && s[i] == x {
      StoreLast(a, s, image, i);
    } else {
      StoreUntouched(a, s, image, x);
    }
  }

  /** Restoring a model's own image is recomputing its outputs. */
  lemma RestoreOwnImage(a: Attrs, ops: FloatOps)
    requires HasFields(a)
    ensures Restore(a, Dump(a), ops) == match Refresh(a, ops)
      case Threw(e) => (Threw(e), a)
      case Returned(b) => (Returned(ProtoOk), b)
  {
    LoadDump(a);
  }

  // -------------------------------------------------------------------- model

  class Model {
    const instanceName: string
    const instantiationToken: string
    const resourcePath: string
    const visible: bool
    const loggingOn: bool
    const eventModeUsed: bool
    const earlyReturnAllowed: bool
    const requiredIntermediateVariables: seq<nat>
    /** The floating-point operations of the runtime. */
    const ops: FloatOps

    var configurationMode: bool
    var attrs: Attrs
    /** `clock_reference_to_interval`. */
    var intervals: map<nat, f64>

    ghost predicate Valid()
      reads this
    {
      HasFields(attrs)
    }

    /** The constructor stores its arguments and runs `fmi3Reset`. */
    constructor(instanceName: string, instantiationToken: string, resourcePath: string, visible: bool,
                loggingOn: bool, eventModeUsed: bool, earlyReturnAllowed: bool,
                requiredIntermediateVariables: seq<nat>, ops: FloatOps)
      ensures Valid() && !configurationMode && attrs == Initial(ops) && intervals == InitialClockMap
      ensures this.ops == ops && this.eventModeUsed == eventModeUsed && this.instanceName == instanceName
    {
      this.instanceName := instanceName;
      this.instantiationToken := instantiationToken;
      this.resourcePath := resourcePath;
      this.visible := visible;
      this.loggingOn := loggingOn;
      this.eventModeUsed := eventModeUsed;
      this.earlyReturnAllowed := earlyReturnAllowed;
      this.requiredIntermediateVariables := requiredIntermediateVariables;
      this.ops := ops;
      configurationMode := false;
      intervals := InitialClockMap;
      attrs := Initial(ops);
    }

    /** `fmi3DoStep`: the outputs recomputed, and the step's end. */
    method DoStep(currentCommunicationPoint: f64, communicationStepSize: f64, noStepPrior: bool)
      returns (outcome: Outcome<(ProtoFmi3Status, bool, bool, bool, f64)>)
      requires Valid()
      modifies this
      ensures Valid() && configurationMode == old(configurationMode) && intervals == old(intervals)
      ensures match UpdateOutputs(old(attrs), ops)
        case Threw(e) => outcome == Threw(e) && attrs == old(attrs)
        case Returned(b) =>
          attrs == b && outcome == Returned((ProtoOk, false, false, false, ops.addDouble(currentCommunicationPoint, communicationStepSize)))
    {
      match UpdateOutputs(attrs, ops)
      case Threw(e) =>
        return Threw(e);
      case Returned(b) =>
        attrs := b;
        return Returned((ProtoOk, false, false, false, ops.addDouble(currentCommunicationPoint, communicationStepSize)));
    }

    /** `fmi3UpdateDiscreteStates`: nothing changes; the next event is at
        1.0. */
    method UpdateDiscreteStates()
      returns (status: ProtoFmi3Status, discreteStatesNeedUpdate: bool, terminateSimulation: bool,
               nominalsChanged: bool, valuesChanged: bool, nextEventTimeDefined: bool, nextEventTime: f64)
      ensures status == ProtoOk && !discreteStatesNeedUpdate && !terminateSimulation
      ensures !nominalsChanged && !valuesChanged && nextEventTimeDefined && nextEventTime == OneDouble
    {
      return ProtoOk, false, false, false, false, true, OneDouble;
    }

    /** `fmi3EnterInitializationMode`, `fmi3EnterEventMode`,
        `fmi3EnterStepMode` and `fmi3Terminate` only answer Ok. */
    method EnterMode(c: ModeCommand) returns (status: ProtoFmi3Status)
      requires c == EnterInitialization || c == EnterEvent || c == EnterStep || c == ModeCommand.Terminate
      ensures status == ProtoOk
    {
      return ProtoOk;
    }

    /** `fmi3ExitInitializationMode`: the outputs recomputed. */
    method ExitInitializationMode() returns (outcome: Outcome<ProtoFmi3Status>)
      requires Valid()
      modifies this
      ensures Valid() && configurationMode == old(configurationMode) && intervals == old(intervals)
      ensures match UpdateOutputs(old(attrs), ops)
        case Threw(e) => outcome == Threw(e) && attrs == old(attrs)
        case Returned(b) => attrs == b && outcome == Returned(ProtoOk)
    {
      match UpdateOutputs(attrs, ops)
      case Threw(e) =>
        return Threw(e);
      case Returned(b) =>
        attrs := b;
        return Returned(ProtoOk);
    }

    method EnterConfigurationMode() returns (status: ProtoFmi3Status)
      modifies this
      ensures configurationMode && status == ProtoOk
      ensures attrs == old(attrs) && intervals == old(intervals)
    {
      configurationMode := true;
      return ProtoOk;
    }

    method ExitConfigurationMode() returns (status: ProtoFmi3Status)
      modifies this
      ensures !configurationMode && status == ProtoOk
      ensures attrs == old(attrs) && intervals == old(intervals)
    {
      configurationMode := false;
      return ProtoOk;
    }

    /** `fmi3Reset`: out of configuration mode, every input, parameter and
        clock back to its reset value, the interval map {1001 ↦ 1.0}, and
        the outputs and clock_c recomputed. */
    method Reset() returns (status: ProtoFmi3Status)
      modifies this
      ensures Valid() && !configurationMode && intervals == InitialClockMap
      ensures attrs == AfterReset(old(attrs), ops) && status == ProtoOk
    {
      configurationMode := false;
      intervals := InitialClockMap;
      attrs := AfterReset(attrs, ops);
      return ProtoOk;
    }

    /** `_set_value` and the typed setters that forward to it. */
    method SetValue(refs: seq<nat>, values: seq<Value>) returns (outcome: Outcome<ProtoFmi3Status>)
      requires Valid()
      modifies this
      ensures Valid() && (outcome, attrs) == SetResult(old(configurationMode), old(attrs), refs, values)
      ensures configurationMode == old(configurationMode) && intervals == old(intervals)
    {
      StoreKeys(attrs, refs[..Refused(configurationMode, refs, values)], values[..Refused(configurationMode, refs, values)]);
      outcome, attrs := WriteAttributes(configurationMode, attrs, refs, values);
    }

    /** `fmi3SetClock`: the writes, then clock_c recomputed, whatever
        status the writes returned; a raised `KeyError` skips it. */
    method SetClock(refs: seq<nat>, values: seq<bool>) returns (outcome: Outcome<ProtoFmi3Status>)
      requires Valid()
      modifies this
      ensures Valid() && configurationMode == old(configurationMode) && intervals == old(intervals)
      ensures var (o, a) := SetResult(old(configurationMode), old(attrs), refs,
                                      seq(|values|, i requires 0 <= i < |values| => Boolean(values[i])));
        HasFields(a) && outcome == o && attrs == (if o.Returned? then UpdateClocks(a) else a)
    {
      var boxed := seq(|values|, i requires 0 <= i < |values| => Boolean(values[i]));
      outcome := SetValue(refs, boxed);
      if outcome.Returned? {
        attrs := UpdateClocks(attrs);
      }
    }

    /** `_get_value` and the typed getters. */
    method GetValue(refs: seq<nat>) returns (outcome: Outcome<(ProtoFmi3Status, seq<Value>)>)
      ensures outcome.Returned? <==> forall i | 0 <= i < |refs| :: Readable(attrs, refs[i])
      ensures outcome.Returned? ==>
        && outcome.value.0 == ProtoOk && |outcome.value.1| == |refs|
        && forall i | 0 <= i < |refs| :: outcome.value.1[i] == attrs[refs[i]]
      ensures outcome.Threw? ==> outcome.exception == KeyError || outcome.exception == AttributeError
    {
      var r := ReadAttributes(attrs, refs);
      match r
      case Threw(e) => outcome := Threw(e);
      case Returned(vs) => outcome := Returned((ProtoOk, vs));
    }

    /** `fmi3GetIntervalDecimal`: each reference's interval, qualified as
        changed. */
    method GetIntervalDecimal(refs: seq<nat>)
      returns (outcome: Outcome<(ProtoFmi3Status, seq<f64>, seq<IntervalQualifier>)>)
      ensures outcome.Returned? <==> forall i | 0 <= i < |refs| :: refs[i] in intervals
      ensures outcome.Returned? ==>
        && outcome.value.0 == ProtoOk
        && |outcome.value.1| == |outcome.value.2| == |refs|
        && (forall i | 0 <= i < |refs| :: outcome.value.1[i] == intervals[refs[i]])
        && (forall i | 0 <= i < |refs| :: outcome.value.2[i] == IntervalChanged)
      ensures outcome.Threw? ==> outcome.exception == KeyError
    {
      var r := ReadIntervals(intervals, refs);
      match r
      case Threw(e) => outcome := Threw(e);
      case Returned(vs) => outcome := Returned((ProtoOk, vs, seq(|refs|, _ => IntervalChanged)));
    }

    /** `fmi3SerializeFmuState`: the field tuple. */
    method Serialize() returns (status: ProtoFmi3Status, image: seq<Value>)
      requires Valid()
      ensures status == ProtoOk && image == Dump(attrs)
    {
      return ProtoOk, Dump(attrs);
    }

    /** `fmi3DeserializeFmuState`: a tuple of another length fails to
        unpack; otherwise its values are assigned to the fields in order,
        and the outputs and clock_c recomputed. */
    method Deserialize(image: seq<Value>) returns (outcome: Outcome<ProtoFmi3Status>)
      requires Valid()
      modifies this
      ensures Valid() && (outcome, attrs) == Restore(old(attrs), image, ops)
      ensures configurationMode == old(configurationMode) && intervals == old(intervals)
    {
      var r := Restore(attrs, image, ops);
      outcome, attrs := r.0, r.1;
    }
  }
}
