/** The Python FMI 2.0 example model (assets/python/fmi2/model.py): twelve
    attributes reached through `setattr`/`getattr` by the names a table
    gives the value references 0..11, a setter that writes its pairs in
    order until a reference the table lacks, and a state image that is the
    tuple of all twelve attributes. Python does not check the type of what
    a setter stores, so the recomputation of the outputs can raise. */
module PythonFmi2Model {
  import opened Wrappers
  import opened Floats
  import opened Batches
  import opened Exceptions
  import opened Values
  import opened PythonOps
  import opened Fmi2Types
  import opened Fmi2Example

  /** The attributes' values, by property. */
  type Attrs = map<Property, Value>

  /** Every attribute is present: the constructor assigns all twelve and
      nothing deletes one. */
  ghost predicate Complete(a: Attrs)
  {
    forall p: Property :: p in a
  }

  /** `reference_to_attribute[r]`: the property named at reference r, the
      references 0..11 listing the properties in declaration order; any
      other reference is missing from the table. */
  function Target(r: nat): (t: Option<Property>)
    ensures t.Some? <==> r < 12
  {
    if r < |Declared| then Some(Declared[r]) else None
  }

  // ------------------------------------------------------------------ outputs

  /** `_update_outputs`: real_c and integer_c by `+`, boolean_c by `or`,
      string_c by `+`. A `+` that raises raises `TypeError`. */
  function Recompute(a: Attrs, ops: FloatOps): (r: Outcome<Attrs>)
    requires Complete(a)
    ensures r.Threw? ==> r.exception == TypeError
    ensures r.Returned? ==> Complete(r.value)
  {
    var sum := PythonOps.Add(a[RealA], a[RealB], ops);
    var integer := PythonOps.Add(a[IntegerA], a[IntegerB], ops);
    var text := PythonOps.Add(a[StringA], a[StringB], ops);
    if sum.Threw? || integer.Threw? || text.Threw? then Threw(TypeError)
    else Returned(a[RealC := sum.value][IntegerC := integer.value]
                   [BooleanC := Or(a[BooleanA], a[BooleanB])][StringC := text.value])
  }

  /** The result of `_update_outputs` for output p. */
  function OutputOf(a: Attrs, p: Property, ops: FloatOps): Outcome<Value>
    requires Complete(a) && Fmi2Example.IsOutput(p)
  {
    var (x, y) := Operands(p);
    if p == BooleanC then Returned(Or(a[x], a[y])) else PythonOps.Add(a[x], a[y], ops)
  }

  /** The recomputation succeeds exactly when every output's operator
      does. */
  lemma RecomputeSucceeds(a: Attrs, ops: FloatOps)
    requires Complete(a)
    ensures Recompute(a, ops).Returned? <==>
      forall q | Fmi2Example.IsOutput(q) :: OutputOf(a, q, ops).Returned?
  {
    if forall q | Fmi2Example.IsOutput(q) :: OutputOf(a, q, ops).Returned? {
      assert OutputOf(a, RealC, ops).Returned? && OutputOf(a, IntegerC, ops).Returned?;
      assert OutputOf(a, StringC, ops).Returned?;
    }
  }

  /** After a recomputation every c is its operator's result and every
      input is kept. */
  lemma RecomputeValues(a: Attrs, ops: FloatOps, p: Property)
    requires Complete(a) && Recompute(a, ops).Returned?
    ensures Fmi2Example.IsOutput(p) ==> Recompute(a, ops).value[p] == OutputOf(a, p, ops).value
    ensures !Fmi2Example.IsOutput(p) ==> Recompute(a, ops).value[p] == a[p]
  {
    var r := Recompute(a, ops).value;
    match p
    case RealC =>
    case IntegerC =>
    case BooleanC =>
    case StringC =>
    case _ =>
  }

  /** The outputs are no operands, so recomputing twice is recomputing
      once. */
  lemma RecomputeIdempotent(a: Attrs, ops: FloatOps)
    requires Complete(a) && Recompute(a, ops).Returned?
    ensures Recompute(Recompute(a, ops).value, ops) == Recompute(a, ops)
  {
    var b := Recompute(a, ops).value;
    var c := Recompute(b, ops).value;
    RecomputeSucceeds(a, ops);
    RecomputeSucceeds(b, ops);
    forall p ensures p in c && c[p] == b[p] {
      RecomputeValues(a, ops, p);
      RecomputeValues(b, ops, p);
    }
    assert c.Keys == b.Keys;
    assert c == b;
    assert Recompute(b, ops) == Returned(c);
  }

  /** With the example's inputs the outputs are the sum of the reals, 3,
      true and "Hello World!". */
  lemma HelloWorldAttributes(a: Attrs, ops: FloatOps, one: f64, two: f64)
    requires Complete(a)
    requires a[RealA] == Double(one) && a[RealB] == Double(two)
    requires a[IntegerA] == Int(1) && a[IntegerB] == Int(2)
    requires a[BooleanA] == Boolean(true) && a[BooleanB] == Boolean(false)
    requires a[StringA] == Text("Hello ") && a[StringB] == Text("World!")
    ensures Recompute(a, ops).Returned?
    ensures Recompute(a, ops).value[RealC] == Double(ops.addDouble(one, two))
    ensures Recompute(a, ops).value[IntegerC] == Int(3)
    ensures Recompute(a, ops).value[BooleanC] == Boolean(true)
    ensures Recompute(a, ops).value[StringC] == Text("Hello World!")
  {
    assert "Hello " + "World!" == "Hello World!";
  }

  /** A string stored in real_a by a setter makes the recomputation raise
      `TypeError` once real_b holds a float. */
  lemma MistypedInput(a: Attrs, ops: FloatOps, s: string, x: f64)
    requires Complete(a) && a[RealA] == Text(s) && a[RealB] == Double(x)
    ensures Recompute(a, ops) == Threw(TypeError)
  {
  }

  // -------------------------------------------------------------------- reset

  /** The assignments `fmi2Reset` (and the constructor) make to the eight
      inputs. */
  function ResetValues(): (m: Attrs)
    ensures forall p :: p in m <==> !Fmi2Example.IsOutput(p)
  {
    map[RealA := Double(PositiveZero), RealB := Double(PositiveZero),
        IntegerA := Int(0), IntegerB := Int(0),
        BooleanA := Boolean(false), BooleanB := Boolean(false),
        StringA := Text(""), StringB := Text("")]
  }

  /** The attributes after construction and after every reset. */
  function Initial(ops: FloatOps): (a: Attrs)
    ensures Complete(a)
  {
    ResetValues()[RealC := Double(ops.addDouble(PositiveZero, PositiveZero))][IntegerC := Int(0)]
      [BooleanC := Boolean(false)][StringC := Text("")]
  }

  /** `fmi2Reset`: the eight inputs assigned, then the outputs recomputed,
      which cannot raise and leaves the initial attributes whatever came
      before. */
  lemma ResetIsInitial(a: Attrs, ops: FloatOps)
    requires Complete(a)
    ensures Recompute(a + ResetValues(), ops) == Returned(Initial(ops))
  {
    var b := a + ResetValues();
    assert b[RealA] == Double(PositiveZero) && b[RealB] == Double(PositiveZero);
    assert b[IntegerA] == Int(0) && b[IntegerB] == Int(0);
    assert b[StringA] == Text("") && b[StringB] == Text("");
    assert b[BooleanA] == Boolean(false) && b[BooleanB] == Boolean(false);
    var r := Recompute(b, ops).value;
    forall p ensures p in r && r[p] == Initial(ops)[p] {
    }
    assert r.Keys == Initial(ops).Keys;
    assert r == Initial(ops);
    assert Recompute(b, ops) == Returned(r);
  }

  // ------------------------------------------------------------------ setters

  /** The index of the first pair `_set_value` does not write: the first
      reference the table lacks, or Min(|refs|, |values|) when there is
      none. */
  function Refused(refs: seq<nat>, values: seq<Value>): (j: nat)
    ensures j <= Min(|refs|, |values|)
    ensures forall i | 0 <= i < j :: refs[i] < 12
    ensures j < Min(|refs|, |values|) ==> refs[j] >= 12
    decreases |refs|
  {
    if |refs| == 0 || |values| == 0 || refs[0] >= 12 then 0
    else 1 + Refused(refs[1..], values[1..])
  }

  /** The properties a run of known references names. */
  function Props(refs: seq<nat>): (ps: seq<Property>)
    requires forall i | 0 <= i < |refs| :: refs[i] < 12
    ensures |ps| == |refs| && forall i | 0 <= i < |refs| :: ps[i] == Declared[refs[i]]
  {
    seq(|refs|, i requires 0 <= i < |refs| => Declared[refs[i]])
  }

  /** `_set_value`, through the typed setters: the pairs before the first
      unknown reference are written in order, whatever their type; then OK
      if every pair was written and `KeyError` otherwise. A batch is not
      all-or-nothing. */
  function SetResult(a: Attrs, refs: seq<nat>, values: seq<Value>): (r: (Outcome<Fmi2Status>, Attrs))
    ensures r.0.Returned? <==> forall i | 0 <= i < Min(|refs|, |values|) :: refs[i] < 12
    ensures r.0.Returned? ==> r.0.value == Ok
    ensures r.0.Threw? ==> r.0.exception == KeyError
    ensures Complete(a) ==> Complete(r.1)
  {
    var j := Refused(refs, values);
    StoreKeys(a, Props(refs[..j]), values[..j]);
    (if j == Min(|refs|, |values|) then Returned(Ok) else Threw(KeyError),
     Store(a, Props(refs[..j]), values[..j]))
  }

  /** The write loop of `_set_value`. */
  method WriteAttributes(a: Attrs, refs: seq<nat>, values: seq<Value>)
    returns (outcome: Outcome<Fmi2Status>, written: Attrs)
    ensures (outcome, written) == SetResult(a, refs, values)
  {
    var j := Refused(refs, values);
    written := a;
    var i := 0;
    assert Props(refs[..0]) == [] && values[..0] == [];
    while i < |refs| && i < |values|
      invariant i <= j && written == Store(a, Props(refs[..i]), values[..i])
    {
      if refs[i] >= 12 {
        return Threw(KeyError), written;
      }
      assert Props(refs[..i + 1]) == Props(refs[..i]) + [Declared[refs[i]]];
      assert values[..i + 1] == values[..i] + [values[i]];
      StoreSnoc(a, Props(refs[..i]), values[..i], Declared[refs[i]], values[i]);
      written := written[Declared[refs[i]] := values[i]];
      i := i + 1;
    }
    return Returned(Ok), written;
  }

  /** A known reference after a written pair fails the batch with
      `KeyError` and leaves the first pair written. */
  lemma PartialBatch(a: Attrs, r0: nat, r1: nat, v0: Value, v1: Value)
    requires r0 < 12 && r1 >= 12
    ensures SetResult(a, [r0, r1], [v0, v1]) == (Threw(KeyError), a[Declared[r0] := v0])
  {
    assert Refused([r0, r1], [v0, v1]) == 1 by {
      assert [r0, r1][1..] == [r1] && [v0, v1][1..] == [v1];
    }
    assert [r0, r1][..1] == [r0] && [v0, v1][..1] == [v0];
    assert Props([r0]) == [Declared[r0]];
    assert Store(a, [Declared[r0]], [v0]) == Store(a[Declared[r0] := v0], [], []);
  }

  /** With every reference known the last value written to a reference is
      the one it holds. */
  lemma ReadBack(a: Attrs, refs: seq<nat>, values: seq<Value>, i: nat)
    requires forall k | 0 <= k < |refs| :: refs[k] < 12
    requires i < Min(|refs|, |values|)
    requires forall k | i < k < Min(|refs|, |values|) :: refs[k] != refs[i]
    ensures SetResult(a, refs, values).0 == Returned(Ok)
    ensures Declared[refs[i]] in SetResult(a, refs, values).1
    ensures SetResult(a, refs, values).1[Declared[refs[i]]] == values[i]
  {
    var n := Min(|refs|, |values|);
    var ps := Props(refs[..n]);
    DeclaredOnce(RealA);
    forall k | i < k < n ensures ps[k] != ps[i] {
    }
    StoreLast(a, ps, values[..n], i);
  }

  // ------------------------------------------------------------------ getters

  /** The read loop of `_get_value`, through the typed getters: the
      attributes in reference order, whatever their type; a reference the
      table lacks raises `KeyError`. */
  method ReadAttributes(a: Attrs, refs: seq<nat>) returns (r: Outcome<seq<Value>>)
    requires Complete(a)
    ensures r.Returned? <==> forall i | 0 <= i < |refs| :: refs[i] < 12
    ensures r.Returned? ==> |r.value| == |refs| && forall i | 0 <= i < |refs| :: r.value[i] == a[Declared[refs[i]]]
    ensures r.Threw? ==> r.exception == KeyError
  {
    var values: seq<Value> := [];
    var i := 0;
    while i < |refs|
      invariant i <= |refs| && |values| == i
      invariant forall k | 0 <= k < i :: refs[k] < 12 && values[k] == a[Declared[refs[k]]]
    {
      var t := Target(refs[i]);
      if t.None? {
        return Threw(KeyError);
      }
      values := values + [a[t.value]];
      i := i + 1;
    }
    return Returned(values);
  }

  // -------------------------------------------------------------- state image

  /** `pickle.dumps` of the attribute tuple, as the tuple: the twelve
      attributes in declaration order. */
  function Dump(a: Attrs): (image: seq<Value>)
    requires Complete(a)
    ensures |image| == 12 && forall i | 0 <= i < 12 :: image[i] == a[Declared[i]]
  {
    seq(12, i requires 0 <= i < 12 => a[Declared[i]])
  }

  /** The position of a property in declaration order, and so in the
      tuple. */
  function Position(p: Property): (i: nat)
    ensures i < 12 && Declared[i] == p
  {
    match p
    case RealA => 0 case RealB => 1 case RealC => 2
    case IntegerA => 3 case IntegerB => 4 case IntegerC => 5
    case BooleanA => 6 case BooleanB => 7 case BooleanC => 8
    case StringA => 9 case StringB => 10 case StringC => 11
  }

  /** The declaration lists every property. */
  lemma AllDeclared()
    ensures forall p: Property :: p in Declared
  {
    forall p: Property ensures p in Declared {
      DeclaredOnce(p);
    }
  }

  /** The assignments of `fmi2DeserializeFmuState`: every attribute takes
      the tuple's value at its position. */
  function Load(image: seq<Value>): (r: Attrs)
    requires |image| == 12
    ensures Complete(r)
  {
    AllDeclared();
    map p: Property | p in Declared :: image[Position(p)]
  }

  /** `fmi2DeserializeFmuState`: a tuple of another length fails to
      unpack with `ValueError` and changes nothing; otherwise every
      attribute is assigned and the outputs are not recomputed. */
  function Restore(a: Attrs, image: seq<Value>): (r: (Outcome<Fmi2Status>, Attrs))
    ensures r.0.Returned? <==> |image| == 12
    ensures r.0.Returned? ==> r.0.value == Ok
    ensures r.0.Threw? ==> r.0.exception == ValueError && r.1 == a
  {
    if |image| != 12 then (Threw(ValueError), a) else (Returned(Ok), Load(image))
  }

  /** Restoring the tuple a model dumped gives back its attributes,
      whatever the attributes it replaces. */
  lemma RestoreOwnImage(a: Attrs, b: Attrs)
    requires Complete(a)
    ensures Restore(b, Dump(a)) == (Returned(Ok), a)
  {
    var r := Load(Dump(a));
    forall p ensures r[p] == a[p] {
      assert r[p] == Dump(a)[Position(p)];
    }
    assert r.Keys == a.Keys;
    assert r == a;
  }

  /** Dumping after a restore gives back the restored tuple. */
  lemma DumpRestored(a: Attrs, image: seq<Value>)
    requires |image| == 12
    ensures Complete(Restore(a, image).1) && Dump(Restore(a, image).1) == image
  {
    DeclaredOnce(RealA);
    forall i | 0 <= i < 12 ensures Dump(Load(image))[i] == image[i] {
      assert Position(Declared[i]) == i;
    }
  }

  class Model {
    /** The floating-point operations of the runtime. */
    const ops: FloatOps
    var attrs: Attrs

    ghost predicate Valid()
      reads this
    {
      Complete(attrs)
    }

    /** The constructor assigns the eight inputs, builds the reference
        table and calls `fmi2Reset`. */
    constructor(ops: FloatOps)
      ensures Valid() && attrs == Initial(ops) && this.ops == ops
    {
      this.ops := ops;
      attrs := Initial(ops);
    }

    /** `fmi2DoStep`: recompute the outputs. */
    method DoStep(currentTime: f64, stepSize: f64, noStepPrior: bool) returns (outcome: Outcome<Fmi2Status>)
      requires Valid()
      modifies this
      ensures Valid()
      ensures Recompute(old(attrs), ops).Returned? ==> outcome == Returned(Ok) && attrs == Recompute(old(attrs), ops).value
      ensures Recompute(old(attrs), ops).Threw? ==> outcome == Threw(TypeError) && attrs == old(attrs)
    {
      outcome := UpdateOutputs();
    }

    /** `fmi2ExitInitializationMode`: recompute the outputs. */
    method ExitInitializationMode() returns (outcome: Outcome<Fmi2Status>)
      requires Valid()
      modifies this
      ensures Valid()
      ensures Recompute(old(attrs), ops).Returned? ==> outcome == Returned(Ok) && attrs == Recompute(old(attrs), ops).value
      ensures Recompute(old(attrs), ops).Threw? ==> outcome == Threw(TypeError) && attrs == old(attrs)
    {
      outcome := UpdateOutputs();
    }

    /** `_update_outputs`, returning OK when it does not raise. */
    method UpdateOutputs() returns (outcome: Outcome<Fmi2Status>)
      requires Valid()
      modifies this
      ensures Valid()
      ensures Recompute(old(attrs), ops).Returned? ==> outcome == Returned(Ok) && attrs == Recompute(old(attrs), ops).value
      ensures Recompute(old(attrs), ops).Threw? ==> outcome == Threw(TypeError) && attrs == old(attrs)
    {
      var r := Recompute(attrs, ops);
      if r.Threw? {
        return Threw(r.exception);
      }
      attrs := r.value;
      return Returned(Ok);
    }

    /** `fmi2Reset`: the inputs zeroed and the outputs recomputed, which
        leaves the state the constructor made. */
    method Reset() returns (status: Fmi2Status)
      requires Valid()
      modifies this
      ensures Valid() && attrs == Initial(ops) && status == Ok
    {
      ResetIsInitial(attrs, ops);
      attrs := Recompute(attrs + ResetValues(), ops).value;
      return Ok;
    }

    /** `fmi2SetDebugLogging`, `fmi2EnterInitializationMode`,
        `fmi2SetupExperiment` and `fmi2Terminate` change nothing. */
    method SetDebugLogging(categories: seq<string>, loggingOn: bool) returns (status: Fmi2Status)
      ensures status == Ok
    {
      return Ok;
    }

    method EnterInitializationMode() returns (status: Fmi2Status)
      ensures status == Ok
    {
      return Ok;
    }

    method SetupExperiment(startTime: f64, stopTime: Option<f64>, tolerance: Option<f64>) returns (status: Fmi2Status)
      ensures status == Ok
    {
      return Ok;
    }

    method Terminate() returns (status: Fmi2Status)
      ensures status == Ok
    {
      return Ok;
    }

    /** The four typed setters, through `_set_value`. */
    method SetValues(refs: seq<nat>, values: seq<Value>) returns (outcome: Outcome<Fmi2Status>)
      requires Valid()
      modifies this
      ensures Valid() && (outcome, attrs) == SetResult(old(attrs), refs, values)
    {
      outcome, attrs := WriteAttributes(attrs, refs, values);
    }

    /** The four typed getters, through `_get_value`. */
    method GetValues(refs: seq<nat>) returns (outcome: Outcome<(Fmi2Status, seq<Value>)>)
      requires Valid()
      ensures outcome.Returned? <==> forall i | 0 <= i < |refs| :: refs[i] < 12
      ensures outcome.Returned? ==> outcome.value.0 == Ok && |outcome.value.1| == |refs|
      ensures outcome.Returned? ==> forall i | 0 <= i < |refs| :: outcome.value.1[i] == attrs[Declared[refs[i]]]
      ensures outcome.Threw? ==> outcome.exception == KeyError
    {
      var r := ReadAttributes(attrs, refs);
      if r.Threw? {
        return Threw(r.exception);
      }
      return Returned((Ok, r.value));
    }

    /** `fmi2SerializeFmuState`: OK and the attribute tuple. */
    method Serialize() returns (status: Fmi2Status, image: seq<Value>)
      requires Valid()
      ensures status == Ok && image == Dump(attrs)
    {
      return Ok, Dump(attrs);
    }

    /** `fmi2DeserializeFmuState`. */
    method Deserialize(image: seq<Value>) returns (outcome: Outcome<Fmi2Status>)
      requires Valid()
      modifies this
      ensures Valid() && (outcome, attrs) == Restore(old(attrs), image)
    {
      if |image| != 12 {
        return Threw(ValueError);
      }
      attrs := Load(image);
      return Returned(Ok);
    }
  }
}
