/** The C# FMI 2.0 example model (assets/csharp/model.cs): twelve
    properties reached through a reference table read at construction, the
    output triples recomputed by a step, and a `BinaryWriter` state image of
    the twelve fields. */
module CsharpFmi2Model {
  import opened Wrappers
  import opened Bytes
  import opened Floats
  import opened BinaryIo
  import opened Exceptions
  import opened Batches
  import opened Values
  import opened CsharpValues
  import opened Fmi2Types
  import opened Fmi2Example

  // ------------------------------------------------------------ reference table

  /** `reference_to_attributes`: each reference of `UNIFMU_REFS_TO_ATTRS`
      with the property of the name it gives, or null when the model has no
      property of that name. */
  function Attributes(refsToAttrs: map<nat, string>): (m: map<nat, Option<Property>>)
    ensures m.Keys == refsToAttrs.Keys
  {
    map r | r in refsToAttrs :: Named(refsToAttrs[r])
  }

  /** A reference names a property exactly when the table's name is that
      property's name. */
  lemma AttributesNamed(refsToAttrs: map<nat, string>, r: nat, p: Property)
    requires r in refsToAttrs
    ensures Attributes(refsToAttrs)[r] == Some(p) <==> Name(p) == refsToAttrs[r]
  {
    NamedName(p, refsToAttrs[r]);
  }

  /** `reference_to_attributes[r]`: a missing key raises
      `KeyNotFoundException`, and using a null property raises
      `NullReferenceException`. */
  function Target(attributes: map<nat, Option<Property>>, r: nat): Result<Property, Exception>
  {
    if r !in attributes then Failure(KeyNotFoundException)
    else if attributes[r].None? then Failure(NullReferenceException)
    else Success(attributes[r].value)
  }

  function Targets(attributes: map<nat, Option<Property>>, refs: seq<nat>): (t: seq<Result<Property, Exception>>)
    ensures |t| == |refs| && forall i | 0 <= i < |refs| :: t[i] == Target(attributes, refs[i])
  {
    seq(|refs|, i requires 0 <= i < |refs| => Target(attributes, refs[i]))
  }

  // ------------------------------------------------------------------ setters

  /** `SetValueReflection`: the zipped pairs written in order; the first
      that cannot be raises (`PropertyInfo.SetValue` raises
      `ArgumentException` for a value that neither has the property's type
      nor widens to it) and the pairs before it stay written; otherwise
      Ok. */
  function SetResult(attributes: map<nat, Option<Property>>, f: Fields, refs: seq<nat>, values: seq<Value>,
                     ops: FloatOps): (r: (Outcome<Fmi2Status>, Fields))
    ensures r.0.Returned? <==> forall i | 0 <= i < Min(|refs|, |values|) ::
      Accepts(Target(attributes, refs[i]), values[i], Widening(ops))
    ensures r.0.Returned? ==> r.0.value == Ok
    ensures WellFormed(f) && (forall v | v in values :: Representable(v)) ==> WellFormed(r.1)
  {
    var (error, g) := Written(f, Targets(attributes, refs), values, ArgumentException, Widening(ops));
    (if error.None? then Returned(Ok) else Threw(error.value), g)
  }

  /** In a batch whose references all name properties the values can be
      assigned to, a property reads back the value the last pair naming it
      assigned (that value itself when it has the property's type), and a
      property no pair names keeps its value. */
  lemma SetThenGet(attributes: map<nat, Option<Property>>, f: Fields, refs: seq<nat>, values: seq<Value>,
                   ops: FloatOps, i: nat, q: Property)
    requires |refs| == |values| && i < |refs|
    requires forall j | 0 <= j < |refs| :: Accepts(Target(attributes, refs[j]), values[j], Widening(ops))
    requires forall j | i < j < |refs| :: Target(attributes, refs[j]) != Target(attributes, refs[i])
    requires forall j | 0 <= j < |refs| :: Target(attributes, refs[j]) != Success(q)
    ensures SetResult(attributes, f, refs, values, ops).0 == Returned(Ok)
    ensures Get(SetResult(attributes, f, refs, values, ops).1, Target(attributes, refs[i]).value)
      == Coerced(Widening(ops), values[i], Target(attributes, refs[i]).value)
    ensures Get(SetResult(attributes, f, refs, values, ops).1, q) == Get(f, q)
  {
    var t := Targets(attributes, refs);
    WrittenLast(f, t, values, ArgumentException, Widening(ops), i);
    WrittenUntouched(f, t, values, ArgumentException, Widening(ops), q);
  }

  /** `Fmi2SetInteger` on a reference to a `double` property stores the
      integer converted to `double` and returns Ok. */
  lemma IntegerWidensToReal(attributes: map<nat, Option<Property>>, f: Fields, r: nat, n: int, ops: FloatOps)
    requires Target(attributes, r).Success? && KindOfProperty(Target(attributes, r).value) == DoubleKind
    ensures SetResult(attributes, f, [r], [Int(n)], ops).0 == Returned(Ok)
    ensures Get(SetResult(attributes, f, [r], [Int(n)], ops).1, Target(attributes, r).value)
      == Double(ops.intToDouble(n))
  {
    SetThenGet(attributes, f, [r], [Int(n)], ops, 0, if Target(attributes, r).value == RealA then RealB else RealA);
  }

  // -------------------------------------------------------------- state image

  /** The `BinaryWriter` bytes of the listed properties, in order. */
  function WriteProperties(f: Fields, ps: seq<Property>): seq<byte>
    requires WellFormed(f)
  {
    if |ps| == 0 then [] else Encode(Get(f, ps[0])) + WriteProperties(f, ps[1..])
  }

  /** `Fmi2ExtSerialize`: the twelve fields in declaration order. */
  function Image(f: Fields): seq<byte>
    requires WellFormed(f)
  {
    WriteProperties(f, Declared)
  }

  /** One property's bytes followed by the rest's. */
  lemma WriteFirst(f: Fields, ps: seq<Property>, k: nat)
    requires WellFormed(f) && k < |ps|
    ensures WriteProperties(f, ps[k..]) == Encode(Get(f, ps[k])) + WriteProperties(f, ps[k + 1..])
  {
    assert ps[k..][0] == ps[k] && ps[k..][1..] == ps[k + 1..];
  }

  /** The layout of the image: three 8-byte doubles, three 4-byte integers,
      three one-byte booleans and three length-prefixed strings. */
  lemma ImageLayout(f: Fields)
    requires WellFormed(f)
    ensures Image(f) ==
      WriteDouble(f.realA) + (WriteDouble(f.realB) + (WriteDouble(f.realC) +
      (WriteInt32(f.integerA) + (WriteInt32(f.integerB) + (WriteInt32(f.integerC) +
      (WriteBoolean(f.booleanA) + (WriteBoolean(f.booleanB) + (WriteBoolean(f.booleanC) +
      (WriteString(f.stringA) + (WriteString(f.stringB) + WriteString(f.stringC)))))))))))
  {
    StringsLayout(f);
    BooleansLayout(f);
    IntegersLayout(f);
    RealsLayout(f);
  }

  /** Three properties' bytes, in order, followed by the rest's. */
  lemma WriteThree(f: Fields, ps: seq<Property>, a: Property, b: Property, c: Property)
    requires WellFormed(f) && |ps| >= 3 && ps[0] == a && ps[1] == b && ps[2] == c
    ensures WriteProperties(f, ps) ==
      Encode(Get(f, a)) + (Encode(Get(f, b)) + (Encode(Get(f, c)) + WriteProperties(f, ps[3..])))
  {
    WriteFirst(f, ps, 2);
    WriteFirst(f, ps, 1);
    WriteFirst(f, ps, 0);
    assert ps[0..] == ps;
  }

  lemma RealsLayout(f: Fields)
    requires WellFormed(f)
    ensures Image(f) ==
      WriteDouble(f.realA) + (WriteDouble(f.realB) + (WriteDouble(f.realC) + WriteProperties(f, Declared[3..])))
  {
    WriteThree(f, Declared, RealA, RealB, RealC);
  }

  lemma IntegersLayout(f: Fields)
    requires WellFormed(f)
    ensures WriteProperties(f, Declared[3..]) ==
      WriteInt32(f.integerA) + (WriteInt32(f.integerB) + (WriteInt32(f.integerC) + WriteProperties(f, Declared[6..])))
  {
    WriteThree(f, Declared[3..], IntegerA, IntegerB, IntegerC);
    assert Declared[3..][3..] == Declared[6..];
  }

  lemma BooleansLayout(f: Fields)
    requires WellFormed(f)
    ensures WriteProperties(f, Declared[6..]) ==
      WriteBoolean(f.booleanA) + (WriteBoolean(f.booleanB) + (WriteBoolean(f.booleanC) + WriteProperties(f, Declared[9..])))
  {
    WriteThree(f, Declared[6..], BooleanA, BooleanB, BooleanC);
    assert Declared[6..][3..] == Declared[9..];
  }

  lemma StringsLayout(f: Fields)
    requires WellFormed(f)
    ensures WriteProperties(f, Declared[9..]) == WriteString(f.stringA) + (WriteString(f.stringB) + WriteString(f.stringC))
  {
    var ps := Declared[9..];
    assert ps == [StringA, StringB, StringC];
    WriteThree(f, ps, StringA, StringB, StringC);
    assert ps[3..] == [];
    assert WriteProperties(f, []) == [];
    assert Encode(Get(f, StringC)) + [] == WriteString(f.stringC);
  }

  /** The `BinaryReader` calls of the listed properties, in order, each
      assigning its field; the first read that runs out of bytes raises and
      the fields already assigned keep their new values. */
  function ReadProperties(f: Fields, ps: seq<Property>, bs: seq<byte>): (r: (Option<Exception>, Fields))
    ensures r.0.Some? ==> r.0.value == EndOfStreamException
    ensures WellFormed(f) ==> WellFormed(r.1)
    decreases |ps|
  {
    if |ps| == 0 then (None, f)
    else
      match Decode(KindOfProperty(ps[0]), bs)
      case Failure(_) => (Some(EndOfStreamException), f)
      case Success((v, rest)) =>
        PutGet(f, ps[0], v, ps[0]);
        ReadProperties(Put(f, ps[0], v), ps[1..], rest)
  }

  /** Fields whose image `BinaryWriter` writes without raising: each
      string's UTF-8 byte count is an `int`. */
  predicate ImageWritable(f: Fields)
  {
    Writable(f.stringA) && Writable(f.stringB) && Writable(f.stringC)
  }

  /** Reading back what was written assigns the written properties their
      values and leaves the others alone. */
  lemma {:induction false} ReadWritten(f: Fields, g: Fields, ps: seq<Property>, rest: seq<byte>, q: Property)
    requires WellFormed(g) && ImageWritable(g)
    ensures ReadProperties(f, ps, WriteProperties(g, ps) + rest).0.None?
    ensures Get(ReadProperties(f, ps, WriteProperties(g, ps) + rest).1, q) == if q in ps then Get(g, q) else Get(f, q)
    decreases |ps|
  {
    if |ps| > 0 {
      var v := Get(g, ps[0]);
      var tail := WriteProperties(g, ps[1..]) + rest;
      assert WriteProperties(g, ps) + rest == Encode(v) + tail;
      ValueRoundTrip(v, tail);
      var f' := Put(f, ps[0], v);
      assert ReadProperties(f, ps, WriteProperties(g, ps) + rest) == ReadProperties(f', ps[1..], tail);
      ReadWritten(f', g, ps[1..], rest, q);
      PutGet(f, ps[0], v, q);
      assert q in ps <==> q == ps[0] || q in ps[1..];
    }
  }

  /** `Fmi2ExtDeserialize`: Ok once all twelve reads succeed, bytes after
      the twelfth being ignored. */
  function Restored(f: Fields, state: seq<byte>): (r: (Outcome<Fmi2Status>, Fields))
    ensures r.0.Returned? ==> r.0.value == Ok
    ensures r.0.Threw? ==> r.0.exception == EndOfStreamException
    ensures WellFormed(f) ==> WellFormed(r.1)
  {
    var (error, g) := ReadProperties(f, Declared, state);
    (if error.None? then Returned(Ok) else Threw(EndOfStreamException), g)
  }

  /** Restoring a saved image, followed by any bytes, gives back the saved
      fields whatever the fields were before. */
  lemma SaveRestore(f: Fields, g: Fields, rest: seq<byte>)
    requires WellFormed(g) && ImageWritable(g)
    ensures Restored(f, Image(g) + rest) == (Returned(Ok), g)
  {
    var r := ReadProperties(f, Declared, Image(g) + rest);
    forall q ensures Get(r.1, q) == Get(g, q) {
      DeclaredOnce(q);
      ReadWritten(f, g, Declared, rest, q);
    }
    ReadWritten(f, g, Declared, rest, RealA);
    SameFields(r.1, g);
  }

  /** An image that ends inside the second double has assigned `real_a`
      before `ReadDouble` raises. */
  lemma TruncatedImage(f: Fields, x: f64, tail: seq<byte>)
    requires |tail| < 8
    ensures Restored(f, WriteDouble(x) + tail) == (Threw(EndOfStreamException), f.(realA := x))
  {
    DoubleRoundTrip(x, tail);
    assert Declared[1..][0] == RealB;
    assert ReadProperties(f, Declared, WriteDouble(x) + tail) == ReadProperties(f.(realA := x), Declared[1..], tail);
  }

  // -------------------------------------------------------------------- model

  class Model {
    /** The floating-point operations of the runtime. */
    const ops: FloatOps
    const attributes: map<nat, Option<Property>>
    var fields: Fields

    ghost predicate Valid()
      reads this
    {
      WellFormed(fields)
    }

    /** The table is built from `UNIFMU_REFS_TO_ATTRS`; every property has
        its initialiser's value. */
    constructor(refsToAttrs: map<nat, string>, ops: FloatOps)
      ensures Valid() && fields == Defaults()
      ensures attributes == Attributes(refsToAttrs) && this.ops == ops
    {
      this.ops := ops;
      attributes := Attributes(refsToAttrs);
      fields := Defaults();
    }

    /** `Fmi2DoStep`: recompute the outputs. */
    method DoStep(currentTime: f64, stepSize: f64, noStepPrior: bool) returns (status: Fmi2Status)
      requires Valid()
      modifies this
      ensures Valid() && fields == UpdateOutputs(old(fields), ops) && status == Ok
    {
      fields := UpdateOutputs(fields, ops);
      return Ok;
    }

    /** `Fmi2ExitInitializationMode`: recompute the outputs. */
    method ExitInitializationMode() returns (status: Fmi2Status)
      requires Valid()
      modifies this
      ensures Valid() && fields == UpdateOutputs(old(fields), ops) && status == Ok
    {
      fields := UpdateOutputs(fields, ops);
      return Ok;
    }

    /** `Fmi2SetupExperiment`, `Fmi2EnterInitializationMode`,
        `Fmi2CancelStep` and `Fmi2Terminate` change nothing. */
    method SetupExperiment(startTime: f64, stopTime: Option<f64>, tolerance: Option<f64>) returns (status: Fmi2Status)
      ensures status == Ok
    {
      return Ok;
    }

    method EnterInitializationMode() returns (status: Fmi2Status)
      ensures status == Ok
    {
      return Ok;
    }

    method CancelStep() returns (status: Fmi2Status)
      ensures status == Ok
    {
      return Ok;
    }

    method Terminate() returns (status: Fmi2Status)
      ensures status == Ok
    {
      return Ok;
    }

    /** `Fmi2Reset` returns Ok and leaves every property as it is. */
    method Reset() returns (status: Fmi2Status)
      ensures status == Ok
    {
      return Ok;
    }

    /** The four typed setters, through `SetValueReflection`. */
    method SetValues(refs: seq<nat>, values: seq<Value>) returns (outcome: Outcome<Fmi2Status>)
      requires Valid() && forall v | v in values :: Representable(v)
      modifies this
      ensures Valid() && (outcome, fields) == SetResult(attributes, old(fields), refs, values, ops)
    {
      var error, written := WriteAll(fields, Targets(attributes, refs), values, ArgumentException, Widening(ops));
      fields := written;
      outcome := if error.None? then Returned(Ok) else Threw(error.value);
    }

    /** The four typed getters, through `GetValueReflection<T>`: Ok and the
        values in reference order when every reference names a property of
        type `kind`; otherwise the first that does not raises, a property
        of another type failing the cast with `InvalidCastException`. */
    method GetValues(kind: Kind, refs: seq<nat>) returns (outcome: Outcome<(Fmi2Status, seq<Value>)>)
      ensures outcome.Returned? <==> forall i | 0 <= i < |refs| ::
        Target(attributes, refs[i]).Success? && KindOfProperty(Target(attributes, refs[i]).value) == kind
      ensures outcome.Returned? ==> outcome.value.0 == Ok && |outcome.value.1| == |refs|
      ensures outcome.Returned? ==> forall i | 0 <= i < |refs| ::
        outcome.value.1[i] == Get(fields, Target(attributes, refs[i]).value)
      ensures outcome.Threw? ==> exists j | 0 <= j < |refs| ::
        && (forall i | 0 <= i < j ::
              Target(attributes, refs[i]).Success? && KindOfProperty(Target(attributes, refs[i]).value) == kind)
        && !(Target(attributes, refs[j]).Success? && KindOfProperty(Target(attributes, refs[j]).value) == kind)
        && outcome.exception == (if Target(attributes, refs[j]).Failure? then Target(attributes, refs[j]).error
                                 else InvalidCastException)
    {
      var t := Targets(attributes, refs);
      var r := ReadAll(fields, t, Some(kind));
      outcome := if r.Success? then Returned((Ok, r.value)) else Threw(r.error);
    }

    /** `Fmi2ExtSerialize`. */
    method Serialize() returns (status: Fmi2Status, image: seq<byte>)
      requires Valid()
      ensures status == Ok && image == Image(fields)
    {
      return Ok, Image(fields);
    }

    /** `Fmi2ExtDeserialize`. */
    method Deserialize(state: seq<byte>) returns (outcome: Outcome<Fmi2Status>)
      requires Valid()
      modifies this
      ensures Valid() && (outcome, fields) == Restored(old(fields), state)
    {
      var r := Restored(fields, state);
      outcome, fields := r.0, r.1;
    }
  }
}
