/** The Java FMI 2.0 example model (assets/java/src/fmi2/java/Model.java):
    twelve fields reached by reflection through a list indexed by value
    reference, reset by the constructor, and copied whole from a decoded
    object when a state is restored. */
module JavaFmi2Model {
  import opened Wrappers
  import opened Floats
  import opened BinaryIo
  import opened Exceptions
  import opened Batches
  import opened Values
  import opened Fmi2Types
  import opened Fmi2Example

  /** `references_to_attributes.get(r)`: the field at index r of the list
      of the twelve fields in declaration order; an index past the end
      raises `IndexOutOfBoundsException`. */
  function Target(r: nat): (t: Result<Property, Exception>)
    ensures t.Success? <==> r < 12
  {
    if r < |Declared| then Success(Declared[r]) else Failure(IndexOutOfBoundsException)
  }

  function Targets(refs: seq<nat>): (t: seq<Result<Property, Exception>>)
    ensures |t| == |refs| && forall i | 0 <= i < |refs| :: t[i] == Target(refs[i])
  {
    seq(|refs|, i requires 0 <= i < |refs| => Target(refs[i]))
  }

  /** The references are the field positions: 0..2 the reals, 3..5 the
      integers, 6..8 the booleans and 9..11 the strings. */
  lemma TargetKinds(r: nat)
    requires r < 12
    ensures KindOfProperty(Target(r).value) ==
      if r < 3 then DoubleKind else if r < 6 then IntKind else if r < 9 then BoolKind else StringKind
  {
  }

  /** `SetValue`: the pairs written in order until either sequence ends;
      `Field.set` with a value of another type raises
      `IllegalArgumentException` (the fields are boxed, so nothing is
      widened), and the pairs before it stay written.
      The typed setters then return OK. */
  function SetResult(f: Fields, refs: seq<nat>, values: seq<Value>): (r: (Outcome<Fmi2Status>, Fields))
    ensures r.0.Returned? <==> forall i | 0 <= i < Min(|refs|, |values|) :: Accepts(Target(refs[i]), values[i], Exact)
    ensures r.0.Returned? ==> r.0.value == Ok
    ensures WellFormed(f) && (forall v | v in values :: Representable(v)) ==> WellFormed(r.1)
  {
    var (error, g) := Written(f, Targets(refs), values, IllegalArgumentException, Exact);
    (if error.None? then Returned(Ok) else Threw(error.value), g)
  }

  /** A batch of integers to the integer references 3..5 is written in
      full, and the last value for a reference is the one it holds. */
  lemma SetIntegers(f: Fields, refs: seq<nat>, values: seq<int>, i: nat)
    requires |refs| == |values| && i < |refs|
    requires forall j | 0 <= j < |refs| :: 3 <= refs[j] < 6
    requires forall j | i < j < |refs| :: refs[j] != refs[i]
    ensures var r := SetResult(f, refs, seq(|values|, k requires 0 <= k < |values| => Int(values[k])));
      r.0 == Returned(Ok) && Get(r.1, Declared[refs[i]]) == Int(values[i])
  {
    var vs := seq(|values|, k requires 0 <= k < |values| => Int(values[k]));
    var t := Targets(refs);
    forall j | 0 <= j < |refs| ensures Accepts(t[j], vs[j], Exact) {
      TargetKinds(refs[j]);
    }
    forall j | i < j < |refs| ensures t[j] != t[i] {
      DeclaredOnce(RealA);
    }
    WrittenLast(f, t, vs, IllegalArgumentException, Exact, i);
  }

  class Model {
    /** The floating-point operations of the runtime. */
    const ops: FloatOps
    var fields: Fields

    ghost predicate Valid()
      reads this
    {
      WellFormed(fields)
    }

    /** The constructor builds the field list and calls `fmi2Reset`. */
    constructor(ops: FloatOps)
      ensures Valid() && fields == UpdateOutputs(Defaults(), ops) && this.ops == ops
    {
      this.ops := ops;
      fields := UpdateOutputs(Defaults(), ops);
    }

    /** `fmi2DoStep`: recompute the outputs. */
    method DoStep(currentTime: f64, stepSize: f64, noStepPrior: bool) returns (status: Fmi2Status)
      requires Valid()
      modifies this
      ensures Valid() && fields == UpdateOutputs(old(fields), ops) && status == Ok
    {
      fields := UpdateOutputs(fields, ops);
      return Ok;
    }

    /** `fmi2ExitInitializationMode`: recompute the outputs. */
    method ExitInitializationMode() returns (status: Fmi2Status)
      requires Valid()
      modifies this
      ensures Valid() && fields == UpdateOutputs(old(fields), ops) && status == Ok
    {
      fields := UpdateOutputs(fields, ops);
      return Ok;
    }

    /** `fmi2Reset`: zero the inputs and recompute the outputs, which
        leaves the state the constructor made, whatever came before. */
    method Reset() returns (status: Fmi2Status)
      requires Valid()
      modifies this
      ensures Valid() && fields == AfterReset(old(fields), ops) && status == Ok
      ensures fields == UpdateOutputs(Defaults(), ops)
    {
      ResetForgets(fields, ops);
      fields := AfterReset(fields, ops);
      return Ok;
    }

    /** `fmi2SetupExperiment`, `fmi2EnterInitializationMode`,
        `fmi2Terminate`, `fmi2CancelStep` and `fmi2SetDebugLogging` change
        nothing. */
    method SetupExperiment(startTime: f64, stopTime: Option<f64>, tolerance: Option<f64>) returns (status: Fmi2Status)
      ensures status == Ok
    {
      return Ok;
    }

    method EnterInitializationMode() returns (status: Fmi2Status)
      ensures status == Ok
    {
      return Ok;
    }

    method Terminate() returns (status: Fmi2Status)
      ensures status == Ok
    {
      return Ok;
    }

    method CancelStep() returns (status: Fmi2Status)
      ensures status == Ok
    {
      return Ok;
    }

    method SetDebugLogging(categories: seq<string>, loggingOn: bool) returns (status: Fmi2Status)
      ensures status == Ok
    {
      return Ok;
    }

    /** The four typed setters, through `SetValue`. */
    method SetValues(refs: seq<nat>, values: seq<Value>) returns (outcome: Outcome<Fmi2Status>)
      requires Valid() && forall v | v in values :: Representable(v)
      modifies this
      ensures Valid() && (outcome, fields) == SetResult(old(fields), refs, values)
    {
      var error, written := WriteAll(fields, Targets(refs), values, IllegalArgumentException, Exact);
      fields := written;
      outcome := if error.None? then Returned(Ok) else Threw(error.value);
    }

    /** The four typed getters, through `GetValue`: OK and the fields'
        values in reference order; the unchecked cast lets a field of any
        type through, and a reference past the list raises. */
    method GetValues(refs: seq<nat>) returns (outcome: Outcome<(Fmi2Status, seq<Value>)>)
      ensures outcome.Returned? <==> forall i | 0 <= i < |refs| :: refs[i] < 12
      ensures outcome.Returned? ==> outcome.value.0 == Ok && |outcome.value.1| == |refs|
      ensures outcome.Returned? ==> forall i | 0 <= i < |refs| :: outcome.value.1[i] == Get(fields, Declared[refs[i]])
      ensures outcome.Threw? ==> outcome.exception == IndexOutOfBoundsException
    {
      var r := ReadAll(fields, Targets(refs), None);
      if r.Failure? {
        var j :| 0 <= j < |refs| && Targets(refs)[j].Failure? && r.error == Targets(refs)[j].error;
        return Threw(r.error);
      }
      return Returned((Ok, r.value));
    }

    /** `fmi2SerializeFmuState`: the object's fields, as the serialized
        object carries them. */
    method Serialize() returns (status: Fmi2Status, image: Fields)
      ensures status == Ok && image == fields
    {
      return Ok, fields;
    }

    /** `fmi2DeserializeFmuState`: all twelve fields copied from the
        decoded object. */
    method Deserialize(image: Fields) returns (status: Fmi2Status)
      requires WellFormed(image)
      modifies this
      ensures Valid() && fields == image && status == Ok
    {
      fields := image;
      return Ok;
    }
  }
}
