/** The base class the C# FMI 2.0 backend template gives an FMU's author
    (tool/unifmu/resources/backends/csharp/fmi2.cs): a value reference is
    mapped to a property name by `referenceToAttr`, and a name to the
    derived class's public property by reflection through an indexer. The
    typed setters write a pair only when both the value and the property
    have the setter's type; the lifecycle methods the author does not
    override return OK or throw `NotImplementedException`. */
module CsharpFmi2Tool {
  import opened Floats
  import opened Exceptions
  import opened Values
  import opened Batches
  import opened Fmi2Types

  /** The public readable instance properties of the derived class, by
      name. */
  type Properties = map<string, Value>

  /** The indexer's getter: the value of the readable property of that
      name, or `ArgumentException` when there is none. */
  function Indexed(props: Properties, name: string): (r: Outcome<Value>)
    ensures r.Returned? <==> name in props
    ensures r.Threw? ==> r.exception == ArgumentException
  {
    if name in props then Returned(props[name]) else Threw(ArgumentException)
  }

  // ------------------------------------------------------------------ setters

  /** Whether one pair of a typed setter is written: its reference is in
      the table, the name it gives is a readable property, and both the
      value and the property's current value have the setter's type. */
  predicate Writable(table: map<nat, string>, props: Properties, kind: Kind, r: nat, v: Value)
  {
    r in table && table[r] in props && KindOf(v) == kind && KindOf(props[table[r]]) == kind
  }

  /** Whether a typed setter returns OK: every zipped pair is writable and,
      when there are more references than values, the reference after the
      last pair is in the table too, since `Zip` advances the lazily mapped
      references before it finds the values exhausted. */
  predicate Accepted(table: map<nat, string>, props: Properties, kind: Kind, refs: seq<nat>, values: seq<Value>)
  {
    && (forall k | 0 <= k < Min(|refs|, |values|) :: Writable(table, props, kind, refs[k], values[k]))
    && (|refs| > |values| ==> refs[|values|] in table)
  }

  /** The index of the first zipped pair that is not writable, or
      Min(|refs|, |values|) when every pair is. */
  function Unwritable(table: map<nat, string>, props: Properties, kind: Kind, refs: seq<nat>, values: seq<Value>)
    : (j: nat)
    ensures j <= Min(|refs|, |values|)
    ensures forall k | 0 <= k < j :: Writable(table, props, kind, refs[k], values[k])
    ensures j < Min(|refs|, |values|) ==> !Writable(table, props, kind, refs[j], values[j])
    decreases |refs|
  {
    if |refs| == 0 || |values| == 0 || !Writable(table, props, kind, refs[0], values[0]) then 0
    else 1 + Unwritable(table, props, kind, refs[1..], values[1..])
  }

  /** The property names of the first n references. */
  function Names(table: map<nat, string>, refs: seq<nat>, n: nat): (names: seq<string>)
    requires n <= |refs| && forall k | 0 <= k < n :: refs[k] in table
    ensures |names| == n && forall k | 0 <= k < n :: names[k] == table[refs[k]]
  {
    seq(n, k requires 0 <= k < n => table[refs[k]])
  }

  /** `SetReal`, `SetInt`, `SetBool` and `SetString`: the zipped pairs are
      written in order up to the first one that is not writable. That one
      throws `KeyNotFoundException` for a reference missing from the
      table, `ArgumentException` for a name without a readable property,
      and returns Error for a value or property of another type; the
      pairs before it stay written. With every pair written, a reference
      left over after the last value is still looked up. */
  function Assigned(table: map<nat, string>, props: Properties, kind: Kind, refs: seq<nat>, values: seq<Value>)
    : (r: (Outcome<Fmi2Status>, Properties))
  {
    var j := Unwritable(table, props, kind, refs, values);
    var outcome :=
      if j < Min(|refs|, |values|) then
        if refs[j] !in table then Threw(KeyNotFoundException)
        else if table[refs[j]] !in props then Threw(ArgumentException)
        else Returned(Error)
      else if |refs| > |values| && refs[|values|] !in table then Threw(KeyNotFoundException)
      else Returned(Ok);
    (outcome, Store(props, Names(table, refs, j), values[..j]))
  }

  /** A setter returns OK exactly when the batch is accepted, and then
      every zipped pair is written. */
  lemma AssignedOk(table: map<nat, string>, props: Properties, kind: Kind, refs: seq<nat>, values: seq<Value>)
    ensures Assigned(table, props, kind, refs, values).0 == Returned(Ok) <==> Accepted(table, props, kind, refs, values)
    ensures Accepted(table, props, kind, refs, values) ==>
      Unwritable(table, props, kind, refs, values) == Min(|refs|, |values|)
  {
  }

  /** Writing a value of the property's own type keeps every name and
      every property's type. */
  predicate SameTypes(props: Properties, written: Properties)
  {
    written.Keys == props.Keys && forall n | n in props :: KindOf(written[n]) == KindOf(props[n])
  }

  /** A setter changes no property's type and adds no property. */
  lemma AssignedTypes(table: map<nat, string>, props: Properties, kind: Kind, refs: seq<nat>, values: seq<Value>)
    ensures SameTypes(props, Assigned(table, props, kind, refs, values).1)
  {
    StoredTypes(table, props, kind, refs, values, Unwritable(table, props, kind, refs, values));
  }

  /** Every prefix of the written pairs keeps the types. */
  lemma {:induction false} StoredTypes(table: map<nat, string>, props: Properties, kind: Kind,
                                       refs: seq<nat>, values: seq<Value>, i: nat)
    requires i <= Unwritable(table, props, kind, refs, values)
    ensures SameTypes(props, Store(props, Names(table, refs, i), values[..i]))
  {
    if i == 0 {
      assert Names(table, refs, 0) == [] && values[..0] == [];
    } else {
      StoredTypes(table, props, kind, refs, values, i - 1);
      StoreStep(table, props, kind, refs, values, i - 1);
      assert Writable(table, props, kind, refs[i - 1], values[i - 1]);
    }
  }

  /** One more written pair is one more write after the batch so far. */
  lemma StoreStep(table: map<nat, string>, props: Properties, kind: Kind, refs: seq<nat>, values: seq<Value>, i: nat)
    requires i < Unwritable(table, props, kind, refs, values)
    ensures Store(props, Names(table, refs, i + 1), values[..i + 1]) ==
      Store(props, Names(table, refs, i), values[..i])[table[refs[i]] := values[i]]
  {
    assert Writable(table, props, kind, refs[i], values[i]);
    assert Names(table, refs, i + 1) == Names(table, refs, i) + [table[refs[i]]];
    assert values[..i + 1] == values[..i] + [values[i]];
    StoreSnoc(props, Names(table, refs, i), values[..i], table[refs[i]], values[i]);
  }

  /** After an accepted batch a property holds the value of the last pair
      that names it. */
  lemma SetThenRead(table: map<nat, string>, props: Properties, kind: Kind,
                    refs: seq<nat>, values: seq<Value>, i: nat)
    requires Accepted(table, props, kind, refs, values)
    requires i < Min(|refs|, |values|)
    requires forall j | i < j < Min(|refs|, |values|) :: table[refs[j]] != table[refs[i]]
    ensures Assigned(table, props, kind, refs, values).0 == Returned(Ok)
    ensures Indexed(Assigned(table, props, kind, refs, values).1, table[refs[i]]) == Returned(values[i])
  {
    var n := Min(|refs|, |values|);
    AssignedOk(table, props, kind, refs, values);
    StoreLast(props, Names(table, refs, n), values[..n], i);
  }

  /** A pair of another type ahead of the batch returns Error and writes
      nothing. */
  lemma MismatchWritesNothing(table: map<nat, string>, props: Properties, kind: Kind,
                              refs: seq<nat>, values: seq<Value>)
    requires |refs| > 0 && |values| > 0 && refs[0] in table && table[refs[0]] in props
    requires KindOf(props[table[refs[0]]]) != kind
    ensures Assigned(table, props, kind, refs, values) == (Returned(Error), props)
  {
    assert Names(table, refs, 0) == [];
  }

  /** A batch stopped at pair i, which is not writable, is answered as
      that pair's failure with the pairs before it written. */
  lemma StoppedAt(table: map<nat, string>, props: Properties, kind: Kind, refs: seq<nat>, values: seq<Value>, i: nat)
    requires i <= Unwritable(table, props, kind, refs, values) && i < Min(|refs|, |values|)
    requires !Writable(table, props, kind, refs[i], values[i])
    ensures Unwritable(table, props, kind, refs, values) == i
  {
  }

  /** The write loop of the typed setters: pairs are written while their
      reference is in the table, the name it gives is a property and both
      the value and the property have the setter's type. It stops at the
      first pair that fails one of these tests. */
  method WritePrefix(table: map<nat, string>, props: Properties, kind: Kind, refs: seq<nat>, values: seq<Value>)
    returns (i: nat, written: Properties)
    ensures i == Unwritable(table, props, kind, refs, values)
    ensures written == Store(props, Names(table, refs, i), values[..i])
  {
    written := props;
    i := 0;
    assert Names(table, refs, 0) == [] && values[..0] == [];
    StoredTypes(table, props, kind, refs, values, 0);
    while i < |refs| && i < |values| && refs[i] in table && table[refs[i]] in written
          && KindOf(values[i]) == kind && KindOf(written[table[refs[i]]]) == kind
      invariant i <= Unwritable(table, props, kind, refs, values)
      invariant written == Store(props, Names(table, refs, i), values[..i])
      invariant SameTypes(props, written)
    {
      StoreStep(table, props, kind, refs, values, i);
      written := written[table[refs[i]] := values[i]];
      i := i + 1;
      StoredTypes(table, props, kind, refs, values, i);
    }
    if i < |refs| && i < |values| {
      StoppedAt(table, props, kind, refs, values, i);
    }
  }

  /** A typed setter: the write loop, then the answer the pair it stopped
      at gives, in the order the source tests it: the table, the property,
      the types. */
  method WriteProperties(table: map<nat, string>, props: Properties, kind: Kind, refs: seq<nat>, values: seq<Value>)
    returns (outcome: Outcome<Fmi2Status>, written: Properties)
    ensures (outcome, written) == Assigned(table, props, kind, refs, values)
  {
    var i;
    i, written := WritePrefix(table, props, kind, refs, values);
    AssignedTypes(table, props, kind, refs, values);
    if i < |refs| && i < |values| {
      if refs[i] !in table {
        outcome := Threw(KeyNotFoundException);
      } else if table[refs[i]] !in written {
        outcome := Threw(ArgumentException);
      } else {
        outcome := Returned(Error);
      }
    } else if i < |refs| && refs[i] !in table {
      outcome := Threw(KeyNotFoundException);
    } else {
      outcome := Returned(Ok);
    }
  }

  /** Whether a reference can be read as the getter's type. */
  predicate Readable(table: map<nat, string>, props: Properties, kind: Kind, r: nat)
  {
    r in table && table[r] in props && KindOf(props[table[r]]) == kind
  }

  /** `GetReal`, `GetInt`, `GetBool` and `GetString` as written: the
      mapped values are a sequence of `object`, which the cast to a
      sequence of the getter's type refuses before any reference is
      looked up. */
  function GatheredAsWritten(table: map<nat, string>, props: Properties, kind: Kind, refs: seq<nat>)
    : (r: Outcome<seq<Value>>)
    ensures r == Threw(InvalidCastException)
  {
    Threw(InvalidCastException)
  }

  /** The index of the first reference that cannot be read, or |refs|. */
  function Unreadable(table: map<nat, string>, props: Properties, kind: Kind, refs: seq<nat>): (j: nat)
    ensures j <= |refs|
    ensures forall k | 0 <= k < j :: Readable(table, props, kind, refs[k])
    ensures j < |refs| ==> !Readable(table, props, kind, refs[j])
    decreases |refs|
  {
    if |refs| == 0 || !Readable(table, props, kind, refs[0]) then 0
    else 1 + Unreadable(table, props, kind, refs[1..])
  }

  /** What reading a reference that cannot be read throws. */
  function ReadFailure(table: map<nat, string>, props: Properties, r: nat): Exception
  {
    if r !in table then KeyNotFoundException
    else if table[r] !in props then ArgumentException
    else InvalidCastException
  }

  /** The getters as evidently intended: each reference mapped through the
      table and the indexer, and each value taken as the getter's type, in
      reference order. The first reference that cannot be read throws
      `KeyNotFoundException`, `ArgumentException` or
      `InvalidCastException`. */
  function Gathered(table: map<nat, string>, props: Properties, kind: Kind, refs: seq<nat>)
    : (r: Outcome<seq<Value>>)
    ensures r.Returned? <==> Unreadable(table, props, kind, refs) == |refs|
    ensures r.Returned? ==> |r.value| == |refs| && forall i | 0 <= i < |refs| :: r.value[i] == props[table[refs[i]]]
    ensures r.Threw? ==> r.exception == ReadFailure(table, props, refs[Unreadable(table, props, kind, refs)])
    decreases |refs|
  {
    if |refs| == 0 then Returned([])
    else if !Readable(table, props, kind, refs[0]) then Threw(ReadFailure(table, props, refs[0]))
    else match Gathered(table, props, kind, refs[1..])
      case Threw(e) => Threw(e)
      case Returned(rest) => Returned([props[table[refs[0]]]] + rest)
  }

  /** Every getter call the intended getter answers, the written getter
      refuses. */
  lemma GetterCastRefused(table: map<nat, string>, props: Properties, kind: Kind, refs: seq<nat>)
    requires forall i | 0 <= i < |refs| :: Readable(table, props, kind, refs[i])
    ensures Gathered(table, props, kind, refs).Returned?
    ensures GatheredAsWritten(table, props, kind, refs) == Threw(InvalidCastException)
  {
  }

  /** The `real_a` property of the template's adder read at reference 0. */
  lemma AdderRead(x: f64)
    ensures Gathered(map[0 := "real_a"], map["real_a" := Double(x)], DoubleKind, [0]) == Returned([Double(x)])
    ensures GatheredAsWritten(map[0 := "real_a"], map["real_a" := Double(x)], DoubleKind, [0]).Threw?
  {
    var table := map[0 := "real_a"];
    var props := map["real_a" := Double(x)];
    var refs: seq<nat> := [0];
    assert Readable(table, props, DoubleKind, refs[0]);
    assert refs[1..] == [];
    assert Gathered(table, props, DoubleKind, refs[1..]) == Returned([]);
    assert Gathered(table, props, DoubleKind, refs) == Returned([props[table[refs[0]]]] + []);
    assert [props[table[refs[0]]]] + [] == [Double(x)];
  }

  /** The base class, holding the reference table and the derived class's
      properties. */
  class Fmu {
    const referenceToAttr: map<nat, string>
    var properties: Properties

    /** The constructor stores the table; the derived class's constructor
        gives the properties their initial values. */
    constructor(referenceToAttr: map<nat, string>, properties: Properties)
      ensures this.referenceToAttr == referenceToAttr && this.properties == properties
    {
      this.referenceToAttr := referenceToAttr;
      this.properties := properties;
    }

    /** A typed setter. */
    method SetValues(kind: Kind, refs: seq<nat>, values: seq<Value>) returns (outcome: Outcome<Fmi2Status>)
      modifies this
      ensures (outcome, properties) == Assigned(referenceToAttr, old(properties), kind, refs, values)
    {
      outcome, properties := WriteProperties(referenceToAttr, properties, kind, refs, values);
    }

    /** A typed getter as written. */
    method GetValuesAsWritten(kind: Kind, refs: seq<nat>) returns (outcome: Outcome<seq<Value>>)
      ensures outcome == Threw(InvalidCastException)
    {
      return GatheredAsWritten(referenceToAttr, properties, kind, refs);
    }

    /** A typed getter as evidently intended. */
    method GetValues(kind: Kind, refs: seq<nat>) returns (outcome: Outcome<seq<Value>>)
      ensures outcome.Returned? <==> forall i | 0 <= i < |refs| :: Readable(referenceToAttr, properties, kind, refs[i])
      ensures outcome.Returned? ==> |outcome.value| == |refs|
      ensures outcome.Returned? ==> forall i | 0 <= i < |refs| :: outcome.value[i] == properties[referenceToAttr[refs[i]]]
    {
      return Gathered(referenceToAttr, properties, kind, refs);
    }

    /** `SetDebugLogging`, `SetupExperiment`, `EnterInitializationMode`,
        `ExitInitializationMode`, `Terminate`, `Reset` and `DoStep` return
        OK and change nothing until overridden. */
    method Lifecycle() returns (status: Fmi2Status)
      ensures status == Ok
    {
      return Ok;
    }

    /** `Serialize`, `Deserialize`, `SetInputDerivatives`,
        `GetInputDerivatives`, `CancelStep` and `GetXXXStatus` throw until
        overridden. */
    method Unimplemented() returns (outcome: Outcome<Fmi2Status>)
      ensures outcome == Threw(NotImplementedException)
    {
      return Threw(NotImplementedException);
    }
  }
}
