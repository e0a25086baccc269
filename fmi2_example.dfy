/** What the three FMI 2.0 example models share (assets/csharp/model.cs,
    assets/java/src/fmi2/java/Model.java, assets/python/fmi2/model.py):
    twelve properties, a real, an integer, a boolean and a string triple
    whose c is computed from its a and b, and the reflection setters and
    getters that reach them through a value reference. */
module Fmi2Example {
  import opened Wrappers
  import opened Floats
  import opened BinaryIo
  import opened Exceptions
  import opened Batches
  import opened Values
  import opened CsharpValues
  import opened Outputs

  // --------------------------------------------------------------- properties

  datatype Property =
    | RealA | RealB | RealC | IntegerA | IntegerB | IntegerC
    | BooleanA | BooleanB | BooleanC | StringA | StringB | StringC

  /** The declaration order: the order of the C# state image, of the Java
      field list and of the Python reference table, whose indices are the
      value references 0..11. */
  const Declared: seq<Property> :=
    [RealA, RealB, RealC, IntegerA, IntegerB, IntegerC,
     BooleanA, BooleanB, BooleanC, StringA, StringB, StringC]

  /** Every property is declared exactly once. */
  lemma DeclaredOnce(p: Property)
    ensures p in Declared
    ensures forall i, j | 0 <= i < j < |Declared| :: Declared[i] != Declared[j]
  {
    match p
    case RealA => assert Declared[0] == p;
    case RealB => assert Declared[1] == p;
    case RealC => assert Declared[2] == p;
    case IntegerA => assert Declared[3] == p;
    case IntegerB => assert Declared[4] == p;
    case IntegerC => assert Declared[5] == p;
    case BooleanA => assert Declared[6] == p;
    case BooleanB => assert Declared[7] == p;
    case BooleanC => assert Declared[8] == p;
    case StringA => assert Declared[9] == p;
    case StringB => assert Declared[10] == p;
    case StringC => assert Declared[11] == p;
  }

  /** The property's name in the source. */
  function Name(p: Property): string
  {
    match p
    case RealA => "real_a"
    case RealB => "real_b"
    case RealC => "real_c"
    case IntegerA => "integer_a"
    case IntegerB => "integer_b"
    case IntegerC => "integer_c"
    case BooleanA => "boolean_a"
    case BooleanB => "boolean_b"
    case BooleanC => "boolean_c"
    case StringA => "string_a"
    case StringB => "string_b"
    case StringC => "string_c"
  }

  /** The first of ps with the name, if any. */
  function Find(ps: seq<Property>, name: string): (r: Option<Property>)
    ensures r.Some? ==> r.value in ps && Name(r.value) == name
    ensures r.None? ==> forall p | p in ps :: Name(p) != name
  {
    if |ps| == 0 then None
    else if Name(ps[0]) == name then Some(ps[0])
    else Find(ps[1..], name)
  }

  /** `GetType().GetProperty(name)`: the property of that name, or null. */
  function Named(name: string): Option<Property>
  {
    Find(Declared, name)
  }

  /** No two properties share a name: the first letter tells the triple
      and the last letter the member of it. */
  lemma NameInjective(p: Property, q: Property)
    requires Name(p) == Name(q)
    ensures p == q
  {
    assert Name(p)[0] == Name(q)[0];
    assert Name(p)[|Name(p)| - 1] == Name(q)[|Name(q)| - 1];
  }

  /** A property is found by its own name, and a name finds only the
      property that has it. */
  lemma NamedName(p: Property, name: string)
    ensures Named(Name(p)) == Some(p)
    ensures Named(name) == Some(p) <==> Name(p) == name
  {
    DeclaredOnce(p);
    NameInjective(p, Named(Name(p)).value);
  }

  /** The C# type of the property (Java's boxed type of the same width). */
  function KindOfProperty(p: Property): Kind
  {
    match p
    case RealA | RealB | RealC => DoubleKind
    case IntegerA | IntegerB | IntegerC => IntKind
    case BooleanA | BooleanB | BooleanC => BoolKind
    case StringA | StringB | StringC => StringKind
  }

  // -------------------------------------------------------------------- fields

  /** The twelve fields of a statically typed model. */
  datatype Fields = Fields(
    realA: f64, realB: f64, realC: f64,
    integerA: int, integerB: int, integerC: int,
    booleanA: bool, booleanB: bool, booleanC: bool,
    stringA: string, stringB: string, stringC: string)

  /** The integers are 32-bit. */
  predicate WellFormed(f: Fields)
  {
    IsInt32(f.integerA) && IsInt32(f.integerB) && IsInt32(f.integerC)
  }

  /** `PropertyInfo.GetValue` / `Field.get`: the property's value. */
  function Get(f: Fields, p: Property): (v: Value)
    ensures KindOf(v) == KindOfProperty(p)
    ensures WellFormed(f) ==> Representable(v)
  {
    match p
    case RealA => Double(f.realA)
    case RealB => Double(f.realB)
    case RealC => Double(f.realC)
    case IntegerA => Int(f.integerA)
    case IntegerB => Int(f.integerB)
    case IntegerC => Int(f.integerC)
    case BooleanA => Boolean(f.booleanA)
    case BooleanB => Boolean(f.booleanB)
    case BooleanC => Boolean(f.booleanC)
    case StringA => Text(f.stringA)
    case StringB => Text(f.stringB)
    case StringC => Text(f.stringC)
  }

  /** `PropertyInfo.SetValue` / `Field.set` with a value of the property's
      own type. */
  function Put(f: Fields, p: Property, v: Value): (r: Fields)
    requires KindOf(v) == KindOfProperty(p)
  {
    match p
    case RealA => f.(realA := v.d)
    case RealB => f.(realB := v.d)
    case RealC => f.(realC := v.d)
    case IntegerA => f.(integerA := v.i)
    case IntegerB => f.(integerB := v.i)
    case IntegerC => f.(integerC := v.i)
    case BooleanA => f.(booleanA := v.b)
    case BooleanB => f.(booleanB := v.b)
    case BooleanC => f.(booleanC := v.b)
    case StringA => f.(stringA := v.s)
    case StringB => f.(stringB := v.s)
    case StringC => f.(stringC := v.s)
  }

  /** A written property reads back the value, the others are unchanged,
      and a representable value keeps the fields well formed. */
  lemma PutGet(f: Fields, p: Property, v: Value, q: Property)
    requires KindOf(v) == KindOfProperty(p)
    ensures Get(Put(f, p, v), q) == if q == p then v else Get(f, q)
    ensures WellFormed(f) && Representable(v) ==> WellFormed(Put(f, p, v))
  {
  }

  /** Two field sets that agree on every property are equal. */
  lemma SameFields(f: Fields, g: Fields)
    requires forall p :: Get(f, p) == Get(g, p)
    ensures f == g
  {
    assert f.realA == g.realA by { assert Get(f, RealA) == Get(g, RealA); }
    assert f.realB == g.realB by { assert Get(f, RealB) == Get(g, RealB); }
    assert f.realC == g.realC by { assert Get(f, RealC) == Get(g, RealC); }
    assert f.integerA == g.integerA by { assert Get(f, IntegerA) == Get(g, IntegerA); }
    assert f.integerB == g.integerB by { assert Get(f, IntegerB) == Get(g, IntegerB); }
    assert f.integerC == g.integerC by { assert Get(f, IntegerC) == Get(g, IntegerC); }
    assert f.booleanA == g.booleanA by { assert Get(f, BooleanA) == Get(g, BooleanA); }
    assert f.booleanB == g.booleanB by { assert Get(f, BooleanB) == Get(g, BooleanB); }
    assert f.booleanC == g.booleanC by { assert Get(f, BooleanC) == Get(g, BooleanC); }
    assert f.stringA == g.stringA by { assert Get(f, StringA) == Get(g, StringA); }
    assert f.stringB == g.stringB by { assert Get(f, StringB) == Get(g, StringB); }
    assert f.stringC == g.stringC by { assert Get(f, StringC) == Get(g, StringC); }
  }

  /** The initialisers: zero, false and the empty string. */
  function Defaults(): (f: Fields)
    ensures WellFormed(f)
  {
    Fields(0, 0, 0, 0, 0, 0, false, false, false, "", "", "")
  }

  // ------------------------------------------------------------------ outputs

  /** The c of each triple that `UpdateOutputs` / `update_outputs` assigns. */
  predicate IsOutput(p: Property)
  {
    p == RealC || p == IntegerC || p == BooleanC || p == StringC
  }

  /** The a and b a triple's c is computed from. */
  function Operands(p: Property): (Property, Property)
    requires IsOutput(p)
  {
    match p
    case RealC => (RealA, RealB)
    case IntegerC => (IntegerA, IntegerB)
    case BooleanC => (BooleanA, BooleanB)
    case StringC => (StringA, StringB)
  }

  /** `UpdateOutputs`: the double sum, the 32-bit integer sum (unchecked in
      C#, `int` arithmetic in Java), the disjunction and the concatenation. */
  function UpdateOutputs(f: Fields, ops: FloatOps): (r: Fields)
    requires WellFormed(f)
    ensures WellFormed(r)
  {
    f.(realC := ops.addDouble(f.realA, f.realB),
       integerC := AddInt(f.integerA, f.integerB),
       booleanC := f.booleanA || f.booleanB,
       stringC := f.stringA + f.stringB)
  }

  /** Afterwards each c is its triple's a and b combined as the FMI 3.0
      models combine a triple, and every a and b is unchanged. */
  lemma UpdateOutputsValues(f: Fields, ops: FloatOps, p: Property)
    requires WellFormed(f)
    ensures !IsOutput(p) ==> Get(UpdateOutputs(f, ops), p) == Get(f, p)
    ensures IsOutput(p) ==>
      Get(UpdateOutputs(f, ops), p) == Combine(Get(f, Operands(p).0), Get(f, Operands(p).1), ops)
  {
  }

  /** Recomputing the outputs twice gives what recomputing once gives. */
  lemma UpdateOutputsIdempotent(f: Fields, ops: FloatOps)
    requires WellFormed(f)
    ensures UpdateOutputs(UpdateOutputs(f, ops), ops) == UpdateOutputs(f, ops)
  {
  }

  /** The inputs `fmi2Reset` zeroes in the Java and Python models, the
      outputs then being recomputed. */
  function AfterReset(f: Fields, ops: FloatOps): (r: Fields)
    requires WellFormed(f)
  {
    UpdateOutputs(Defaults().(realC := f.realC, integerC := f.integerC, booleanC := f.booleanC,
                              stringC := f.stringC), ops)
  }

  /** The state after a reset does not depend on the state before it: it is
      the defaults with the outputs recomputed. */
  lemma ResetForgets(f: Fields, ops: FloatOps)
    requires WellFormed(f)
    ensures AfterReset(f, ops) == UpdateOutputs(Defaults(), ops)
  {
  }

  /** The main of assets/python/fmi2/model.py on the typed models: with
      a = 1, b = 2, true/false and "Hello "/"World!", a step gives 3, true
      and "Hello World!", and the real c is the double sum of 1.0 and 2.0. */
  lemma HelloWorld(f: Fields, ops: FloatOps, one: f64, two: f64)
    requires WellFormed(f)
    ensures var g := UpdateOutputs(f.(realA := one, realB := two, integerA := 1, integerB := 2,
                                      booleanA := true, booleanB := false,
                                      stringA := "Hello ", stringB := "World!"), ops);
      g.realC == ops.addDouble(one, two) && g.integerC == 3 && g.booleanC && g.stringC == "Hello World!"
  {
    assert "Hello " + "World!" == "Hello World!";
  }

  // -------------------------------------------------------- reflection batches

  /** How a reflection setter treats a value whose type is not the
      property's: `Field.set` on the Java models' boxed fields refuses it,
      while `PropertyInfo.SetValue` in the C# model widens a primitive with
      the runtime's conversions. */
  datatype Coercion = Exact | Widening(ops: FloatOps)

  /** The setter can assign v to p. */
  predicate Converts(c: Coercion, v: Value, p: Property)
  {
    KindOf(v) == KindOfProperty(p) || (c.Widening? && Widens(KindOf(v), KindOfProperty(p)))
  }

  /** What p holds after the setter assigns it v. */
  function Coerced(c: Coercion, v: Value, p: Property): (w: Value)
    requires Converts(c, v, p)
    ensures KindOf(w) == KindOfProperty(p)
    ensures KindOf(v) == KindOfProperty(p) ==> w == v
    ensures Representable(v) ==> Representable(w)
  {
    if KindOf(v) == KindOfProperty(p) then v else Assign(v, KindOfProperty(p), c.ops)
  }

  /** Whether a pair of a batch can be written: its reference resolved to a
      property the value can be assigned to. */
  predicate Accepts(target: Result<Property, Exception>, v: Value, c: Coercion)
  {
    target.Success? && Converts(c, v, target.value)
  }

  /** A reflection setter over resolved references: the zipped pairs are
      written in order until one cannot be, which raises its resolution
      error or, for a value that cannot be assigned, `mismatch`; the pairs
      before it stay written. */
  function Written(f: Fields, targets: seq<Result<Property, Exception>>, values: seq<Value>,
                   mismatch: Exception, c: Coercion): (r: (Option<Exception>, Fields))
    ensures r.0.None? <==> forall i | 0 <= i < Min(|targets|, |values|) :: Accepts(targets[i], values[i], c)
    ensures WellFormed(f) && (forall v | v in values :: Representable(v)) ==> WellFormed(r.1)
    decreases |targets|
  {
    if |targets| == 0 || |values| == 0 then (None, f)
    else match targets[0]
      case Failure(e) => (Some(e), f)
      case Success(p) =>
        if !Converts(c, values[0], p) then (Some(mismatch), f)
        else
          var w := Coerced(c, values[0], p);
          PutGet(f, p, w, p);
          var r := Written(Put(f, p, w), targets[1..], values[1..], mismatch, c);
          assert values[0] in values;
          assert forall v | v in values[1..] :: v in values;
          assert forall i | 0 < i < Min(|targets|, |values|) ::
            Accepts(targets[i], values[i], c) == Accepts(targets[1..][i - 1], values[1..][i - 1], c);
          r
  }

  /** A property no written pair names keeps its value. */
  lemma {:induction false} WrittenUntouched(f: Fields, targets: seq<Result<Property, Exception>>,
                                            values: seq<Value>, mismatch: Exception, c: Coercion, p: Property)
    requires forall i | 0 <= i < |targets| :: targets[i] != Success(p)
    ensures Get(Written(f, targets, values, mismatch, c).1, p) == Get(f, p)
    decreases |targets|
  {
    if |targets| > 0 && |values| > 0 && Accepts(targets[0], values[0], c) {
      var w := Coerced(c, values[0], targets[0].value);
      PutGet(f, targets[0].value, w, p);
      WrittenUntouched(Put(f, targets[0].value, w), targets[1..], values[1..], mismatch, c, p);
    }
  }

  /** In a batch that is written in full, a property reads back the value
      the last pair that names it assigned: that pair's value itself when
      it has the property's type. */
  lemma {:induction false} WrittenLast(f: Fields, targets: seq<Result<Property, Exception>>,
                                       values: seq<Value>, mismatch: Exception, c: Coercion, i: nat)
    requires Written(f, targets, values, mismatch, c).0.None?
    requires i < Min(|targets|, |values|)
    requires forall j | i < j < |targets| :: targets[j] != targets[i]
    ensures Accepts(targets[i], values[i], c)
    ensures Get(Written(f, targets, values, mismatch, c).1, targets[i].value) == Coerced(c, values[i], targets[i].value)
    decreases |targets|
  {
    var w := Coerced(c, values[0], targets[0].value);
    var rest := Written(Put(f, targets[0].value, w), targets[1..], values[1..], mismatch, c);
    assert Written(f, targets, values, mismatch, c) == rest;
    if i == 0 {
      PutGet(f, targets[0].value, w, targets[0].value);
      WrittenUntouched(Put(f, targets[0].value, w), targets[1..], values[1..], mismatch, c, targets[0].value);
    } else {
      WrittenLast(Put(f, targets[0].value, w), targets[1..], values[1..], mismatch, c, i - 1);
    }
  }

  /** A pair that cannot be written ahead of the others leaves every field
      as it was. */
  lemma FirstRefused(f: Fields, targets: seq<Result<Property, Exception>>, values: seq<Value>,
                     mismatch: Exception, c: Coercion)
    requires |targets| > 0 && |values| > 0 && !Accepts(targets[0], values[0], c)
    ensures Written(f, targets, values, mismatch, c) ==
      (Some(if targets[0].Failure? then targets[0].error else mismatch), f)
  {
  }

  /** The write loop of the reflection setters. */
  method WriteAll(f: Fields, targets: seq<Result<Property, Exception>>, values: seq<Value>,
                  mismatch: Exception, c: Coercion) returns (error: Option<Exception>, written: Fields)
    ensures (error, written) == Written(f, targets, values, mismatch, c)
  {
    written := f;
    var i := 0;
    while i < |targets| && i < |values|
      invariant i <= |targets| && i <= |values|
      invariant Written(f, targets, values, mismatch, c) == Written(written, targets[i..], values[i..], mismatch, c)
    {
      assert targets[i..][1..] == targets[i + 1..] && values[i..][1..] == values[i + 1..];
      if targets[i].Failure? {
        return Some(targets[i].error), written;
      }
      var p := targets[i].value;
      if !Converts(c, values[i], p) {
        return Some(mismatch), written;
      }
      written := Put(written, p, Coerced(c, values[i], p));
      i := i + 1;
    }
    return None, written;
  }

  /** The read loop of the reflection getters: the values in reference
      order; the first reference that does not resolve raises its error,
      and with a `cast` the first property of another type raises
      `InvalidCastException`. */
  method ReadAll(f: Fields, targets: seq<Result<Property, Exception>>, cast: Option<Kind>)
    returns (r: Result<seq<Value>, Exception>)
    ensures r.Success? <==> forall i | 0 <= i < |targets| ::
      targets[i].Success? && (cast.Some? ==> KindOfProperty(targets[i].value) == cast.value)
    ensures r.Success? ==> |r.value| == |targets|
    ensures r.Success? ==> forall i | 0 <= i < |targets| :: r.value[i] == Get(f, targets[i].value)
    ensures r.Failure? ==> exists j | 0 <= j < |targets| ::
      && (forall i | 0 <= i < j :: targets[i].Success? && (cast.Some? ==> KindOfProperty(targets[i].value) == cast.value))
      && !(targets[j].Success? && (cast.Some? ==> KindOfProperty(targets[j].value) == cast.value))
      && r.error == (if targets[j].Failure? then targets[j].error else InvalidCastException)
  {
    var values: seq<Value> := [];
    var i := 0;
    while i < |targets|
      invariant i <= |targets| && |values| == i
      invariant forall k | 0 <= k < i ::
        && targets[k].Success?
        && (cast.Some? ==> KindOfProperty(targets[k].value) == cast.value)
        && values[k] == Get(f, targets[k].value)
    {
      if targets[i].Failure? {
        return Failure(targets[i].error);
      }
      var p := targets[i].value;
      if cast.Some? && KindOfProperty(p) != cast.value {
        return Failure(InvalidCastException);
      }
      values := values + [Get(f, p)];
      i := i + 1;
    }
    return Success(values);
  }
}
