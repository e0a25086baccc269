/** The C# FMI 3.0 example model (assets/csharp/fmi3/model.cs): a registry of
    typed properties addressed by value reference and split into regular,
    clocked, tunable and structural groups; a mode field changed by the
    Enter/Exit operations; setters that check every reference against the
    mode before writing anything; and a byte-exact state image. */
module CsharpFmi3Model {
  import opened Wrappers
  import opened Bytes
  import opened Floats
  import opened Arith
  import opened Narrowing
  import opened BinaryIo
  import opened Fractions
  import opened Exceptions
  import opened Batches
  import opened Values
  import opened CsharpValues
  import opened Outputs
  import opened Fmi3Example
  import opened Fmi3Types

  // ----------------------------------------------------------------- registry

  /** `reference_to_attributes`: the a/b/c triples, 0..38. */
  predicate IsRegular(r: nat) { r <= 38 }

  /** `clocked_variables`: clock_a..c and clocked_variable_a..c. */
  predicate IsClocked(r: nat) { 1001 <= r <= 1003 || 1100 <= r <= 1102 }

  /** `tunable_parameters`, 113 being `uint64_tunable_structural_parameter`. */
  predicate IsTunable(r: nat) { 100 <= r <= 113 }

  /** `tunable_structural_parameters`: the float32 vector. */
  predicate IsStructural(r: nat) { r == 114 }

  /** `all_parameters`: the structural and tunable parameters (the
      `parameters` group is empty). */
  predicate IsParameter(r: nat) { IsStructural(r) || IsTunable(r) }

  /** The C# types of the a/b/c triples, in reference order, which the
      tunable parameters 100..112 repeat. */
  function TypeOrder(i: nat): Kind
    requires i < 13
  {
    [SingleKind, DoubleKind, IntKind, UIntKind, IntKind, UIntKind, IntKind,
     UIntKind, LongKind, ULongKind, BoolKind, StringKind, BytesKind][i]
  }

  /** The C# type of the property a reference names in `all_references`;
      int8/int16 are `int` and uint8/uint16 are `uint` properties. */
  function PropertyKind(r: nat): Option<Kind>
  {
    if IsRegular(r) then Some(TypeOrder(r / 3))
    else if 100 <= r <= 112 then Some(TypeOrder(r - 100))
    else if r == 113 then Some(ULongKind)
    else if r == 114 then Some(SinglesKind)
    else if 1001 <= r <= 1003 then Some(BoolKind)
    else if 1100 <= r <= 1102 then Some(IntKind)
    else None
  }

  /** `all_references`. */
  predicate IsReference(r: nat) { PropertyKind(r).Some? }

  /** `all_references` is the union of four disjoint groups. */
  lemma RegistryGroups(r: nat)
    ensures IsReference(r) <==> IsRegular(r) || IsClocked(r) || IsTunable(r) || IsStructural(r)
    ensures !(IsRegular(r) && IsClocked(r)) && !(IsRegular(r) && IsTunable(r))
    ensures !(IsRegular(r) && IsStructural(r)) && !(IsClocked(r) && IsTunable(r))
    ensures !(IsClocked(r) && IsStructural(r)) && !(IsTunable(r) && IsStructural(r))
  {
  }

  /** lo, lo + 1, ..., hi - 1. */
  function Range(lo: nat, hi: nat): (s: seq<nat>)
    requires lo <= hi
    ensures |s| == hi - lo && forall i | 0 <= i < |s| :: s[i] == lo + i
  {
    seq(hi - lo, i requires 0 <= i < hi - lo => lo + i)
  }

  /** `all_references.OrderBy(e => e.Key)`: the order of the state image. */
  function Layout(): seq<nat>
  {
    Range(0, 39) + Range(100, 115) + Range(1001, 1004) + Range(1100, 1103)
  }

  /** The state image lists every reference, each once, in ascending order. */
  lemma LayoutOrdered()
    ensures forall r: nat :: r in Layout() <==> IsReference(r)
    ensures forall i, j | 0 <= i < j < |Layout()| :: Layout()[i] < Layout()[j]
  {
    var a, b, c, d := Range(0, 39), Range(100, 115), Range(1001, 1004), Range(1100, 1103);
    assert Layout() == a + b + c + d;
    forall r: nat ensures r in Layout() <==> IsReference(r) {
      if r < 39 { assert a[r] == r; }
      else if 100 <= r < 115 { assert b[r - 100] == r; }
      else if 1001 <= r < 1004 { assert c[r - 1001] == r; }
      else if 1100 <= r < 1103 { assert d[r - 1100] == r; }
    }
  }

  // -------------------------------------------------------------- properties

  /** The properties' values by reference. */
  type Slots = map<nat, Value>

  /** A value a property can hold: of the property's C# type. */
  predicate Fits(r: nat, v: Value)
  {
    PropertyKind(r) == Some(KindOf(v)) && Representable(v)
  }

  /** Every reference has a value of its property's type, and nothing else
      has one. */
  ghost predicate WellTyped(s: Slots)
  {
    (forall r :: r in s <==> IsReference(r)) && forall r | r in s :: Fits(r, s[r])
  }

  /** The initial value of a property (the initialisers, and `Fmi3Reset`). */
  function Default(r: nat): (v: Value)
    requires IsReference(r)
    ensures Fits(r, v)
  {
    if r == 113 then ULong(5)
    else if r == 114 then Singles(DefaultVector)
    else
      match PropertyKind(r).value
      case SingleKind => Single(0)
      case DoubleKind => Double(0)
      case IntKind => Int(0)
      case UIntKind => UInt(0)
      case LongKind => Long(0)
      case ULongKind => ULong(0)
      case BoolKind => Boolean(false)
      case StringKind => Text("")
      case BytesKind => Binary([0])
      case SinglesKind => Singles([])
  }

  function Defaults(): (s: Slots)
    ensures WellTyped(s)
  {
    map r: nat | r < 1103 && IsReference(r) :: Default(r)
  }

  /** The output properties `UpdateOutputs` assigns: each triple's c. */
  predicate IsOutput(r: nat) { IsRegular(r) && r % 3 == 2 }

  /** A triple's three references share a type. */
  lemma TripleKinds(r: nat)
    requires IsOutput(r)
    ensures PropertyKind(r - 2) == PropertyKind(r - 1) == PropertyKind(r) != Some(SinglesKind)
  {
    assert (r - 2) / 3 == (r - 1) / 3 == r / 3;
  }

  /** The new value of output x: its triple's a and b combined. */
  function CombineTriple(s: Slots, x: nat, ops: FloatOps): (c: Value)
    requires WellTyped(s) && IsOutput(x)
    ensures Fits(x, c)
  {
    TripleKinds(x);
    assert IsReference(x - 2) && IsReference(x - 1);
    assert Fits(x - 2, s[x - 2]) && Fits(x - 1, s[x - 1]);
    Combine(s[x - 2], s[x - 1], ops)
  }

  /** `UpdateOutputs`: every c of a triple from its a and b. */
  function UpdateOutputs(s: Slots, ops: FloatOps): (r: Slots)
    requires WellTyped(s)
    ensures WellTyped(r)
    ensures forall x | x in s && !IsOutput(x) :: r[x] == s[x]
  {
    var r := map x | x in s :: if IsOutput(x) then CombineTriple(s, x, ops) else s[x];
    assert r.Keys == s.Keys;
    assert forall x | x in r :: Fits(x, r[x]);
    r
  }

  /** Every c is its triple's a and b combined afterwards. */
  lemma UpdateOutputsValues(s: Slots, ops: FloatOps, x: nat)
    requires WellTyped(s) && IsOutput(x)
    ensures x - 2 in s && x - 1 in s && x in s
    ensures KindOf(s[x - 2]) == KindOf(s[x - 1]) != SinglesKind
    ensures Representable(s[x - 2]) && Representable(s[x - 1])
    ensures UpdateOutputs(s, ops)[x] == Combine(s[x - 2], s[x - 1], ops)
  {
    TripleKinds(x);
    assert IsReference(x - 2) && IsReference(x - 1) && IsReference(x);
    assert Fits(x - 2, s[x - 2]) && Fits(x - 1, s[x - 1]);
    assert UpdateOutputs(s, ops)[x] == CombineTriple(s, x, ops);
  }

  /** A triple's a and b are not outputs, so `UpdateOutputs` keeps them. */
  lemma UpdateOutputsKeepsInputs(s: Slots, ops: FloatOps, x: nat)
    requires WellTyped(s) && IsOutput(x)
    ensures x - 2 in s && x - 1 in s
    ensures UpdateOutputs(s, ops)[x - 2] == s[x - 2] && UpdateOutputs(s, ops)[x - 1] == s[x - 1]
  {
    assert (x - 2) % 3 == 0 && (x - 1) % 3 == 1;
    assert !IsOutput(x - 2) && !IsOutput(x - 1);
    assert IsReference(x - 2) && IsReference(x - 1);
  }

  lemma UpdateOutputsStable(s: Slots, ops: FloatOps, x: nat)
    requires WellTyped(s) && x in s
    ensures x in UpdateOutputs(s, ops)
    ensures UpdateOutputs(UpdateOutputs(s, ops), ops)[x] == UpdateOutputs(s, ops)[x]
  {
    var once := UpdateOutputs(s, ops);
    if IsOutput(x) {
      UpdateOutputsKeepsInputs(s, ops, x);
      assert once[x] == CombineTriple(s, x, ops);
      assert UpdateOutputs(once, ops)[x] == CombineTriple(once, x, ops);
    }
  }

  /** The outputs depend on the inputs only: recomputing them again changes
      nothing. */
  lemma UpdateOutputsIdempotent(s: Slots, ops: FloatOps)
    requires WellTyped(s)
    ensures UpdateOutputs(UpdateOutputs(s, ops), ops) == UpdateOutputs(s, ops)
  {
    var once := UpdateOutputs(s, ops);
    var twice := UpdateOutputs(once, ops);
    assert twice.Keys == once.Keys;
    forall x | x in once ensures twice[x] == once[x] {
      UpdateOutputsStable(s, ops, x);
    }
  }

  /** `UpdateClocks`: clock_c is clock_a and clock_b. */
  function UpdateClocks(s: Slots): (r: Slots)
    requires WellTyped(s)
    ensures WellTyped(r)
    ensures forall x | x in s && x != 1003 :: r[x] == s[x]
    ensures r[1003] == Boolean(s[1001].b && s[1002].b)
  {
    assert Fits(1001, s[1001]) && Fits(1002, s[1002]);
    s[1003 := Boolean(s[1001].b && s[1002].b)]
  }

  /** `UpdateClockedOutputs`: clocked_variable_c accumulates a + b, wrapping
      at 32 bits. */
  function UpdateClockedOutputs(s: Slots): (r: Slots)
    requires WellTyped(s)
    ensures WellTyped(r)
    ensures forall x | x in s && x != 1102 :: r[x] == s[x]
  {
    assert Fits(1100, s[1100]) && Fits(1101, s[1101]) && Fits(1102, s[1102]);
    s[1102 := Int(AddInt(s[1102].i, AddInt(s[1100].i, s[1101].i)))]
  }

  /** The properties after construction and after `Fmi3Reset`: the defaults
      with outputs, clocks and clocked outputs recomputed. */
  function Initial(ops: FloatOps): (s: Slots)
    ensures WellTyped(s)
  {
    UpdateClockedOutputs(UpdateClocks(UpdateOutputs(Defaults(), ops)))
  }

  // -------------------------------------------------------------------- modes

  /** As written, `Fmi3EnterInitializationMode` enters EventMode. */
  function NextAsWritten(m: Mode, c: ModeCommand, eventModeUsed: bool): (Mode, ProtoFmi3Status)
  {
    if c == EnterInitialization then (EventMode, ProtoOk) else Next(m, c, eventModeUsed)
  }

  /** The mode after a sequence of operations, as written. */
  function RunAsWritten(m: Mode, cs: seq<ModeCommand>, eventModeUsed: bool): Mode
    decreases |cs|
  {
    if |cs| == 0 then m else RunAsWritten(NextAsWritten(m, cs[0], eventModeUsed).0, cs[1..], eventModeUsed)
  }

  /** As written, no sequence of operations from a mode other than
      InitializationMode ever reaches it, so the InitializationMode branches
      of the setters and getters are dead. */
  lemma {:induction false} InitializationUnreachable(m: Mode, cs: seq<ModeCommand>, eventModeUsed: bool)
    requires m != InitializationMode
    ensures RunAsWritten(m, cs, eventModeUsed) != InitializationMode
    decreases |cs|
  {
    if |cs| > 0 {
      InitializationUnreachable(NextAsWritten(m, cs[0], eventModeUsed).0, cs[1..], eventModeUsed);
    }
  }

  // ----------------------------------------------------------------- setters

  /** A reference the setters refuse in mode m. */
  predicate Forbidden(m: Mode, eventModeUsed: bool, r: nat)
  {
    match m
    case ConfigurationMode => IsClocked(r) || IsRegular(r)
    case ReconfigurationMode => IsClocked(r) || IsRegular(r)
    case EventMode => IsRegular(r) || IsStructural(r)
    case InitializationMode => false
    case _ => (eventModeUsed && IsParameter(r)) || IsClocked(r)
  }

  predicate Rejected(m: Mode, eventModeUsed: bool, refs: seq<nat>)
  {
    exists i | 0 <= i < |refs| :: Forbidden(m, eventModeUsed, refs[i])
  }

  /** A pair `SetValue` accepts: a known reference whose property's type the
      value has or widens to. */
  predicate Accepts(r: nat, v: Value)
  {
    PropertyKind(r).Some? && Assignable(KindOf(v), PropertyKind(r).value)
  }

  /** What property r holds after `SetValue` assigns it v. */
  function Stored(r: nat, v: Value, ops: FloatOps): (w: Value)
    requires Accepts(r, v)
    ensures PropertyKind(r) == Some(KindOf(w))
    ensures Representable(v) ==> Fits(r, w)
  {
    Assign(v, PropertyKind(r).value, ops)
  }

  /** One `all_references[r].SetValue(this, v)`: an unknown reference, or a
      value neither of the property's type nor widening to it, raises. */
  function Write(s: Slots, r: nat, v: Value, ops: FloatOps): Result<Slots, Exception>
  {
    if !IsReference(r) then Failure(KeyNotFoundException)
    else if !Accepts(r, v) then Failure(ArgumentException)
    else Success(s[r := Stored(r, v, ops)])
  }

  /** The zipped writes, stopping at the first that raises; the properties
      already written stay written. */
  function WriteAll(s: Slots, refs: seq<nat>, values: seq<Value>, ops: FloatOps): Result<Slots, (Exception, Slots)>
    decreases |refs|
  {
    if |refs| == 0 || |values| == 0 then Success(s)
    else
      match Write(s, refs[0], values[0], ops)
      case Failure(e) => Failure((e, s))
      case Success(s') => WriteAll(s', refs[1..], values[1..], ops)
  }

  /** `SetValueReflection`: the outcome and the properties afterwards. */
  function SetResult(m: Mode, eventModeUsed: bool, s: Slots, refs: seq<nat>, values: seq<Value>, ops: FloatOps)
    : (Outcome<ProtoFmi3Status>, Slots)
  {
    if Rejected(m, eventModeUsed, refs) then (Returned(ProtoError), s)
    else
      match WriteAll(s, refs, values, ops)
      case Success(s') => (Returned(ProtoOk), s')
      case Failure((e, s')) => (Threw(e), s')
  }

  /** Every pair of the batch names a property the value can be assigned
      to. */
  predicate Writable(refs: seq<nat>, values: seq<Value>)
  {
    forall i | 0 <= i < Min(|refs|, |values|) :: Accepts(refs[i], values[i])
  }

  /** The values the properties of a writable batch hold afterwards, pair by
      pair. */
  function Converted(refs: seq<nat>, values: seq<Value>, ops: FloatOps): (ws: seq<Value>)
    requires Writable(refs, values)
    ensures |ws| == Min(|refs|, |values|)
  {
    seq(Min(|refs|, |values|), i requires 0 <= i < Min(|refs|, |values|) => Stored(refs[i], values[i], ops))
  }

  /** The writes succeed exactly when every pair is writable, and are then
      the zipped writes of the converted values. */
  lemma {:induction false} WriteAllSucceeds(s: Slots, refs: seq<nat>, values: seq<Value>, ops: FloatOps)
    ensures WriteAll(s, refs, values, ops).Success? <==> Writable(refs, values)
    ensures Writable(refs, values) ==>
      WriteAll(s, refs, values, ops) == Success(Store(s, refs, Converted(refs, values, ops)))
    decreases |refs|
  {
    if |refs| > 0 && |values| > 0 {
      if Accepts(refs[0], values[0]) {
        var s' := s[refs[0] := Stored(refs[0], values[0], ops)];
        WriteAllSucceeds(s', refs[1..], values[1..], ops);
        if Writable(refs, values) {
          assert Writable(refs[1..], values[1..]) by {
            forall i | 0 <= i < Min(|refs| - 1, |values| - 1)
              ensures Accepts(refs[1..][i], values[1..][i])
            {
              assert Accepts(refs[i + 1], values[i + 1]);
            }
          }
          var ws := Converted(refs, values, ops);
          assert ws[0] == Stored(refs[0], values[0], ops);
          assert ws[1..] == Converted(refs[1..], values[1..], ops);
        } else {
          var i :| 0 <= i < Min(|refs|, |values|) && !Accepts(refs[i], values[i]);
          assert !Accepts(refs[1..][i - 1], values[1..][i - 1]);
        }
      }
    }
  }

  /** Writing representable values keeps every property of its type. */
  lemma {:induction false} WriteAllWellTyped(s: Slots, refs: seq<nat>, values: seq<Value>, ops: FloatOps)
    requires WellTyped(s)
    requires forall v | v in values :: Representable(v)
    ensures WriteAll(s, refs, values, ops).Success? ==> WellTyped(WriteAll(s, refs, values, ops).value)
    ensures WriteAll(s, refs, values, ops).Failure? ==> WellTyped(WriteAll(s, refs, values, ops).error.1)
    decreases |refs|
  {
    if |refs| > 0 && |values| > 0 && Write(s, refs[0], values[0], ops).Success? {
      assert values[0] in values;
      assert forall v | v in values[1..] :: v in values;
      WriteAllWellTyped(s[refs[0] := Stored(refs[0], values[0], ops)], refs[1..], values[1..], ops);
    }
  }

  /** A rejected batch changes nothing; otherwise the outcome is Ok exactly
      when every pair is writable, and the properties then hold the
      converted values. */
  lemma SetValueOutcome(m: Mode, eventModeUsed: bool, s: Slots, refs: seq<nat>, values: seq<Value>, ops: FloatOps)
    ensures Rejected(m, eventModeUsed, refs) ==>
      SetResult(m, eventModeUsed, s, refs, values, ops) == (Returned(ProtoError), s)
    ensures !Rejected(m, eventModeUsed, refs) ==>
      (SetResult(m, eventModeUsed, s, refs, values, ops).0 == Returned(ProtoOk) <==> Writable(refs, values))
    ensures !Rejected(m, eventModeUsed, refs) && Writable(refs, values) ==>
      SetResult(m, eventModeUsed, s, refs, values, ops).1 == Store(s, refs, Converted(refs, values, ops))
  {
    WriteAllSucceeds(s, refs, values, ops);
  }

  // ----------------------------------------------------------------- getters

  /** The values of the references, in order; an unknown reference or a
      property of another type than the getter's raises. */
  function ReadAll(s: Slots, refs: seq<nat>, k: Kind): (r: Result<seq<Value>, Exception>)
    ensures r.Success? ==> |r.value| == |refs|
    decreases |refs|
  {
    if |refs| == 0 then Success([])
    else if refs[0] !in s then Failure(KeyNotFoundException)
    else if KindOf(s[refs[0]]) != k then Failure(InvalidCastException)
    else
      match ReadAll(s, refs[1..], k)
      case Failure(e) => Failure(e)
      case Success(vs) => Success([s[refs[0]]] + vs)
  }

  /** A clock read outside Event and Initialization mode. */
  predicate ClockUnreadable(m: Mode, refs: seq<nat>)
  {
    (exists i | 0 <= i < |refs| :: IsClocked(refs[i])) && m != EventMode && m != InitializationMode
  }

  /** `GetValueReflection`: (Error, null) for a clock outside Event and
      Initialization mode, else Ok with the values in reference order. */
  function GetResult(m: Mode, s: Slots, refs: seq<nat>, k: Kind): Outcome<(ProtoFmi3Status, Option<seq<Value>>)>
  {
    if ClockUnreadable(m, refs) then Returned((ProtoError, None))
    else
      match ReadAll(s, refs, k)
      case Failure(e) => Threw(e)
      case Success(vs) => Returned((ProtoOk, Some(vs)))
  }

  /** References whose properties hold the given values read back as them. */
  lemma {:induction false} ReadAllValues(s: Slots, refs: seq<nat>, k: Kind, values: seq<Value>)
    requires |values| >= |refs|
    requires forall i | 0 <= i < |refs| :: refs[i] in s && s[refs[i]] == values[i] && KindOf(values[i]) == k
    ensures ReadAll(s, refs, k) == Success(values[..|refs|])
    decreases |refs|
  {
    if |refs| > 0 {
      ReadAllValues(s, refs[1..], k, values[1..]);
      assert [values[0]] + values[1..][..|refs| - 1] == values[..|refs|];
    }
  }

  /** A batch of distinct references, each naming a property of the
      getter's type that its value can be assigned to, is written and reads
      back as the converted values: as written where the value already has
      the property's type. */
  lemma GetAfterSet(m: Mode, eventModeUsed: bool, s: Slots, refs: seq<nat>, values: seq<Value>, k: Kind, ops: FloatOps)
    requires WellTyped(s) && |values| >= |refs|
    requires forall i, j | 0 <= i < j < |refs| :: refs[i] != refs[j]
    requires forall i | 0 <= i < |refs| :: PropertyKind(refs[i]) == Some(k) && Assignable(KindOf(values[i]), k)
    requires !Rejected(m, eventModeUsed, refs) && !ClockUnreadable(m, refs)
    ensures Writable(refs, values)
    ensures SetResult(m, eventModeUsed, s, refs, values, ops).0 == Returned(ProtoOk)
    ensures GetResult(m, SetResult(m, eventModeUsed, s, refs, values, ops).1, refs, k)
      == Returned((ProtoOk, Some(Converted(refs, values, ops))))
    ensures forall i | 0 <= i < |refs| && KindOf(values[i]) == k :: Converted(refs, values, ops)[i] == values[i]
  {
    assert Min(|refs|, |values|) == |refs|;
    SetValueOutcome(m, eventModeUsed, s, refs, values, ops);
    var ws := Converted(refs, values, ops);
    var s' := Store(s, refs, ws);
    forall i | 0 <= i < |refs| ensures refs[i] in s' && s'[refs[i]] == ws[i] {
      StoreLast(s, refs, ws, i);
    }
    ReadAllValues(s', refs, k, ws);
    assert ws[..|refs|] == ws;
  }

  /** `Fmi3SetInt32` on `int64_a` (reference 24, a `long` property) stores
      the value widened to `long` and returns Ok. */
  lemma Int32WidensToInt64(m: Mode, eventModeUsed: bool, s: Slots, i: int, ops: FloatOps)
    requires m == StepMode || m == ContinuousTimeMode
    ensures SetResult(m, eventModeUsed, s, [24], [Int(i)], ops) == (Returned(ProtoOk), s[24 := Long(i)])
  {
    assert !Forbidden(m, eventModeUsed, [24][0]);
    assert WriteAll(s, [24], [Int(i)], ops) == WriteAll(s[24 := Long(i)], [], [], ops);
  }

  // -------------------------------------------------------------- state image

  /** The state image of the properties listed: each property's bytes in
      the order given. */
  function EncodeAll(layout: seq<nat>, s: Slots): seq<byte>
    requires forall r | r in layout :: r in s && Representable(s[r])
    decreases |layout|
  {
    if |layout| == 0 then [] else Encode(s[layout[0]]) + EncodeAll(layout[1..], s)
  }

  /** Reading the properties listed back, each as its property's type; a
      read that raises leaves the properties read before it restored. */
  function DecodeAll(layout: seq<nat>, bs: seq<byte>, s: Slots): (Outcome<ProtoFmi3Status>, Slots)
    requires forall r | r in layout :: IsReference(r)
    decreases |layout|
  {
    if |layout| == 0 then (Returned(ProtoOk), s)
    else
      assert layout[0] in layout;
      assert IsReference(layout[0]);
      match Decode(PropertyKind(layout[0]).value, bs)
      case Failure(e) => (Threw(e), s)
      case Success((v, rest)) => DecodeAll(layout[1..], rest, s[layout[0] := v])
  }

  /** s's values of the properties listed, over t. */
  function Overwrite(t: Slots, s: Slots, layout: seq<nat>): Slots
    requires forall r | r in layout :: r in s
    decreases |layout|
  {
    if |layout| == 0 then t else Overwrite(t[layout[0] := s[layout[0]]], s, layout[1..])
  }

  lemma {:induction false} OverwriteValues(t: Slots, s: Slots, layout: seq<nat>)
    requires forall r | r in layout :: r in s
    ensures forall r :: r in Overwrite(t, s, layout) <==> r in t || r in layout
    ensures forall r | r in Overwrite(t, s, layout) ::
      Overwrite(t, s, layout)[r] == if r in layout then s[r] else t[r]
    decreases |layout|
  {
    if |layout| > 0 {
      assert forall r | r in layout[1..] :: r in layout;
      OverwriteValues(t[layout[0] := s[layout[0]]], s, layout[1..]);
      assert forall r :: r in layout <==> r == layout[0] || r in layout[1..];
    }
  }

  lemma {:induction false} DecodeEncoded(layout: seq<nat>, s: Slots, t: Slots, rest: seq<byte>)
    requires forall r | r in s :: Writes(s[r])
    requires WellTyped(s)
    requires forall r | r in layout :: IsReference(r)
    ensures forall r | r in layout :: r in s && Representable(s[r])
    ensures DecodeAll(layout, EncodeAll(layout, s) + rest, t) == (Returned(ProtoOk), Overwrite(t, s, layout))
    decreases |layout|
  {
    assert forall r | r in layout :: r in s && Fits(r, s[r]);
    if |layout| > 0 {
      var r := layout[0];
      assert r in layout;
      var tail := EncodeAll(layout[1..], s) + rest;
      assert EncodeAll(layout, s) + rest == Encode(s[r]) + tail;
      ValueRoundTrip(s[r], tail);
      assert forall x | x in layout[1..] :: x in layout;
      DecodeEncoded(layout[1..], s, t[r := s[r]], rest);
    }
  }

  /** An image of every reference, in any order, restores every property. */
  lemma ImageRoundTrip(layout: seq<nat>, s: Slots, t: Slots, rest: seq<byte>)
    requires forall r | r in s :: Writes(s[r])
    requires WellTyped(s) && WellTyped(t)
    requires forall r: nat :: r in layout <==> IsReference(r)
    ensures forall r | r in layout :: r in s && Representable(s[r])
    ensures DecodeAll(layout, EncodeAll(layout, s) + rest, t) == (Returned(ProtoOk), s)
  {
    DecodeEncoded(layout, s, t, rest);
    OverwriteValues(t, s, layout);
    var o := Overwrite(t, s, layout);
    assert o.Keys == s.Keys;
    assert forall r | r in o :: o[r] == s[r];
    assert o == s;
  }

  /** Restoring a saved image restores every property, whatever the
      properties held before, and ignores any bytes after it. */
  lemma StateImageRoundTrip(s: Slots, t: Slots, rest: seq<byte>)
    requires forall r | r in s :: Writes(s[r])
    requires WellTyped(s) && WellTyped(t)
    ensures forall r | r in Layout() :: r in s && Representable(s[r])
    ensures DecodeAll(Layout(), EncodeAll(Layout(), s) + rest, t) == (Returned(ProtoOk), s)
  {
    LayoutOrdered();
    ImageRoundTrip(Layout(), s, t, rest);
  }

  /** Reading an image keeps every property of its type. */
  lemma {:induction false} DecodeAllWellTyped(layout: seq<nat>, bs: seq<byte>, s: Slots)
    requires WellTyped(s) && forall r | r in layout :: IsReference(r)
    ensures WellTyped(DecodeAll(layout, bs, s).1)
    decreases |layout|
  {
    if |layout| > 0 {
      assert layout[0] in layout;
      assert forall x | x in layout[1..] :: x in layout;
      match Decode(PropertyKind(layout[0]).value, bs)
      case Failure(e) =>
      case Success((v, rest)) => DecodeAllWellTyped(layout[1..], rest, s[layout[0] := v]);
    }
  }

  // -------------------------------------------------------------- fractions

  /** `new Fraction(value.ToString())` turned into the (counter, resolution)
      pair, or the exception the parse or the `ulong` casts raise. */
  function FractionOf(text: string): (r: Result<(nat, nat), Exception>)
    ensures r.Success? ==> r.value.1 > 0
  {
    match CSharpFraction(text)
    case Success(p) => Success(p)
    case Failure(FormatError) => Failure(FormatException)
    case Failure(_) => Failure(OverflowException)
  }

  /** The write loop of `Fmi3SerializeFmuState`. */
  method EncodeProperties(layout: seq<nat>, s: Slots) returns (image: seq<byte>)
    requires WellTyped(s) && forall r | r in layout :: IsReference(r)
    ensures forall r | r in layout :: r in s && Representable(s[r])
    ensures image == EncodeAll(layout, s)
  {
    assert forall r | r in layout :: r in s && Fits(r, s[r]);
    image := [];
    var i := 0;
    while i < |layout|
      invariant i <= |layout|
      invariant image + EncodeAll(layout[i..], s) == EncodeAll(layout, s)
    {
      assert layout[i] in layout;
      assert layout[i..][1..] == layout[i + 1..];
      image := image + Encode(s[layout[i]]);
      i := i + 1;
    }
    assert layout[i..] == [];
  }

  /** Reads the properties of `layout` back from `image` one after another,
      stopping at the first that cannot be read. */
  method DecodeProperties(layout: seq<nat>, image: seq<byte>, s: Slots) returns (outcome: Outcome<ProtoFmi3Status>, s': Slots)
    requires forall r | r in layout :: IsReference(r)
    ensures (outcome, s') == DecodeAll(layout, image, s)
  {
    s' := s;
    var rest := image;
    var i := 0;
    while i < |layout|
      invariant i <= |layout|
      invariant DecodeAll(layout[i..], rest, s') == DecodeAll(layout, image, s)
    {
      assert layout[i] in layout;
      assert layout[i..][1..] == layout[i + 1..];
      match Decode(PropertyKind(layout[i]).value, rest)
      case Failure(e) =>
        return Threw(e), s';
      case Success((v, rest')) =>
        s' := s'[layout[i] := v];
        rest := rest';
      i := i + 1;
    }
    assert layout[i..] == [];
    outcome := Returned(ProtoOk);
  }

  // -------------------------------------------------------------------- model

  class Model {
    const instanceName: string
    const instantiationToken: string
    const resourcePath: string
    const visible: bool
    const loggingOn: bool
    const eventModeUsed: bool
    const earlyReturnAllowed: bool
    const requiredIntermediateVariables: seq<nat>
    /** The floating-point operations of the runtime. */
    const ops: FloatOps

    var mode: Mode
    var slots: Slots
    /** `clock_reference_to_interval` and `clock_reference_to_shift`. */
    var intervals: map<nat, f64>
    var shifts: map<nat, f64>

    ghost predicate Valid()
      reads this
    {
      WellTyped(slots)
    }

    /** The constructor ignores the `eventModeUsed` argument and sets the
        flag false. */
    constructor(instanceName: string, instantiationToken: string, resourcePath: string, visible: bool,
                loggingOn: bool, eventModeUsed: bool, earlyReturnAllowed: bool,
                requiredIntermediateVariables: seq<nat>, ops: FloatOps)
      ensures Valid() && !this.eventModeUsed
      ensures mode == Instantiated && slots == Initial(ops)
      ensures intervals == InitialClockMap && shifts == InitialClockMap
      ensures this.ops == ops && this.loggingOn == loggingOn && this.instanceName == instanceName
    {
      this.instanceName := instanceName;
      this.instantiationToken := instantiationToken;
      this.resourcePath := resourcePath;
      this.visible := visible;
      this.loggingOn := loggingOn;
      this.eventModeUsed := false;
      this.earlyReturnAllowed := earlyReturnAllowed;
      this.requiredIntermediateVariables := requiredIntermediateVariables;
      this.ops := ops;
      mode := Instantiated;
      intervals := InitialClockMap;
      shifts := InitialClockMap;
      slots := Initial(ops);
    }

    /** `Fmi3DoStep`: recompute the outputs and report the step's end. */
    method DoStep(currentCommunicationPoint: f64, communicationStepSize: f64)
      returns (status: ProtoFmi3Status, eventHandlingNeeded: bool, terminateSimulation: bool,
               earlyReturn: bool, lastSuccessfulTime: f64)
      requires Valid()
      modifies this
      ensures Valid() && slots == UpdateOutputs(old(slots), ops)
      ensures mode == old(mode) && intervals == old(intervals) && shifts == old(shifts)
      ensures status == ProtoOk && !eventHandlingNeeded && !terminateSimulation && !earlyReturn
      ensures lastSuccessfulTime == ops.addDouble(currentCommunicationPoint, communicationStepSize)
    {
      slots := UpdateOutputs(slots, ops);
      return ProtoOk, false, false, false, ops.addDouble(currentCommunicationPoint, communicationStepSize);
    }

    /** `Fmi3UpdateDiscreteStates`: recompute the clocked outputs; the next
        event is at 1.0. */
    method UpdateDiscreteStates()
      returns (status: ProtoFmi3Status, discreteStatesNeedUpdate: bool, terminateSimulation: bool,
               nominalsChanged: bool, valuesChanged: bool, nextEventTimeDefined: bool, nextEventTime: f64)
      requires Valid()
      modifies this
      ensures Valid() && slots == UpdateClockedOutputs(old(slots))
      ensures mode == old(mode) && intervals == old(intervals) && shifts == old(shifts)
      ensures status == ProtoOk && !discreteStatesNeedUpdate && !terminateSimulation
      ensures !nominalsChanged && !valuesChanged && nextEventTimeDefined && nextEventTime == OneDouble
    {
      slots := UpdateClockedOutputs(slots);
      return ProtoOk, false, false, false, false, true, OneDouble;
    }

    /** `Fmi3EnterInitializationMode`, entering InitializationMode. */
    method EnterInitializationMode() returns (status: ProtoFmi3Status)
      modifies this
      ensures (mode, status) == Next(old(mode), EnterInitialization, eventModeUsed)
      ensures slots == old(slots) && intervals == old(intervals) && shifts == old(shifts)
    {
      mode := InitializationMode;
      return ProtoOk;
    }

    /** `Fmi3EnterInitializationMode` as written: it enters EventMode. */
    method EnterInitializationModeAsWritten() returns (status: ProtoFmi3Status)
      modifies this
      ensures (mode, status) == NextAsWritten(old(mode), EnterInitialization, eventModeUsed)
      ensures slots == old(slots) && intervals == old(intervals) && shifts == old(shifts)
    {
      mode := EventMode;
      return ProtoOk;
    }

    /** `Fmi3ExitInitializationMode`: EventMode if event mode is used, else
        StepMode (the constructor sets the flag false), with the outputs
        recomputed. */
    method ExitInitializationMode() returns (status: ProtoFmi3Status)
      requires Valid()
      modifies this
      ensures Valid() && (mode, status) == Next(old(mode), ExitInitialization, eventModeUsed)
      ensures slots == UpdateOutputs(old(slots), ops) && intervals == old(intervals) && shifts == old(shifts)
    {
      if eventModeUsed {
        mode := EventMode;
      } else {
        mode := StepMode;
      }
      slots := UpdateOutputs(slots, ops);
      return ProtoOk;
    }

    method EnterEventMode() returns (status: ProtoFmi3Status)
      modifies this
      ensures (mode, status) == Next(old(mode), EnterEvent, eventModeUsed)
      ensures slots == old(slots) && intervals == old(intervals) && shifts == old(shifts)
    {
      mode := EventMode;
      return ProtoOk;
    }

    method EnterStepMode() returns (status: ProtoFmi3Status)
      modifies this
      ensures (mode, status) == Next(old(mode), EnterStep, eventModeUsed)
      ensures slots == old(slots) && intervals == old(intervals) && shifts == old(shifts)
    {
      mode := StepMode;
      return ProtoOk;
    }

    method EnterConfigurationMode() returns (status: ProtoFmi3Status)
      modifies this
      ensures (mode, status) == Next(old(mode), EnterConfiguration, eventModeUsed)
      ensures slots == old(slots) && intervals == old(intervals) && shifts == old(shifts)
    {
      if mode == Instantiated {
        mode := ConfigurationMode;
      } else {
        mode := ReconfigurationMode;
      }
      return ProtoOk;
    }

    method ExitConfigurationMode() returns (status: ProtoFmi3Status)
      modifies this
      ensures (mode, status) == Next(old(mode), ExitConfiguration, eventModeUsed)
      ensures slots == old(slots) && intervals == old(intervals) && shifts == old(shifts)
    {
      if mode == ConfigurationMode {
        mode := Instantiated;
      } else if mode == ReconfigurationMode {
        mode := StepMode;
      } else {
        return ProtoError;
      }
      return ProtoOk;
    }

    /** `Fmi3Reset`: Instantiated, every property and both clock maps back
        to their initial values. */
    method Reset() returns (status: ProtoFmi3Status)
      modifies this
      ensures Valid() && (mode, status) == Next(old(mode), ModeCommand.Reset, eventModeUsed)
      ensures slots == Initial(ops) && intervals == InitialClockMap && shifts == InitialClockMap
    {
      mode := Instantiated;
      intervals := InitialClockMap;
      shifts := InitialClockMap;
      slots := Initial(ops);
      return ProtoOk;
    }

    method Terminate() returns (status: ProtoFmi3Status)
      modifies this
      ensures (mode, status) == Next(old(mode), ModeCommand.Terminate, eventModeUsed)
      ensures slots == old(slots) && intervals == old(intervals) && shifts == old(shifts)
    {
      mode := Terminated;
      return ProtoOk;
    }

    /** The mode check of `SetValueReflection`: does any reference make the
        batch fail in the current mode? */
    method CheckReferences(refs: seq<nat>) returns (rejected: bool)
      ensures rejected == Rejected(mode, eventModeUsed, refs)
    {
      rejected := false;
      var i := 0;
      while i < |refs|
        invariant i <= |refs|
        invariant !exists j | 0 <= j < i :: Forbidden(mode, eventModeUsed, refs[j])
      {
        if Forbidden(mode, eventModeUsed, refs[i]) {
          return true;
        }
        i := i + 1;
      }
    }

    /** `SetValueReflection` and the typed setters that forward to it: every
        reference is checked against the mode before anything is written;
        then the pairs are written in order. */
    method SetValueReflection(refs: seq<nat>, values: seq<Value>) returns (outcome: Outcome<ProtoFmi3Status>)
      requires Valid()
      requires forall v | v in values :: Representable(v)
      modifies this
      ensures Valid()
      ensures (outcome, slots) == SetResult(old(mode), eventModeUsed, old(slots), refs, values, ops)
      ensures mode == old(mode) && intervals == old(intervals) && shifts == old(shifts)
    {
      var rejected := CheckReferences(refs);
      if rejected {
        return Returned(ProtoError);
      }
      WriteAllWellTyped(slots, refs, values, ops);
      ghost var original := slots;
      var i := 0;
      while i < |refs| && i < |values|
        invariant i <= |refs| && i <= |values|
        invariant WriteAll(slots, refs[i..], values[i..], ops) == WriteAll(original, refs, values, ops)
        invariant mode == old(mode) && intervals == old(intervals) && shifts == old(shifts)
      {
        assert refs[i..][1..] == refs[i + 1..] && values[i..][1..] == values[i + 1..];
        match Write(slots, refs[i], values[i], ops)
        case Failure(e) =>
          return Threw(e);
        case Success(s) =>
          slots := s;
        i := i + 1;
      }
      return Returned(ProtoOk);
    }

    /** `Fmi3SetClock`: the writes, then clock_c recomputed even when the
        mode check failed. */
    method SetClock(refs: seq<nat>, values: seq<bool>) returns (outcome: Outcome<ProtoFmi3Status>)
      requires Valid()
      modifies this
      ensures Valid()
      ensures var (o, s) := SetResult(old(mode), eventModeUsed, old(slots), refs,
                                      seq(|values|, i requires 0 <= i < |values| => Boolean(values[i])), ops);
        WellTyped(s) && outcome == o && slots == (if o.Returned? then UpdateClocks(s) else s)
      ensures mode == old(mode) && intervals == old(intervals) && shifts == old(shifts)
    {
      var boxed := seq(|values|, i requires 0 <= i < |values| => Boolean(values[i]));
      outcome := SetValueReflection(refs, boxed);
      if outcome.Returned? {
        slots := UpdateClocks(slots);
      }
    }

    /** The getter loop of `GetValueReflection`. */
    method ReadValues(refs: seq<nat>, k: Kind) returns (r: Result<seq<Value>, Exception>)
      ensures r == ReadAll(slots, refs, k)
    {
      var values: seq<Value> := [];
      var i := 0;
      assert refs[i..] == refs;
      assert forall vs: seq<Value> :: values + vs == vs;
      while i < |refs|
        invariant i <= |refs| && |values| == i
        invariant ReadAll(slots, refs, k) ==
          match ReadAll(slots, refs[i..], k) case Failure(e) => Failure(e) case Success(vs) => Success(values + vs)
      {
        assert refs[i..][1..] == refs[i + 1..];
        var ref := refs[i];
        if ref !in slots {
          return Failure(KeyNotFoundException);
        }
        if KindOf(slots[ref]) != k {
          return Failure(InvalidCastException);
        }
        assert forall vs :: values + ([slots[ref]] + vs) == (values + [slots[ref]]) + vs;
        values := values + [slots[ref]];
        i := i + 1;
      }
      assert refs[i..] == [] && values + [] == values;
      return Success(values);
    }

    /** `GetValueReflection` and the typed getters. */
    method GetValueReflection(refs: seq<nat>, k: Kind) returns (outcome: Outcome<(ProtoFmi3Status, Option<seq<Value>>)>)
      ensures outcome == GetResult(mode, slots, refs, k)
    {
      var i := 0;
      while i < |refs|
        invariant i <= |refs|
        invariant !exists j | 0 <= j < i :: IsClocked(refs[j]) && mode != EventMode && mode != InitializationMode
      {
        if IsClocked(refs[i]) && !(mode == EventMode || mode == InitializationMode) {
          return Returned((ProtoError, None));
        }
        i := i + 1;
      }
      var r := ReadValues(refs, k);
      match r
      case Failure(e) => outcome := Threw(e);
      case Success(vs) => outcome := Returned((ProtoOk, Some(vs)));
    }

    /** `Fmi3SetIntervalDecimal`. */
    method SetIntervalDecimal(refs: seq<nat>, values: seq<f64>) returns (status: ProtoFmi3Status)
      modifies this
      ensures intervals == Store(old(intervals), refs, values) && status == ProtoOk
      ensures mode == old(mode) && slots == old(slots) && shifts == old(shifts)
    {
      intervals := StoreAll(intervals, refs, values);
      return ProtoOk;
    }

    /** `Fmi3SetIntervalFraction`: each counter over its resolution. */
    method SetIntervalFraction(refs: seq<nat>, counters: seq<int>, resolutions: seq<int>) returns (status: ProtoFmi3Status)
      modifies this
      ensures intervals == Store(old(intervals), refs, Ratios(ops, counters, resolutions)) && status == ProtoOk
      ensures mode == old(mode) && slots == old(slots) && shifts == old(shifts)
    {
      intervals := StoreAll(intervals, refs, Ratios(ops, counters, resolutions));
      return ProtoOk;
    }

    /** `Fmi3SetShiftDecimal`. */
    method SetShiftDecimal(refs: seq<nat>, values: seq<f64>) returns (status: ProtoFmi3Status)
      modifies this
      ensures shifts == Store(old(shifts), refs, values) && status == ProtoOk
      ensures mode == old(mode) && slots == old(slots) && intervals == old(intervals)
    {
      shifts := StoreAll(shifts, refs, values);
      return ProtoOk;
    }

    /** `Fmi3SetShiftFraction`. */
    method SetShiftFraction(refs: seq<nat>, counters: seq<int>, resolutions: seq<int>) returns (status: ProtoFmi3Status)
      modifies this
      ensures shifts == Store(old(shifts), refs, Ratios(ops, counters, resolutions)) && status == ProtoOk
      ensures mode == old(mode) && slots == old(slots) && intervals == old(intervals)
    {
      shifts := StoreAll(shifts, refs, Ratios(ops, counters, resolutions));
      return ProtoOk;
    }

    /** `Fmi3GetIntervalDecimal`: the stored intervals with qualifier 2
        (changed) for each; a reference without an interval raises. */
    method GetIntervalDecimal(refs: seq<nat>) returns (outcome: Outcome<(ProtoFmi3Status, seq<f64>, seq<IntervalQualifier>)>)
      ensures outcome.Returned? <==> forall r | r in refs :: r in intervals
      ensures outcome.Returned? ==>
        && outcome.value.0 == ProtoOk
        && |outcome.value.1| == |refs| && |outcome.value.2| == |refs|
        && (forall i | 0 <= i < |refs| :: outcome.value.1[i] == intervals[refs[i]])
        && (forall q | q in outcome.value.2 :: q == IntervalChanged)
      ensures outcome.Threw? ==> outcome.exception == KeyNotFoundException
    {
      var values: seq<f64> := [];
      var qualifiers: seq<IntervalQualifier> := [];
      var i := 0;
      while i < |refs|
        invariant i <= |refs| && |values| == i && |qualifiers| == i
        invariant forall j | 0 <= j < i :: refs[j] in intervals && values[j] == intervals[refs[j]]
        invariant forall q | q in qualifiers :: q == IntervalChanged
      {
        if refs[i] !in intervals {
          return Threw(KeyNotFoundException);
        }
        values := values + [intervals[refs[i]]];
        qualifiers := qualifiers + [IntervalChanged];
        i := i + 1;
      }
      return Returned((ProtoOk, values, qualifiers));
    }

    /** `Fmi3GetShiftDecimal`. */
    method GetShiftDecimal(refs: seq<nat>) returns (outcome: Outcome<(ProtoFmi3Status, seq<f64>)>)
      ensures outcome.Returned? <==> forall r | r in refs :: r in shifts
      ensures outcome.Returned? ==>
        && outcome.value.0 == ProtoOk && |outcome.value.1| == |refs|
        && forall i | 0 <= i < |refs| :: outcome.value.1[i] == shifts[refs[i]]
      ensures outcome.Threw? ==> outcome.exception == KeyNotFoundException
    {
      var values: seq<f64> := [];
      var i := 0;
      while i < |refs|
        invariant i <= |refs| && |values| == i
        invariant forall j | 0 <= j < i :: refs[j] in shifts && values[j] == shifts[refs[j]]
      {
        if refs[i] !in shifts {
          return Threw(KeyNotFoundException);
        }
        values := values + [shifts[refs[i]]];
        i := i + 1;
      }
      return Returned((ProtoOk, values));
    }

    /** `Fmi3GetIntervalFraction`: each stored interval, formatted by the
        runtime, as a reduced fraction with qualifier 2. */
    method GetIntervalFraction(refs: seq<nat>)
      returns (outcome: Outcome<(ProtoFmi3Status, seq<nat>, seq<nat>, seq<IntervalQualifier>)>)
      ensures outcome.Returned? <==>
        forall r | r in refs :: r in intervals && FractionOf(ops.format(intervals[r])).Success?
      ensures outcome.Returned? ==>
        && outcome.value.0 == ProtoOk
        && |outcome.value.1| == |refs| && |outcome.value.2| == |refs| && |outcome.value.3| == |refs|
        && (forall i | 0 <= i < |refs| ::
              (outcome.value.1[i], outcome.value.2[i]) == FractionOf(ops.format(intervals[refs[i]])).value)
        && (forall q | q in outcome.value.3 :: q == IntervalChanged)
    {
      var counters: seq<nat> := [];
      var resolutions: seq<nat> := [];
      var qualifiers: seq<IntervalQualifier> := [];
      var i := 0;
      while i < |refs|
        invariant i <= |refs| && |counters| == i && |resolutions| == i && |qualifiers| == i
        invariant forall j | 0 <= j < i ::
          && refs[j] in intervals && FractionOf(ops.format(intervals[refs[j]])).Success?
          && (counters[j], resolutions[j]) == FractionOf(ops.format(intervals[refs[j]])).value
        invariant forall q | q in qualifiers :: q == IntervalChanged
      {
        if refs[i] !in intervals {
          return Threw(KeyNotFoundException);
        }
        match FractionOf(ops.format(intervals[refs[i]]))
        case Failure(e) =>
          return Threw(e);
        case Success((counter, resolution)) =>
          counters := counters + [counter];
          resolutions := resolutions + [resolution];
          qualifiers := qualifiers + [IntervalChanged];
        i := i + 1;
      }
      return Returned((ProtoOk, counters, resolutions, qualifiers));
    }

    /** `Fmi3GetShiftFraction`. */
    method GetShiftFraction(refs: seq<nat>) returns (outcome: Outcome<(ProtoFmi3Status, seq<nat>, seq<nat>)>)
      ensures outcome.Returned? <==>
        forall r | r in refs :: r in shifts && FractionOf(ops.format(shifts[r])).Success?
      ensures outcome.Returned? ==>
        && outcome.value.0 == ProtoOk
        && |outcome.value.1| == |refs| && |outcome.value.2| == |refs|
        && forall i | 0 <= i < |refs| ::
             (outcome.value.1[i], outcome.value.2[i]) == FractionOf(ops.format(shifts[refs[i]])).value
    {
      var counters: seq<nat> := [];
      var resolutions: seq<nat> := [];
      var i := 0;
      while i < |refs|
        invariant i <= |refs| && |counters| == i && |resolutions| == i
        invariant forall j | 0 <= j < i ::
          && refs[j] in shifts && FractionOf(ops.format(shifts[refs[j]])).Success?
          && (counters[j], resolutions[j]) == FractionOf(ops.format(shifts[refs[j]])).value
      {
        if refs[i] !in shifts {
          return Threw(KeyNotFoundException);
        }
        match FractionOf(ops.format(shifts[refs[i]]))
        case Failure(e) =>
          return Threw(e);
        case Success((counter, resolution)) =>
          counters := counters + [counter];
          resolutions := resolutions + [resolution];
        i := i + 1;
      }
      return Returned((ProtoOk, counters, resolutions));
    }

    /** `Fmi3SerializeFmuState`: every property in ascending reference
        order. */
    method Serialize() returns (status: ProtoFmi3Status, image: seq<byte>)
      requires Valid()
      ensures forall r | r in Layout() :: r in slots && Representable(slots[r])
      ensures status == ProtoOk && image == EncodeAll(Layout(), slots)
    {
      LayoutOrdered();
      image := EncodeProperties(Layout(), slots);
      return ProtoOk, image;
    }

    /** `Fmi3DeserializeFmuState`: every property read back in the same
        order, each as its property's type. */
    method Deserialize(image: seq<byte>) returns (outcome: Outcome<ProtoFmi3Status>)
      requires Valid()
      modifies this
      ensures Valid()
      ensures forall r | r in Layout() :: IsReference(r)
      ensures (outcome, slots) == DecodeAll(Layout(), image, old(slots))
      ensures mode == old(mode) && intervals == old(intervals) && shifts == old(shifts)
    {
      LayoutOrdered();
      DecodeAllWellTyped(Layout(), image, slots);
      outcome, slots := DecodeProperties(Layout(), image, slots);
    }
  }

  // ------------------------------------------------------------ the findings

  /** As written, a start value set right after `Fmi3EnterInitializationMode`
      is refused: the mode is EventMode, where regular references fail. */
  lemma StartValueRefusedAsWritten(m: Mode, s: Slots, r: nat, v: Value, ops: FloatOps)
    requires IsRegular(r)
    ensures var m' := NextAsWritten(m, EnterInitialization, false).0;
      SetResult(m', false, s, [r], [v], ops) == (Returned(ProtoError), s)
  {
    assert Forbidden(EventMode, false, [r][0]);
  }

  /** In InitializationMode, as `EnterInitializationMode` should set it, no
      reference is refused, so a start value the property accepts is
      written. */
  lemma StartValueAccepted(m: Mode, s: Slots, r: nat, v: Value, ops: FloatOps)
    requires Accepts(r, v)
    ensures var m' := Next(m, EnterInitialization, false).0;
      SetResult(m', false, s, [r], [v], ops) == (Returned(ProtoOk), s[r := Stored(r, v, ops)])
  {
    assert !Rejected(InitializationMode, false, [r]);
    assert Write(s, r, v, ops) == Success(s[r := Stored(r, v, ops)]);
    assert WriteAll(s, [r], [v], ops) == WriteAll(s[r := Stored(r, v, ops)], [], [], ops);
  }
}
