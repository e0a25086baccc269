/** The Java FMI 3.0 example model (assets/java/src/fmi3/java/Model.java):
    public fields reached by reflection through `map_to_attributes`, split
    into regular, clocked, tunable and structural groups; a `state` field
    changed by the Enter/Exit operations; setters that write every pair and
    only downgrade the status to Warning, with a log message, for a
    reference written in the wrong mode; and a native serialization that
    carries every field. */
module JavaFmi3Model {
  import opened Wrappers
  import opened Bytes
  import opened Floats
  import opened BinaryIo
  import opened Fractions
  import opened Exceptions
  import opened Batches
  import opened Values
  import opened Outputs
  import opened Fmi3Example
  import opened Fmi3Types

  // ----------------------------------------------------------------- registry

  /** `references_to_attributes`: the a/b/c triples, 0..38. */
  predicate IsRegular(r: nat) { r <= 38 }

  /** `clocked_variables`: clock_a..c and clocked_variable_a..c. */
  predicate IsClocked(r: nat) { 1001 <= r <= 1003 || 1100 <= r <= 1102 }

  /** `tunable_parameters`: 100..112 and the float32 vector, 114. */
  predicate IsTunable(r: nat) { 100 <= r <= 112 || r == 114 }

  /** `tunable_structural_parameters`: `uint64_tunable_structural_parameter`.
      The `parameters` group is empty, so the branch of `SetValue` for it
      never applies. */
  predicate IsStructural(r: nat) { r == 113 }

  /** The Java types of the a/b/c triples, in reference order, which the
      tunable parameters 100..112 repeat: int8 to uint32 are all `Integer`
      and uint64 is a signed `Long`. */
  function TypeOrder(i: nat): Kind
    requires i < 13
  {
    if i == 0 then SingleKind
    else if i == 1 then DoubleKind
    else if i <= 7 then IntKind
    else if i <= 9 then LongKind
    else if i == 10 then BoolKind
    else if i == 11 then StringKind
    else BytesKind
  }

  /** The type of the field a reference names in `map_to_attributes`. */
  function PropertyKind(r: nat): Option<Kind>
  {
    if IsRegular(r) then Some(TypeOrder(r / 3))
    else if 100 <= r <= 112 then Some(TypeOrder(r - 100))
    else if r == 113 then Some(LongKind)
    else if r == 114 then Some(SinglesKind)
    else if 1001 <= r <= 1003 then Some(BoolKind)
    else if 1100 <= r <= 1102 then Some(IntKind)
    else None
  }

  /** The keys of `map_to_attributes`. */
  predicate IsReference(r: nat) { PropertyKind(r).Some? }

  /** `map_to_attributes` is the union of four disjoint groups. */
  lemma RegistryGroups(r: nat)
    ensures IsReference(r) <==> IsRegular(r) || IsClocked(r) || IsTunable(r) || IsStructural(r)
    ensures !(IsRegular(r) && IsClocked(r)) && !(IsRegular(r) && IsTunable(r))
    ensures !(IsRegular(r) && IsStructural(r)) && !(IsClocked(r) && IsTunable(r))
    ensures !(IsClocked(r) && IsStructural(r)) && !(IsTunable(r) && IsStructural(r))
  {
  }

  // -------------------------------------------------------------- properties

  /** The fields' values by reference. */
  type Slots = map<nat, Value>

  /** A value a field can hold: of the field's Java type. */
  predicate Fits(r: nat, v: Value)
  {
    PropertyKind(r) == Some(KindOf(v)) && Representable(v)
  }

  /** The keys of `map_to_attributes`, as a set. */
  const References: set<nat> := set r: nat | r < 1103 && IsReference(r)

  ghost predicate WellTyped(s: Slots)
  {
    s.Keys == References && forall r {:trigger s[r]} | r in s :: Fits(r, s[r])
  }

  /** The initial value of a field (the initialisers, and `fmi3Reset`). */
  function Default(r: nat): (v: Value)
    requires IsReference(r)
    ensures Fits(r, v)
  {
    if r == 113 then Long(5)
    else if r == 114 then Singles(DefaultVector)
    else
      match PropertyKind(r).value
      case SingleKind => Single(0)
      case DoubleKind => Double(0)
      case LongKind => Long(0)
      case BoolKind => Boolean(false)
      case StringKind => Text("")
      case BytesKind => Binary([0])
      case _ => Int(0)
  }

  function Defaults(): (s: Slots)
    ensures WellTyped(s)
  {
    map r: nat | r < 1103 && IsReference(r) :: Default(r)
  }

  /** The outputs `update_outputs` assigns: each triple's c. */
  predicate IsOutput(r: nat) { IsRegular(r) && r % 3 == 2 }

  lemma TripleKinds(r: nat)
    requires IsOutput(r)
    ensures PropertyKind(r - 2) == PropertyKind(r - 1) == PropertyKind(r) != Some(SinglesKind)
  {
    assert (r - 2) / 3 == (r - 1) / 3 == r / 3;
  }

  function CombineTriple(s: Slots, x: nat, ops: FloatOps): (c: Value)
    requires WellTyped(s) && IsOutput(x)
    ensures Fits(x, c)
  {
    TripleKinds(x);
    assert IsReference(x - 2) && IsReference(x - 1);
    assert Fits(x - 2, s[x - 2]) && Fits(x - 1, s[x - 1]);
    Combine(s[x - 2], s[x - 1], ops)
  }

  /** `update_outputs`: every c of a triple from its a and b; `Integer` sums
      wrap at 32 bits and `Long` sums at 64. */
  function UpdateOutputs(s: Slots, ops: FloatOps): (r: Slots)
    requires WellTyped(s)
    ensures WellTyped(r)
    ensures forall x | x in s && !IsOutput(x) :: r[x] == s[x]
  {
    var r := map x | x in s :: if IsOutput(x) then CombineTriple(s, x, ops) else s[x];
    assert r.Keys == s.Keys;
    assert forall x | x in r :: Fits(x, r[x]);
    r
  }

  lemma UpdateOutputsKeepsInputs(s: Slots, ops: FloatOps, x: nat)
    requires WellTyped(s) && IsOutput(x)
    ensures x - 2 in s && x - 1 in s
    ensures UpdateOutputs(s, ops)[x - 2] == s[x - 2] && UpdateOutputs(s, ops)[x - 1] == s[x - 1]
  {
    assert (x - 2) % 3 == 0 && (x - 1) % 3 == 1;
    assert !IsOutput(x - 2) && !IsOutput(x - 1);
    assert IsReference(x - 2) && IsReference(x - 1);
  }

  /** Each c is its triple's a and b combined afterwards. */
  lemma UpdateOutputsValues(s: Slots, ops: FloatOps, x: nat)
    requires WellTyped(s) && IsOutput(x)
    ensures x - 2 in s && x - 1 in s && x in s
    ensures KindOf(s[x - 2]) == KindOf(s[x - 1]) != SinglesKind
    ensures Representable(s[x - 2]) && Representable(s[x - 1])
    ensures UpdateOutputs(s, ops)[x] == Combine(s[x - 2], s[x - 1], ops)
  {
    TripleKinds(x);
    assert IsReference(x - 2) && IsReference(x - 1) && IsReference(x);
    assert Fits(x - 2, s[x - 2]) && Fits(x - 1, s[x - 1]);
    assert UpdateOutputs(s, ops)[x] == CombineTriple(s, x, ops);
  }

  /** Recomputing the outputs a second time changes nothing. */
  lemma UpdateOutputsIdempotent(s: Slots, ops: FloatOps)
    requires WellTyped(s)
    ensures UpdateOutputs(UpdateOutputs(s, ops), ops) == UpdateOutputs(s, ops)
  {
    var once := UpdateOutputs(s, ops);
    var twice := UpdateOutputs(once, ops);
    assert twice.Keys == once.Keys;
    forall x | x in once ensures twice[x] == once[x] {
      if IsOutput(x) {
        UpdateOutputsKeepsInputs(s, ops, x);
        assert once[x] == CombineTriple(s, x, ops);
        assert twice[x] == CombineTriple(once, x, ops);
      }
    }
  }

  /** `update_clocks`: clock_c is clock_a and clock_b. */
  function UpdateClocks(s: Slots): (r: Slots)
    requires WellTyped(s)
    ensures WellTyped(r)
    ensures forall x | x in s && x != 1003 :: r[x] == s[x]
    ensures r[1003] == Boolean(s[1001].b && s[1002].b)
  {
    assert Fits(1001, s[1001]) && Fits(1002, s[1002]);
    s[1003 := Boolean(s[1001].b && s[1002].b)]
  }

  /** `update_clocked_outputs`: clocked_variable_c accumulates a + b in
      `int` arithmetic. */
  function UpdateClockedOutputs(s: Slots): (r: Slots)
    requires WellTyped(s)
    ensures WellTyped(r)
    ensures forall x | x in s && x != 1102 :: r[x] == s[x]
  {
    assert Fits(1100, s[1100]) && Fits(1101, s[1101]) && Fits(1102, s[1102]);
    s[1102 := Int(AddInt(s[1102].i, AddInt(s[1100].i, s[1101].i)))]
  }

  /** The three recomputations the constructor, `fmi3Reset` and
      `fmi3DeserializeFmuState` end with. */
  function Refresh(s: Slots, ops: FloatOps): (r: Slots)
    requires WellTyped(s)
    ensures WellTyped(r) && r.Keys == s.Keys
  {
    UpdateClockedOutputs(UpdateClocks(UpdateOutputs(s, ops)))
  }

  /** The properties after construction and after `fmi3Reset`. */
  function Initial(ops: FloatOps): (s: Slots)
    ensures WellTyped(s)
  {
    Refresh(Defaults(), ops)
  }

  // -------------------------------------------------------------------- modes

  /** The mode and status after a mode-changing operation;
      `fmi3EnterConfigurationMode` fails without a change when the model has
      no tunable structural parameter. */
  function JavaNext(m: Mode, c: ModeCommand, eventModeUsed: bool, hasStructural: bool): (r: (Mode, ProtoFmi3Status))
    ensures c != EnterConfiguration || hasStructural ==> r == Next(m, c, eventModeUsed)
    ensures c == EnterConfiguration && !hasStructural ==> r == (m, ProtoError)
  {
    if c == EnterConfiguration && !hasStructural then (m, ProtoError) else Next(m, c, eventModeUsed)
  }

  /** EnterInitializationMode enters InitializationMode, from which
      ExitInitializationMode leaves for StepMode when event mode is not
      used. */
  lemma InitializationReached(m: Mode, hasStructural: bool)
    ensures JavaNext(m, EnterInitialization, false, hasStructural) == (InitializationMode, ProtoOk)
    ensures JavaNext(InitializationMode, ExitInitialization, false, hasStructural) == (StepMode, ProtoOk)
  {
  }

  // ----------------------------------------------------------------- setters

  /** A log message `SetValue` or `GetValue` sends, naming the reference. */
  datatype Warned =
    | ClockedOrTunableSet(r: nat)
    | StructuralSet(r: nat)
    | ClockedRead(r: nat)

  /** The warning, if any, for writing reference r in mode m: a clocked or
      tunable reference outside Event and Initialization mode, a structural
      one outside Configuration and Reconfiguration mode. */
  function SetWarning(m: Mode, r: nat): (w: Option<Warned>)
    ensures w.Some? <==>
      || ((IsClocked(r) || IsTunable(r)) && m != EventMode && m != InitializationMode)
      || (IsStructural(r) && m != ConfigurationMode && m != ReconfigurationMode)
  {
    if IsClocked(r) || IsTunable(r) then
      if m != EventMode && m != InitializationMode then Some(ClockedOrTunableSet(r)) else None
    else if IsStructural(r) then
      if m != ConfigurationMode && m != ReconfigurationMode then Some(StructuralSet(r)) else None
    else None
  }

  /** One `Field.set`: an unknown reference has no field (a
      NullPointerException), and a value of another type than the field's
      raises IllegalArgumentException. */
  function Write(s: Slots, r: nat, v: Value): Result<Slots, Exception>
  {
    if !IsReference(r) then Failure(NullPointerException)
    else if PropertyKind(r) != Some(KindOf(v)) then Failure(IllegalArgumentException)
    else Success(s[r := v])
  }

  /** The result of a `SetValue` call, the fields afterwards and the log
      messages sent. */
  type SetOutcome = (Outcome<ProtoFmi3Status>, Slots, seq<Warned>)

  /** `SetValue` from the given pair on, with the status so far: each pair
      is checked against the mode, the warning is logged, then the pair is
      written; a write that raises ends the call with the fields written
      before it kept. */
  function SetFrom(m: Mode, s: Slots, refs: seq<nat>, values: seq<Value>, status: ProtoFmi3Status): SetOutcome
    decreases |refs|
  {
    if |refs| == 0 || |values| == 0 then (Returned(status), s, [])
    else
      var w := SetWarning(m, refs[0]);
      var logged := if w.Some? then [w.value] else [];
      var status' := if w.Some? then ProtoWarning else status;
      match Write(s, refs[0], values[0])
      case Failure(e) => (Threw(e), s, logged)
      case Success(s') =>
        var (o, s'', more) := SetFrom(m, s', refs[1..], values[1..], status');
        (o, s'', logged + more)
  }

  /** Every pair of the batch names a field of the value's type. */
  predicate Writable(refs: seq<nat>, values: seq<Value>)
  {
    forall i | 0 <= i < Min(|refs|, |values|) :: PropertyKind(refs[i]) == Some(KindOf(values[i]))
  }

  /** Some written reference draws a warning. */
  predicate Warns(m: Mode, refs: seq<nat>, values: seq<Value>)
  {
    exists i | 0 <= i < Min(|refs|, |values|) :: SetWarning(m, refs[i]).Some?
  }

  /** `SetValue` never refuses a batch: it returns exactly when every pair is
      writable, then with all pairs written and Warning exactly when some
      reference drew a warning (or the status was Warning already). */
  lemma {:induction false} SetFromCases(m: Mode, s: Slots, refs: seq<nat>, values: seq<Value>, status: ProtoFmi3Status)
    requires status == ProtoOk || status == ProtoWarning
    ensures SetFrom(m, s, refs, values, status).0.Returned? <==> Writable(refs, values)
    ensures Writable(refs, values) ==>
      && SetFrom(m, s, refs, values, status).1 == Store(s, refs, values)
      && SetFrom(m, s, refs, values, status).0.value
           == (if status == ProtoWarning || Warns(m, refs, values) then ProtoWarning else ProtoOk)
    decreases |refs|
  {
    if |refs| > 0 && |values| > 0 {
      var w := SetWarning(m, refs[0]);
      var status' := if w.Some? then ProtoWarning else status;
      SetFromCases(m, s[refs[0] := values[0]], refs[1..], values[1..], status');
      PairsCons(m, refs, values);
    }
  }

  /** Writable and Warns of a batch, from its first pair and the rest. */
  lemma PairsCons(m: Mode, refs: seq<nat>, values: seq<Value>)
    requires |refs| > 0 && |values| > 0
    ensures Writable(refs, values)
      <==> PropertyKind(refs[0]) == Some(KindOf(values[0])) && Writable(refs[1..], values[1..])
    ensures Warns(m, refs, values) <==> SetWarning(m, refs[0]).Some? || Warns(m, refs[1..], values[1..])
  {
    WritableCons(refs, values);
    WarnsCons(m, refs, values);
  }

  /** A batch is writable exactly when its first pair and the rest are. */
  lemma WritableCons(refs: seq<nat>, values: seq<Value>)
    requires |refs| > 0 && |values| > 0
    ensures Writable(refs, values)
      <==> PropertyKind(refs[0]) == Some(KindOf(values[0])) && Writable(refs[1..], values[1..])
  {
    var n := Min(|refs|, |values|);
    assert forall i | 0 <= i < n - 1 :: refs[1..][i] == refs[i + 1] && values[1..][i] == values[i + 1];
    if PropertyKind(refs[0]) == Some(KindOf(values[0])) && !Writable(refs, values) {
      var i :| 0 <= i < n && PropertyKind(refs[i]) != Some(KindOf(values[i]));
      assert PropertyKind(refs[1..][i - 1]) != Some(KindOf(values[1..][i - 1]));
    }
  }

  /** A batch warns exactly when its first pair or the rest does. */
  lemma WarnsCons(m: Mode, refs: seq<nat>, values: seq<Value>)
    requires |refs| > 0 && |values| > 0
    ensures Warns(m, refs, values) <==> SetWarning(m, refs[0]).Some? || Warns(m, refs[1..], values[1..])
  {
    var n := Min(|refs|, |values|);
    assert forall i | 0 <= i < n - 1 :: refs[1..][i] == refs[i + 1];
    if Warns(m, refs, values) && SetWarning(m, refs[0]).None? {
      var i :| 0 <= i < n && SetWarning(m, refs[i]).Some?;
      assert SetWarning(m, refs[1..][i - 1]).Some?;
    }
    if Warns(m, refs[1..], values[1..]) {
      var i :| 0 <= i < n - 1 && SetWarning(m, refs[1..][i]).Some?;
      assert SetWarning(m, refs[i + 1]).Some?;
    }
  }


  /** Writing values that fit keeps every field of its type. */
  lemma {:induction false} SetFromWellTyped(m: Mode, s: Slots, refs: seq<nat>, values: seq<Value>, status: ProtoFmi3Status)
    requires WellTyped(s)
    requires forall v | v in values :: Representable(v)
    ensures WellTyped(SetFrom(m, s, refs, values, status).1)
    decreases |refs|
  {
    if |refs| > 0 && |values| > 0 && Write(s, refs[0], values[0]).Success? {
      assert values[0] in values;
      assert forall v | v in values[1..] :: v in values;
      var w := SetWarning(m, refs[0]);
      SetFromWellTyped(m, s[refs[0] := values[0]], refs[1..], values[1..], if w.Some? then ProtoWarning else status);
    }
  }

  /** The batch's results with the messages appended to an earlier log. */
  function Logged(r: SetOutcome, log: seq<Warned>): SetOutcome
  {
    (r.0, r.1, log + r.2)
  }

  // ----------------------------------------------------------------- getters

  /** What `GetValue` adds for one field: a `Float[]` is flattened into its
      elements, every other value is added as it is. */
  function Flatten(v: Value): (r: seq<Value>)
    ensures v.Singles? ==> |r| == |v.fs| && forall i | 0 <= i < |r| :: r[i] == Single(v.fs[i])
    ensures !v.Singles? ==> r == [v]
  {
    if v.Singles? then seq(|v.fs|, i requires 0 <= i < |v.fs| => Single(v.fs[i])) else [v]
  }

  /** `GetValue`: the values in reference order and the log messages for
      clocked references read outside Event and Initialization mode; an
      unknown reference raises NullPointerException after the messages of
      the references before it. The getter's element type is erased, so a
      field of another type is returned as it is. */
  function GetFrom(m: Mode, s: Slots, refs: seq<nat>): (r: (Result<seq<Value>, Exception>, seq<Warned>))
    ensures r.0.Failure? ==> r.0.error == NullPointerException
    decreases |refs|
  {
    if |refs| == 0 then (Success([]), [])
    else
      var logged := if IsClocked(refs[0]) && m != EventMode && m != InitializationMode then [ClockedRead(refs[0])] else [];
      if refs[0] !in s then (Failure(NullPointerException), logged)
      else
        var (rest, more) := GetFrom(m, s, refs[1..]);
        match rest
        case Failure(e) => (Failure(e), logged + more)
        case Success(vs) => (Success(Flatten(s[refs[0]]) + vs), logged + more)
  }

  /** The status of a `GetValue` that returned: Warning when it logged. */
  function GetStatus(logged: seq<Warned>): ProtoFmi3Status
  {
    if |logged| > 0 then ProtoWarning else ProtoOk
  }

  /** A clocked reference read outside Event and Initialization mode. */
  predicate ClockReadWarns(m: Mode, refs: seq<nat>)
  {
    exists i | 0 <= i < |refs| :: IsClocked(refs[i]) && m != EventMode && m != InitializationMode
  }

  /** `GetValue` returns exactly when every reference is known, with Warning
      exactly when some clocked reference is read outside Event and
      Initialization mode. */
  lemma {:induction false} GetFromCases(m: Mode, s: Slots, refs: seq<nat>)
    requires WellTyped(s)
    ensures GetFrom(m, s, refs).0.Success? <==> forall i | 0 <= i < |refs| :: IsReference(refs[i])
    ensures GetFrom(m, s, refs).0.Success? ==>
      (GetStatus(GetFrom(m, s, refs).1) == ProtoWarning <==> ClockReadWarns(m, refs))
    decreases |refs|
  {
    if |refs| > 0 {
      GetFromCases(m, s, refs[1..]);
      assert forall i | 0 <= i < |refs| - 1 :: refs[1..][i] == refs[i + 1];
      if ClockReadWarns(m, refs) && !(IsClocked(refs[0]) && m != EventMode && m != InitializationMode) {
        var i :| 0 <= i < |refs| && IsClocked(refs[i]) && m != EventMode && m != InitializationMode;
        assert IsClocked(refs[1..][i - 1]);
      }
      if !IsReference(refs[0]) {
        assert refs[0] !in s;
      }
    }
  }

  /** References whose fields hold the given non-array values read back as
      them, in order. */
  lemma {:induction false} GetFromValues(m: Mode, s: Slots, refs: seq<nat>, values: seq<Value>)
    requires |values| >= |refs|
    requires forall i | 0 <= i < |refs| :: refs[i] in s && s[refs[i]] == values[i] && !values[i].Singles?
    ensures GetFrom(m, s, refs).0 == Success(values[..|refs|])
    decreases |refs|
  {
    if |refs| > 0 {
      GetFromValues(m, s, refs[1..], values[1..]);
      assert [values[0]] + values[1..][..|refs| - 1] == values[..|refs|];
    }
  }

  /** A batch of distinct references, written with values of their types,
      reads back as written. */
  lemma GetAfterSet(m: Mode, s: Slots, refs: seq<nat>, values: seq<Value>)
    requires WellTyped(s) && |values| >= |refs|
    requires forall i, j | 0 <= i < j < |refs| :: refs[i] != refs[j]
    requires forall i | 0 <= i < |refs| :: PropertyKind(refs[i]) == Some(KindOf(values[i])) && !values[i].Singles?
    ensures SetFrom(m, s, refs, values, ProtoOk).0.Returned?
    ensures GetFrom(m, SetFrom(m, s, refs, values, ProtoOk).1, refs).0 == Success(values[..|refs|])
  {
    assert Min(|refs|, |values|) == |refs|;
    SetFromCases(m, s, refs, values, ProtoOk);
    var s' := Store(s, refs, values);
    forall i | 0 <= i < |refs| ensures refs[i] in s' && s'[refs[i]] == values[i] {
      StoreLast(s, refs, values, i);
    }
    GetFromValues(m, s', refs, values);
  }

  /** The float32 vector reads back as its elements, one value each. */
  lemma VectorFlattened(m: Mode, s: Slots)
    requires WellTyped(s)
    ensures 114 in s && s[114].Singles?
    ensures GetFrom(m, s, [114]).0 == Success(Flatten(s[114]))
    ensures |GetFrom(m, s, [114]).0.value| == |s[114].fs|
  {
    assert Fits(114, s[114]);
    assert [114][1..] == [];
    assert Flatten(s[114]) + [] == Flatten(s[114]);
  }

  // ---------------------------------------------------------- interval text

  /** `new Fraction(text)` as (numerator, denominator), or the exception the
      `BigDecimal` parse or `BigInteger.TEN.pow` raises. */
  function FractionOf(text: string): (r: Result<(int, int), Exception>)
    ensures r.Failure? ==> r.error == NumberFormatException || r.error == ArithmeticException
  {
    match JavaFraction(text)
    case Success(p) => Success(p)
    case Failure(FormatError) => Failure(NumberFormatException)
    case Failure(_) => Failure(ArithmeticException)
  }

  /** `new Fraction(String.valueOf(map.get(r)))`: the fraction of the
      runtime's text of the stored value; for a reference with none the
      text is "null", which does not parse (`NullFraction`). */
  function StoredFraction(ops: FloatOps, clockMap: map<nat, f64>, r: nat): (f: Result<(int, int), Exception>)
    ensures r !in clockMap ==> f == Failure(NumberFormatException)
  {
    if r in clockMap then FractionOf(ops.format(clockMap[r])) else Failure(NumberFormatException)
  }

  /** `String.valueOf` of a missing entry is "null", whose fraction raises
      NumberFormatException. */
  lemma NullFraction()
    ensures FractionOf("null") == Failure(NumberFormatException)
  {
    assert IndexOf("null", 'e') == None && IndexOf("null", 'E') == None;
    assert "null"[0] == 'n';
  }

  /** The write loop of `SetValue`: the pairs are written in order, each
      after its mode check. */
  method WriteFields(m: Mode, s: Slots, refs: seq<nat>, values: seq<Value>)
    returns (outcome: Outcome<ProtoFmi3Status>, written: Slots, ws: seq<Warned>)
    ensures (outcome, written, ws) == SetFrom(m, s, refs, values, ProtoOk)
  {
    written := s;
    ws := [];
    var status := ProtoOk;
    var i := 0;
    assert refs[i..] == refs && values[i..] == values;
    assert ws + SetFrom(m, s, refs, values, ProtoOk).2 == SetFrom(m, s, refs, values, ProtoOk).2;
    while i < |refs| && i < |values|
      invariant i <= |refs| && i <= |values|
      invariant Logged(SetFrom(m, written, refs[i..], values[i..], status), ws) == SetFrom(m, s, refs, values, ProtoOk)
    {
      SetFromStep(m, written, refs[i..], values[i..], status, ws);
      assert refs[i..][0] == refs[i] && values[i..][0] == values[i];
      assert refs[i..][1..] == refs[i + 1..] && values[i..][1..] == values[i + 1..];
      var w := SetWarning(m, refs[i]);
      ws := ws + if w.Some? then [w.value] else [];
      if w.Some? {
        status := ProtoWarning;
      }
      match Write(written, refs[i], values[i])
      case Failure(e) =>
        return Threw(e), written, ws;
      case Success(s') =>
        written := s';
      i := i + 1;
    }
    assert SetFrom(m, written, refs[i..], values[i..], status) == (Returned(status), written, []);
    assert ws + [] == ws;
    return Returned(status), written, ws;
  }

  /** One pair of the write loop: its warning joins the log, and a failed
      write ends the batch with the slots as they were. */
  lemma SetFromStep(m: Mode, s: Slots, refs: seq<nat>, values: seq<Value>, status: ProtoFmi3Status, ws: seq<Warned>)
    requires |refs| > 0 && |values| > 0
    ensures var w := SetWarning(m, refs[0]);
      var step := if w.Some? then [w.value] else [];
      var status' := if w.Some? then ProtoWarning else status;
      Logged(SetFrom(m, s, refs, values, status), ws) ==
        match Write(s, refs[0], values[0])
        case Failure(e) => (Threw(e), s, ws + step)
        case Success(s') => Logged(SetFrom(m, s', refs[1..], values[1..], status'), ws + step)
  {
    var w := SetWarning(m, refs[0]);
    var step := if w.Some? then [w.value] else [];
    var status' := if w.Some? then ProtoWarning else status;
    match Write(s, refs[0], values[0])
    case Failure(e) =>
    case Success(s') =>
      var more := SetFrom(m, s', refs[1..], values[1..], status').2;
      assert ws + (step + more) == (ws + step) + more;
  }

  /** A read result with `values` and `ws` put in front of what it read and
      logged. */
  function Prefixed(values: seq<Value>, ws: seq<Warned>, r: (Result<seq<Value>, Exception>, seq<Warned>))
    : (p: (Result<seq<Value>, Exception>, seq<Warned>))
    ensures p.0.Failure? <==> r.0.Failure?
    ensures p.1 == ws + r.1
  {
    (match r.0 case Failure(e) => Failure(e) case Success(vs) => Success(values + vs), ws + r.1)
  }

  /** Reading one more reference moves its values and its warning into the
      prefix. */
  lemma PrefixedStep(m: Mode, s: Slots, refs: seq<nat>, i: nat, values: seq<Value>, ws: seq<Warned>)
    requires i < |refs| && refs[i] in s
    ensures var step := if IsClocked(refs[i]) && m != EventMode && m != InitializationMode then [ClockedRead(refs[i])] else [];
      Prefixed(values, ws, GetFrom(m, s, refs[i..]))
      == Prefixed(values + Flatten(s[refs[i]]), ws + step, GetFrom(m, s, refs[i + 1..]))
  {
    assert refs[i..][1..] == refs[i + 1..];
    var step := if IsClocked(refs[i]) && m != EventMode && m != InitializationMode then [ClockedRead(refs[i])] else [];
    var more := GetFrom(m, s, refs[i + 1..]);
    assert ws + (step + more.1) == (ws + step) + more.1;
    if more.0.Success? {
      assert values + (Flatten(s[refs[i]]) + more.0.value) == (values + Flatten(s[refs[i]])) + more.0.value;
    }
  }

  /** An empty prefix leaves a read result as it is. */
  lemma PrefixedEmpty(r: (Result<seq<Value>, Exception>, seq<Warned>))
    ensures Prefixed([], [], r) == r
  {
    assert [] + r.1 == r.1;
    if r.0.Success? {
      assert [] + r.0.value == r.0.value;
    }
  }

  /** The read loop of `GetValue`. */
  method ReadFields(m: Mode, s: Slots, refs: seq<nat>) returns (r: Result<seq<Value>, Exception>, ws: seq<Warned>)
    ensures (r, ws) == GetFrom(m, s, refs)
  {
    var values: seq<Value> := [];
    ws := [];
    var i := 0;
    assert refs[i..] == refs;
    PrefixedEmpty(GetFrom(m, s, refs));
    while i < |refs|
      invariant i <= |refs|
      invariant Prefixed(values, ws, GetFrom(m, s, refs[i..])) == GetFrom(m, s, refs)
    {
      var ref := refs[i];
      var step := if IsClocked(ref) && m != EventMode && m != InitializationMode then [ClockedRead(ref)] else [];
      if ref !in s {
        assert refs[i..][0] == ref;
        return Failure(NullPointerException), ws + step;
      }
      PrefixedStep(m, s, refs, i, values, ws);
      ws := ws + step;
      values := values + Flatten(s[ref]);
      i := i + 1;
    }
    assert refs[i..] == [] && values + [] == values && ws + [] == ws;
    return Success(values), ws;
  }

  /** The loop of the fraction getters: each reference's stored value as a
      fraction; the first that does not parse raises. */
  method StoredFractions(ops: FloatOps, clockMap: map<nat, f64>, refs: seq<nat>)
    returns (r: Result<(seq<int>, seq<int>), Exception>)
    ensures r.Success? <==> forall x | x in refs :: StoredFraction(ops, clockMap, x).Success?
    ensures r.Success? ==>
      && |r.value.0| == |refs| && |r.value.1| == |refs|
      && forall i | 0 <= i < |refs| ::
           (r.value.0[i], r.value.1[i]) == StoredFraction(ops, clockMap, refs[i]).value
  {
    r := CollectFractions((x: nat) => StoredFraction(ops, clockMap, x), refs);
  }

  /** Each reference's fraction in turn, split into counters and
      resolutions; the first that fails ends the loop with its exception. */
  method CollectFractions(fraction: nat -> Result<(int, int), Exception>, refs: seq<nat>)
    returns (r: Result<(seq<int>, seq<int>), Exception>)
    ensures r.Success? <==> forall x | x in refs :: fraction(x).Success?
    ensures r.Success? ==>
      && |r.value.0| == |refs| && |r.value.1| == |refs|
      && forall i | 0 <= i < |refs| :: (r.value.0[i], r.value.1[i]) == fraction(refs[i]).value
  {
    var counters: seq<int> := [];
    var resolutions: seq<int> := [];
    var i := 0;
    while i < |refs|
      invariant i <= |refs| && |counters| == i && |resolutions| == i
      invariant forall j | 0 <= j < i ::
        && fraction(refs[j]).Success?
        && (counters[j], resolutions[j]) == fraction(refs[j]).value
    {
      var f := fraction(refs[i]);
      if f.Failure? {
        assert refs[i] in refs;
        return Failure(f.error);
      }
      counters := counters + [f.value.0];
      resolutions := resolutions + [f.value.1];
      i := i + 1;
    }
    return Success((counters, resolutions));
  }

  // -------------------------------------------------------------------- model

  /** What `ObjectOutputStream` carries of the model: every non-transient
      field. */
  datatype Snapshot = Snapshot(mode: Mode, slots: Slots, intervals: map<nat, f64>, shifts: map<nat, f64>)

  /** The state `fmi3DeserializeFmuState` leaves: the image with its outputs,
      clock_c and clocked_variable_c recomputed. */
  function Restored(image: Snapshot, ops: FloatOps): (r: Snapshot)
    requires WellTyped(image.slots)
    ensures WellTyped(r.slots)
    ensures r.mode == image.mode && r.intervals == image.intervals && r.shifts == image.shifts
  {
    image.(slots := Refresh(image.slots, ops))
  }

  /** The snapshot `fmi3DeserializeFmuState` installs. */
  method RestoreSnapshot(image: Snapshot, ops: FloatOps) returns (r: Snapshot)
    requires WellTyped(image.slots)
    ensures WellTyped(r.slots) && r == Restored(image, ops)
  {
    r := Restored(image, ops);
  }

  class Model {
    const instanceName: string
    const instantiationToken: string
    const resourcePath: string
    const visible: bool
    const loggingOn: bool
    const eventModeUsed: bool
    const earlyReturnAllowed: bool
    const requiredIntermediateVariables: seq<nat>
    /** The number of tunable structural parameters
        (`tunable_structural_parameters.size()`). */
    const structuralCount: nat
    /** The floating-point operations of the runtime. */
    const ops: FloatOps

    var mode: Mode
    var slots: Slots
    /** `clock_reference_to_interval` and `clock_reference_to_shift`. */
    var intervals: map<nat, f64>
    var shifts: map<nat, f64>
    /** The warnings sent through `log`, oldest first. */
    var logged: seq<Warned>

    ghost predicate Valid()
      reads this
    {
      WellTyped(slots)
    }

    /** The constructor ignores the `event_mode_used` argument and sets the
        flag false. */
    constructor(instanceName: string, instantiationToken: string, resourcePath: string, visible: bool,
                loggingOn: bool, eventModeUsed: bool, earlyReturnAllowed: bool,
                requiredIntermediateVariables: seq<nat>, ops: FloatOps)
      ensures Valid() && !this.eventModeUsed && structuralCount == 1
      ensures mode == Instantiated && slots == Initial(ops) && logged == []
      ensures intervals == InitialClockMap && shifts == InitialClockMap
      ensures this.ops == ops && this.loggingOn == loggingOn && this.instanceName == instanceName
    {
      this.instanceName := instanceName;
      this.instantiationToken := instantiationToken;
      this.resourcePath := resourcePath;
      this.visible := visible;
      this.loggingOn := loggingOn;
      this.eventModeUsed := false;
      this.earlyReturnAllowed := earlyReturnAllowed;
      this.requiredIntermediateVariables := requiredIntermediateVariables;
      this.structuralCount := 1;
      this.ops := ops;
      mode := Instantiated;
      intervals := InitialClockMap;
      shifts := InitialClockMap;
      logged := [];
      slots := Initial(ops);
    }

    /** `fmi3DoStep`: recompute the outputs and report the step's end. */
    method DoStep(currentCommunicationPoint: f64, communicationStepSize: f64, noStepPrior: bool)
      returns (status: ProtoFmi3Status, eventHandlingNeeded: bool, terminateSimulation: bool,
               earlyReturn: bool, lastSuccessfulTime: f64)
      requires Valid()
      modifies this
      ensures Valid() && slots == UpdateOutputs(old(slots), ops)
      ensures mode == old(mode) && intervals == old(intervals) && shifts == old(shifts) && logged == old(logged)
      ensures status == ProtoOk && !eventHandlingNeeded && !terminateSimulation && !earlyReturn
      ensures lastSuccessfulTime == ops.addDouble(currentCommunicationPoint, communicationStepSize)
    {
      slots := UpdateOutputs(slots, ops);
      return ProtoOk, false, false, false, ops.addDouble(currentCommunicationPoint, communicationStepSize);
    }

    /** `fmi3UpdateDiscreteStates`: recompute the clocked outputs; the next
        event is at 1.0. */
    method UpdateDiscreteStates()
      returns (status: ProtoFmi3Status, discreteStatesNeedUpdate: bool, terminateSimulation: bool,
               nominalsChanged: bool, valuesChanged: bool, nextEventTimeDefined: bool, nextEventTime: f64)
      requires Valid()
      modifies this
      ensures Valid() && slots == UpdateClockedOutputs(old(slots))
      ensures mode == old(mode) && intervals == old(intervals) && shifts == old(shifts) && logged == old(logged)
      ensures status == ProtoOk && !discreteStatesNeedUpdate && !terminateSimulation
      ensures !nominalsChanged && !valuesChanged && nextEventTimeDefined && nextEventTime == OneDouble
    {
      slots := UpdateClockedOutputs(slots);
      return ProtoOk, false, false, false, false, true, OneDouble;
    }

    method EnterInitializationMode() returns (status: ProtoFmi3Status)
      modifies this
      ensures (mode, status) == JavaNext(old(mode), EnterInitialization, eventModeUsed, structuralCount > 0)
      ensures slots == old(slots) && intervals == old(intervals) && shifts == old(shifts) && logged == old(logged)
    {
      mode := InitializationMode;
      return ProtoOk;
    }

    /** `fmi3ExitInitializationMode`: EventMode if event mode is used, else
        StepMode, with the outputs recomputed. */
    method ExitInitializationMode() returns (status: ProtoFmi3Status)
      requires Valid()
      modifies this
      ensures Valid() && (mode, status) == JavaNext(old(mode), ExitInitialization, eventModeUsed, structuralCount > 0)
      ensures slots == UpdateOutputs(old(slots), ops)
      ensures intervals == old(intervals) && shifts == old(shifts) && logged == old(logged)
    {
      if eventModeUsed {
        mode := EventMode;
      } else {
        mode := StepMode;
      }
      slots := UpdateOutputs(slots, ops);
      return ProtoOk;
    }

    method EnterEventMode() returns (status: ProtoFmi3Status)
      modifies this
      ensures (mode, status) == JavaNext(old(mode), EnterEvent, eventModeUsed, structuralCount > 0)
      ensures slots == old(slots) && intervals == old(intervals) && shifts == old(shifts) && logged == old(logged)
    {
      mode := EventMode;
      return ProtoOk;
    }

    method EnterStepMode() returns (status: ProtoFmi3Status)
      modifies this
      ensures (mode, status) == JavaNext(old(mode), EnterStep, eventModeUsed, structuralCount > 0)
      ensures slots == old(slots) && intervals == old(intervals) && shifts == old(shifts) && logged == old(logged)
    {
      mode := StepMode;
      return ProtoOk;
    }

    method EnterConfigurationMode() returns (status: ProtoFmi3Status)
      modifies this
      ensures (mode, status) == JavaNext(old(mode), EnterConfiguration, eventModeUsed, structuralCount > 0)
      ensures slots == old(slots) && intervals == old(intervals) && shifts == old(shifts) && logged == old(logged)
    {
      if structuralCount > 0 {
        if mode == Instantiated {
          mode := ConfigurationMode;
        } else {
          mode := ReconfigurationMode;
        }
      } else {
        return ProtoError;
      }
      return ProtoOk;
    }

    method ExitConfigurationMode() returns (status: ProtoFmi3Status)
      modifies this
      ensures (mode, status) == JavaNext(old(mode), ExitConfiguration, eventModeUsed, structuralCount > 0)
      ensures slots == old(slots) && intervals == old(intervals) && shifts == old(shifts) && logged == old(logged)
    {
      if mode == ConfigurationMode {
        mode := Instantiated;
      } else if mode == ReconfigurationMode {
        mode := StepMode;
      } else {
        return ProtoError;
      }
      return ProtoOk;
    }

    /** `fmi3Reset`: Instantiated, every field and both clock maps back to
        their initial values. */
    method Reset() returns (status: ProtoFmi3Status)
      modifies this
      ensures Valid() && (mode, status) == JavaNext(old(mode), ModeCommand.Reset, eventModeUsed, structuralCount > 0)
      ensures slots == Initial(ops) && intervals == InitialClockMap && shifts == InitialClockMap
      ensures logged == old(logged)
    {
      mode := Instantiated;
      intervals := InitialClockMap;
      shifts := InitialClockMap;
      slots := Initial(ops);
      return ProtoOk;
    }

    method Terminate() returns (status: ProtoFmi3Status)
      modifies this
      ensures (mode, status) == JavaNext(old(mode), ModeCommand.Terminate, eventModeUsed, structuralCount > 0)
      ensures slots == old(slots) && intervals == old(intervals) && shifts == old(shifts) && logged == old(logged)
    {
      mode := Terminated;
      return ProtoOk;
    }

    /** `SetValue` and the typed setters that forward to it. */
    method SetValue(refs: seq<nat>, values: seq<Value>) returns (outcome: Outcome<ProtoFmi3Status>)
      requires Valid()
      requires forall v | v in values :: Representable(v)
      modifies this
      ensures Valid()
      ensures (outcome, slots, logged) == Logged(SetFrom(old(mode), old(slots), refs, values, ProtoOk), old(logged))
      ensures mode == old(mode) && intervals == old(intervals) && shifts == old(shifts)
    {
      SetFromWellTyped(mode, slots, refs, values, ProtoOk);
      var ws;
      outcome, slots, ws := WriteFields(mode, slots, refs, values);
      logged := logged + ws;
    }

    /** `fmi3SetClock`: the writes, then clock_c recomputed; an exception
        from the writes propagates before the recomputation. */
    method SetClock(refs: seq<nat>, values: seq<bool>) returns (outcome: Outcome<ProtoFmi3Status>)
      requires Valid()
      modifies this
      ensures Valid()
      ensures var (o, s, ws) := SetFrom(old(mode), old(slots), refs, seq(|values|, i requires 0 <= i < |values| => Boolean(values[i])), ProtoOk);
        WellTyped(s) && outcome == o && logged == old(logged) + ws
        && slots == (if o.Returned? then UpdateClocks(s) else s)
      ensures mode == old(mode) && intervals == old(intervals) && shifts == old(shifts)
    {
      var boxed := seq(|values|, i requires 0 <= i < |values| => Boolean(values[i]));
      SetFromWellTyped(mode, slots, refs, boxed, ProtoOk);
      outcome := SetValue(refs, boxed);
      if outcome.Returned? {
        slots := UpdateClocks(slots);
      }
    }

    /** `GetValue` and the typed getters: the values, flattened, with
        Warning when a clocked reference was read outside Event and
        Initialization mode. */
    method GetValue(refs: seq<nat>) returns (outcome: Outcome<(ProtoFmi3Status, seq<Value>)>)
      modifies this
      ensures var (r, ws) := GetFrom(old(mode), old(slots), refs);
        && logged == old(logged) + ws
        && outcome == match r case Failure(e) => Threw(e) case Success(vs) => Returned((GetStatus(ws), vs))
      ensures mode == old(mode) && slots == old(slots) && intervals == old(intervals) && shifts == old(shifts)
    {
      var r, ws := ReadFields(mode, slots, refs);
      logged := logged + ws;
      match r
      case Failure(e) => outcome := Threw(e);
      case Success(vs) => outcome := Returned((GetStatus(ws), vs));
    }

    /** `fmi3SetIntervalDecimal`. */
    method SetIntervalDecimal(refs: seq<nat>, values: seq<f64>) returns (status: ProtoFmi3Status)
      modifies this
      ensures intervals == Store(old(intervals), refs, values) && status == ProtoOk
      ensures mode == old(mode) && slots == old(slots) && shifts == old(shifts) && logged == old(logged)
    {
      intervals := StoreAll(intervals, refs, values);
      return ProtoOk;
    }

    /** `fmi3SetIntervalFraction`: each counter over its resolution, as
        doubles. */
    method SetIntervalFraction(refs: seq<nat>, counters: seq<int>, resolutions: seq<int>) returns (status: ProtoFmi3Status)
      modifies this
      ensures intervals == Store(old(intervals), refs, Ratios(ops, counters, resolutions)) && status == ProtoOk
      ensures mode == old(mode) && slots == old(slots) && shifts == old(shifts) && logged == old(logged)
    {
      intervals := StoreAll(intervals, refs, Ratios(ops, counters, resolutions));
      return ProtoOk;
    }

    /** `fmi3SetShiftDecimal`. */
    method SetShiftDecimal(refs: seq<nat>, values: seq<f64>) returns (status: ProtoFmi3Status)
      modifies this
      ensures shifts == Store(old(shifts), refs, values) && status == ProtoOk
      ensures mode == old(mode) && slots == old(slots) && intervals == old(intervals) && logged == old(logged)
    {
      shifts := StoreAll(shifts, refs, values);
      return ProtoOk;
    }

    /** `fmi3SetShiftFraction`. */
    method SetShiftFraction(refs: seq<nat>, counters: seq<int>, resolutions: seq<int>) returns (status: ProtoFmi3Status)
      modifies this
      ensures shifts == Store(old(shifts), refs, Ratios(ops, counters, resolutions)) && status == ProtoOk
      ensures mode == old(mode) && slots == old(slots) && intervals == old(intervals) && logged == old(logged)
    {
      shifts := StoreAll(shifts, refs, Ratios(ops, counters, resolutions));
      return ProtoOk;
    }

    /** `fmi3GetIntervalDecimal`: the stored interval of each reference, or
        null for one without, and qualifier 2 (changed) for each. */
    method GetIntervalDecimal(refs: seq<nat>) returns (status: ProtoFmi3Status, values: seq<Option<f64>>, qualifiers: seq<IntervalQualifier>)
      ensures status == ProtoOk && |values| == |refs| && |qualifiers| == |refs|
      ensures forall i | 0 <= i < |refs| ::
        values[i] == (if refs[i] in intervals then Some(intervals[refs[i]]) else None)
      ensures forall q | q in qualifiers :: q == IntervalChanged
    {
      values := [];
      qualifiers := [];
      var i := 0;
      while i < |refs|
        invariant i <= |refs| && |values| == i && |qualifiers| == i
        invariant forall j | 0 <= j < i ::
          values[j] == (if refs[j] in intervals then Some(intervals[refs[j]]) else None)
        invariant forall q | q in qualifiers :: q == IntervalChanged
      {
        var v := if refs[i] in intervals then Some(intervals[refs[i]]) else None;
        values := values + [v];
        qualifiers := qualifiers + [IntervalChanged];
        i := i + 1;
      }
      return ProtoOk, values, qualifiers;
    }

    /** `fmi3GetShiftDecimal`: the stored shift of each reference, or null. */
    method GetShiftDecimal(refs: seq<nat>) returns (status: ProtoFmi3Status, values: seq<Option<f64>>)
      ensures status == ProtoOk && |values| == |refs|
      ensures forall i | 0 <= i < |refs| ::
        values[i] == (if refs[i] in shifts then Some(shifts[refs[i]]) else None)
    {
      values := [];
      var i := 0;
      while i < |refs|
        invariant i <= |refs| && |values| == i
        invariant forall j | 0 <= j < i ::
          values[j] == (if refs[j] in shifts then Some(shifts[refs[j]]) else None)
      {
        var v := if refs[i] in shifts then Some(shifts[refs[i]]) else None;
        values := values + [v];
        i := i + 1;
      }
      return ProtoOk, values;
    }

    /** `fmi3GetIntervalFraction`: each stored interval's text as a reduced
        fraction, with qualifier 2; the first text that does not parse
        raises. */
    method GetIntervalFraction(refs: seq<nat>)
      returns (outcome: Outcome<(ProtoFmi3Status, seq<int>, seq<int>, seq<IntervalQualifier>)>)
      ensures outcome.Returned? <==>
        forall r | r in refs :: StoredFraction(ops, intervals, r).Success?
      ensures outcome.Returned? ==>
        && outcome.value.0 == ProtoOk
        && |outcome.value.1| == |refs| && |outcome.value.2| == |refs| && |outcome.value.3| == |refs|
        && (forall i | 0 <= i < |refs| ::
              (outcome.value.1[i], outcome.value.2[i]) == StoredFraction(ops, intervals, refs[i]).value)
        && (forall q | q in outcome.value.3 :: q == IntervalChanged)
    {
      var r := StoredFractions(ops, intervals, refs);
      match r
      case Failure(e) =>
        outcome := Threw(e);
      case Success((counters, resolutions)) =>
        var qualifiers := seq(|refs|, _ => IntervalChanged);
        outcome := Returned((ProtoOk, counters, resolutions, qualifiers));
    }

    /** `fmi3GetShiftFraction`. */
    method GetShiftFraction(refs: seq<nat>) returns (outcome: Outcome<(ProtoFmi3Status, seq<int>, seq<int>)>)
      ensures outcome.Returned? <==>
        forall r | r in refs :: StoredFraction(ops, shifts, r).Success?
      ensures outcome.Returned? ==>
        && outcome.value.0 == ProtoOk
        && |outcome.value.1| == |refs| && |outcome.value.2| == |refs|
        && forall i | 0 <= i < |refs| ::
             (outcome.value.1[i], outcome.value.2[i]) == StoredFraction(ops, shifts, refs[i]).value
    {
      var r := StoredFractions(ops, shifts, refs);
      match r
      case Failure(e) =>
        outcome := Threw(e);
      case Success((counters, resolutions)) =>
        outcome := Returned((ProtoOk, counters, resolutions));
    }

    /** `fmi3SerializeFmuState`: the serialized object. */
    method Serialize() returns (status: ProtoFmi3Status, image: Snapshot)
      ensures status == ProtoOk && image == Snapshot(mode, slots, intervals, shifts)
    {
      return ProtoOk, Snapshot(mode, slots, intervals, shifts);
    }

    /** `fmi3DeserializeFmuState`: the mode, every field and both clock maps
        copied from the deserialized object, then outputs, clocks and
        clocked outputs recomputed. */
    method Deserialize(image: Snapshot) returns (status: ProtoFmi3Status)
      requires WellTyped(image.slots)
      modifies this
      ensures Valid() && status == ProtoOk && logged == old(logged)
      ensures Snapshot(mode, slots, intervals, shifts) == Restored(image, ops)
    {
      var r := RestoreSnapshot(image, ops);
      mode, slots, intervals, shifts := r.mode, r.slots, r.intervals, r.shifts;
      return ProtoOk;
    }
  }

  // ------------------------------------------------------ save and restore

  /** Restoring a saved state gives back the mode, the clock maps and every
      field except the outputs, clock_c and clocked_variable_c, which are
      recomputed: the outputs from the restored inputs, and
      clocked_variable_c with a + b added once more. */
  lemma RestoreRecomputes(s: Slots, ops: FloatOps, x: nat)
    requires WellTyped(s) && IsReference(x)
    ensures x in Refresh(s, ops)
    ensures !IsOutput(x) && x != 1003 && x != 1102 ==> Refresh(s, ops)[x] == s[x]
    ensures x == 1102 ==> Refresh(s, ops)[x] == Int(AddInt(s[1102].i, AddInt(s[1100].i, s[1101].i)))
  {
    if x == 1102 {
      assert Fits(1100, s[1100]) && Fits(1101, s[1101]) && Fits(1102, s[1102]);
      RefreshAccumulates(s, ops);
    } else if !IsOutput(x) && x != 1003 {
      RefreshKeeps(s, ops, x);
    }
  }

  /** Only the outputs, clock_c and clocked_variable_c are recomputed. */
  lemma RefreshKeeps(s: Slots, ops: FloatOps, x: nat)
    requires WellTyped(s) && x in s && !IsOutput(x) && x != 1003 && x != 1102
    ensures Refresh(s, ops)[x] == s[x]
  {
    var once := UpdateOutputs(s, ops);
    assert once[x] == s[x];
    var clocked := UpdateClocks(once);
    assert clocked[x] == s[x];
  }

  /** clocked_variable_c grows by clocked_variable_a + clocked_variable_b. */
  lemma RefreshAccumulates(s: Slots, ops: FloatOps)
    requires WellTyped(s) && 1100 in s && 1101 in s && 1102 in s
    requires s[1100].Int? && s[1101].Int? && s[1102].Int?
    ensures Refresh(s, ops)[1102] == Int(AddInt(s[1102].i, AddInt(s[1100].i, s[1101].i)))
  {
    var once := UpdateOutputs(s, ops);
    assert !IsOutput(1100) && !IsOutput(1101) && !IsOutput(1102);
    assert once[1100] == s[1100] && once[1101] == s[1101] && once[1102] == s[1102];
    var clocked := UpdateClocks(once);
    assert clocked[1100] == s[1100] && clocked[1101] == s[1101] && clocked[1102] == s[1102];
  }
}
