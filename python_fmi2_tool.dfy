/** The base class the Python FMI 2.0 backend template gives an FMU's author
    (tool/unifmu/resources/backends/python/fmi2.py): a value reference is
    mapped to an attribute name through `reference_to_attr`, and the name
    to the object's attribute with `getattr`/`setattr`. The lifecycle
    methods the author does not override return ok; the others raise
    `NotImplementedError`. */
module PythonFmi2Tool {
  import opened Wrappers
  import opened Exceptions
  import opened Values
  import opened Batches
  import opened Fmi2Types

  /** The object's attributes, by name. */
  type Attributes = map<string, Value>

  /** `not self.reference_to_attr`: no table was given, or an empty one. */
  predicate Unmapped(table: Option<map<nat, string>>)
  {
    table.None? || table.value == map[]
  }

  /** Looking up every key of a list in order, as a list comprehension
      over a dictionary (`KeyError`) or over `getattr` (`AttributeError`)
      does: the values, or None at the first key that is missing. */
  function LookupAll<K, V>(m: map<K, V>, ks: seq<K>): (r: Option<seq<V>>)
    ensures r.Some? <==> forall i | 0 <= i < |ks| :: ks[i] in m
    ensures r.Some? ==> |r.value| == |ks| && forall i | 0 <= i < |ks| :: r.value[i] == m[ks[i]]
    decreases |ks|
  {
    if |ks| == 0 then Some([])
    else if ks[0] !in m then None
    else match LookupAll(m, ks[1..])
      case None => None
      case Some(rest) => Some([m[ks[0]]] + rest)
  }

  /** The index of the first of the first n names that is a read-only
      attribute, or n when none is: `setattr` raises `AttributeError`
      there. */
  function FirstReadOnly(names: seq<string>, n: nat, readOnly: set<string>): (j: nat)
    requires n <= |names|
    ensures j <= n
    ensures forall k | 0 <= k < j :: names[k] !in readOnly
    ensures j < n ==> names[j] in readOnly
    decreases n
  {
    if n == 0 then 0
    else if FirstReadOnly(names, n - 1, readOnly) < n - 1 then FirstReadOnly(names, n - 1, readOnly)
    else if names[n - 1] in readOnly then n - 1
    else n
  }

  /** `get_xxx`: `RuntimeError` without a table, `KeyError` (not caught)
      for a reference missing from the table, (error, None) for a name
      that is not an attribute, and otherwise (ok, the values in
      reference order). */
  function Got(table: Option<map<nat, string>>, attrs: Attributes, refs: seq<nat>)
    : (r: Outcome<(Fmi2Status, Option<seq<Value>>)>)
    ensures r.Threw? ==> r.exception == RuntimeError || r.exception == KeyError
    ensures r.Returned? ==> r.value.0 == Ok || r.value == (Error, None)
    ensures r.Returned? && r.value.0 == Ok ==>
      !Unmapped(table) && LookupAll(table.value, refs).Some? &&
      r.value.1 == LookupAll(attrs, LookupAll(table.value, refs).value) && r.value.1.Some?
  {
    if Unmapped(table) then Threw(RuntimeError)
    else match LookupAll(table.value, refs)
      case None => Threw(KeyError)
      case Some(names) =>
        match LookupAll(attrs, names)
        case None => Returned((Error, None))
        case Some(values) => Returned((Ok, Some(values)))
  }

  /** Whether every reference is in the table and names an attribute. */
  predicate Readable(table: map<nat, string>, attrs: Attributes, refs: seq<nat>)
  {
    forall i | 0 <= i < |refs| :: refs[i] in table && table[refs[i]] in attrs
  }

  /** The getter answers (ok, values) exactly when the table is given and
      every reference is readable, and the values are then the
      attributes the references name, in reference order. */
  lemma GotOk(table: Option<map<nat, string>>, attrs: Attributes, refs: seq<nat>)
    ensures Got(table, attrs, refs).Returned? && Got(table, attrs, refs).value.0 == Ok
        <==> !Unmapped(table) && Readable(table.value, attrs, refs)
    ensures !Unmapped(table) && Readable(table.value, attrs, refs) ==>
      var values := Got(table, attrs, refs).value.1.value;
      |values| == |refs| && forall i | 0 <= i < |refs| :: values[i] == attrs[table.value[refs[i]]]
  {
    if !Unmapped(table) && LookupAll(table.value, refs).Some? {
      var names := LookupAll(table.value, refs).value;
      assert forall i | 0 <= i < |refs| :: names[i] == table.value[refs[i]];
    }
  }

  /** A reference missing from the table raises rather than answering
      error. */
  lemma UnknownReferenceRaises(table: Option<map<nat, string>>, attrs: Attributes, refs: seq<nat>, i: nat)
    requires !Unmapped(table) && i < |refs| && refs[i] !in table.value
    ensures Got(table, attrs, refs) == Threw(KeyError)
  {
  }

  /** `set_xxx`: `RuntimeError` without a table and `KeyError` for a
      reference missing from the table, both before any write; otherwise
      the zipped pairs are written in order up to the first read-only
      attribute, where the `AttributeError` is answered with error. */
  function SetResult(table: Option<map<nat, string>>, attrs: Attributes, readOnly: set<string>,
                     refs: seq<nat>, values: seq<Value>): (r: (Outcome<Fmi2Status>, Attributes))
  {
    if Unmapped(table) then (Threw(RuntimeError), attrs)
    else match LookupAll(table.value, refs)
      case None => (Threw(KeyError), attrs)
      case Some(names) =>
        var j := FirstReadOnly(names, Min(|names|, |values|), readOnly);
        (if j < Min(|names|, |values|) then Returned(Error) else Returned(Ok),
         Store(attrs, names[..j], values[..j]))
  }

  /** A setter changes nothing unless every reference is in the table. */
  lemma SetRaisesFirst(table: Option<map<nat, string>>, attrs: Attributes, readOnly: set<string>,
                       refs: seq<nat>, values: seq<Value>, i: nat)
    requires !Unmapped(table) && i < |refs| && refs[i] !in table.value
    ensures SetResult(table, attrs, readOnly, refs, values) == (Threw(KeyError), attrs)
  {
  }

  /** A setter whose references all name writable attributes answers ok,
      and an attribute then reads as the last value written to it. */
  lemma SetThenGet(table: Option<map<nat, string>>, attrs: Attributes, readOnly: set<string>,
                   refs: seq<nat>, values: seq<Value>, i: nat)
    requires !Unmapped(table)
    requires forall k | 0 <= k < |refs| :: refs[k] in table.value && table.value[refs[k]] !in readOnly
    requires i < Min(|refs|, |values|)
    requires forall k | i < k < Min(|refs|, |values|) :: table.value[refs[k]] != table.value[refs[i]]
    ensures SetResult(table, attrs, readOnly, refs, values).0 == Returned(Ok)
    ensures Got(table, SetResult(table, attrs, readOnly, refs, values).1, [refs[i]]) == Returned((Ok, Some([values[i]])))
  {
    var names := LookupAll(table.value, refs).value;
    var n := Min(|names|, |values|);
    var j := FirstReadOnly(names, n, readOnly);
    assert j == n;
    assert names[..n] == names[..n][..n];
    StoreLast(attrs, names[..j], values[..j], i);
    var after := SetResult(table, attrs, readOnly, refs, values).1;
    assert [refs[i]][1..] == [] && [names[i]][1..] == [];
    assert LookupAll(table.value, [refs[i]]) == Some([names[i]] + []);
    assert LookupAll(after, [names[i]]) == Some([values[i]] + []);
    assert [values[i]] + [] == [values[i]];
    assert Got(table, after, [refs[i]]) == Returned((Ok, Some([values[i]])));
  }

  /** A read-only attribute stops the batch: the pairs before it stay
      written and the answer is error. */
  lemma ReadOnlyStops(table: Option<map<nat, string>>, attrs: Attributes, readOnly: set<string>,
                      refs: seq<nat>, values: seq<Value>)
    requires !Unmapped(table) && |refs| > 0 && |values| > 0
    requires forall k | 0 <= k < |refs| :: refs[k] in table.value
    requires table.value[refs[0]] in readOnly
    ensures SetResult(table, attrs, readOnly, refs, values) == (Returned(Error), attrs)
  {
    var names := LookupAll(table.value, refs).value;
    assert FirstReadOnly(names, Min(|names|, |values|), readOnly) == 0;
  }

  /** The write loop of `set_xxx`: `setattr` for each zipped pair, until
      the first read-only attribute. */
  method WriteAttributes(attrs: Attributes, readOnly: set<string>, names: seq<string>, values: seq<Value>)
    returns (i: nat, written: Attributes)
    ensures i == FirstReadOnly(names, Min(|names|, |values|), readOnly)
    ensures written == Store(attrs, names[..i], values[..i])
  {
    ghost var j := FirstReadOnly(names, Min(|names|, |values|), readOnly);
    written := attrs;
    i := 0;
    assert names[..0] == [] && values[..0] == [];
    while i < |names| && i < |values| && names[i] !in readOnly
      invariant i <= j
      invariant written == Store(attrs, names[..i], values[..i])
    {
      assert names[..i + 1] == names[..i] + [names[i]] && values[..i + 1] == values[..i] + [values[i]];
      StoreSnoc(attrs, names[..i], values[..i], names[i], values[i]);
      written := written[names[i] := values[i]];
      i := i + 1;
    }
  }

  /** The template's base class, holding the reference table and the
      object's attributes. */
  class Fmu {
    const referenceToAttr: Option<map<nat, string>>
    const readOnly: set<string>
    var attributes: Attributes

    /** The constructor stores the table; the derived class's constructor
        gives the attributes their initial values. */
    constructor(referenceToAttr: Option<map<nat, string>>, readOnly: set<string>, attributes: Attributes)
      ensures this.referenceToAttr == referenceToAttr && this.readOnly == readOnly
      ensures this.attributes == attributes
    {
      this.referenceToAttr := referenceToAttr;
      this.readOnly := readOnly;
      this.attributes := attributes;
    }

    /** `get_xxx`. */
    method GetValues(refs: seq<nat>) returns (r: Outcome<(Fmi2Status, Option<seq<Value>>)>)
      ensures r.Returned? && r.value.0 == Ok <==> !Unmapped(referenceToAttr) && Readable(referenceToAttr.value, attributes, refs)
      ensures r.Returned? && r.value.0 == Ok ==>
        r.value.1.Some? && |r.value.1.value| == |refs| &&
        forall i | 0 <= i < |refs| :: r.value.1.value[i] == attributes[referenceToAttr.value[refs[i]]]
    {
      GotOk(referenceToAttr, attributes, refs);
      return Got(referenceToAttr, attributes, refs);
    }

    /** `set_xxx`. */
    method SetValues(refs: seq<nat>, values: seq<Value>) returns (outcome: Outcome<Fmi2Status>)
      modifies this
      ensures (outcome, attributes) == SetResult(referenceToAttr, old(attributes), readOnly, refs, values)
    {
      if Unmapped(referenceToAttr) {
        return Threw(RuntimeError);
      }
      var names := LookupAll(referenceToAttr.value, refs);
      if names.None? {
        return Threw(KeyError);
      }
      var i;
      i, attributes := WriteAttributes(attributes, readOnly, names.value, values);
      if i < |names.value| && i < |values| {
        outcome := Returned(Error);
      } else {
        outcome := Returned(Ok);
      }
    }

    /** `set_debug_logging`, `setup_experiment`,
        `enter_initialization_mode`, `exit_initialization_mode`,
        `terminate`, `reset` and `do_step` return ok and change nothing
        until overridden. */
    method Lifecycle() returns (status: Fmi2Status)
      ensures status == Ok
    {
      return Ok;
    }

    /** `serialize`, `deserialize`, `get_directional_derivative`,
        `set_input_derivatives`, `get_output_derivatives`, `cancel_step`
        and `get_xxx_status` raise until overridden. */
    method Unimplemented() returns (outcome: Outcome<Fmi2Status>)
      ensures outcome == Threw(NotImplementedError)
    {
      return Threw(NotImplementedError);
    }
  }
}
