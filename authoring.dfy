/** The model-description authoring registry of the tool
    (tool/unifmu/authoring.py, `Fmi2FMU`): variables are registered in
    definition order under unique names, log categories are declared once,
    display units hang off declared base units, dependencies are collected
    per dependent variable, and the model description gives each variable
    its definition index as value reference and lists the outputs by their
    1-based index. */
module Authoring {
  import opened Wrappers
  import opened Exceptions
  import opened Floats
  import opened Values

  datatype Causality = Parameter | CalculatedParameter | Input | Output | Local | Independent
  datatype Variability = Constant | Fixed | Tunable | Discrete | Continuous
  datatype Initial = Exact | Approx | Calculated

  /** The `type` a variable is registered with, which becomes the tag of
      the element under its `ScalarVariable`: a Python type object (the
      builtin `type` the `add_real_*` adders pass, or a class such as
      `float`), or a tag name such as "Real". Only a tag name can be
      serialised. */
  datatype TypeTag = TypeObject | TagName(tag: string)

  /** `Fmi2Variable`, with the attributes the registry and the model
      description look at; an absent keyword argument is `None`. */
  datatype Variable = Variable(name: string, tag: TypeTag, causality: Causality,
                               variability: Variability, initial: Option<Initial>,
                               start: Option<Value>, description: Option<string>)

  datatype LogCategory = LogCategory(name: string, description: Option<string>)

  /** A display unit: its name, scaling factor and offset. */
  datatype DisplayUnit = DisplayUnit(name: string, factor: Option<f64>, offset: Option<f64>)

  /** The entry of `units` for a base unit: the exponents it was declared
      with and the display unit declared last for it. */
  datatype Unit = Unit(exponents: Option<map<string, int>>, display: Option<DisplayUnit>)

  /** One `(dependency, kind)` pair of `dependencies[dependent]`. */
  datatype Dependency = Dependency(on: string, kind: string)

  /** The kinds `declare_dependency` accepts. */
  const DependencyKinds: set<string> := {"constant", "dependent"}

  /** A `ScalarVariable` element of the model description: its 1-based index
      (the comment before it), its attributes, the tag of its type element
      and the start value written into that element. */
  datatype ScalarVariable = ScalarVariable(index: nat, name: string, valueReference: nat,
                                           variability: Variability, causality: Causality,
                                           initial: Option<Initial>, description: Option<string>,
                                           valueType: TypeTag, start: Option<Value>)

  /** What `get_model_description` writes: the log category names, the
      scalar variables, and the indices listed under `Outputs` and under
      `InitialUnknowns`. */
  datatype Description = Description(categories: seq<string>, variables: seq<ScalarVariable>,
                                     outputs: seq<nat>, initialUnknowns: seq<nat>)

  /** A variable must carry a start value when its initial is exact or
      approx, or when it is an input. */
  predicate NeedsStart(causality: Causality, initial: Option<Initial>)
  {
    initial == Some(Exact) || initial == Some(Approx) || causality == Input
  }

  /** The variable needs a start value and has none: the model description
      refuses it, and so does the registry once its check is corrected. */
  predicate MissingStart(v: Variable)
  {
    NeedsStart(v.causality, v.initial) && v.start.None?
  }

  /** The start check of `_add_variable` as written: `and` binds tighter
      than `or`, so any exact or approx variable is refused, with or
      without a start value. */
  predicate RefusedAsWritten(v: Variable)
  {
    v.initial == Some(Exact) || v.initial == Some(Approx) || (v.causality == Input && v.start.None?)
  }

  /** The check as written refuses every variable the corrected check
      refuses, and refuses more exactly the exact or approx variables that
      do have a start value. */
  lemma RefusedAsWrittenExactly(v: Variable)
    ensures MissingStart(v) ==> RefusedAsWritten(v)
    ensures (RefusedAsWritten(v) && !MissingStart(v))
      <==> (v.initial in {Some(Exact), Some(Approx)} && v.start.Some?)
  {
  }

  /** `add_real_parameter` registers an exact parameter with its start
      value: the check as written refuses it, the corrected check accepts
      it. */
  lemma ParameterRefusedAsWritten(name: string, tag: TypeTag, variability: Variability, start: Value,
                                  description: Option<string>)
    ensures var v := Variable(name, tag, Parameter, variability, Some(Exact), Some(start), description);
      RefusedAsWritten(v) && !MissingStart(v)
  {
  }

  predicate Named(vs: seq<Variable>, name: string)
  {
    exists i | 0 <= i < |vs| :: vs[i].name == name
  }

  predicate UniqueNames(vs: seq<Variable>)
  {
    forall i, j | 0 <= i < j < |vs| :: vs[i].name != vs[j].name
  }

  predicate Declared(cs: seq<LogCategory>, name: string)
  {
    exists i | 0 <= i < |cs| :: cs[i].name == name
  }

  predicate UniqueCategories(cs: seq<LogCategory>)
  {
    forall i, j | 0 <= i < j < |cs| :: cs[i].name != cs[j].name
  }

  /** Every variable has a tag name as its type, so the model description
      can be serialised. */
  predicate Tagged(vs: seq<Variable>)
  {
    forall i | 0 <= i < |vs| :: vs[i].tag.TagName?
  }

  /** Every variable that needs a start value has one. */
  predicate Started(vs: seq<Variable>)
  {
    forall i | 0 <= i < |vs| :: !MissingStart(vs[i])
  }

  predicate KnownKinds(ds: seq<Dependency>)
  {
    forall j | 0 <= j < |ds| :: ds[j].kind in DependencyKinds
  }

  /** The dependencies recorded for `dependent` so far. */
  function DependenciesOf(deps: map<string, seq<Dependency>>, dependent: string): seq<Dependency>
  {
    if dependent in deps then deps[dependent] else []
  }

  /** The element written for the variable defined at position `i`. */
  function Scalar(v: Variable, i: nat): ScalarVariable
  {
    ScalarVariable(i + 1, v.name, i, v.variability, v.causality, v.initial, v.description, v.tag,
                   if NeedsStart(v.causality, v.initial) then v.start else None)
  }

  /** The elements written for the variables, in definition order. */
  function Scalars(vs: seq<Variable>): (r: seq<ScalarVariable>)
    ensures |r| == |vs|
  {
    seq(|vs|, i requires 0 <= i < |vs| => Scalar(vs[i], i))
  }

  /** Every variable's value reference is its definition index, the
      variables keep their names and order, and a start value is written
      exactly for the variables that need one. */
  lemma ScalarsInOrder(vs: seq<Variable>, i: nat)
    requires i < |vs|
    ensures Scalars(vs)[i].valueReference == i && Scalars(vs)[i].index == i + 1
    ensures Scalars(vs)[i].name == vs[i].name && Scalars(vs)[i].valueType == vs[i].tag
    ensures Scalars(vs)[i].start.Some? <==> (NeedsStart(vs[i].causality, vs[i].initial) && vs[i].start.Some?)
  {
  }

  /** With unique names, the element named like the `i`-th variable is
      exactly the one whose value reference is `i`: references identify
      variables. */
  lemma ReferenceByName(vs: seq<Variable>, i: nat, j: nat)
    requires UniqueNames(vs) && i < |vs| && j < |vs|
    ensures Scalars(vs)[j].name == vs[i].name <==> Scalars(vs)[j].valueReference == i
  {
    if j < i {
      assert vs[j].name != vs[i].name;
    } else if i < j {
      assert vs[i].name != vs[j].name;
    }
  }

  /** Defining a variable leaves the references of those defined before it
      as they were, and gives it the next one. */
  lemma ReferencesStable(vs: seq<Variable>, v: Variable)
    ensures Scalars(vs + [v])[..|vs|] == Scalars(vs)
    ensures Scalars(vs + [v])[|vs|].valueReference == |vs|
  {
    var l, r := Scalars(vs + [v])[..|vs|], Scalars(vs);
    forall i | 0 <= i < |vs|
      ensures l[i] == r[i]
    {
      assert (vs + [v])[i] == vs[i];
    }
  }

  /** The 1-based indices of the outputs, in definition order. */
  function OutputIndices(vs: seq<Variable>): (r: seq<nat>)
    ensures forall k | k in r :: 1 <= k <= |vs| && vs[k - 1].causality == Output
    ensures forall i | 0 <= i < |vs| && vs[i].causality == Output :: i + 1 in r
    ensures forall a, b | 0 <= a < b < |r| :: r[a] < r[b]
  {
    if vs == [] then []
    else
      var front := OutputIndices(vs[..|vs| - 1]);
      assert forall i | 0 <= i < |vs| - 1 :: vs[..|vs| - 1][i] == vs[i];
      assert forall a | 0 <= a < |front| :: front[a] in front;
      if vs[|vs| - 1].causality == Output then front + [|vs|] else front
  }

  function CategoryNames(cs: seq<LogCategory>): (r: seq<string>)
    ensures |r| == |cs| && forall i | 0 <= i < |cs| :: r[i] == cs[i].name
  {
    seq(|cs|, i requires 0 <= i < |cs| => cs[i].name)
  }

  /** `Fmi2FMU`: the registry an FMU author fills in. */
  class Fmi2Fmu {
    const modelName: string
    const needsExecutionTool: bool
    var variables: seq<Variable>
    var logCategories: seq<LogCategory>
    var units: map<string, Unit>
    var dependencies: map<string, seq<Dependency>>

    /** Names are unique, every variable that needs a start value has one,
        categories are declared once, and every recorded dependency has a
        known kind. */
    ghost predicate Valid()
      reads this
    {
      && UniqueNames(variables)
      && Started(variables)
      && UniqueCategories(logCategories)
      && (forall d | d in dependencies :: KnownKinds(dependencies[d]))
    }

    /** An empty registry; the execution tool is needed for the languages
        run by a backend process. */
    constructor(modelName: string, language: string)
      ensures Valid()
      ensures this.modelName == modelName
      ensures needsExecutionTool <==> language in {"python", "java", "csharp"}
      ensures variables == [] && logCategories == [] && units == map[] && dependencies == map[]
    {
      this.modelName := modelName;
      needsExecutionTool := language in {"python", "java", "csharp"};
      variables := [];
      logCategories := [];
      units := map[];
      dependencies := map[];
    }

    /** `_add_variable` with the start check corrected: a duplicate name or
        a missing start value raises `ValueError` and leaves the registry
        as it was; otherwise the variable is appended. */
    method AddVariable(v: Variable) returns (r: Outcome<()>)
      requires Valid()
      modifies this
      ensures Valid()
      ensures r.Returned? <==> !Named(old(variables), v.name) && !MissingStart(v)
      ensures r.Threw? ==> r.exception == ValueError && variables == old(variables)
      ensures r.Returned? ==> variables == old(variables) + [v]
      ensures logCategories == old(logCategories) && units == old(units)
      ensures dependencies == old(dependencies)
    {
      if Named(variables, v.name) || MissingStart(v) {
        return Threw(ValueError);
      }
      variables := variables + [v];
      r := Returned(());
    }

    /** `_add_variable` as written: exact and approx variables are refused
        even with a start value. */
    method AddVariableAsWritten(v: Variable) returns (r: Outcome<()>)
      requires Valid()
      modifies this
      ensures Valid()
      ensures r.Returned? <==> !Named(old(variables), v.name) && !RefusedAsWritten(v)
      ensures r.Threw? ==> r.exception == ValueError && variables == old(variables)
      ensures r.Returned? ==> variables == old(variables) + [v]
      ensures logCategories == old(logCategories) && units == old(units)
      ensures dependencies == old(dependencies)
    {
      if Named(variables, v.name) || RefusedAsWritten(v) {
        return Threw(ValueError);
      }
      RefusedAsWrittenExactly(v);
      variables := variables + [v];
      r := Returned(());
    }

    /** `add_real_input` as written: an input with no initial and the given
        start, registered with the builtin `type` as its type. */
    method AddRealInput(name: string, start: Value, variability: Variability,
                        description: Option<string>) returns (r: Outcome<()>)
      requires Valid()
      modifies this
      ensures Valid()
      ensures r.Returned? <==> !Named(old(variables), name)
      ensures r.Returned? ==> variables == old(variables) + [Variable(name, TypeObject, Input, variability, None, Some(start), description)]
      ensures r.Threw? ==> r.exception == ValueError && variables == old(variables)
      ensures logCategories == old(logCategories) && units == old(units)
      ensures dependencies == old(dependencies)
    {
      r := AddVariableAsWritten(Variable(name, TypeObject, Input, variability, None, Some(start), description));
    }

    /** `add_real_input` corrected: the input is registered with the tag
        name "Real" as its type. */
    method AddRealInputCorrected(name: string, start: Value, variability: Variability,
                                 description: Option<string>) returns (r: Outcome<()>)
      requires Valid()
      modifies this
      ensures Valid()
      ensures r.Returned? <==> !Named(old(variables), name)
      ensures r.Returned? ==> variables == old(variables) + [Variable(name, TagName("Real"), Input, variability, None, Some(start), description)]
      ensures r.Threw? ==> r.exception == ValueError && variables == old(variables)
      ensures logCategories == old(logCategories) && units == old(units)
      ensures dependencies == old(dependencies)
    {
      r := AddVariable(Variable(name, TagName("Real"), Input, variability, None, Some(start), description));
    }

    /** `add_real_parameter` as written: the parameter is exact, so the
        start check as written raises `ValueError` whatever the name and
        the start value, and nothing is registered (its type would be the
        builtin `type`). */
    method AddRealParameter(name: string, variability: Variability, start: Value,
                            description: Option<string>) returns (r: Outcome<()>)
      requires Valid()
      modifies this
      ensures Valid()
      ensures r == Threw(ValueError) && variables == old(variables)
      ensures logCategories == old(logCategories) && units == old(units)
      ensures dependencies == old(dependencies)
    {
      r := AddVariableAsWritten(Variable(name, TypeObject, Parameter, variability, Some(Exact), Some(start), description));
    }

    /** `add_real_parameter` with the start check corrected: an exact
        parameter with the given start and the tag name "Real" as type. */
    method AddRealParameterCorrected(name: string, variability: Variability, start: Value,
                                     description: Option<string>) returns (r: Outcome<()>)
      requires Valid()
      modifies this
      ensures Valid()
      ensures r.Returned? <==> !Named(old(variables), name)
      ensures r.Returned? ==> variables == old(variables) + [Variable(name, TagName("Real"), Parameter, variability, Some(Exact), Some(start), description)]
      ensures r.Threw? ==> r.exception == ValueError && variables == old(variables)
      ensures logCategories == old(logCategories) && units == old(units)
      ensures dependencies == old(dependencies)
    {
      r := AddVariable(Variable(name, TagName("Real"), Parameter, variability, Some(Exact), Some(start), description));
    }

    /** `add_real_output` as written: an output with the given initial and
        start is registered only when its name is new and its initial is
        calculated; an exact or approx output raises `ValueError` although
        it carries a start value. Its type is the builtin `type`. */
    method AddRealOutput(name: string, start: Value, initial: Initial, variability: Variability,
                         description: Option<string>) returns (r: Outcome<()>)
      requires Valid()
      modifies this
      ensures Valid()
      ensures r.Returned? <==> !Named(old(variables), name) && initial == Calculated
      ensures r.Returned? ==> variables == old(variables) + [Variable(name, TypeObject, Output, variability, Some(initial), Some(start), description)]
      ensures r.Threw? ==> r.exception == ValueError && variables == old(variables)
      ensures logCategories == old(logCategories) && units == old(units)
      ensures dependencies == old(dependencies)
    {
      r := AddVariableAsWritten(Variable(name, TypeObject, Output, variability, Some(initial), Some(start), description));
    }

    /** `add_real_output` with the start check corrected: an output with
        the given initial and start and the tag name "Real" as type. */
    method AddRealOutputCorrected(name: string, start: Value, initial: Initial, variability: Variability,
                                  description: Option<string>) returns (r: Outcome<()>)
      requires Valid()
      modifies this
      ensures Valid()
      ensures r.Returned? <==> !Named(old(variables), name)
      ensures r.Returned? ==> variables == old(variables) + [Variable(name, TagName("Real"), Output, variability, Some(initial), Some(start), description)]
      ensures r.Threw? ==> r.exception == ValueError && variables == old(variables)
      ensures logCategories == old(logCategories) && units == old(units)
      ensures dependencies == old(dependencies)
    {
      r := AddVariable(Variable(name, TagName("Real"), Output, variability, Some(initial), Some(start), description));
    }

    /** `add_real_local_variable`: a local variable with the caller's type
        and without a start value, so only a calculated one is accepted. */
    method AddRealLocalVariable(name: string, tag: TypeTag, variability: Variability, initial: Initial,
                                description: Option<string>) returns (r: Outcome<()>)
      requires Valid()
      modifies this
      ensures Valid()
      ensures r.Returned? <==> !Named(old(variables), name) && initial == Calculated
      ensures r.Returned? ==> variables == old(variables) + [Variable(name, tag, Local, variability, Some(initial), None, description)]
      ensures r.Threw? ==> r.exception == ValueError && variables == old(variables)
      ensures logCategories == old(logCategories) && units == old(units)
      ensures dependencies == old(dependencies)
    {
      r := AddVariableAsWritten(Variable(name, tag, Local, variability, Some(initial), None, description));
    }

    /** `add_independent_variable` omits the type, variability and initial
        arguments `_add_variable` requires, so the call raises `TypeError`
        before anything is registered. */
    method AddIndependentVariable(name: string, description: Option<string>) returns (r: Outcome<()>)
      ensures r == Threw(TypeError)
    {
      r := Threw(TypeError);
    }

    /** `declare_log_category`: a name declared before raises `ValueError`;
        otherwise the category is appended. */
    method DeclareLogCategory(name: string, description: Option<string>) returns (r: Outcome<()>)
      requires Valid()
      modifies this
      ensures Valid()
      ensures r.Returned? <==> !Declared(old(logCategories), name)
      ensures r.Threw? ==> r.exception == ValueError && logCategories == old(logCategories)
      ensures r.Returned? ==> logCategories == old(logCategories) + [LogCategory(name, description)]
      ensures variables == old(variables) && units == old(units)
      ensures dependencies == old(dependencies)
    {
      if Declared(logCategories, name) {
        return Threw(ValueError);
      }
      logCategories := logCategories + [LogCategory(name, description)];
      r := Returned(());
    }

    /** `declare_base_unit`: (re)sets the exponents of the unit and keeps a
        display unit declared for it earlier. */
    method DeclareBaseUnit(name: string, exponents: Option<map<string, int>>)
      requires Valid()
      modifies this
      ensures Valid()
      ensures name in units && units[name].exponents == exponents
      ensures units == old(units)[name := Unit(exponents, if name in old(units) then old(units)[name].display else None)]
      ensures variables == old(variables) && logCategories == old(logCategories)
      ensures dependencies == old(dependencies)
    {
      var display := if name in units then units[name].display else None;
      units := units[name := Unit(exponents, display)];
    }

    /** `declare_display_unit`: an undeclared base unit raises `ValueError`;
        otherwise the display unit replaces the one declared before for
        that base unit. */
    method DeclareDisplayUnit(baseUnit: string, name: string, factor: Option<f64>, offset: Option<f64>)
      returns (r: Outcome<()>)
      requires Valid()
      modifies this
      ensures Valid()
      ensures r.Returned? <==> baseUnit in old(units)
      ensures r.Threw? ==> r.exception == ValueError && units == old(units)
      ensures r.Returned? ==>
        units == old(units)[baseUnit := old(units)[baseUnit].(display := Some(DisplayUnit(name, factor, offset)))]
      ensures variables == old(variables) && logCategories == old(logCategories)
      ensures dependencies == old(dependencies)
    {
      if baseUnit !in units {
        return Threw(ValueError);
      }
      units := units[baseUnit := units[baseUnit].(display := Some(DisplayUnit(name, factor, offset)))];
      r := Returned(());
    }

    /** `declare_dependency`: a kind other than constant or dependent raises
        `ValueError`; otherwise `(dependency, kind)` is appended to the list
        of `dependent`. Neither name is checked against the variables. */
    method DeclareDependency(dependent: string, dependency: string, kind: string) returns (r: Outcome<()>)
      requires Valid()
      modifies this
      ensures Valid()
      ensures r.Returned? <==> kind in DependencyKinds
      ensures r.Threw? ==> r.exception == ValueError && dependencies == old(dependencies)
      ensures r.Returned? ==>
        dependencies == old(dependencies)[dependent := DependenciesOf(old(dependencies), dependent) + [Dependency(dependency, kind)]]
      ensures variables == old(variables) && logCategories == old(logCategories) && units == old(units)
    {
      if kind !in DependencyKinds {
        return Threw(ValueError);
      }
      dependencies := dependencies[dependent := DependenciesOf(dependencies, dependent) + [Dependency(dependency, kind)]];
      r := Returned(());
    }

    /** `get_model_description`, up to the XML text: the variables are
        written in definition order with their index as value reference; a
        variable that needs a start value and has none raises `ValueError`
        while the tree is built, and a type that is not a tag name raises
        `TypeError` when the tree is serialised. A valid registry whose
        variables all have tag names always has a description. */
    method ModelDescription() returns (r: Outcome<Description>)
      ensures r == Threw(ValueError) <==> !Started(variables)
      ensures r == Threw(TypeError) <==> Started(variables) && !Tagged(variables)
      ensures r.Returned? <==> Started(variables) && Tagged(variables)
      ensures r.Returned? ==>
        r.value == Description(CategoryNames(logCategories), Scalars(variables),
                               OutputIndices(variables), OutputIndices(variables))
      ensures Valid() && Tagged(variables) ==> r.Returned?
    {
      var written: seq<ScalarVariable> := [];
      var k := 0;
      while k < |variables|
        invariant 0 <= k <= |variables|
        invariant |written| == k
        invariant forall j | 0 <= j < k :: written[j] == Scalar(variables[j], j)
        invariant forall j | 0 <= j < k :: !MissingStart(variables[j])
      {
        var v := variables[k];
        if MissingStart(v) {
          return Threw(ValueError);
        }
        written := written + [Scalar(v, k)];
        k := k + 1;
      }
      if exists i | 0 <= i < |variables| :: variables[i].tag.TypeObject? {
        return Threw(TypeError);
      }
      assert written == Scalars(variables);
      var outputs := OutputIndices(variables);
      r := Returned(Description(CategoryNames(logCategories), written, outputs, outputs));
    }
  }

  /** An FMU with one input registered by `add_real_input` as written has
      no model description: serialising the builtin `type` as a tag raises
      `TypeError`. */
  method DescribeInputAsWritten(start: Value) returns (r: Outcome<Description>)
    ensures r == Threw(TypeError)
  {
    var fmu := new Fmi2Fmu("model", "python");
    var added := fmu.AddRealInput("u", start, Continuous, None);
    assert fmu.variables[0].tag == TypeObject;
    r := fmu.ModelDescription();
  }

  /** With the tag name "Real", the same FMU is described: one real input
      with value reference 0 and its start value. */
  method DescribeInputCorrected(start: Value) returns (r: Outcome<Description>)
    ensures r.Returned?
    ensures r.value.variables == [ScalarVariable(1, "u", 0, Continuous, Input, None, None, TagName("Real"), Some(start))]
  {
    var fmu := new Fmi2Fmu("model", "python");
    var added := fmu.AddRealInputCorrected("u", start, Continuous, None);
    r := fmu.ModelDescription();
    assert Scalars(fmu.variables)[0] == Scalar(fmu.variables[0], 0);
  }
}
