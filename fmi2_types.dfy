/** FMI 2.0 enumerations of the Rust API layer (fmiapi/src/fmi2/fmi2_types.rs):
    the status codes, the log categories with their string names, and the
    status kinds asked for by fmi2GetStatus and its typed variants. */
module Fmi2Types {
  import opened Wrappers

  /** fmi2Status, declared in this order with the values 0..5. */
  datatype Fmi2Status = Ok | Warning | Discard | Error | Fatal | Pending

  function StatusValue(s: Fmi2Status): (n: int)
    ensures 0 <= n <= 5
  {
    match s
    case Ok => 0
    case Warning => 1
    case Discard => 2
    case Error => 3
    case Fatal => 4
    case Pending => 5
  }

  /** `Fmi2Status::try_from(i32)`: defined exactly on 0..5. */
  function StatusFromValue(n: int): (r: Option<Fmi2Status>)
    ensures r.Some? <==> 0 <= n <= 5
    ensures r.Some? ==> StatusValue(r.value) == n
  {
    if n == 0 then Some(Ok)
    else if n == 1 then Some(Warning)
    else if n == 2 then Some(Discard)
    else if n == 3 then Some(Error)
    else if n == 4 then Some(Fatal)
    else if n == 5 then Some(Pending)
    else None
  }

  /** fmi2LogCategory; `LogAll` is the `Default`. */
  datatype Fmi2LogCategory =
    | LogEvents
    | LogSingularLinearSystems
    | LogNonlinearSystems
    | LogDynamicStateSelection
    | LogStatusWarning
    | LogStatusDiscard
    | LogStatusError
    | LogStatusFatal
    | LogStatusPending
    | LogAll
    | LogUserDefined(name: string)

  const DefaultCategory: Fmi2LogCategory := LogAll

  /** The names of the ten predefined categories. */
  const PredefinedNames: set<string> := {
    "logEvents", "logSingularLinearSystems", "logNonlinearSystems",
    "logDynamicStateSelection", "logStatusWarning", "logStatusDiscard",
    "logStatusError", "logStatusFatal", "logStatusPending", "logAll"
  }

  /** `str_name`. */
  function StrName(c: Fmi2LogCategory): (s: string)
    ensures !c.LogUserDefined? ==> s in PredefinedNames
    ensures c.LogUserDefined? ==> s == c.name
  {
    match c
    case LogEvents => "logEvents"
    case LogSingularLinearSystems => "logSingularLinearSystems"
    case LogNonlinearSystems => "logNonlinearSystems"
    case LogDynamicStateSelection => "logDynamicStateSelection"
    case LogStatusWarning => "logStatusWarning"
    case LogStatusDiscard => "logStatusDiscard"
    case LogStatusError => "logStatusError"
    case LogStatusFatal => "logStatusFatal"
    case LogStatusPending => "logStatusPending"
    case LogAll => "logAll"
    case LogUserDefined(name) => name
  }

  /** `From<&str>`: the ten predefined names give their variants, every other
      string a user-defined category; naming the result gives the string back. */
  function FromStr(s: string): (c: Fmi2LogCategory)
    ensures StrName(c) == s
    ensures c.LogUserDefined? <==> s !in PredefinedNames
  {
    match s
    case "logEvents" => LogEvents
    case "logSingularLinearSystems" => LogSingularLinearSystems
    case "logNonlinearSystems" => LogNonlinearSystems
    case "logDynamicStateSelection" => LogDynamicStateSelection
    case "logStatusWarning" => LogStatusWarning
    case "logStatusDiscard" => LogStatusDiscard
    case "logStatusError" => LogStatusError
    case "logStatusFatal" => LogStatusFatal
    case "logStatusPending" => LogStatusPending
    case "logAll" => LogAll
    case _ => LogUserDefined(s)
  }

  lemma FromStrOfStrName(c: Fmi2LogCategory)
    requires c.LogUserDefined? ==> c.name !in PredefinedNames
    ensures FromStr(StrName(c)) == c
  {
  }

  /** fmi2StatusKind with the values 0..3. */
  datatype Fmi2StatusKind = DoStepStatus | PendingStatus | LastSuccessfulTime | Terminated

  function StatusKindValue(k: Fmi2StatusKind): int
  {
    match k
    case DoStepStatus => 0
    case PendingStatus => 1
    case LastSuccessfulTime => 2
    case Terminated => 3
  }

  /** `Fmi2StatusKind::try_from(i32)`: exactly 0..3 are accepted. */
  function StatusKindFromValue(n: int): (r: Option<Fmi2StatusKind>)
    ensures r.Some? <==> 0 <= n <= 3
    ensures r.Some? ==> StatusKindValue(r.value) == n
  {
    if n == 0 then Some(DoStepStatus)
    else if n == 1 then Some(PendingStatus)
    else if n == 2 then Some(LastSuccessfulTime)
    else if n == 3 then Some(Terminated)
    else None
  }
}
