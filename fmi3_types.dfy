/** FMI 3.0 enumerations of the Rust API layer (fmiapi/src/fmi3/fmi3_types.rs):
    the status codes, the log categories with their string names, and the
    interval qualifier. */
module Fmi3Types {
  import opened Wrappers
  import opened Logging

  /** fmi3Status, declared in this order with the values 0..4. */
  datatype Fmi3Status = Fmi3OK | Fmi3Warning | Fmi3Discard | Fmi3Error | Fmi3Fatal

  /** The `#[repr(i32)]` value of a status. */
  function StatusValue(s: Fmi3Status): (n: int)
    ensures 0 <= n <= 4
  {
    match s
    case Fmi3OK => 0
    case Fmi3Warning => 1
    case Fmi3Discard => 2
    case Fmi3Error => 3
    case Fmi3Fatal => 4
  }

  /** `Fmi3Status::try_from(i32)`: defined exactly on 0..4. */
  function StatusFromValue(n: int): (r: Option<Fmi3Status>)
    ensures r.Some? <==> 0 <= n <= 4
    ensures r.Some? ==> StatusValue(r.value) == n
  {
    if n == 0 then Some(Fmi3OK)
    else if n == 1 then Some(Fmi3Warning)
    else if n == 2 then Some(Fmi3Discard)
    else if n == 3 then Some(Fmi3Error)
    else if n == 4 then Some(Fmi3Fatal)
    else None
  }

  lemma StatusValueRoundTrip(s: Fmi3Status)
    ensures StatusFromValue(StatusValue(s)) == Some(s)
  {
  }

  /** The derived `PartialOrd`: statuses compare by their declared value. */
  predicate StatusLess(a: Fmi3Status, b: Fmi3Status)
  {
    StatusValue(a) < StatusValue(b)
  }

  /** `is_fault`: the status is ordered after Warning. */
  predicate IsFault(s: Fmi3Status)
    ensures IsFault(s) <==> s in {Fmi3Discard, Fmi3Error, Fmi3Fatal}
  {
    StatusLess(Fmi3Warning, s)
  }

  /** `LogStatus` for Fmi3Status: the status of the level constructors `ok`,
      `warning`, `error` and `fatal`. */
  function LevelStatus(l: Severity): (s: Fmi3Status)
    ensures IsFault(s) <==> l in {SevError, SevFatal}
  {
    match l
    case SevOk => Fmi3OK
    case SevWarning => Fmi3Warning
    case SevError => Fmi3Error
    case SevFatal => Fmi3Fatal
  }

  /** The protobuf status enumeration carried by `Fmi3StatusReturn`. */
  datatype ProtoFmi3Status = ProtoOk | ProtoWarning | ProtoDiscard | ProtoError | ProtoFatal

  function ProtoValue(p: ProtoFmi3Status): int
  {
    match p
    case ProtoOk => 0
    case ProtoWarning => 1
    case ProtoDiscard => 2
    case ProtoError => 3
    case ProtoFatal => 4
  }

  /** `From<fmi3_messages::Fmi3Status>` and `From<Fmi3StatusReturn>`: each
      protobuf status to the status of the same name. */
  function FromProtoStatus(p: ProtoFmi3Status): (s: Fmi3Status)
    ensures StatusValue(s) == ProtoValue(p)
  {
    match p
    case ProtoOk => Fmi3OK
    case ProtoWarning => Fmi3Warning
    case ProtoDiscard => Fmi3Discard
    case ProtoError => Fmi3Error
    case ProtoFatal => Fmi3Fatal
  }

  /** The conversion is one-to-one and keeps the order of the statuses. */
  lemma FromProtoStatusMonotone(p: ProtoFmi3Status, q: ProtoFmi3Status)
    ensures ProtoValue(p) < ProtoValue(q) <==> StatusLess(FromProtoStatus(p), FromProtoStatus(q))
    ensures FromProtoStatus(p) == FromProtoStatus(q) ==> p == q
  {
  }

  /** fmi3LogCategory; `LogEvents` is the `Default`. */
  datatype Fmi3LogCategory =
    | LogEvents
    | LogSingularLinearSystems
    | LogNonlinearSystems
    | LogDynamicStateSelection
    | LogStatusWarning
    | LogStatusDiscard
    | LogStatusError
    | LogStatusFatal
    | LogUnifmuMessages
    | LogUserDefined(name: string)

  /** The names of the nine predefined categories. */
  const PredefinedNames: set<string> := {
    "logEvents", "logSingularLinearSystems", "logNonlinearSystems",
    "logDynamicStateSelection", "logStatusWarning", "logStatusDiscard",
    "logStatusError", "logStatusFatal", "logUnifmuMessages"
  }

  /** `str_name`: the name a category is announced under. */
  function StrName(c: Fmi3LogCategory): (s: string)
    ensures !c.LogUserDefined? ==> s in PredefinedNames
    ensures c.LogUserDefined? ==> s == c.name
  {
    match c
    case LogEvents => "logEvents"
    case LogSingularLinearSystems => "logSingularLinearSystems"
    case LogNonlinearSystems => "logNonlinearSystems"
    case LogDynamicStateSelection => "logDynamicStateSelection"
    case LogStatusWarning => "logStatusWarning"
    case LogStatusDiscard => "logStatusDiscard"
    case LogStatusError => "logStatusError"
    case LogStatusFatal => "logStatusFatal"
    case LogUnifmuMessages => "logUnifmuMessages"
    case LogUserDefined(name) => name
  }

  /** `From<&str>`: the predefined name gives its variant, anything else a
      user-defined category carrying the string. Naming the result gives the
      string back. */
  function FromStr(s: string): (c: Fmi3LogCategory)
    ensures StrName(c) == s
    ensures c.LogUserDefined? <==> s !in PredefinedNames
  {
    match s
    case "logEvents" => LogEvents
    case "logSingularLinearSystems" => LogSingularLinearSystems
    case "logNonlinearSystems" => LogNonlinearSystems
    case "logDynamicStateSelection" => LogDynamicStateSelection
    case "logStatusWarning" => LogStatusWarning
    case "logStatusDiscard" => LogStatusDiscard
    case "logStatusError" => LogStatusError
    case "logStatusFatal" => LogStatusFatal
    case "logUnifmuMessages" => LogUnifmuMessages
    case _ => LogUserDefined(s)
  }

  /** Parsing the name of a category gives the category back, for every
      predefined category and every user-defined one whose name is not a
      predefined name. */
  lemma FromStrOfStrName(c: Fmi3LogCategory)
    requires c.LogUserDefined? ==> c.name !in PredefinedNames
    ensures FromStr(StrName(c)) == c
  {
  }

  /** The exception: a user-defined category named like a predefined one is
      read back as the predefined one. */
  lemma UserDefinedShadowed()
    ensures FromStr(StrName(LogUserDefined("logEvents"))) == LogEvents
  {
  }

  /** `LogCategory` for Fmi3LogCategory: the category of the level
      constructors, and `unifmu_message`. */
  function LevelCategory(l: Severity): (c: Fmi3LogCategory)
    ensures !c.LogUserDefined?
  {
    match l
    case SevOk => LogEvents
    case SevWarning => LogStatusWarning
    case SevError => LogStatusError
    case SevFatal => LogStatusFatal
  }

  const UnifmuMessageCategory: Fmi3LogCategory := LogUnifmuMessages

  /** A faulty level is logged under the status category of the same name. */
  lemma LevelCategoryMatchesStatus(l: Severity)
    ensures l != SevOk ==> StrName(LevelCategory(l)) == "logStatus" + StatusWord(LevelStatus(l))
  {
  }

  function StatusWord(s: Fmi3Status): string
  {
    match s
    case Fmi3OK => "Ok"
    case Fmi3Warning => "Warning"
    case Fmi3Discard => "Discard"
    case Fmi3Error => "Error"
    case Fmi3Fatal => "Fatal"
  }

  /** fmi3IntervalQualifier with the values 0..2. */
  datatype IntervalQualifier = IntervalNotYetKnown | IntervalUnchanged | IntervalChanged

  function QualifierValue(q: IntervalQualifier): int
  {
    match q
    case IntervalNotYetKnown => 0
    case IntervalUnchanged => 1
    case IntervalChanged => 2
  }

  /** `Fmi3IntervalQualifier::try_from(i32)`: exactly 0, 1 and 2 are accepted. */
  function QualifierFromValue(n: int): (r: Option<IntervalQualifier>)
    ensures r.Some? <==> 0 <= n <= 2
    ensures r.Some? ==> QualifierValue(r.value) == n
  {
    if n == 0 then Some(IntervalNotYetKnown)
    else if n == 1 then Some(IntervalUnchanged)
    else if n == 2 then Some(IntervalChanged)
    else None
  }
}
