/** The FMI version of a model description (common/src/lib.rs): the major
    version is the first character of the `fmiVersion` attribute. The XML
    deserializer is not modelled; its outcome is a parameter, `None` when the
    document could not be read as a model description. */
module FmiVersions {
  import opened Wrappers

  datatype FmiVersion = Fmi3 | Fmi2 | Fmi1

  /** The character that opens a version string of each major version. */
  function MajorDigit(v: FmiVersion): char
  {
    match v
    case Fmi3 => '3'
    case Fmi2 => '2'
    case Fmi1 => '1'
  }

  /** `get_model_description_major_version`: '3', '2' and '1' as the first
      character select the version; another character, an empty attribute
      or an unreadable document is an error. */
  function MajorVersion(fmiVersion: Option<string>): (r: Result<FmiVersion, ()>)
    ensures r.Success? <==> fmiVersion.Some? && |fmiVersion.value| > 0 && fmiVersion.value[0] in {'1', '2', '3'}
    ensures r.Success? ==> MajorDigit(r.value) == fmiVersion.value[0]
  {
    match fmiVersion
    case None => Failure(())
    case Some(s) =>
      if |s| == 0 then Failure(())
      else if s[0] == '3' then Success(Fmi3)
      else if s[0] == '2' then Success(Fmi2)
      else if s[0] == '1' then Success(Fmi1)
      else Failure(())
  }

  /** Whatever follows the first character is not looked at: a version
      string that opens with a version's digit detects that version. */
  lemma MajorVersionOfDigit(v: FmiVersion, rest: string)
    ensures MajorVersion(Some([MajorDigit(v)] + rest)) == Success(v)
  {
    var s := [MajorDigit(v)] + rest;
    assert s[0] == MajorDigit(v);
  }
}
