/** The importer-facing logger of the Rust API layer: the default methods of
    the `Logger` trait (fmiapi/src/common/logger/mod.rs) and the `log` body
    shared by the FMI 3.0 and FMI 2.0 loggers (fmiapi/src/fmi3/fmi3_logger.rs,
    fmiapi/src/fmi2/fmi2_logger.rs). The importer's callback is modelled by
    the sequence `delivered` of the calls made to it. */
module Logging {
  import opened Wrappers
  import opened CategoryFilters

  /** One call of the importer's logging callback: the environment pointer and
      (FMI 2.0 only) the instance name, passed through unchanged, then the
      status and the NUL-terminated category and message. */
  datatype Delivery<S> = Delivery(
    environment: nat,
    instanceName: Option<string>,
    status: S,
    category: string,
    message: string)

  /** What `CStr::from_bytes_until_nul` keeps of a string once a NUL has been
      pushed after it: the part before its first NUL. The character U+0000 is
      the only one whose UTF-8 encoding holds a zero byte, so cutting the
      characters here is cutting the bytes there. */
  function UntilNul(s: string): (r: string)
    ensures r <= s
    ensures '\0' !in r
    ensures |r| < |s| ==> s[|r|] == '\0'
  {
    if s == [] || s[0] == '\0' then [] else [s[0]] + UntilNul(s[1..])
  }

  /** A string without NUL passes unchanged. */
  lemma {:induction false} UntilNulNoNul(s: string)
    requires '\0' !in s
    ensures UntilNul(s) == s
  {
    if s != [] {
      assert s[0] in s;
      assert forall k :: 0 <= k < |s[1..]| ==> s[1..][k] == s[k + 1];
      UntilNulNoNul(s[1..]);
    }
  }

  /** The severities of the default methods `ok`, `warning`, `error` and
      `fatal`, each of which picks a status and a category. */
  datatype Severity = SevOk | SevWarning | SevError | SevFatal

  class Logger<S, C(==,!new)> {
    var filter: CategoryFilter<C>
    var delivered: seq<Delivery<S>>
    const environment: nat
    const instanceName: Option<string>
    /** `str_name` of the category type. */
    const nameOf: C -> string
    /** `LogStatus::ok()` .. `fatal()` of the status type. */
    const statusFor: Severity -> S
    /** `LogCategory::ok()` .. `fatal()` of the category type. */
    const categoryFor: Severity -> C
    /** `LogCategory::unifmu_message()`. */
    const unifmuMessage: C

    /** `new`: an empty blacklist when logging is on (everything passes),
        an empty whitelist when it is off (nothing passes). */
    constructor (enabled: bool, environment: nat, instanceName: Option<string>,
                 nameOf: C -> string, statusFor: Severity -> S,
                 categoryFor: Severity -> C, unifmuMessage: C)
      ensures forall c :: filter.Enabled(c) <==> enabled
      ensures delivered == []
      ensures this.environment == environment && this.instanceName == instanceName
      ensures this.nameOf == nameOf && this.statusFor == statusFor
      ensures this.categoryFor == categoryFor && this.unifmuMessage == unifmuMessage
    {
      filter := if enabled then NewBlacklist() else NewWhitelist();
      delivered := [];
      this.environment := environment;
      this.instanceName := instanceName;
      this.nameOf := nameOf;
      this.statusFor := statusFor;
      this.categoryFor := categoryFor;
      this.unifmuMessage := unifmuMessage;
    }

    /** The callback calls one `log` makes: none when the filter disables the
        category, otherwise exactly one. */
    function Emitted(status: S, category: C, message: string): (r: seq<Delivery<S>>)
      reads this`filter
      ensures |r| <= 1
      ensures |r| == 1 <==> filter.Enabled(category)
      ensures |r| == 1 ==> r[0].status == status && r[0].instanceName == instanceName
      ensures |r| == 1 ==> r[0].category <= nameOf(category) && r[0].message <= message
    {
      EmittedUnder(filter, status, category, message)
    }

    /** The same, for a given filter. */
    function EmittedUnder(f: CategoryFilter<C>, status: S, category: C, message: string): seq<Delivery<S>>
    {
      if f.Enabled(category) then
        [Delivery(environment, instanceName, status, UntilNul(nameOf(category)), UntilNul(message))]
      else []
    }

    /** `log`: the callback is called only for an enabled category, with the
        category name and the message cut at their first NUL. */
    method Log(status: S, category: C, message: string)
      modifies this
      ensures filter == old(filter)
      ensures delivered == old(delivered) + Emitted(status, category, message)
    {
      if !filter.Enabled(category) {
        return;
      }
      var cCategory := UntilNul(nameOf(category));
      var cMessage := UntilNul(message);
      delivered := delivered + [Delivery(environment, instanceName, status, cCategory, cMessage)];
    }

    /** `ok`, `warning`, `error` and `fatal`: `log` with the status and
        category of the severity. */
    method LogAt(severity: Severity, message: string)
      modifies this
      ensures filter == old(filter)
      ensures delivered == old(delivered) + Emitted(statusFor(severity), categoryFor(severity), message)
    {
      Log(statusFor(severity), categoryFor(severity), message);
    }

    /** `communicate_port_connection_action`: an ok-status message in the
        UniFMU category that names the port. */
    method CommunicatePortConnectionAction(port: string)
      modifies this
      ensures filter == old(filter)
      ensures delivered == old(delivered) + Emitted(statusFor(SevOk), unifmuMessage, PortMessage(port))
    {
      Log(statusFor(SevOk), unifmuMessage, PortMessage(port));
    }

    /** `enable_categories`: `enable_category` on each listed category in
        order, ignoring its result. */
    method EnableCategories(categories: seq<C>)
      modifies this
      ensures filter == EnableEach(old(filter), categories)
      ensures forall c :: filter.Enabled(c) <==> c in categories || old(filter).Enabled(c)
      ensures delivered == old(delivered)
    {
      var i := 0;
      while i < |categories|
        invariant 0 <= i <= |categories|
        invariant EnableEach(filter, categories[i..]) == EnableEach(old(filter), categories)
        invariant delivered == old(delivered)
      {
        assert categories[i..][1..] == categories[i + 1..];
        filter := EnableCategory(filter, categories[i]).0;
        i := i + 1;
      }
      forall c | true
        ensures filter.Enabled(c) <==> c in categories || old(filter).Enabled(c)
      {
        EnableEachEnabled(old(filter), categories, c);
      }
    }

    /** `disable_categories`: `disable_category` on each listed category in
        order, ignoring its result. */
    method DisableCategories(categories: seq<C>)
      modifies this
      ensures filter == DisableEach(old(filter), categories)
      ensures forall c :: filter.Enabled(c) <==> c !in categories && old(filter).Enabled(c)
      ensures delivered == old(delivered)
    {
      var i := 0;
      while i < |categories|
        invariant 0 <= i <= |categories|
        invariant DisableEach(filter, categories[i..]) == DisableEach(old(filter), categories)
        invariant delivered == old(delivered)
      {
        assert categories[i..][1..] == categories[i + 1..];
        filter := DisableCategory(filter, categories[i]).0;
        i := i + 1;
      }
      forall c | true
        ensures filter.Enabled(c) <==> c !in categories && old(filter).Enabled(c)
      {
        DisableEachEnabled(old(filter), categories, c);
      }
    }

    /** `enable_all_categories`: an empty blacklist. */
    method EnableAllCategories()
      modifies this
      ensures forall c :: filter.Enabled(c)
      ensures delivered == old(delivered)
    {
      filter := NewBlacklist();
    }

    /** `disable_all_categories` as written: it installs an empty blacklist
        too, so afterwards every category is still emitted. */
    method DisableAllCategoriesAsWritten()
      modifies this
      ensures forall c :: filter.Enabled(c)
      ensures delivered == old(delivered)
    {
      filter := NewBlacklist();
    }

    /** `disable_all_categories` as its documentation describes it
        ("suppress all log events"): an empty whitelist. */
    method DisableAllCategories()
      modifies this
      ensures forall c :: !filter.Enabled(c)
      ensures delivered == old(delivered)
    {
      filter := NewWhitelist();
    }
  }

  /** The text of the port-connection request; its decoration is left out. */
  function PortMessage(port: string): (m: string)
    ensures |port| <= |m| && m[|m| - |port|..] == port
  {
    "ACTION REQUIRED ~ Connect remote backend to dispatcher through port " + port
  }
}
