/** `Fmi2Logger::new` (fmiapi/src/fmi2/fmi2_logger.rs): the shared logger
    instantiated with the FMI 2.0 status and category types; the instance name
    is stored and handed to every callback call unchanged. The FMI 2.0 types
    have no level constructors in the source, so they are parameters here. */
module Fmi2Logging {
  import opened Wrappers
  import opened Fmi2Types
  import opened Logging

  method NewFmi2Logger(instanceName: string, environment: nat, enabled: bool,
                       statusFor: Severity -> Fmi2Status,
                       categoryFor: Severity -> Fmi2LogCategory,
                       unifmuMessage: Fmi2LogCategory)
    returns (l: Logger<Fmi2Status, Fmi2LogCategory>)
    ensures fresh(l)
    ensures forall c :: l.filter.Enabled(c) <==> enabled
    ensures l.delivered == [] && l.environment == environment
    ensures l.instanceName == Some(instanceName)
    ensures l.nameOf == StrName
  {
    l := new Logger(enabled, environment, Some(instanceName), StrName, statusFor, categoryFor, unifmuMessage);
  }
}
