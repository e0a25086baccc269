/** `Fmi3Logger::new` (fmiapi/src/fmi3/fmi3_logger.rs): the shared logger
    instantiated with the FMI 3.0 status and category types and no instance
    name. */
module Fmi3Logging {
  import opened Wrappers
  import opened Fmi3Types
  import opened Logging

  method NewFmi3Logger(environment: nat, enabled: bool) returns (l: Logger<Fmi3Status, Fmi3LogCategory>)
    ensures fresh(l)
    ensures forall c :: l.filter.Enabled(c) <==> enabled
    ensures l.delivered == [] && l.environment == environment && l.instanceName == None
    ensures l.nameOf == StrName && l.statusFor == LevelStatus && l.categoryFor == LevelCategory
    ensures l.unifmuMessage == LogUnifmuMessages
  {
    l := new Logger(enabled, environment, None, StrName, LevelStatus, LevelCategory, LogUnifmuMessages);
  }
}
