/** What the FMI 3.0 example models share: the FMI modes, the operations
    that change them, the initial float32 vector, and the clocks' interval
    and shift maps. */
module Fmi3Example {
  import opened Floats
  import opened Batches
  import opened Fmi3Types

  /** `FMIState`. */
  datatype Mode =
    | StartAndEnd | Instantiated | InitializationMode | Terminated
    | ConfigurationMode | ReconfigurationMode | EventMode
    | ContinuousTimeMode | StepMode | ClockActivationMode

  /** The mode-changing operations. */
  datatype ModeCommand =
    | EnterInitialization | ExitInitialization | EnterEvent | EnterStep
    | EnterConfiguration | ExitConfiguration | Reset | Terminate

  /** The mode and status after a mode-changing operation, with
      `EnterInitializationMode` entering InitializationMode. */
  function Next(m: Mode, c: ModeCommand, eventModeUsed: bool): (Mode, ProtoFmi3Status)
  {
    match c
    case EnterInitialization => (InitializationMode, ProtoOk)
    case ExitInitialization => (if eventModeUsed then EventMode else StepMode, ProtoOk)
    case EnterEvent => (EventMode, ProtoOk)
    case EnterStep => (StepMode, ProtoOk)
    case EnterConfiguration => (if m == Instantiated then ConfigurationMode else ReconfigurationMode, ProtoOk)
    case ExitConfiguration =>
      if m == ConfigurationMode then (Instantiated, ProtoOk)
      else if m == ReconfigurationMode then (StepMode, ProtoOk)
      else (m, ProtoError)
    case Reset => (Instantiated, ProtoOk)
    case Terminate => (Terminated, ProtoOk)
  }

  /** ExitConfigurationMode leaves configuration, and fails without a
      change from every other mode. */
  lemma ExitConfigurationCases(m: Mode, eventModeUsed: bool)
    ensures Next(m, ExitConfiguration, eventModeUsed).1 == ProtoOk
      <==> m == ConfigurationMode || m == ReconfigurationMode
    ensures Next(m, ExitConfiguration, eventModeUsed).1 == ProtoError
      ==> Next(m, ExitConfiguration, eventModeUsed).0 == m
    ensures m == ConfigurationMode ==> Next(m, ExitConfiguration, eventModeUsed).0 == Instantiated
    ensures m == ReconfigurationMode ==> Next(m, ExitConfiguration, eventModeUsed).0 == StepMode
  {
  }

  /** 0.1f, 0.2f, 0.3f, 0.4f, 0.5f */
  const DefaultVector: seq<f32> := [0x3DCC_CCCD, 0x3E4C_CCCD, 0x3E99_999A, 0x3ECC_CCCD, 0x3F00_0000]

  /** The interval and shift maps after construction and reset: {1001 ↦ 1.0}. */
  const InitialClockMap: map<nat, f64> := map[1001 := OneDouble]

  /** Counters over resolutions (`(double)counter / resolution`). */
  function Ratios(ops: FloatOps, counters: seq<int>, resolutions: seq<int>): (r: seq<f64>)
    ensures |r| == Min(|counters|, |resolutions|)
  {
    seq(Min(|counters|, |resolutions|), i requires 0 <= i < Min(|counters|, |resolutions|) =>
      ops.ratio(counters[i], resolutions[i]))
  }
}
