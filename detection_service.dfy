/** The monitoring service: which detector is loaded, whether monitoring is
    on, and the background task. What the factory yields when it is
    consulted is an input; an exception the service raises is an outcome. */
module DetectionService {
  import opened Wrappers
  import opened DetectionFactory

  /** A handle on a background task. */
  type TaskId = nat

  datatype ServiceError = ModelLoadError(message: string) | DetectionError(message: string)

  /** A call either returns a value or raises. */
  datatype Outcome<T> = Returned(value: T) | Failed(error: ServiceError)

  datatype ServiceState = ServiceState(
    detector: Option<DetectorKind>,
    isMonitoring: bool,
    currentTask: Option<TaskId>,
    cancelled: seq<TaskId>)

  const FreshService := ServiceState(None, false, None, [])

  datatype Status = Status(isMonitoring: bool, detectorType: Option<string>, hasTask: bool)

  /** `initialize_detector`: keep the detector the factory yields, or raise
      ModelLoadError carrying the factory's message; a failed factory call
      assigns nothing. */
  function InitializeSpec(s: ServiceState, found: Result<DetectorKind, FactoryError>): (r: (ServiceState, Outcome<bool>))
    ensures found.Ok? ==> r.0 == s.(detector := Some(found.value)) && r.1 == Returned(true)
    ensures found.Err? ==> r.0 == s && r.1 == Failed(ModelLoadError("Failed to initialize detector: " + ErrorText(found.error)))
  {
    match found
    case Ok(k) => (s.(detector := Some(k)), Returned(true))
    case Err(e) => (s, Failed(ModelLoadError("Failed to initialize detector: " + ErrorText(e))))
  }

  /** `start_monitoring`. */
  function StartSpec(s: ServiceState, found: Result<DetectorKind, FactoryError>): (r: (ServiceState, Outcome<bool>))
    ensures s.isMonitoring ==> r == (s, Returned(false))
    ensures r.1 == Returned(true) <==> !s.isMonitoring && (s.detector.Some? || found.Ok?)
    ensures r.1 == Returned(true) ==> r.0.isMonitoring && r.0.detector.Some?
    ensures r.1.Failed? ==> !r.0.isMonitoring && r.0 == s && r.1.error.DetectionError?
    ensures r.0.currentTask == s.currentTask && r.0.cancelled == s.cancelled
    ensures s.detector.Some? ==> r.0.detector == s.detector
  {
    if s.isMonitoring then (s, Returned(false))
    else
      var init := if s.detector.None? then InitializeSpec(s, found) else (s, Returned(true));
      match init.1
      case Failed(e) => (init.0.(isMonitoring := false), Failed(DetectionError("Failed to start monitoring: " + e.message)))
      case Returned(_) => (init.0.(isMonitoring := true), Returned(true))
  }

  /** `stop_monitoring`. */
  function StopSpec(s: ServiceState): (r: (ServiceState, bool))
    ensures r.1 && !r.0.isMonitoring && r.0.currentTask.None?
    ensures r.0.detector == s.detector
    ensures r.0.cancelled == s.cancelled + (if s.currentTask.Some? then [s.currentTask.value] else [])
  {
    var afterCancel :=
      if s.currentTask.Some? then s.(cancelled := s.cancelled + [s.currentTask.value], currentTask := None)
      else s;
    (afterCancel.(isMonitoring := false), true)
  }

  /** `get_monitoring_status`. */
  function StatusOf(s: ServiceState): (st: Status)
    ensures st.isMonitoring == s.isMonitoring
    ensures st.detectorType.Some? <==> s.detector.Some?
    ensures s.detector.Some? ==> st.detectorType == Some(TypeName(s.detector.value))
    ensures st.hasTask <==> s.currentTask.Some?
  {
    Status(s.isMonitoring,
           if s.detector.Some? then Some(TypeName(s.detector.value)) else None,
           s.currentTask.Some?)
  }

  class DetectionService {
    var detector: Option<DetectorKind>
    var isMonitoring: bool
    var currentTask: Option<TaskId>
    /** The tasks this service has asked to cancel, oldest first. */
    var cancelled: seq<TaskId>

    function State(): ServiceState
      reads this
    {
      ServiceState(detector, isMonitoring, currentTask, cancelled)
    }

    constructor ()
      ensures State() == FreshService
    {
      detector := None;
      isMonitoring := false;
      currentTask := None;
      cancelled := [];
    }

    method InitializeDetector(found: Result<DetectorKind, FactoryError>) returns (r: Outcome<bool>)
      modifies this
      ensures (State(), r) == InitializeSpec(old(State()), found)
    {
      match found {
        case Err(e) =>
          r := Failed(ModelLoadError("Failed to initialize detector: " + ErrorText(e)));
        case Ok(k) =>
          detector := Some(k);
          r := Returned(true);
      }
    }

    /** `found` is what the factory yields if it is consulted. */
    method StartMonitoring(found: Result<DetectorKind, FactoryError>) returns (r: Outcome<bool>)
      modifies this
      ensures (State(), r) == StartSpec(old(State()), found)
    {
      if isMonitoring {
        return Returned(false);
      }
      if detector.None? {
        var init := InitializeDetector(found);
        if init.Failed? {
          isMonitoring := false;
          return Failed(DetectionError("Failed to start monitoring: " + init.error.message));
        }
      }
      isMonitoring := true;
      return Returned(true);
    }

    method StopMonitoring() returns (r: bool)
      modifies this
      ensures (State(), r) == StopSpec(old(State()))
    {
      if currentTask.Some? {
        cancelled := cancelled + [currentTask.value];
        currentTask := None;
      }
      isMonitoring := false;
      return true;
    }

    function GetMonitoringStatus(): (st: Status)
      reads this
      ensures st == StatusOf(State())
    {
      Status(isMonitoring, if detector.Some? then Some(TypeName(detector.value)) else None, currentTask.Some?)
    }
  }

  /** Stopping twice is stopping once. */
  lemma StopIdempotent(s: ServiceState)
    ensures StopSpec(StopSpec(s).0) == StopSpec(s)
  {
  }

  /** After a successful start, a stop and a second start succeed again with
      the same detector, whatever the factory would now yield: it is not
      consulted again. */
  lemma RestartAfterStop(s: ServiceState, found: Result<DetectorKind, FactoryError>, later: Result<DetectorKind, FactoryError>)
    requires StartSpec(s, found).1 == Returned(true)
    ensures var restarted := StartSpec(StopSpec(StartSpec(s, found).0).0, later);
            && restarted.1 == Returned(true)
            && restarted.0.isMonitoring
            && restarted.0.detector == StartSpec(s, found).0.detector
  {
  }

  /** A fresh service fails to start exactly when every detector fails to
      import, and then reports the factory's message inside both wrappers. */
  lemma FreshStartFailsOnlyWithoutLibraries(dlib: Attempt, mediaPipe: Attempt, basic: Attempt)
    requires !(dlib.Raises? || (dlib.ImportFails? && mediaPipe.Raises?)
               || (dlib.ImportFails? && mediaPipe.ImportFails? && basic.Raises?))
    ensures var r := StartSpec(FreshService, GetDetector(dlib, mediaPipe, basic)).1;
            r.Failed? <==> dlib.ImportFails? && mediaPipe.ImportFails? && basic.ImportFails?
    ensures var r := StartSpec(FreshService, GetDetector(dlib, mediaPipe, basic)).1;
            r.Failed? ==> r.error == DetectionError("Failed to start monitoring: "
                                                     + ("Failed to initialize detector: " + NoLibrariesMessage))
  {
    var found := GetDetector(dlib, mediaPipe, basic);
    if dlib.ImportFails? && mediaPipe.ImportFails? && basic.ImportFails? {
      assert found == Err(ImportError(NoLibrariesMessage));
    } else {
      assert found.Ok?;
    }
  }
}
