/** The stored records: driver profiles, alerts, user settings and monitoring
    sessions, with their defaults, field validators and the methods that move
    a record from one status to the next. The clock is an input: every method
    that stamps a time takes the current time as a parameter. */
module Models {
  import opened Wrappers
  import opened PyText
  import opened PyValues

  /** A point in time, as a count of clock ticks. */
  type Time = int

  // ---------------------------------------------------------------------
  // DriverProfile

  datatype ValidationError = ValidationError(message: string)

  const LicenseTooShort := "License number must be at least 3 characters long"

  /** `DriverProfile.clean`: a license number that is set but has fewer than
      three characters once stripped is refused; `None` means it is accepted. */
  function Clean(licenseNumber: string): (r: Option<ValidationError>)
    ensures r.Some? <==> licenseNumber != [] && |Strip(licenseNumber)| < 3
    ensures r.Some? ==> r.value == ValidationError(LicenseTooShort)
  {
    if licenseNumber != [] && |Strip(licenseNumber)| < 3 then Some(ValidationError(LicenseTooShort)) else None
  }

  /** Cleaning looks through surrounding white space: a license and its
      stripped form are judged alike, except that a license made only of
      white space is refused while the empty string it strips to is accepted. */
  lemma CleanOfStripped(licenseNumber: string)
    ensures Clean(Strip(licenseNumber)) == (if Strip(licenseNumber) == [] then None else Clean(licenseNumber))
    ensures licenseNumber != [] && Strip(licenseNumber) == [] ==> Clean(licenseNumber).Some?
    ensures |Strip(licenseNumber)| >= 3 ==> Clean(licenseNumber).None?
  {
    StripIdempotent(licenseNumber);
    if Strip(licenseNumber) != [] {
      assert licenseNumber != [];
    }
  }

  // ---------------------------------------------------------------------
  // Alert

  const AlertTypes := {"drowsiness", "yawning", "distraction", "fatigue"}
  const SeverityLevels := {"low", "medium", "high", "critical"}
  const AlertStatuses := {"active", "acknowledged", "resolved", "false_positive"}

  /** The fields of an alert the model follows. `description` is None when the
      column holds NULL. */
  datatype AlertRecord = AlertRecord(
    timestamp: Time,
    alertType: string,
    description: Option<string>,
    severity: string,
    status: string,
    confidence: real,
    acknowledgedAt: Option<Time>,
    resolvedAt: Option<Time>,
    actionTaken: string)

  /** The choices and the confidence validators of the alert fields. */
  predicate AlertValid(a: AlertRecord)
  {
    && a.alertType in AlertTypes
    && a.severity in SeverityLevels
    && a.status in AlertStatuses
    && 0.0 <= a.confidence <= 1.0
  }

  /** A new alert with every field at its default, created at `now`. */
  function NewAlert(now: Time): AlertRecord
  {
    AlertRecord(now, "drowsiness", None, "medium", "active", 1.0, None, None, "")
  }

  /** `acknowledge`: the status becomes acknowledged and the time is stamped. */
  function AcknowledgeSpec(a: AlertRecord, now: Time): (r: AlertRecord)
    ensures r.status == "acknowledged" && r.acknowledgedAt == Some(now)
    ensures r.(status := a.status, acknowledgedAt := a.acknowledgedAt) == a
  {
    a.(status := "acknowledged", acknowledgedAt := Some(now))
  }

  /** `resolve`: the status becomes resolved, the time is stamped and the
      action taken is recorded. */
  function ResolveSpec(a: AlertRecord, actionTaken: string, now: Time): (r: AlertRecord)
    ensures r.status == "resolved" && r.resolvedAt == Some(now) && r.actionTaken == actionTaken
    ensures r.(status := a.status, resolvedAt := a.resolvedAt, actionTaken := a.actionTaken) == a
  {
    a.(status := "resolved", resolvedAt := Some(now), actionTaken := actionTaken)
  }

  /** A new alert passes every field validator, and the confidence validator
      accepts exactly the scores from 0 to 1. */
  lemma NewAlertValid(now: Time, confidence: real)
    ensures AlertValid(NewAlert(now))
    ensures NewAlert(now).status == "active" && NewAlert(now).severity == "medium" && NewAlert(now).confidence == 1.0
    ensures AlertValid(NewAlert(now).(confidence := confidence)) <==> 0.0 <= confidence <= 1.0
  {
  }

  /** Acknowledging and resolving keep a valid alert valid, and resolving an
      acknowledged alert keeps the time it was acknowledged. */
  lemma AlertLifecycle(a: AlertRecord, action: string, t1: Time, t2: Time)
    requires AlertValid(a)
    ensures AlertValid(AcknowledgeSpec(a, t1))
    ensures AlertValid(ResolveSpec(a, action, t2))
    ensures var r := ResolveSpec(AcknowledgeSpec(a, t1), action, t2);
            && r.status == "resolved"
            && r.acknowledgedAt == Some(t1) && r.resolvedAt == Some(t2)
            && r.actionTaken == action
            && r.confidence == a.confidence && r.alertType == a.alertType
  {
  }

  class Alert {
    var timestamp: Time
    var alertType: string
    var description: Option<string>
    var severity: string
    var status: string
    var confidence: real
    var acknowledgedAt: Option<Time>
    var resolvedAt: Option<Time>
    var actionTaken: string

    function State(): AlertRecord
      reads this
    {
      AlertRecord(timestamp, alertType, description, severity, status, confidence,
                  acknowledgedAt, resolvedAt, actionTaken)
    }

    /** A new alert, with the creation time stamped. */
    constructor (now: Time)
      ensures State() == NewAlert(now)
    {
      timestamp := now;
      alertType := "drowsiness";
      description := None;
      severity := "medium";
      status := "active";
      confidence := 1.0;
      acknowledgedAt := None;
      resolvedAt := None;
      actionTaken := "";
    }

    /** `user` is accepted and not used. */
    method Acknowledge(user: Option<nat>, now: Time)
      modifies this
      ensures State() == AcknowledgeSpec(old(State()), now)
    {
      status := "acknowledged";
      acknowledgedAt := Some(now);
    }

    /** `user` is accepted and not used; the action taken defaults to "". */
    method Resolve(actionTaken: string, user: Option<nat>, now: Time)
      modifies this
      ensures State() == ResolveSpec(old(State()), actionTaken, now)
    {
      status := "resolved";
      resolvedAt := Some(now);
      this.actionTaken := actionTaken;
    }
  }

  // ---------------------------------------------------------------------
  // UserSettings

  datatype Settings = Settings(
    earThreshold: real,
    earFrames: int,
    yawnThreshold: int,
    alertFrequency: string,
    detectionMode: string,
    emailAlerts: bool,
    audioAlerts: bool,
    vibrationAlerts: bool,
    cameraIndex: int,
    videoQuality: string,
    dataRetentionDays: int,
    shareAnalytics: bool)

  const DefaultSettings := Settings(0.3, 30, 20, "medium", "balanced", true, true, false, 0, "medium", 30, false)

  /** The validators of `ear_threshold`. */
  predicate EarThresholdValid(x: real)
  {
    0.1 <= x <= 0.8
  }

  /** The validators of `ear_frames`. */
  predicate EarFramesValid(n: int)
  {
    5 <= n <= 100
  }

  /** The validators of `yawn_threshold`. */
  predicate YawnThresholdValid(n: int)
  {
    5 <= n <= 50
  }

  predicate ThresholdsValid(s: Settings)
  {
    EarThresholdValid(s.earThreshold) && EarFramesValid(s.earFrames) && YawnThresholdValid(s.yawnThreshold)
  }

  /** The default thresholds pass their validators. */
  lemma DefaultSettingsValid()
    ensures ThresholdsValid(DefaultSettings)
    ensures DefaultSettings.earThreshold == 0.3 && DefaultSettings.earFrames == 30 && DefaultSettings.yawnThreshold == 20
  {
  }

  /** Each bound of each range is itself accepted, while the value just past
      it is not. */
  lemma ThresholdBounds()
    ensures EarThresholdValid(0.1) && EarThresholdValid(0.8) && !EarThresholdValid(0.09) && !EarThresholdValid(0.81)
    ensures EarFramesValid(5) && EarFramesValid(100) && !EarFramesValid(4) && !EarFramesValid(101)
    ensures YawnThresholdValid(5) && YawnThresholdValid(50) && !YawnThresholdValid(4) && !YawnThresholdValid(51)
  {
  }

  const DetectionConfigKeys := {"ear_threshold", "ear_frames", "yawn_threshold", "camera_index",
                                "detection_mode", "email_alerts", "audio_alerts"}

  /** `get_detection_config`. */
  function GetDetectionConfig(s: Settings): (r: map<string, Value>)
    ensures r.Keys == DetectionConfigKeys
    ensures r["ear_threshold"] == VFloat(Finite(s.earThreshold))
    ensures r["ear_frames"] == VInt(s.earFrames)
    ensures r["yawn_threshold"] == VInt(s.yawnThreshold)
    ensures r["camera_index"] == VInt(s.cameraIndex)
    ensures r["detection_mode"] == VStr(s.detectionMode)
    ensures r["email_alerts"] == VBool(s.emailAlerts)
    ensures r["audio_alerts"] == VBool(s.audioAlerts)
  {
    map["ear_threshold" := VFloat(Finite(s.earThreshold)),
        "ear_frames" := VInt(s.earFrames),
        "yawn_threshold" := VInt(s.yawnThreshold),
        "camera_index" := VInt(s.cameraIndex),
        "detection_mode" := VStr(s.detectionMode),
        "email_alerts" := VBool(s.emailAlerts),
        "audio_alerts" := VBool(s.audioAlerts)]
  }

  /** The detection configuration is a faithful copy of exactly seven fields:
      it determines them, and the other fields do not show in it. */
  lemma DetectionConfigCopiesFields(s: Settings, t: Settings)
    ensures GetDetectionConfig(s) == GetDetectionConfig(t) <==>
              && s.earThreshold == t.earThreshold && s.earFrames == t.earFrames
              && s.yawnThreshold == t.yawnThreshold && s.cameraIndex == t.cameraIndex
              && s.detectionMode == t.detectionMode && s.emailAlerts == t.emailAlerts
              && s.audioAlerts == t.audioAlerts
  {
    if GetDetectionConfig(s) == GetDetectionConfig(t) {
      assert GetDetectionConfig(s)["ear_threshold"] == GetDetectionConfig(t)["ear_threshold"];
      assert GetDetectionConfig(s)["ear_frames"] == GetDetectionConfig(t)["ear_frames"];
      assert GetDetectionConfig(s)["yawn_threshold"] == GetDetectionConfig(t)["yawn_threshold"];
      assert GetDetectionConfig(s)["camera_index"] == GetDetectionConfig(t)["camera_index"];
      assert GetDetectionConfig(s)["detection_mode"] == GetDetectionConfig(t)["detection_mode"];
      assert GetDetectionConfig(s)["email_alerts"] == GetDetectionConfig(t)["email_alerts"];
      assert GetDetectionConfig(s)["audio_alerts"] == GetDetectionConfig(t)["audio_alerts"];
    }
  }

  // ---------------------------------------------------------------------
  // MonitoringSession

  const SessionStatuses := {"active", "completed", "interrupted", "failed"}

  /** The fields of a session `end_session` reads or writes. A start time is
      None when the column holds NULL. */
  datatype SessionRecord = SessionRecord(
    startTime: Option<Time>,
    endTime: Option<Time>,
    duration: Option<int>,
    status: string)

  /** A new session, started at `now`. */
  function NewSession(now: Time): SessionRecord
  {
    SessionRecord(Some(now), None, None, "active")
  }

  /** `end_session`: an active session is stamped with its end time and, when
      it has a start time, with its duration, and becomes completed; a session
      in any other status is left as it is. */
  function EndSessionSpec(s: SessionRecord, now: Time): (r: SessionRecord)
    ensures s.status != "active" ==> r == s
    ensures s.status == "active" ==> r.status == "completed" && r.endTime == Some(now) && r.startTime == s.startTime
    ensures s.status == "active" ==> r.duration == (if s.startTime.Some? then Some(now - s.startTime.value) else s.duration)
  {
    if s.status == "active" then
      var ended := s.(endTime := Some(now));
      var timed := if ended.startTime.Some? then ended.(duration := Some(now - ended.startTime.value)) else ended;
      timed.(status := "completed")
    else
      s
  }

  /** Ending a session twice is ending it once, whenever the second call
      comes; a session changes exactly when it was active; the duration of an
      ended session runs from its start to its end; and the status stays one
      of the session statuses. */
  lemma EndSessionOnce(s: SessionRecord, t1: Time, t2: Time)
    ensures EndSessionSpec(EndSessionSpec(s, t1), t2) == EndSessionSpec(s, t1)
    ensures EndSessionSpec(s, t1) != s <==> s.status == "active"
    ensures s.status == "active" && s.startTime.Some? ==>
              var r := EndSessionSpec(s, t1);
              r.startTime.value + r.duration.value == r.endTime.value
    ensures s.status in SessionStatuses ==> EndSessionSpec(s, t1).status in SessionStatuses
  {
    if s.status == "active" {
      assert EndSessionSpec(s, t1).status == "completed";
      assert "completed" != "active";
    }
  }

  class MonitoringSession {
    var startTime: Option<Time>
    var endTime: Option<Time>
    var duration: Option<int>
    var status: string

    function State(): SessionRecord
      reads this
    {
      SessionRecord(startTime, endTime, duration, status)
    }

    /** A new session, with its start time stamped. */
    constructor (now: Time)
      ensures State() == NewSession(now)
    {
      startTime := Some(now);
      endTime := None;
      duration := None;
      status := "active";
    }

    method EndSession(now: Time)
      modifies this
      ensures State() == EndSessionSpec(old(State()), now)
    {
      if status == "active" {
        endTime := Some(now);
        if startTime.Some? {
          duration := Some(endTime.value - startTime.value);
        }
        status := "completed";
      }
    }
  }
}
