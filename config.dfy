/** The configuration defaults, their overrides from the environment, and the
    validation report. The environment is an input; a variable counts as set
    only when it is present and non-empty, as `if os.getenv(name):` does. */
module Config {
  import opened Wrappers
  import opened PyText
  import opened PyValues

  type Dict = map<string, Value>
  type Env = map<string, string>

  const DetectionDefaults: Dict := map[
    "default_detector" := VStr("auto"),
    "fallback_detectors" := VStrList(["mediapipe", "basic"]),
    "frame_width" := VInt(640),
    "frame_height" := VInt(480),
    "target_fps" := VInt(30),
    "max_detection_retries" := VInt(3),
    "detection_timeout" := VInt(30)]

  const CameraDefaults: Dict := map[
    "default_index" := VInt(0),
    "initialization_timeout" := VInt(5),
    "frame_buffer_size" := VInt(1),
    "auto_exposure" := VBool(true),
    "brightness" := VFloat(Finite(0.5)),
    "contrast" := VFloat(Finite(0.5))]

  const AudioDefaults: Dict := map[
    "enable_audio_alerts" := VBool(true),
    "enable_tts" := VBool(true),
    "audio_file_path" := VStr("static/music.wav"),
    "volume" := VFloat(Finite(0.8)),
    "tts_voice_rate" := VInt(200)]

  const AlertDefaults: Dict := map[
    "default_severity" := VStr("medium"),
    "email_retry_attempts" := VInt(3),
    "email_retry_delay" := VInt(2),
    "alert_cooldown" := VInt(5),
    "max_alerts_per_session" := VInt(100)]

  const PerformanceConfig: Dict := map[
    "enable_performance_monitoring" := VBool(true),
    "max_memory_usage" := VInt(512),
    "frame_skip_threshold" := VFloat(Finite(0.1)),
    "detection_thread_pool_size" := VInt(2)]

  const SecurityConfig: Dict := map[
    "enable_rate_limiting" := VBool(true),
    "max_login_attempts" := VInt(5),
    "lockout_duration" := VInt(300),
    "session_timeout" := VInt(3600),
    "require_https" := VBool(false)]

  const DatabaseConfig: Dict := map[
    "connection_timeout" := VInt(30),
    "query_timeout" := VInt(30),
    "max_connections" := VInt(20),
    "connection_retry_attempts" := VInt(3)]

  /** `os.getenv(name)` is truthy. */
  predicate IsSet(env: Env, name: string)
  {
    name in env && env[name] != ""
  }

  /** An integer override parses, or is not set. */
  predicate IntOk(env: Env, name: string)
  {
    !IsSet(env, name) || ParseInt(env[name]).Ok?
  }

  /** The integer a set, parseable variable holds, or else the default. */
  function IntSetting(env: Env, name: string, default: int): int
  {
    if IsSet(env, name) && ParseInt(env[name]).Ok? then ParseInt(env[name]).value else default
  }

  predicate FloatOk(env: Env, name: string)
  {
    !IsSet(env, name) || ParseFloat(env[name]).Ok?
  }

  /** The float a set, parseable variable holds, or else the default. */
  function FloatSetting(env: Env, name: string, default: PyFloat): PyFloat
  {
    if IsSet(env, name) && ParseFloat(env[name]).Ok? then ParseFloat(env[name]).value else default
  }

  /** The string override: a set variable replaces the default as it is. */
  function StrSetting(env: Env, name: string, default: string): string
  {
    if IsSet(env, name) then env[name] else default
  }

  /** The boolean override: true exactly when the lower-cased value is "true". */
  function BoolSetting(env: Env, name: string, default: bool): bool
  {
    if IsSet(env, name) then Lower(env[name]) == "true" else default
  }

  /** Replace `key` by the integer that `name` holds, when it is set. */
  function OverrideInt(config: Dict, key: string, env: Env, name: string): (r: Result<Dict, ValueError>)
    ensures r.Ok? <==> IntOk(env, name)
    ensures r.Err? ==> r.error == ParseInt(env[name]).error
    ensures r.Ok? ==> r.value == (if IsSet(env, name) then config[key := VInt(ParseInt(env[name]).value)] else config)
  {
    if IsSet(env, name) then
      match ParseInt(env[name])
      case Ok(n) => Ok(config[key := VInt(n)])
      case Err(e) => Err(e)
    else
      Ok(config)
  }

  /** A copy of `config` in which exactly the keys of `changed` may differ. */
  predicate OnlyChanged(defaults: Dict, config: Dict, changed: set<string>)
  {
    && config.Keys == defaults.Keys
    && forall k :: k in defaults && k !in changed ==> config[k] == defaults[k]
  }

  /** The detection defaults with each set variable in place of its key. */
  function DetectionOverrides(env: Env): Dict
  {
    DetectionDefaults["default_detector" := VStr(StrSetting(env, "DETECTION_METHOD", "auto"))]
                     ["frame_width" := VInt(IntSetting(env, "FRAME_WIDTH", 640))]
                     ["frame_height" := VInt(IntSetting(env, "FRAME_HEIGHT", 480))]
                     ["target_fps" := VInt(IntSetting(env, "TARGET_FPS", 30))]
  }

  /** `get_detection_config`: fails with the error of the first set variable
      that does not parse, and otherwise overrides the defaults. */
  function GetDetectionConfig(env: Env): (r: Result<Dict, ValueError>)
    ensures r.Ok? <==> IntOk(env, "FRAME_WIDTH") && IntOk(env, "FRAME_HEIGHT") && IntOk(env, "TARGET_FPS")
    ensures r.Err? ==> r.error == (if !IntOk(env, "FRAME_WIDTH") then ParseInt(env["FRAME_WIDTH"]).error
                                   else if !IntOk(env, "FRAME_HEIGHT") then ParseInt(env["FRAME_HEIGHT"]).error
                                   else ParseInt(env["TARGET_FPS"]).error)
  {
    var config := DetectionDefaults;
    var config := if IsSet(env, "DETECTION_METHOD") then config["default_detector" := VStr(env["DETECTION_METHOD"])] else config;
    var config :- OverrideInt(config, "frame_width", env, "FRAME_WIDTH");
    var config :- OverrideInt(config, "frame_height", env, "FRAME_HEIGHT");
    var config :- OverrideInt(config, "target_fps", env, "TARGET_FPS");
    Ok(config)
  }

  /** A successful integer override writes the setting, or the default if
      the variable is not set, under its key. */
  lemma OverrideIntSetting(config: Dict, key: string, env: Env, name: string, default: int)
    requires key in config && config[key] == VInt(default) && IntOk(env, name)
    ensures OverrideInt(config, key, env, name) == Ok(config[key := VInt(IntSetting(env, name, default))])
  {
    if !IsSet(env, name) {
      assert config[key := VInt(default)] == config;
    }
  }

  /** A successful `get_detection_config` is the defaults with every set
      variable in place of its key. */
  lemma DetectionConfigIsOverrides(env: Env)
    requires GetDetectionConfig(env).Ok?
    ensures GetDetectionConfig(env).value == DetectionOverrides(env)
  {
    var c0 := DetectionDefaults;
    var c1 := if IsSet(env, "DETECTION_METHOD") then c0["default_detector" := VStr(env["DETECTION_METHOD"])] else c0;
    assert c1 == c0["default_detector" := VStr(StrSetting(env, "DETECTION_METHOD", "auto"))];
    assert "default_detector"[0] != "frame_width"[0] && "default_detector"[0] != "frame_height"[0]
        && "default_detector"[0] != "target_fps"[0];
    OverrideIntSetting(c1, "frame_width", env, "FRAME_WIDTH", 640);
    var c2 := c1["frame_width" := VInt(IntSetting(env, "FRAME_WIDTH", 640))];
    assert "frame_width"[6] != "frame_height"[6] && "frame_width"[0] != "target_fps"[0];
    OverrideIntSetting(c2, "frame_height", env, "FRAME_HEIGHT", 480);
    var c3 := c2["frame_height" := VInt(IntSetting(env, "FRAME_HEIGHT", 480))];
    assert "frame_height"[0] != "target_fps"[0];
    OverrideIntSetting(c3, "target_fps", env, "TARGET_FPS", 30);
  }

  /** Each set variable overrides exactly its own key, and every other key
      keeps its default. */
  lemma DetectionOverridesOwnKeys(env: Env)
    ensures OnlyChanged(DetectionDefaults, DetectionOverrides(env), {"default_detector", "frame_width", "frame_height", "target_fps"})
    ensures DetectionOverrides(env)["default_detector"] == VStr(StrSetting(env, "DETECTION_METHOD", "auto"))
    ensures DetectionOverrides(env)["frame_width"] == VInt(IntSetting(env, "FRAME_WIDTH", 640))
    ensures DetectionOverrides(env)["frame_height"] == VInt(IntSetting(env, "FRAME_HEIGHT", 480))
    ensures DetectionOverrides(env)["target_fps"] == VInt(IntSetting(env, "TARGET_FPS", 30))
  {
    assert "frame_width"[6] != "frame_height"[6];
    assert "target_fps"[0] != "frame_width"[0] && "default_detector"[0] != "frame_width"[0]
        && "default_detector"[0] != "target_fps"[0] && "target_fps"[0] != "frame_height"[0]
        && "default_detector"[0] != "frame_height"[0];
  }

  /** `get_camera_config`. */
  function GetCameraConfig(env: Env): (r: Result<Dict, ValueError>)
    ensures r.Ok? <==> IntOk(env, "DEFAULT_CAMERA_INDEX")
    ensures r.Err? ==> r.error == ParseInt(env["DEFAULT_CAMERA_INDEX"]).error
    ensures r.Ok? ==> OnlyChanged(CameraDefaults, r.value, {"default_index"})
    ensures r.Ok? ==> r.value["default_index"] == VInt(IntSetting(env, "DEFAULT_CAMERA_INDEX", 0))
  {
    var config := CameraDefaults;
    var config :- OverrideInt(config, "default_index", env, "DEFAULT_CAMERA_INDEX");
    Ok(config)
  }

  /** `get_audio_config`. */
  function GetAudioConfig(env: Env): (r: Result<Dict, ValueError>)
    ensures r.Ok? <==> FloatOk(env, "AUDIO_VOLUME")
    ensures r.Err? ==> r.error == ParseFloat(env["AUDIO_VOLUME"]).error
    ensures r.Ok? ==> OnlyChanged(AudioDefaults, r.value, {"enable_audio_alerts", "enable_tts", "volume"})
    ensures r.Ok? ==> "volume" in r.value
    ensures r.Ok? ==> r.value["enable_audio_alerts"] == VBool(BoolSetting(env, "ENABLE_AUDIO_ALERTS", true))
    ensures r.Ok? ==> r.value["enable_tts"] == VBool(BoolSetting(env, "ENABLE_TTS", true))
    ensures r.Ok? ==> r.value["volume"] == VFloat(FloatSetting(env, "AUDIO_VOLUME", Finite(0.8)))
  {
    var config := AudioDefaults;
    var config := if IsSet(env, "ENABLE_AUDIO_ALERTS") then config["enable_audio_alerts" := VBool(Lower(env["ENABLE_AUDIO_ALERTS"]) == "true")] else config;
    var config := if IsSet(env, "ENABLE_TTS") then config["enable_tts" := VBool(Lower(env["ENABLE_TTS"]) == "true")] else config;
    if IsSet(env, "AUDIO_VOLUME") then
      var volume :- ParseFloat(env["AUDIO_VOLUME"]);
      Ok(config["volume" := VFloat(volume)])
    else
      Ok(config)
  }

  /** `get_alert_config`. */
  function GetAlertConfig(env: Env): (r: Dict)
    ensures OnlyChanged(AlertDefaults, r, {"default_severity"})
    ensures r["default_severity"] == VStr(StrSetting(env, "DEFAULT_ALERT_SEVERITY", "medium"))
  {
    var config := AlertDefaults;
    if IsSet(env, "DEFAULT_ALERT_SEVERITY") then config["default_severity" := VStr(env["DEFAULT_ALERT_SEVERITY"])]
    else config
  }

  /** The seven sections `get_all_config` returns, under the keys detection,
      camera, audio, alert, performance, security and database. */
  datatype AllConfig = AllConfig(
    detection: Dict, camera: Dict, audio: Dict, alert: Dict,
    performance: Dict, security: Dict, database: Dict)

  /** `get_all_config`: the four overridable sections, read in order, and the
      three constant ones as they are. */
  function GetAllConfig(env: Env): (r: Result<AllConfig, ValueError>)
    ensures r.Ok? <==> GetDetectionConfig(env).Ok? && GetCameraConfig(env).Ok? && GetAudioConfig(env).Ok?
    ensures r.Err? ==> r.error == (if GetDetectionConfig(env).Err? then GetDetectionConfig(env).error
                                   else if GetCameraConfig(env).Err? then GetCameraConfig(env).error
                                   else GetAudioConfig(env).error)
    ensures r.Ok? ==> && r.value.detection == GetDetectionConfig(env).value
                      && r.value.camera == GetCameraConfig(env).value
                      && r.value.audio == GetAudioConfig(env).value
                      && r.value.alert == GetAlertConfig(env)
    ensures r.Ok? ==> && r.value.performance == PerformanceConfig
                      && r.value.security == SecurityConfig
                      && r.value.database == DatabaseConfig
  {
    var detection :- GetDetectionConfig(env);
    var camera :- GetCameraConfig(env);
    var audio :- GetAudioConfig(env);
    var alert := GetAlertConfig(env);
    Ok(AllConfig(detection, camera, audio, alert, PerformanceConfig, SecurityConfig, DatabaseConfig))
  }

  const FrameWidthIssue := "Frame width should be at least 320px"
  const TargetFpsIssue := "Target FPS should be at least 10"
  const VolumeIssue := "Audio volume should be between 0.0 and 1.0"

  datatype Report = Report(valid: bool, issues: seq<string>)

  /** None of the variables the validation depends on is set. */
  predicate NoValidatedOverrides(env: Env)
  {
    !IsSet(env, "FRAME_WIDTH") && !IsSet(env, "FRAME_HEIGHT") && !IsSet(env, "TARGET_FPS") && !IsSet(env, "AUDIO_VOLUME")
  }

  /** The issues `validate_config` reports for a frame width, a frame rate
      and a volume, in the order it checks them. */
  function Issues(width: int, fps: int, volume: PyFloat): seq<string>
  {
    DetectionIssues(width, fps) + VolumeIssues(volume)
  }

  /** The issues of the detection section: frame width, then frame rate. */
  function DetectionIssues(width: int, fps: int): seq<string>
  {
    (if width < 320 then [FrameWidthIssue] else []) + (if fps < 10 then [TargetFpsIssue] else [])
  }

  /** The issue of the audio section. */
  function VolumeIssues(volume: PyFloat): seq<string>
  {
    if !volume.InClosedRange(0.0, 1.0) then [VolumeIssue] else []
  }

  /** The issues for the effective settings of `env`. */
  function ExpectedIssues(env: Env): seq<string>
  {
    Issues(IntSetting(env, "FRAME_WIDTH", 640), IntSetting(env, "TARGET_FPS", 30),
           FloatSetting(env, "AUDIO_VOLUME", Finite(0.8)))
  }

  /** Each issue is reported exactly when its own check fails, at most once. */
  lemma IssuesExact(width: int, fps: int, volume: PyFloat)
    ensures FrameWidthIssue in Issues(width, fps, volume) <==> width < 320
    ensures TargetFpsIssue in Issues(width, fps, volume) <==> fps < 10
    ensures VolumeIssue in Issues(width, fps, volume) <==> !volume.InClosedRange(0.0, 1.0)
    ensures |Issues(width, fps, volume)| <= 3
  {
    assert FrameWidthIssue[0] == 'F' && TargetFpsIssue[0] == 'T' && VolumeIssue[0] == 'A';
  }

  /** With none of the validated variables set, the defaults 640 px, 30 fps
      and volume 0.8 parse and give no issues. */
  lemma DefaultsValidate(env: Env)
    requires NoValidatedOverrides(env)
    ensures GetDetectionConfig(env).Ok? && GetAudioConfig(env).Ok?
    ensures ExpectedIssues(env) == []
  {
  }

  /** The two detection settings `validate_config` reads. */
  lemma DetectionConfigValidatedKeys(env: Env)
    requires GetDetectionConfig(env).Ok?
    ensures "frame_width" in GetDetectionConfig(env).value
    ensures GetDetectionConfig(env).value["frame_width"] == VInt(IntSetting(env, "FRAME_WIDTH", 640))
    ensures "target_fps" in GetDetectionConfig(env).value
    ensures GetDetectionConfig(env).value["target_fps"] == VInt(IntSetting(env, "TARGET_FPS", 30))
  {
    DetectionConfigIsOverrides(env);
    DetectionOverridesOwnKeys(env);
  }

  /** The detection checks of `validate_config`, appending to an empty list. */
  method CheckDetection(width: int, fps: int) returns (issues: seq<string>)
    ensures issues == DetectionIssues(width, fps)
  {
    issues := [];
    if width < 320 {
      issues := issues + [FrameWidthIssue];
    }
    if fps < 10 {
      issues := issues + [TargetFpsIssue];
    }
  }

  /** The audio check of `validate_config`, appending to `issues`. */
  method CheckVolume(issues: seq<string>, volume: PyFloat) returns (r: seq<string>)
    ensures r == issues + VolumeIssues(volume)
  {
    r := issues;
    if !volume.InClosedRange(0.0, 1.0) {
      r := r + [VolumeIssue];
    }
  }

  /** `validate_config`. */
  method ValidateConfig(env: Env) returns (r: Result<Report, ValueError>)
    ensures r.Ok? <==> GetDetectionConfig(env).Ok? && GetAudioConfig(env).Ok?
    ensures r.Err? ==> r.error == (if GetDetectionConfig(env).Err? then GetDetectionConfig(env).error
                                   else GetAudioConfig(env).error)
    ensures r.Ok? ==> (r.value.valid <==> r.value.issues == [])
    ensures r.Ok? ==> r.value.issues == ExpectedIssues(env)
  {
    var detectionConfig := GetDetectionConfig(env);
    if detectionConfig.Err? {
      return Err(detectionConfig.error);
    }
    DetectionConfigValidatedKeys(env);
    var width := detectionConfig.value["frame_width"].i;
    var fps := detectionConfig.value["target_fps"].i;
    var issues := CheckDetection(width, fps);

    var audioConfig := GetAudioConfig(env);
    if audioConfig.Err? {
      return Err(audioConfig.error);
    }
    var volume := audioConfig.value["volume"].f;
    issues := CheckVolume(issues, volume);

    return Ok(Report(|issues| == 0, issues));
  }
}
