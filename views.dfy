/** The decisions of the settings, profile and monitoring-toggle views. A
    form is the map of posted fields; what the user service reports after a
    save is an input; messages and redirects are part of the response. */
module Views {
  import opened Wrappers
  import opened PyText
  import opened PyValues
  import Models

  type Post = map<string, string>

  const Dashboard := "driver_dashboard"

  /** `float(request.POST.get(key, default))`: a missing field gives the
      default, a posted one goes through `float()`. */
  function FloatField(post: Post, key: string, default: real): Result<PyFloat, ValueError>
  {
    if key in post then ParseFloat(post[key]) else Ok(Finite(default))
  }

  /** `int(request.POST.get(key, default))`. */
  function IntField(post: Post, key: string, default: int): Result<int, ValueError>
  {
    if key in post then ParseInt(post[key]) else Ok(default)
  }

  /** `request.POST.get(key, default)`. */
  function StrField(post: Post, key: string, default: string): string
  {
    if key in post then post[key] else default
  }

  // ---------------------------------------------------------------------
  // update_settings

  datatype SettingsOutcome =
    | InvalidInput
    | EarThresholdRejected
    | EarFramesRejected
    | YawnThresholdRejected
    | Submitted(earThreshold: real, earFrames: int, yawnThreshold: int, alertFrequency: string)

  datatype Response<O> = Response(outcome: O, message: string, redirectTo: string)

  const InvalidInputMessage := "Invalid input values. Please check your settings."
  const EarThresholdMessage := "EAR threshold must be between 0.1 and 0.8"
  const EarFramesMessage := "EAR frames must be between 5 and 100"
  const YawnThresholdMessage := "Yawn threshold must be between 5 and 50"
  const SettingsSaved := "Settings updated successfully!"
  const SettingsNotSaved := "Failed to update settings."

  /** The three thresholds as the form gives them, or the first `ValueError`. */
  function ParseSettings(post: Post): Result<(PyFloat, int, int), ValueError>
  {
    var ear :- FloatField(post, "ear_threshold", 0.3);
    var frames :- IntField(post, "ear_frames", 30);
    var yawn :- IntField(post, "yawn_threshold", 20);
    Ok((ear, frames, yawn))
  }

  /** `update_settings`; `updated` is what the user service reports for a
      submitted save. The three values are converted first, then checked in
      order, and the first check that fails answers. */
  function UpdateSettings(post: Post, updated: bool): (r: Response<SettingsOutcome>)
    ensures r.redirectTo == Dashboard
    ensures r.outcome == InvalidInput <==> ParseSettings(post).Err?
    ensures r.outcome == EarThresholdRejected <==>
              ParseSettings(post).Ok? && !ParseSettings(post).value.0.InClosedRange(0.1, 0.8)
    ensures r.outcome == EarFramesRejected <==>
              && ParseSettings(post).Ok? && ParseSettings(post).value.0.InClosedRange(0.1, 0.8)
              && !Models.EarFramesValid(ParseSettings(post).value.1)
    ensures r.outcome == YawnThresholdRejected <==>
              && ParseSettings(post).Ok? && ParseSettings(post).value.0.InClosedRange(0.1, 0.8)
              && Models.EarFramesValid(ParseSettings(post).value.1)
              && !Models.YawnThresholdValid(ParseSettings(post).value.2)
    ensures r.outcome.Submitted? ==>
              var (ear, frames, yawn) := ParseSettings(post).value;
              r.outcome == Submitted(ear.value, frames, yawn, StrField(post, "alert_frequency", "medium"))
              && r.message == (if updated then SettingsSaved else SettingsNotSaved)
  {
    match ParseSettings(post)
    case Err(_) => Response(InvalidInput, InvalidInputMessage, Dashboard)
    case Ok((ear, frames, yawn)) =>
      if !ear.InClosedRange(0.1, 0.8) then Response(EarThresholdRejected, EarThresholdMessage, Dashboard)
      else if !(5 <= frames <= 100) then Response(EarFramesRejected, EarFramesMessage, Dashboard)
      else if !(5 <= yawn <= 50) then Response(YawnThresholdRejected, YawnThresholdMessage, Dashboard)
      else
        var frequency := StrField(post, "alert_frequency", "medium");
        Response(Submitted(ear.value, frames, yawn, frequency),
                 if updated then SettingsSaved else SettingsNotSaved, Dashboard)
  }

  /** The view hands on a save exactly for the values the record validators
      accept: any submitted thresholds are valid settings, and any form whose
      values convert to valid thresholds is submitted. */
  lemma SubmittedIffValid(post: Post, updated: bool)
    ensures UpdateSettings(post, updated).outcome.Submitted? ==>
              var o := UpdateSettings(post, updated).outcome;
              Models.ThresholdsValid(Models.DefaultSettings.(earThreshold := o.earThreshold,
                                                             earFrames := o.earFrames,
                                                             yawnThreshold := o.yawnThreshold))
    ensures ParseSettings(post).Ok? && ParseSettings(post).value.0.Finite? ==>
              var (ear, frames, yawn) := ParseSettings(post).value;
              (UpdateSettings(post, updated).outcome.Submitted? <==>
                 Models.ThresholdsValid(Models.DefaultSettings.(earThreshold := ear.value,
                                                                earFrames := frames,
                                                                yawnThreshold := yawn)))
    ensures ParseSettings(post).Ok? && !ParseSettings(post).value.0.Finite? ==>
              UpdateSettings(post, updated).outcome == EarThresholdRejected
  {
  }

  /** An empty form submits the record defaults, which are valid. */
  lemma EmptyFormSubmitsDefaults(updated: bool)
    ensures var d := Models.DefaultSettings;
            UpdateSettings(map[], updated).outcome
              == Submitted(d.earThreshold, d.earFrames, d.yawnThreshold, d.alertFrequency)
    ensures Models.ThresholdsValid(Models.DefaultSettings)
  {
    assert ParseSettings(map[]) == Ok((Finite(0.3), 30, 20));
  }

  /** The form that posts two integers as `str()` writes them. */
  function IntegerForm(frames: int, yawn: int): Post
  {
    map["ear_frames" := IntToString(frames), "yawn_threshold" := IntToString(yawn)]
  }

  /** A field the form does not post reads as its default. */
  lemma MissingFloatField(post: Post, key: string, default: real)
    requires key !in post
    ensures FloatField(post, key, default) == Ok(Finite(default))
  {
  }

  /** A field posting `str(n)` reads back as `n`. */
  lemma PostedIntField(post: Post, key: string, n: int, default: int)
    requires key in post && post[key] == IntToString(n)
    ensures IntField(post, key, default) == Ok(n)
  {
    ParseIntRoundTrip(n);
  }

  lemma ParseIntegerForm(frames: int, yawn: int)
    ensures ParseSettings(IntegerForm(frames, yawn)) == Ok((Finite(0.3), frames, yawn))
  {
    var post := IntegerForm(frames, yawn);
    assert "ear_frames"[0] != "yawn_threshold"[0];
    assert "ear_threshold"[4] != "ear_frames"[4] && "ear_threshold"[0] != "yawn_threshold"[0];
    MissingFloatField(post, "ear_threshold", 0.3);
    PostedIntField(post, "ear_frames", frames, 30);
    PostedIntField(post, "yawn_threshold", yawn, 20);
  }

  /** A form posting integers as `str()` writes them is submitted exactly when
      they are in range, and then with those very values. */
  lemma IntegerFormRoundTrip(frames: int, yawn: int, updated: bool)
    ensures var o := UpdateSettings(IntegerForm(frames, yawn), updated).outcome;
            && (o.Submitted? <==> Models.EarFramesValid(frames) && Models.YawnThresholdValid(yawn))
            && (o.Submitted? ==> o == Submitted(0.3, frames, yawn, "medium"))
  {
    ParseIntegerForm(frames, yawn);
    assert "alert_frequency" !in IntegerForm(frames, yawn) by {
      assert "alert_frequency"[0] != "ear_frames"[0] && "alert_frequency"[0] != "yawn_threshold"[0];
    }
  }

  // ---------------------------------------------------------------------
  // update_profile

  datatype ProfileOutcome =
    | LicenseRejected
    | ProfileSubmitted(licenseNumber: string, phoneNumber: string)

  const LicenseMessage := "License number must be at least 3 characters long."
  const ProfileSaved := "Profile updated successfully!"
  const ProfileNotSaved := "Failed to update profile."

  /** `update_profile`; `updated` is what the user service reports. Both
      fields are stripped before they are checked or handed on. */
  function UpdateProfile(post: Post, updated: bool): (r: Response<ProfileOutcome>)
    ensures r.redirectTo == Dashboard
    ensures var license := Strip(StrField(post, "license_number", ""));
            r.outcome == LicenseRejected <==> license != [] && |license| < 3
    ensures r.outcome.ProfileSubmitted? ==>
              && r.outcome.licenseNumber == Strip(StrField(post, "license_number", ""))
              && r.outcome.phoneNumber == Strip(StrField(post, "phone_number", ""))
              && r.message == (if updated then ProfileSaved else ProfileNotSaved)
    ensures r.outcome == LicenseRejected ==> r.message == LicenseMessage
  {
    var license := Strip(StrField(post, "license_number", ""));
    var phone := Strip(StrField(post, "phone_number", ""));
    if license != [] && |license| < 3 then
      Response(LicenseRejected, LicenseMessage, Dashboard)
    else
      Response(ProfileSubmitted(license, phone), if updated then ProfileSaved else ProfileNotSaved, Dashboard)
  }

  /** The view refuses exactly the licenses `DriverProfile.clean` refuses once
      stripped, and whatever it hands on passes `clean`. A license of white
      space only is the one case the two layers judge differently: the view
      hands it on as the empty license, while `clean` on the unstripped text
      refuses it. A missing license is accepted. */
  lemma ProfileViewAgreesWithClean(post: Post, updated: bool)
    ensures var raw := StrField(post, "license_number", "");
            UpdateProfile(post, updated).outcome == LicenseRejected <==> Models.Clean(Strip(raw)).Some?
    ensures UpdateProfile(post, updated).outcome.ProfileSubmitted? ==>
              Models.Clean(UpdateProfile(post, updated).outcome.licenseNumber).None?
    ensures var raw := StrField(post, "license_number", "");
            raw != [] && Strip(raw) == [] ==>
              UpdateProfile(post, updated).outcome == ProfileSubmitted([], Strip(StrField(post, "phone_number", "")))
              && Models.Clean(raw).Some?
    ensures "license_number" !in post ==> UpdateProfile(post, updated).outcome.ProfileSubmitted?
  {
    var raw := StrField(post, "license_number", "");
    StripIdempotent(raw);
    Models.CleanOfStripped(raw);
  }

  // ---------------------------------------------------------------------
  // toggle_monitoring

  datatype ToggleOutcome =
    | StartRequested
    | StopRequested
    | JsonReply(status: int, success: bool, message: string)

  const InvalidActionMessage := "Invalid action. Use 'start' or 'stop'."

  /** `toggle_monitoring`: the lower-cased action picks the start or the stop
      handler; any other action is answered with status 400. */
  function ToggleMonitoring(post: Post): (r: ToggleOutcome)
    ensures var action := Lower(StrField(post, "action", ""));
            && (r == StartRequested <==> action == "start")
            && (r == StopRequested <==> action == "stop")
    ensures r.JsonReply? ==> r == JsonReply(400, false, InvalidActionMessage)
  {
    var action := Lower(StrField(post, "action", ""));
    if action == "start" then StartRequested
    else if action == "stop" then StopRequested
    else JsonReply(400, false, InvalidActionMessage)
  }

  /** Lower-casing twice is lower-casing once. */
  lemma {:induction false} LowerIdempotent(s: string)
    ensures Lower(Lower(s)) == Lower(s)
  {
    var l := Lower(s);
    forall i | 0 <= i < |l|
      ensures !('A' <= l[i] <= 'Z')
    {
      assert l[i] == LowerChar(s[i]);
    }
    LowerOfLowerWord(l);
  }

  /** The dispatch ignores letter case: an action and its lower-cased form are
      answered alike, so "START" and "Stop" reach their handlers, and a form
      without an action is refused. */
  lemma ToggleIgnoresCase(action: string)
    ensures ToggleMonitoring(map["action" := action]) == ToggleMonitoring(map["action" := Lower(action)])
    ensures ToggleMonitoring(map["action" := "START"]) == StartRequested
    ensures ToggleMonitoring(map["action" := "Stop"]) == StopRequested
    ensures ToggleMonitoring(map[]) == JsonReply(400, false, InvalidActionMessage)
  {
    LowerIdempotent(action);
    assert Lower("START") == "start";
    assert Lower("Stop") == "stop";
  }
}
