# Drowsiness and yawn detection: a Dafny model of the decision core

This project models the decision logic of a driver-monitoring web application.
The application watches a camera and detects closed eyes and yawns. It raises
alerts and stores them, and it lets a driver tune the thresholds.

The model follows the source file by file. Each module is named after the
file it models:

- `Tasks` (`tasks.py`) models the two detection loops.
  - The dlib loop counts closed-eye readings, with a hard reset and a one-shot
    latch. It saves an alert for every wide-open mouth.
  - The production loop uses decaying counters that reset when they fire.
  - Both loops are imperative methods, proved equal to folds over the
    per-face or per-frame readings.
- `MediaPipeDetection` and `BasicDetection` model the two detector classes. Each
  keeps its counters as fields and updates them in `DetectDrowsiness`.
- `Debounce` holds the three counter disciplines the detectors and loops share:
  - hard reset;
  - latch;
  - decay with a reset when the counter fires.

  It also holds their reference definition: the length of the current run of
  frames that meet the condition (`Streak`).
- `Geometry` holds points, an abstract distance and the aspect-ratio formula.
- `DetectionFactory` models the fallback chain dlib → MediaPipe → basic OpenCV.
- `DetectionService` models the monitoring service as a class. Its fields are
  the detector, the monitoring flag and the current task.
- `Config` models the configuration defaults and their environment overrides,
  plus the validation report.
- `Models` models the records: the license rule of `DriverProfile.clean`, the
  alert lifecycle, the settings validators and `get_detection_config`, and
  `MonitoringSession.end_session`.
  - `models_updated.py` and `models_enhanced.py` share this logic line for
    line. In the table, each shared function cites `models_updated.py` and
    its partner lemma cites the same code in `models_enhanced.py`.
  - `ModelsEnhanced` holds what differs in the enhanced alert: its defaults,
    and the unused user argument of acknowledge and resolve.
- `Views` models the validation and dispatch decisions of the settings,
  profile and monitoring-toggle views.
- `PyText` and `PyValues` model the Python built-ins the code relies on:
  - `str.strip()` and `str.lower()`;
  - `int()` and `float()` on strings;
  - Python's float comparisons, including not-a-number and the infinities.
- `Wrappers` holds `Option` and `Result`.

Several things the code does are modelled as inputs:

- Camera frames become landmark lists, boxes and contours.
- The factory's import attempts become values.
- The environment becomes a map.
- Posted forms become maps.
- Timestamps become parameters.
- What the user service reports after a save becomes a parameter.

## Model

| member | source | states |
|---|---|---|
| `Geometry.AspectRatio` | drowsiness_app/tasks.py:36 | non-negative for non-negative distances and a positive divisor |
| `Geometry.AspectRatioSpec` | drowsiness_app/tasks.py:36 | the ratio times twice the horizontal distance is the sum of the two vertical distances |
| `Debounce.StreakWindow` | drowsiness_app/mediapipe_detection.py:134-137 | the run of met conditions ending at frame i is at least t exactly when the last t frames all met it |
| `Debounce.HardResetCountsStreak` | drowsiness_app/basic_detection.py:52-57 | a hard-reset counter (add one when met, zero otherwise) always equals the length of the current run of met frames, on top of its starting value |
| `Debounce.HardResetFlagIffWindow` | drowsiness_app/mediapipe_detection.py:134-139 | from zero, the threshold flag is raised at frame i exactly when the last t frames all met the condition |
| `Debounce.HardResetOneFailureResets` | drowsiness_app/mediapipe_detection.py:138-139 | one frame that fails the condition brings the counter to 0 and lowers the flag, whatever came before |
| `Debounce.LatchRunState` | drowsiness_app/tasks.py:152-196 | after any readings the counter is the current closed-eye run and the latch is set exactly when that run has reached the threshold (at least 1) |
| `Debounce.LatchFiresAtThreshold` | drowsiness_app/tasks.py:155-157 | the latch fires at frame i exactly when the condition holds and the run has just reached the threshold |
| `Debounce.LatchAtMostOncePerStreak` | drowsiness_app/tasks.py:155-170 | within one unbroken run of met frames the latch fires at most once |
| `Debounce.DecayStaysBelowThreshold` | drowsiness_app/tasks.py:291-323 | with a threshold of at least 1, the decaying counter stays below the threshold after every frame |
| `Debounce.DecayCountBound` | drowsiness_app/tasks.py:291-292 | the decaying counter never exceeds its start plus the number of met frames |
| `Debounce.DecayFireNeedsEnoughMet` | drowsiness_app/tasks.py:293-321 | a fire at frame i needs at least threshold met frames up to i (counting the start) |
| `Debounce.DecaySustained` | drowsiness_app/tasks.py:291-323 | on an unbroken run of q·T + r met frames (r < T) the counter ends at r, because it resets on every T-th frame |
| `Debounce.DecaySustainedFires` | drowsiness_app/tasks.py:293-321 | on an unbroken run the counter fires exactly on frames T, 2T, 3T, … |
| `Debounce.DecayFiresCostThreshold` | drowsiness_app/tasks.py:291-323 | T times the number of fires plus the final counter is at most the number of met frames |
| `Tasks.TrueDivideSpec` | drowsiness_app/tasks.py:36 | a non-zero divisor gives a finite quotient whose product with the divisor is the numerator; a zero divisor gives no finite value, and +inf or nan for a non-negative numerator |
| `Tasks.EyeAspectRatioSpec` | drowsiness_app/tasks.py:30-38 | for an eye of non-zero width d(p0,p3), the ratio is finite and times 2·d(p0,p3) is d(p1,p5) + d(p2,p4), non-negative for a metric; 0 for a collapsed eye; for an eye of no width under a metric, +inf or nan |
| `Tasks.FinalEar` | drowsiness_app/tasks.py:41-52 | returns the eye slices 42..48 and 36..42 unchanged, six points each |
| `Tasks.FinalEarSpec` | drowsiness_app/tasks.py:41-52 | when both eyes have width, the returned ratio is finite, the mean of the two eyes' ratios, and non-negative for a metric; otherwise, under a metric, it is not finite and below no threshold |
| `Tasks.LipDistanceSpec` | drowsiness_app/tasks.py:55-66 | non-negative; six times it is the absolute difference of the y sums of the six upper-lip and six lower-lip points; 0 exactly when the sums agree |
| `Tasks.LipDistanceShiftInvariant` | drowsiness_app/tasks.py:55-66 | moving the whole face up or down does not change the lip distance |
| `Tasks.DlibFace` | drowsiness_app/tasks.py:152-226 | one face of the dlib loop: the new counter, latch, yawn flags and saved alerts are those of the per-face step |
| `Tasks.FaceReadings` | drowsiness_app/tasks.py:131-142 | for any 68-point shapes, one reading per face of the frame, in order, each made of the `final_ear` ratio and `lip_distance` of that face |
| `Tasks.DlibRunAppend` | drowsiness_app/tasks.py:114-226 | running the readings of one frame after those of the frames before continues from the state they left, and appends the new alerts to those already saved |
| `Tasks.DlibFaceAfter` | drowsiness_app/tasks.py:134-226 | measuring one more 68-point face and running the per-face body gives the state and saved alerts of the run one reading longer |
| `Tasks.DlibFrame` | drowsiness_app/tasks.py:131-226 | for any 68-point shapes, the loop over the faces of one frame ends in the state of the run over that frame's readings, and appends exactly that run's alerts |
| `Tasks.DrowsinessDetectionTask` | drowsiness_app/tasks.py:112-253 | for any 68-point shapes, the nested frame/face loop saves exactly the alerts of the fold of the per-face step over all faces of all frames, in order |
| `Tasks.DlibNarrowEyeResets` | drowsiness_app/tasks.py:137-226 | a face with an eye of no width resets the counter and latch, saves no drowsiness alert, and saves a yawn alert exactly as any other face would |
| `Tasks.DlibYawnFlagsClear` | drowsiness_app/tasks.py:198-214 | alarm_status2 and saying are false after every reading, so no yawn is ever suppressed |
| `Tasks.DlibEyesLatch` | drowsiness_app/tasks.py:152-196 | the eye counter and latch of the loop are the latch discipline run over the closed-eye flags |
| `Tasks.DlibAlertsAtReading` | drowsiness_app/tasks.py:152-214 | a reading saves a drowsiness alert iff its ratio is below ear_thresh in float order (never for inf or nan) and the closed run has just reached max(ear_frames, 1); it saves a yawn alert iff the lip distance exceeds yawn_thresh |
| `Tasks.DlibSavedGrows` | drowsiness_app/tasks.py:165-214 | the saved alerts only grow: each reading appends its own alerts to those saved before |
| `Tasks.DlibDrowsinessOncePerStreak` | drowsiness_app/tasks.py:155-170 | no two readings of one closed-eye run both save a drowsiness alert |
| `Tasks.ProductionDrowsinessDetection` | drowsiness_app/tasks.py:274-352 | the loop's two counters and its saved alerts are those of the fold of the production step; a raising detector leaves both counters alone |
| `Tasks.ProductionChannels` | drowsiness_app/tasks.py:291-341 | each counter is the decay discipline run over its own flag, and each alert is saved once per fire of its channel |
| `Tasks.ProductionBounds` | drowsiness_app/tasks.py:291-341 | with ear_frames ≥ 1 both counters stay below ear_frames; ear_frames times the number of each alert is at most the number of frames flagged for it |
| `MediaPipeDetection.Truncate` | drowsiness_app/mediapipe_detection.py:91 | `int()` of a real rounds toward zero |
| `MediaPipeDetection.EyeAspectRatio` | drowsiness_app/mediapipe_detection.py:39-53 | 0.3 for fewer than six points; never negative for a metric |
| `MediaPipeDetection.EyeAspectRatioSpec` | drowsiness_app/mediapipe_detection.py:39-53 | with six points, 0.3 for a horizontal distance that is not positive, and otherwise the ratio times twice the horizontal (0,3) is the sum of the verticals (1,5) and (2,4) |
| `MediaPipeDetection.MouthAspectRatio` | drowsiness_app/mediapipe_detection.py:55-69 | 0.3 for fewer than eight points; never negative for a metric |
| `MediaPipeDetection.MouthAspectRatioSpec` | drowsiness_app/mediapipe_detection.py:55-69 | with eight points, 0.3 for a horizontal distance that is not positive, and otherwise the ratio times twice the horizontal (0,4) is the sum of the verticals (2,6) and (3,7) |
| `MediaPipeDetection.LandmarksOf` | drowsiness_app/mediapipe_detection.py:76-106 | landmarks exist iff a face mesh has every index used (more than 387 points); then 6, 6 and 8 points in index order |
| `MediaPipeDetection.Collect` | drowsiness_app/mediapipe_detection.py:87-104 | the append loop gives the pixel points of the indices in order, or None when an index is missing |
| `MediaPipeDetection.GetLandmarks` | drowsiness_app/mediapipe_detection.py:71-106 | equals the landmark selection, with None for no face or a missing index |
| `MediaPipeDetection.Observe` | drowsiness_app/mediapipe_detection.py:116-130 | an observation exists exactly when the eyes were found; its mean eye ratio and mouth ratio are non-negative for a metric |
| `MediaPipeDetection.MediaPipeDrowsinessDetector.constructor` | drowsiness_app/mediapipe_detection.py:35-37 | both counters start at 0 |
| `MediaPipeDetection.MediaPipeDrowsinessDetector.DetectDrowsiness` | drowsiness_app/mediapipe_detection.py:108-153 | new counters and both flags are those of one detection step on the observation |
| `MediaPipeDetection.DetectRunCounters` | drowsiness_app/mediapipe_detection.py:133-147 | after any frames each counter is the current run of its own channel only; frames without eyes leave both counters alone |
| `MediaPipeDetection.DetectFlagsIffLastThree` | drowsiness_app/mediapipe_detection.py:118-147 | no landmarks gives no flags; otherwise each flag is raised iff its channel met its condition on the last three observed frames, on every such frame |
| `BasicDetection.EyeRatioSpec` | drowsiness_app/basic_detection.py:87-97 | 0 with no eyes or a non-positive face area, otherwise the ratio times the face area is the sum of the eye areas |
| `BasicDetection.CalculateEyeRatio` | drowsiness_app/basic_detection.py:87-97 | the accumulating loop computes the eye ratio |
| `BasicDetection.LargestIndex` | drowsiness_app/basic_detection.py:110 | the first contour of largest area, as `max` with a key picks it |
| `BasicDetection.DetectYawnBasicSpec` | drowsiness_app/basic_detection.py:99-129 | yawning iff there are contours and the first largest one has area over 2% of the face and height/width (0 for zero width) over 0.5; no contours or an exception give not yawning |
| `BasicDetection.BasicOpenCVDetector.constructor` | drowsiness_app/basic_detection.py:10-22 | counters at 0 and the previous eye ratio at 0.3 |
| `BasicDetection.EyesClosedByRatio` | drowsiness_app/basic_detection.py:49-52 | a face counts as closed-eyed, stated on areas, exactly when it has fewer than two eyes or its eye ratio is below 0.1 |
| `BasicDetection.BasicOpenCVDetector.DetectDrowsiness` | drowsiness_app/basic_detection.py:24-85 | the per-face loop leaves the eye counter and flags of one frame step; the yawn counter and previous ratio never change |
| `BasicDetection.BasicFrameCounter` | drowsiness_app/basic_detection.py:52-57 | the eye counter after a frame is the run of closed-eye faces carried over from before; no faces leave it unchanged |
| `BasicDetection.BasicFrameDrowsy` | drowsiness_app/basic_detection.py:52-55 | drowsy iff some face of the frame brought the counter to at least 3 |
| `BasicDetection.BasicFrameYawning` | drowsiness_app/basic_detection.py:63-68 | yawning is the verdict of the last face, with no debounce; no faces give not yawning |
| `DetectionFactory.CreateDetector` | drowsiness_app/detection_factory.py:12-40 | dlib is chosen iff it loads; MediaPipe iff dlib fails to import and MediaPipe loads; basic iff both fail to import and basic loads; ImportError iff all three fail to import; any other error is the first non-import failure |
| `DetectionFactory.GetDetector` | drowsiness_app/detection_factory.py:43-45 | returns what the factory returns |
| `DetectionFactory.CreateDetectorIsFallbackChain` | drowsiness_app/detection_factory.py:16-37 | the factory is the first candidate in the order dlib, MediaPipe, basic that does not fail to import |
| `DetectionFactory.LaterCandidatesNotTried` | drowsiness_app/detection_factory.py:17-29 | once a candidate does not fail to import, the outcome does not depend on the later ones |
| `DetectionService.InitializeSpec` | drowsiness_app/services/detection_service.py:26-39 | a found detector is kept and True returned; a factory error raises ModelLoadError with the factory's message and changes nothing |
| `DetectionService.StartSpec` | drowsiness_app/services/detection_service.py:41-63 | already monitoring returns False and changes nothing; success leaves monitoring on with a detector; failure leaves monitoring off and raises DetectionError |
| `DetectionService.StopSpec` | drowsiness_app/services/detection_service.py:65-81 | always returns True with monitoring off and no task, cancelling the current task if any; the detector is kept |
| `DetectionService.StatusOf` | drowsiness_app/services/detection_service.py:83-92 | reports the monitoring flag, the detector's type name or None, and whether a task is held |
| `DetectionService.DetectionService.constructor` | drowsiness_app/services/detection_service.py:21-24 | no detector, not monitoring, no task |
| `DetectionService.DetectionService.InitializeDetector` | drowsiness_app/services/detection_service.py:26-39 | the fields and result follow the initialisation step |
| `DetectionService.DetectionService.StartMonitoring` | drowsiness_app/services/detection_service.py:41-63 | the fields and result follow the start step |
| `DetectionService.DetectionService.StopMonitoring` | drowsiness_app/services/detection_service.py:65-77 | the fields and result follow the stop step |
| `DetectionService.DetectionService.GetMonitoringStatus` | drowsiness_app/services/detection_service.py:83-92 | the status of the current fields |
| `DetectionService.StopIdempotent` | drowsiness_app/services/detection_service.py:70-77 | stopping twice is stopping once |
| `DetectionService.RestartAfterStop` | drowsiness_app/services/detection_service.py:48-77 | after a successful start and a stop, a second start succeeds with the same detector, without consulting the factory |
| `DetectionService.FreshStartFailsOnlyWithoutLibraries` | drowsiness_app/services/detection_service.py:31-63 | a fresh service fails to start exactly when no detector library imports, with the factory's message inside both wrappers |
| `Config.OverrideInt` | drowsiness_app/core/config.py:86-93 | an integer override succeeds iff the variable is unset or parses, and fails with `int()`'s error |
| `Config.OverrideIntSetting` | drowsiness_app/core/config.py:86-93 | an integer override of a key that holds its default leaves the parsed variable when it is set, and the default otherwise |
| `Config.GetDetectionConfig` | drowsiness_app/core/config.py:77-95 | fails iff a set width, height or fps does not parse, with the first such error in that order |
| `Config.DetectionConfigIsOverrides` | drowsiness_app/core/config.py:77-95 | on success the configuration is the defaults with the detector name and the three numbers overridden from their variables |
| `Config.DetectionOverridesOwnKeys` | drowsiness_app/core/config.py:80-93 | only the four overridable keys may differ from the defaults, each set to its variable or kept at its default |
| `Config.DetectionConfigValidatedKeys` | drowsiness_app/core/config.py:152-155 | on success the width and fps the validation reads are present and come from their variables or the defaults 640 and 30 |
| `Config.GetCameraConfig` | drowsiness_app/core/config.py:97-105 | only `default_index` may differ, set from a parsing variable or kept at 0 |
| `Config.GetAudioConfig` | drowsiness_app/core/config.py:107-121 | fails iff a set volume does not parse; the two switches are true iff their lower-cased value is "true"; nothing else differs |
| `Config.GetAlertConfig` | drowsiness_app/core/config.py:123-131 | only the severity may differ, replaced by a set variable as it is |
| `Config.GetAllConfig` | drowsiness_app/core/config.py:133-144 | fails with the first failing section's error; otherwise seven sections, the last three the unmodified constants |
| `Config.IssuesExact` | drowsiness_app/core/config.py:152-161 | each issue is listed exactly when its own check fails, and at most three are listed |
| `Config.DefaultsValidate` | drowsiness_app/core/config.py:14-41 | with none of the validated variables set, the defaults 640, 30 and 0.8 parse and give no issues |
| `Config.CheckDetection` | drowsiness_app/core/config.py:152-156 | the detection issues of the width and fps checks, in that order |
| `Config.CheckVolume` | drowsiness_app/core/config.py:158-161 | the volume issue is appended exactly when the volume is outside [0, 1] |
| `Config.ValidateConfig` | drowsiness_app/core/config.py:146-166 | fails iff the detection or audio section fails (detection first); otherwise the issues for width < 320, fps < 10 and volume outside [0, 1], in that order, with valid iff there are none |
| `Models.Clean` | drowsiness_app/models_updated.py:67-70 | refuses iff the license is non-empty and shorter than 3 once stripped |
| `Models.CleanOfStripped` | drowsiness_app/models_enhanced.py:93-96 | a license and its stripped form are judged alike, except that white space alone is refused while its empty stripped form is accepted |
| `Models.AcknowledgeSpec` | drowsiness_app/models_updated.py:136-140 | status acknowledged, acknowledged_at stamped, no other field changed |
| `Models.ResolveSpec` | drowsiness_app/models_updated.py:142-147 | status resolved, resolved_at stamped, action_taken set to the argument, no other field changed |
| `Models.NewAlertValid` | drowsiness_app/models_updated.py:103-131 | a new alert is valid (drowsiness, medium, active, confidence 1.0), and confidence is valid iff it lies in [0, 1] |
| `Models.AlertLifecycle` | drowsiness_app/models_enhanced.py:180-195 | acknowledge and resolve keep a valid alert valid; resolving after acknowledging keeps both time stamps |
| `Models.Alert.constructor` | drowsiness_app/models_updated.py:97-131 | a new alert holds the defaults |
| `Models.Alert.Acknowledge` | drowsiness_app/models_updated.py:136-140 | the fields follow the acknowledge step |
| `Models.Alert.Resolve` | drowsiness_app/models_updated.py:142-147 | the fields follow the resolve step |
| `Models.DefaultSettingsValid` | drowsiness_app/models_updated.py:174-188 | the defaults 0.3, 30 and 20 pass their validators |
| `Models.ThresholdBounds` | drowsiness_app/models_enhanced.py:222-236 | the ranges are [0.1, 0.8], [5, 100] and [5, 50], bounds included |
| `Models.GetDetectionConfig` | drowsiness_app/models_updated.py:218-228 | exactly the seven keys, each mapped to the value of its settings field |
| `Models.DetectionConfigCopiesFields` | drowsiness_app/models_enhanced.py:277-287 | two settings give the same configuration iff they agree on the seven copied fields |
| `Models.EndSessionSpec` | drowsiness_app/models_updated.py:273-280 | a session that is not active is unchanged; an active one gets its end time, a duration when it has a start time, and status completed |
| `Models.EndSessionOnce` | drowsiness_app/models_enhanced.py:340-347 | a second end is a no-op; a session changes iff it was active; start plus duration is the end; the status stays a session status |
| `Models.MonitoringSession.constructor` | drowsiness_app/models_updated.py:248-255 | a new session is active and stamped with its start |
| `Models.MonitoringSession.EndSession` | drowsiness_app/models_updated.py:273-280 | the fields follow the end step |
| `ModelsEnhanced.EnhancedAlertDefaults` | drowsiness_app/models_enhanced.py:128-152 | a new enhanced alert has severity medium, status active and confidence 1.0, but its empty type fails the choices until one of the four types is set |
| `ModelsEnhanced.Alert.constructor` | drowsiness_app/models_enhanced.py:128-165 | a new enhanced alert holds its defaults |
| `ModelsEnhanced.Alert.Acknowledge` | drowsiness_app/models_enhanced.py:180-186 | the fields follow the acknowledge step; the user is not recorded |
| `ModelsEnhanced.Alert.Resolve` | drowsiness_app/models_enhanced.py:188-195 | the fields follow the resolve step; the user is not recorded |
| `Views.UpdateSettings` | drowsiness_app/views_refactored.py:164-210 | always redirects to the dashboard; a conversion error answers first, then the ear-threshold, ear-frames and yawn-threshold ranges in that order; otherwise the converted values are submitted |
| `Views.SubmittedIffValid` | drowsiness_app/views_refactored.py:174-193 | a form is submitted exactly when its converted thresholds pass the record validators; a not-a-number or infinite threshold is refused at the first check |
| `Views.EmptyFormSubmitsDefaults` | drowsiness_app/views_refactored.py:168-171 | an empty form submits 0.3, 30, 20 and medium, the record defaults |
| `Views.IntegerFormRoundTrip` | drowsiness_app/views_refactored.py:168-193 | integers posted as text are submitted iff they are in range, and then unchanged |
| `Views.UpdateProfile` | drowsiness_app/views_refactored.py:216-246 | always redirects to the dashboard; refuses a stripped license of one or two characters; otherwise submits the stripped license and phone |
| `Views.ProfileViewAgreesWithClean` | drowsiness_app/views_refactored.py:219-225 | the view refuses exactly what `clean` refuses once stripped, and what it submits passes `clean`; white space alone is accepted by the view and refused by `clean`; no license is accepted |
| `Views.ToggleMonitoring` | drowsiness_app/views_refactored.py:252-272 | start iff the lower-cased action is "start", stop iff it is "stop", otherwise status 400 with success false and the fixed message |
| `Views.ToggleIgnoresCase` | drowsiness_app/views_refactored.py:255-265 | an action and its lower-cased form are answered alike; "START" and "Stop" dispatch; a missing action is refused |

## Left out

- Computer vision is not modelled: capture, cascades, the face mesh, the shape predictor, thresholds and contours. Their results (landmarks, boxes, contour areas) are inputs.
- Drawing and display are not modelled: `draw_annotations`, `putText`, `imshow` and the key poll that ends the dlib loop. The loops run over a finite sequence of frames instead.
- The sound, speech, e-mail and storage side effects are not modelled; a saved alert is a value appended to a list.
- Euclidean distance is an abstract function of two points. Only non-negativity and zero self-distance are assumed, where a lemma needs them. Floating-point rounding is not modelled: ratios and thresholds are exact reals.
- `Tasks.TrueDivide`: numpy's division by a zero width is modelled as +inf, -inf or nan by the sign of the numerator. A zero divisor is taken as +0.0, and rounding and overflow are not modelled.
- The mode switch that picks the dlib loop or the production loop at the top of `drowsiness_detection_task` is not modelled. The production detector it calls lives in a module that is not part of this model.
- The frame counter and its logging every hundred frames in the production loop are not modelled. The variable `alarm_status` is assigned and never read, so it is not modelled either.
- `Tasks.DlibFace`: the body of the per-face loop is a method of its own, and so are the measuring of one face (`Tasks.DlibFaceAfter`) and the loop over the faces of one frame (`Tasks.DlibFrame`), so the frame loop is proved one face at a time.
- `DetectionFactory.CreateDetector`: the dlib candidate imports `original_detection`, which is not part of this model; its outcome is an input like the others.
- `DetectionService`: the factory never returns None, so the `detector is None` guard cannot fire and has no branch of its own.
- `DetectionService`: nothing in the service assigns `current_task`. The model holds it as a field that only `stop_monitoring` clears.
- `DetectionService`: `validate_camera` is camera I/O. Async scheduling is not modelled: each call runs to completion.
- `DetectionService.StopSpec`: the exception branch of `stop_monitoring` is not modelled. Cancelling a task is recorded, not performed, and cannot raise.
- `PyValues`: strings are converted the way `int()` and `float()` read plain ASCII decimal text. Underscores between digits and non-ASCII digits, which Python also accepts, are not modelled. `lower()` folds only ASCII letters, which is enough for comparison against the ASCII words the code uses.
- `Models`: saving records, the related users and drivers, and the JSON fields are not modelled. Neither are the fields no modelled method reads or writes (response time, device and location data, session metrics).
- `Views.UpdateSettings`: the `ValidationError` and generic exception branches come from the user service, which is not part of this model. Its success is an input.
- `Views.UpdateProfile`: the exception branches come from the user service, which is not part of this model.
- `Views.ToggleMonitoring`: the start and stop handlers depend on the detection engine, which is not part of this model. The model returns which handler is dispatched, and omits the status-500 branch for their exceptions.
