/** The MediaPipe face-mesh detector: eye and mouth aspect ratios with safe
    defaults, landmark extraction from a normalised face mesh, and a detector
    whose two counters follow the hard-reset debounce. The face mesh itself
    is an input: the landmarks of the first face found, or none. */
module MediaPipeDetection {
  import opened Wrappers
  import opened Geometry
  import opened Debounce

  const EarThreshold: real := 0.25
  const MouthArThreshold: real := 0.7
  const ConsecutiveFrames: nat := 3

  /** The ratio returned when the landmarks are too few or the width is zero. */
  const SafeRatio: real := 0.3

  const LeftEyeIndices: seq<nat> := [33, 160, 158, 133, 153, 144]
  const RightEyeIndices: seq<nat> := [362, 385, 387, 263, 373, 380]
  const MouthIndices: seq<nat> := [13, 14, 269, 270, 17, 18, 200, 199]

  /** The largest landmark index the detector reads. */
  const MaxIndex: nat := 387

  /** A face-mesh landmark in coordinates normalised to the image size. */
  datatype Landmark = Landmark(x: real, y: real)

  /** Python's `int()` of a float: truncation toward zero. */
  function Truncate(r: real): (n: int)
    ensures r >= 0.0 ==> 0 <= n && n as real <= r < n as real + 1.0
    ensures r < 0.0 ==> n <= 0 && n as real - 1.0 < r <= n as real
  {
    if r >= 0.0 then r.Floor else -((-r).Floor)
  }

  function ToPixel(l: Landmark, width: int, height: int): Point
  {
    Point(Truncate(l.x * width as real), Truncate(l.y * height as real))
  }

  /** The eye aspect ratio, or the safe ratio for fewer than six landmarks or
      a zero width. */
  function EyeAspectRatio(eye: seq<Point>, dist: Metric): (ear: real)
    ensures |eye| < 6 ==> ear == SafeRatio
    ensures IsMetric(dist) ==> ear >= 0.0
  {
    if |eye| < 6 then SafeRatio
    else
      var c := dist(eye[0], eye[3]);
      if c > 0.0 then AspectRatio(dist(eye[1], eye[5]), dist(eye[2], eye[4]), c) else SafeRatio
  }

  /** With six landmarks and a positive width, the ratio is the mean of the
      two heights over the width, and otherwise the safe ratio. */
  lemma EyeAspectRatioSpec(eye: seq<Point>, dist: Metric)
    ensures |eye| >= 6 && dist(eye[0], eye[3]) > 0.0 ==>
      EyeAspectRatio(eye, dist) * (2.0 * dist(eye[0], eye[3])) == dist(eye[1], eye[5]) + dist(eye[2], eye[4])
    ensures |eye| >= 6 && dist(eye[0], eye[3]) <= 0.0 ==> EyeAspectRatio(eye, dist) == SafeRatio
  {
    if |eye| >= 6 && dist(eye[0], eye[3]) > 0.0 {
      AspectRatioSpec(dist(eye[1], eye[5]), dist(eye[2], eye[4]), dist(eye[0], eye[3]));
    }
  }

  /** The mouth aspect ratio over landmarks 2-6, 3-7 and 0-4, or the safe ratio
      for fewer than eight landmarks or a zero width. */
  function MouthAspectRatio(mouth: seq<Point>, dist: Metric): (mar: real)
    ensures |mouth| < 8 ==> mar == SafeRatio
    ensures IsMetric(dist) ==> mar >= 0.0
  {
    if |mouth| < 8 then SafeRatio
    else
      var c := dist(mouth[0], mouth[4]);
      if c > 0.0 then AspectRatio(dist(mouth[2], mouth[6]), dist(mouth[3], mouth[7]), c) else SafeRatio
  }

  /** With eight landmarks and a positive width, the ratio is the mean of the
      two openings 2-6 and 3-7 over the width 0-4, and otherwise the safe ratio. */
  lemma MouthAspectRatioSpec(mouth: seq<Point>, dist: Metric)
    ensures |mouth| >= 8 && dist(mouth[0], mouth[4]) > 0.0 ==>
      MouthAspectRatio(mouth, dist) * (2.0 * dist(mouth[0], mouth[4])) == dist(mouth[2], mouth[6]) + dist(mouth[3], mouth[7])
    ensures |mouth| >= 8 && dist(mouth[0], mouth[4]) <= 0.0 ==> MouthAspectRatio(mouth, dist) == SafeRatio
  {
    if |mouth| >= 8 && dist(mouth[0], mouth[4]) > 0.0 {
      AspectRatioSpec(dist(mouth[2], mouth[6]), dist(mouth[3], mouth[7]), dist(mouth[0], mouth[4]));
    }
  }

  datatype FaceLandmarks = FaceLandmarks(leftEye: seq<Point>, rightEye: seq<Point>, mouth: seq<Point>)

  function Pixels(mesh: seq<Landmark>, indices: seq<nat>, width: int, height: int): (pts: seq<Point>)
    requires forall k :: 0 <= k < |indices| ==> indices[k] < |mesh|
    ensures |pts| == |indices|
  {
    seq(|indices|, k requires 0 <= k < |indices| => ToPixel(mesh[indices[k]], width, height))
  }

  predicate Covers(mesh: seq<Landmark>, indices: seq<nat>)
  {
    forall k :: 0 <= k < |indices| ==> indices[k] < |mesh|
  }

  /** The eye and mouth landmarks in pixels; none when no face was found or
      the mesh is too short for one of the indices. */
  function LandmarksOf(face: Option<seq<Landmark>>, width: int, height: int): (r: Option<FaceLandmarks>)
    ensures r.Some? <==> face.Some? && |face.value| > MaxIndex
    ensures r.Some? ==> |r.value.leftEye| == 6 && |r.value.rightEye| == 6 && |r.value.mouth| == 8
  {
    match face
    case None => None
    case Some(mesh) =>
      if Covers(mesh, LeftEyeIndices) && Covers(mesh, RightEyeIndices) && Covers(mesh, MouthIndices) then
        assert RightEyeIndices[2] < |mesh|;
        Some(FaceLandmarks(Pixels(mesh, LeftEyeIndices, width, height),
                           Pixels(mesh, RightEyeIndices, width, height),
                           Pixels(mesh, MouthIndices, width, height)))
      else
        assert !Covers(mesh, RightEyeIndices) ==> RightEyeIndices[2] >= |mesh|;
        None
  }

  /** Append the pixel position of each listed landmark, failing on the first
      index past the end of the mesh. */
  method Collect(mesh: seq<Landmark>, indices: seq<nat>, width: int, height: int)
    returns (pts: Option<seq<Point>>)
    ensures pts.Some? <==> Covers(mesh, indices)
    ensures pts.Some? ==> pts.value == Pixels(mesh, indices, width, height)
  {
    var acc: seq<Point> := [];
    var k := 0;
    while k < |indices|
      invariant 0 <= k <= |indices|
      invariant forall m :: 0 <= m < k ==> indices[m] < |mesh|
      invariant |acc| == k
      invariant forall m :: 0 <= m < k ==> acc[m] == ToPixel(mesh[indices[m]], width, height)
    {
      var idx := indices[k];
      if idx >= |mesh| {
        return None;
      }
      acc := acc + [ToPixel(mesh[idx], width, height)];
      k := k + 1;
    }
    return Some(acc);
  }

  /** `get_landmarks`: the three landmark lists, or none. */
  method GetLandmarks(face: Option<seq<Landmark>>, width: int, height: int)
    returns (r: Option<FaceLandmarks>)
    ensures r == LandmarksOf(face, width, height)
  {
    if face.None? {
      return None;
    }
    var mesh := face.value;
    var leftEye := Collect(mesh, LeftEyeIndices, width, height);
    if leftEye.None? {
      return None;
    }
    var rightEye := Collect(mesh, RightEyeIndices, width, height);
    if rightEye.None? {
      return None;
    }
    var mouth := Collect(mesh, MouthIndices, width, height);
    if mouth.None? {
      return None;
    }
    return Some(FaceLandmarks(leftEye.value, rightEye.value, mouth.value));
  }

  /** What one frame yields: the mean eye aspect ratio and the mouth aspect
      ratio, zero when there are no mouth landmarks. */
  datatype Observation = Observation(avgEar: real, mouthAr: real)

  function Observe(face: Option<seq<Landmark>>, width: int, height: int, dist: Metric): (o: Option<Observation>)
    ensures o.Some? <==> face.Some? && |face.value| > MaxIndex
    ensures IsMetric(dist) && o.Some? ==> o.value.avgEar >= 0.0 && o.value.mouthAr >= 0.0
  {
    match LandmarksOf(face, width, height)
    case None => None
    case Some(lm) =>
      var avgEar := (EyeAspectRatio(lm.leftEye, dist) + EyeAspectRatio(lm.rightEye, dist)) / 2.0;
      Some(Observation(avgEar, if |lm.mouth| > 0 then MouthAspectRatio(lm.mouth, dist) else 0.0))
  }

  datatype Counters = Counters(ear: nat, mouth: nat)

  /** One frame of the detector: new counters, `is_drowsy`, `is_yawning`. A
      frame without landmarks leaves the counters alone and reports nothing. */
  function DetectStep(c: Counters, o: Option<Observation>): (Counters, bool, bool)
  {
    match o
    case None => (c, false, false)
    case Some(obs) =>
      var closed := obs.avgEar < EarThreshold;
      var open := obs.mouthAr > MouthArThreshold;
      var ear := HardResetStep(c.ear, closed);
      var mouth := HardResetStep(c.mouth, open);
      (Counters(ear, mouth),
       HardResetFlag(ear, closed, ConsecutiveFrames),
       HardResetFlag(mouth, open, ConsecutiveFrames))
  }

  class MediaPipeDrowsinessDetector {
    var earCounter: nat
    var mouthCounter: nat

    constructor ()
      ensures earCounter == 0 && mouthCounter == 0
    {
      earCounter := 0;
      mouthCounter := 0;
    }

    function CountersOf(): Counters
      reads this
    {
      Counters(earCounter, mouthCounter)
    }

    /** `detect_drowsiness` on one frame, given the face mesh found in it. */
    method DetectDrowsiness(face: Option<seq<Landmark>>, width: int, height: int, dist: Metric)
      returns (isDrowsy: bool, isYawning: bool)
      modifies this
      ensures (CountersOf(), isDrowsy, isYawning) == DetectStep(old(CountersOf()), Observe(face, width, height, dist))
    {
      var landmarks := GetLandmarks(face, width, height);
      if landmarks.None? {
        return false, false;
      }
      var lm := landmarks.value;
      var leftEar := EyeAspectRatio(lm.leftEye, dist);
      var rightEar := EyeAspectRatio(lm.rightEye, dist);
      var avgEar := (leftEar + rightEar) / 2.0;

      var mouthAr := 0.0;
      isYawning := false;
      if |lm.mouth| > 0 {
        mouthAr := MouthAspectRatio(lm.mouth, dist);
      }

      isDrowsy := false;
      if avgEar < EarThreshold {
        earCounter := earCounter + 1;
        if earCounter >= ConsecutiveFrames {
          isDrowsy := true;
        }
      } else {
        earCounter := 0;
      }

      if mouthAr > MouthArThreshold {
        mouthCounter := mouthCounter + 1;
        if mouthCounter >= ConsecutiveFrames {
          isYawning := true;
        }
      } else {
        mouthCounter := 0;
      }
    }
  }

  /** The counters after a run of frames from a new detector. */
  function DetectRun(os: seq<Option<Observation>>): Counters
  {
    if os == [] then Counters(0, 0) else DetectStep(DetectRun(os[..|os| - 1]), os[|os| - 1]).0
  }

  /** The closed-eye and the open-mouth condition of the frames with landmarks. */
  function EyeChannel(os: seq<Option<Observation>>): seq<bool>
  {
    if os == [] then []
    else
      var o := os[|os| - 1];
      EyeChannel(os[..|os| - 1]) + (if o.Some? then [o.value.avgEar < EarThreshold] else [])
  }

  function MouthChannel(os: seq<Option<Observation>>): seq<bool>
  {
    if os == [] then []
    else
      var o := os[|os| - 1];
      MouthChannel(os[..|os| - 1]) + (if o.Some? then [o.value.mouthAr > MouthArThreshold] else [])
  }

  /** Each counter is the hard-reset debounce of its own condition over the
      frames that had landmarks, so it is the current streak's length. */
  lemma {:induction false} DetectRunCounters(os: seq<Option<Observation>>)
    ensures DetectRun(os) == Counters(Streak(0, EyeChannel(os)), Streak(0, MouthChannel(os)))
  {
    if os != [] {
      var p := os[..|os| - 1];
      var o := os[|os| - 1];
      DetectRunCounters(p);
      if o.Some? {
        StreakExtend(0, EyeChannel(p), o.value.avgEar < EarThreshold);
        StreakExtend(0, MouthChannel(p), o.value.mouthAr > MouthArThreshold);
      } else {
        assert EyeChannel(os) == EyeChannel(p) + [] == EyeChannel(p);
        assert MouthChannel(os) == MouthChannel(p) + [] == MouthChannel(p);
      }
    }
  }

  /** A frame with landmarks reports drowsiness exactly when it and the two
      frames with landmarks before it all had the mean eye aspect ratio below
      the threshold, and yawning likewise for the mouth aspect ratio above
      its threshold; a frame without landmarks reports neither. */
  lemma DetectFlagsIffLastThree(os: seq<Option<Observation>>, i: nat)
    requires i < |os|
    ensures var out := DetectStep(DetectRun(os[..i]), os[i]);
            var eyes := EyeChannel(os[..i + 1]);
            var mouth := MouthChannel(os[..i + 1]);
            && (os[i].None? ==> !out.1 && !out.2)
            && (os[i].Some? ==>
                  && (out.1 <==> |eyes| >= ConsecutiveFrames
                                 && forall j :: |eyes| - ConsecutiveFrames <= j < |eyes| ==> eyes[j])
                  && (out.2 <==> |mouth| >= ConsecutiveFrames
                                 && forall j :: |mouth| - ConsecutiveFrames <= j < |mouth| ==> mouth[j]))
  {
    var q := os[..i + 1];
    assert q[..i] == os[..i];
    if os[i].Some? {
      var o := os[i].value;
      DetectRunCounters(os[..i]);
      var eyes := EyeChannel(q);
      var mouth := MouthChannel(q);
      assert eyes == EyeChannel(os[..i]) + [o.avgEar < EarThreshold];
      assert mouth == MouthChannel(os[..i]) + [o.mouthAr > MouthArThreshold];
      StreakExtend(0, EyeChannel(os[..i]), o.avgEar < EarThreshold);
      StreakExtend(0, MouthChannel(os[..i]), o.mouthAr > MouthArThreshold);
      StreakWindow(eyes, |eyes| - 1, ConsecutiveFrames);
      StreakWindow(mouth, |mouth| - 1, ConsecutiveFrames);
      assert eyes[..|eyes|] == eyes;
      assert mouth[..|mouth|] == mouth;
    }
  }
}
