/** The background detection task: the eye aspect ratio and lip distance of a
    68-point dlib face shape, the dlib detection loop (a one-shot latched
    drowsiness alert per streak of closed-eye readings, a yawn alert on every
    reading with the mouth open), and the production loop (both channels on
    decaying counters that reset when they fire). Frames, faces and detector
    results are inputs; video, audio, speech, e-mail and the database are not
    modelled, and a saved alert is recorded as its type and description. */
module Tasks {
  import opened Geometry
  import opened Debounce
  import opened PyValues

  /** `face_utils.FACIAL_LANDMARKS_IDXS` of imutils for the 68-point model. */
  const ShapePoints := 68
  const LeftEyeStart := 42
  const LeftEyeEnd := 48
  const RightEyeStart := 36
  const RightEyeEnd := 42

  /** `n / d` on numpy floats: a finite quotient when `d` is not zero;
      otherwise numpy raises nothing and gives an infinity of the sign of
      `n`, or not-a-number when `n` is zero too. */
  function TrueDivide(n: real, d: real): PyFloat
  {
    if d != 0.0 then Finite(n / d)
    else if n > 0.0 then PosInf
    else if n < 0.0 then NegInf
    else NaN
  }

  /** A non-zero divisor gives the finite quotient; a zero one gives no
      finite value, and never a negative infinity for a non-negative `n`. */
  lemma TrueDivideSpec(n: real, d: real)
    ensures d != 0.0 ==> TrueDivide(n, d).Finite? && TrueDivide(n, d).value * d == n
    ensures d == 0.0 ==> !TrueDivide(n, d).Finite?
    ensures d == 0.0 && n >= 0.0 ==> TrueDivide(n, d) == PosInf || TrueDivide(n, d) == NaN
  {
  }

  /** The eye aspect ratio of six eye landmarks: the two vertical distances
      over twice the horizontal one, with no guard against an eye of no width. */
  function EyeAspectRatio(eye: seq<Point>, dist: Metric): PyFloat
    requires |eye| >= 6
  {
    TrueDivide(dist(eye[1], eye[5]) + dist(eye[2], eye[4]), 2.0 * dist(eye[0], eye[3]))
  }

  /** The horizontal distance of an eye is not zero. */
  predicate HasWidth(eye: seq<Point>, dist: Metric)
    requires |eye| >= 6
  {
    dist(eye[0], eye[3]) != 0.0
  }

  /** An eye with a width has a finite ratio, which times twice the width is
      the sum of the two vertical distances, never negative for a metric and
      zero for a closed eye; an eye of no width has an infinite or undefined
      ratio for a metric. */
  lemma EyeAspectRatioSpec(eye: seq<Point>, dist: Metric)
    requires |eye| >= 6
    ensures var ear := EyeAspectRatio(eye, dist);
            && (HasWidth(eye, dist) ==>
                  && ear.Finite?
                  && ear.value * (2.0 * dist(eye[0], eye[3])) == dist(eye[1], eye[5]) + dist(eye[2], eye[4]))
            && (HasWidth(eye, dist) && IsMetric(dist) ==> ear.Finite? && ear.value >= 0.0)
            && (HasWidth(eye, dist) && IsMetric(dist) && eye[1] == eye[5] && eye[2] == eye[4] ==> ear == Finite(0.0))
            && (!HasWidth(eye, dist) && IsMetric(dist) ==> ear == PosInf || ear == NaN)
  {
    var v := dist(eye[1], eye[5]) + dist(eye[2], eye[4]);
    var h := dist(eye[0], eye[3]);
    TrueDivideSpec(v, 2.0 * h);
    if HasWidth(eye, dist) && IsMetric(dist) {
      AspectRatioSpec(dist(eye[1], eye[5]), dist(eye[2], eye[4]), h);
      assert TrueDivide(v, 2.0 * h) == Finite(AspectRatio(dist(eye[1], eye[5]), dist(eye[2], eye[4]), h));
    }
  }

  /** A face shape as the predictor returns it: 68 landmarks. */
  predicate IsShape(shape: seq<Point>)
  {
    |shape| == ShapePoints
  }

  datatype EyeReading = EyeReading(ear: PyFloat, leftEye: seq<Point>, rightEye: seq<Point>)

  /** The mean of the two eyes' aspect ratios, with the two eyes' landmarks. */
  function FinalEar(shape: seq<Point>, dist: Metric): (r: EyeReading)
    requires IsShape(shape)
    ensures |r.leftEye| == 6 && r.leftEye == shape[LeftEyeStart..LeftEyeEnd]
    ensures |r.rightEye| == 6 && r.rightEye == shape[RightEyeStart..RightEyeEnd]
  {
    var leftEye := shape[LeftEyeStart..LeftEyeEnd];
    var rightEye := shape[RightEyeStart..RightEyeEnd];
    EyeReading(EyeAspectRatio(leftEye, dist).Plus(EyeAspectRatio(rightEye, dist)).Half(), leftEye, rightEye)
  }

  /** With both eyes of some width, the final ratio is the mean of the two
      eyes' ratios, never negative for a metric; an eye of no width makes it
      infinite or undefined, so it is below no threshold. */
  lemma FinalEarSpec(shape: seq<Point>, dist: Metric, threshold: real)
    requires IsShape(shape)
    ensures var r := FinalEar(shape, dist);
            && (HasWidth(r.leftEye, dist) && HasWidth(r.rightEye, dist) ==>
                  && r.ear.Finite? && EyeAspectRatio(r.leftEye, dist).Finite? && EyeAspectRatio(r.rightEye, dist).Finite?
                  && r.ear.value * 2.0 == EyeAspectRatio(r.leftEye, dist).value + EyeAspectRatio(r.rightEye, dist).value
                  && (IsMetric(dist) ==> r.ear.value >= 0.0))
            && (IsMetric(dist) && !(HasWidth(r.leftEye, dist) && HasWidth(r.rightEye, dist)) ==>
                  !r.ear.Finite? && !r.ear.LessThan(threshold))
  {
    var r := FinalEar(shape, dist);
    EyeAspectRatioSpec(r.leftEye, dist);
    EyeAspectRatioSpec(r.rightEye, dist);
  }

  function SumY(pts: seq<Point>): int
  {
    if pts == [] then 0 else SumY(pts[..|pts| - 1]) + pts[|pts| - 1].y
  }

  function Abs(r: real): real
  {
    if r < 0.0 then -r else r
  }

  /** The six upper-lip and six lower-lip landmarks. */
  function TopLip(shape: seq<Point>): seq<Point>
    requires |shape| >= ShapePoints
  {
    shape[50..53] + shape[61..64]
  }

  function LowLip(shape: seq<Point>): seq<Point>
    requires |shape| >= ShapePoints
  {
    shape[56..59] + shape[65..68]
  }

  /** The vertical distance between the mean upper-lip and the mean lower-lip
      landmark. */
  function LipDistance(shape: seq<Point>): real
    requires |shape| >= ShapePoints
  {
    var topMean := SumY(TopLip(shape)) as real / 6.0;
    var lowMean := SumY(LowLip(shape)) as real / 6.0;
    Abs(topMean - lowMean)
  }

  /** The lip distance is never negative; six times it is the absolute
      difference of the two y sums, so it is zero exactly when they agree. */
  lemma LipDistanceSpec(shape: seq<Point>)
    requires |shape| >= ShapePoints
    ensures var d := LipDistance(shape);
            && d >= 0.0
            && d * 6.0 == Abs((SumY(TopLip(shape)) - SumY(LowLip(shape))) as real)
            && (d == 0.0 <==> SumY(TopLip(shape)) == SumY(LowLip(shape)))
  {
  }

  function ShiftedY(pts: seq<Point>, dy: int): (r: seq<Point>)
    ensures |r| == |pts|
  {
    seq(|pts|, i requires 0 <= i < |pts| => Point(pts[i].x, pts[i].y + dy))
  }

  lemma {:induction false} SumYShifted(pts: seq<Point>, dy: int)
    ensures SumY(ShiftedY(pts, dy)) == SumY(pts) + |pts| * dy
  {
    if pts != [] {
      var p := pts[..|pts| - 1];
      SumYShifted(p, dy);
      assert ShiftedY(pts, dy)[..|pts| - 1] == ShiftedY(p, dy);
      assert |pts| * dy == |p| * dy + dy;
    }
  }

  /** Moving the whole face up or down does not change the lip distance. */
  lemma LipDistanceShiftInvariant(shape: seq<Point>, dy: int)
    requires |shape| >= ShapePoints
    ensures LipDistance(ShiftedY(shape, dy)) == LipDistance(shape)
  {
    var s := ShiftedY(shape, dy);
    assert TopLip(s) == ShiftedY(TopLip(shape), dy);
    assert LowLip(s) == ShiftedY(LowLip(shape), dy);
    SumYShifted(TopLip(shape), dy);
    SumYShifted(LowLip(shape), dy);
  }

  // ---------------------------------------------------------------------------
  // The dlib loop

  datatype SavedAlert = SavedAlert(alertType: string, description: string)

  const DrowsinessAlert := SavedAlert("drowsiness", "Drowsiness detected!")
  const YawnAlert := SavedAlert("yawning", "Yawn Alert")

  /** The thresholds the task is started with. */
  datatype Thresholds = Thresholds(earThresh: real, earFrames: int, yawnThresh: real)

  /** What the loop reads off one face. */
  datatype FaceReading = FaceReading(ear: PyFloat, lipDistance: real)

  /** The loop's state: the closed-eye counter with its `drowsiness_detected`
      latch, and the two yawn flags. */
  datatype DlibState = DlibState(eyes: Latch, alarmStatus2: bool, saying: bool)

  const DlibStart := DlibState(Quiescent, false, false)

  function Reading(shape: seq<Point>, dist: Metric): FaceReading
    requires IsShape(shape)
  {
    FaceReading(FinalEar(shape, dist).ear, LipDistance(shape))
  }

  /** One face: the new state and the alerts saved for it. */
  function DlibFaceStep(s: DlibState, r: FaceReading, t: Thresholds): (DlibState, seq<SavedAlert>)
  {
    var eyes := LatchStep(s.eyes, r.ear.LessThan(t.earThresh), t.earFrames);
    var drowsy := if eyes.1 then [DrowsinessAlert] else [];
    if r.lipDistance > t.yawnThresh then
      if !s.alarmStatus2 && !s.saying then
        (DlibState(eyes.0, false, false), drowsy + [YawnAlert])
      else
        (DlibState(eyes.0, s.alarmStatus2, s.saying), drowsy)
    else
      (DlibState(eyes.0, false, s.saying), drowsy)
  }

  /** The state after the readings `rs`, and every alert saved on the way. */
  function DlibRun(s: DlibState, rs: seq<FaceReading>, t: Thresholds): (DlibState, seq<SavedAlert>)
  {
    if rs == [] then (s, [])
    else
      var prev := DlibRun(s, rs[..|rs| - 1], t);
      var next := DlibFaceStep(prev.0, rs[|rs| - 1], t);
      (next.0, prev.1 + next.1)
  }

  lemma DlibRunSnoc(s: DlibState, rs: seq<FaceReading>, r: FaceReading, t: Thresholds)
    ensures DlibRun(s, rs + [r], t)
         == (DlibFaceStep(DlibRun(s, rs, t).0, r, t).0, DlibRun(s, rs, t).1 + DlibFaceStep(DlibRun(s, rs, t).0, r, t).1)
  {
    assert (rs + [r])[..|rs|] == rs;
  }

  predicate FramesValid(frames: seq<seq<seq<Point>>>)
  {
    forall i, j :: 0 <= i < |frames| && 0 <= j < |frames[i]| ==> IsShape(frames[i][j])
  }

  /** The reading of each face of a frame, in order. */
  function FaceReadings(faces: seq<seq<Point>>, dist: Metric): (rs: seq<FaceReading>)
    requires forall j :: 0 <= j < |faces| ==> IsShape(faces[j])
    ensures |rs| == |faces|
    ensures forall j :: 0 <= j < |faces| ==> rs[j] == Reading(faces[j], dist)
  {
    if faces == [] then []
    else FaceReadings(faces[..|faces| - 1], dist) + [Reading(faces[|faces| - 1], dist)]
  }

  /** The readings of every face of every frame, in the order the loop visits them. */
  function FrameReadings(frames: seq<seq<seq<Point>>>, dist: Metric): seq<FaceReading>
    requires FramesValid(frames)
  {
    if frames == [] then []
    else FrameReadings(frames[..|frames| - 1], dist) + FaceReadings(frames[|frames| - 1], dist)
  }

  lemma FrameReadingsSnoc(frames: seq<seq<seq<Point>>>, i: nat, dist: Metric)
    requires i < |frames| && FramesValid(frames)
    ensures FramesValid(frames[..i]) && FramesValid(frames[..i + 1])
    ensures FrameReadings(frames[..i + 1], dist) == FrameReadings(frames[..i], dist) + FaceReadings(frames[i], dist)
  {
    assert frames[..i + 1][..i] == frames[..i];
  }

  /** The body of the loop over the faces of one frame: update the counter,
      the latch and the yawn flags, and save the alerts due. */
  method DlibFace(reading: FaceReading, t: Thresholds,
                  counter0: nat, drowsinessDetected0: bool, alarmStatus20: bool, saying0: bool,
                  saved0: seq<SavedAlert>)
    returns (counter: nat, drowsinessDetected: bool, alarmStatus2: bool, saying: bool,
             saved: seq<SavedAlert>)
    ensures var next := DlibFaceStep(DlibState(Latch(counter0, drowsinessDetected0), alarmStatus20, saying0), reading, t);
            && DlibState(Latch(counter, drowsinessDetected), alarmStatus2, saying) == next.0
            && saved == saved0 + next.1
  {
    counter, drowsinessDetected, alarmStatus2, saying, saved :=
      counter0, drowsinessDetected0, alarmStatus20, saying0, saved0;
    if reading.ear.LessThan(t.earThresh) {
      counter := counter + 1;
      if counter >= t.earFrames {
        if !drowsinessDetected {
          drowsinessDetected := true;
          saved := saved + [DrowsinessAlert];
        }
      }
    } else {
      counter := 0;
      drowsinessDetected := false;
    }
    if reading.lipDistance > t.yawnThresh {
      if !alarmStatus2 && !saying {
        alarmStatus2 := true;
        saying := true;
        saying := false;
        alarmStatus2 := false;
        saved := saved + [YawnAlert];
      }
    } else {
      alarmStatus2 := false;
    }
  }

  /** Running `a + b` runs `a`, then `b` from where `a` left off. */
  lemma {:induction false} DlibRunAppend(s: DlibState, a: seq<FaceReading>, b: seq<FaceReading>, t: Thresholds)
    ensures DlibRun(s, a + b, t)
         == (DlibRun(DlibRun(s, a, t).0, b, t).0, DlibRun(s, a, t).1 + DlibRun(DlibRun(s, a, t).0, b, t).1)
  {
    if b == [] {
      assert a + b == a;
      assert DlibRun(s, a, t).1 + [] == DlibRun(s, a, t).1;
    } else {
      var p := b[..|b| - 1];
      var r := b[|b| - 1];
      assert b == p + [r];
      assert a + b == (a + p) + [r];
      DlibRunAppend(s, a, p, t);
      DlibRunSnoc(s, a + p, r, t);
      var mid := DlibRun(s, a, t);
      DlibRunSnoc(mid.0, p, r, t);
      var rest := DlibRun(mid.0, p, t);
      var step := DlibFaceStep(rest.0, r, t);
      assert DlibRun(s, a + p, t) == (rest.0, mid.1 + rest.1);
      assert DlibRun(s, a + b, t) == (step.0, (mid.1 + rest.1) + step.1);
      assert DlibRun(mid.0, b, t) == (step.0, rest.1 + step.1);
      assert (mid.1 + rest.1) + step.1 == mid.1 + (rest.1 + step.1);
    }
  }

  lemma TakeSnoc<T>(s: seq<T>, j: nat)
    requires j < |s|
    ensures s[..j + 1] == s[..j] + [s[j]]
  {
  }

  lemma TakeEnds<T>(s: seq<T>)
    ensures s[..0] == [] && s[..|s|] == s
  {
  }

  /** The readings of face `j`: the state one step further on. */
  method DlibFaceAfter(ghost s0: DlibState, ghost rs: seq<FaceReading>, ghost j: nat,
                       face: seq<Point>, dist: Metric, t: Thresholds,
                       counter0: nat, drowsinessDetected0: bool, alarmStatus20: bool, saying0: bool,
                       ghost base: seq<SavedAlert>, saved0: seq<SavedAlert>)
    returns (counter: nat, drowsinessDetected: bool, alarmStatus2: bool, saying: bool,
             saved: seq<SavedAlert>)
    requires IsShape(face) && j < |rs| && rs[j] == Reading(face, dist)
    requires DlibRun(s0, rs[..j], t).0 == DlibState(Latch(counter0, drowsinessDetected0), alarmStatus20, saying0)
    requires saved0 == base + DlibRun(s0, rs[..j], t).1
    ensures DlibRun(s0, rs[..j + 1], t).0 == DlibState(Latch(counter, drowsinessDetected), alarmStatus2, saying)
    ensures saved == base + DlibRun(s0, rs[..j + 1], t).1
  {
    var reading := Reading(face, dist);
    TakeSnoc(rs, j);
    DlibRunSnoc(s0, rs[..j], reading, t);
    counter, drowsinessDetected, alarmStatus2, saying, saved :=
      DlibFace(reading, t, counter0, drowsinessDetected0, alarmStatus20, saying0, saved0);
  }

  /** The loop over the faces of one frame, from the state `s0` the frame
      starts in: the alerts it saves are appended to `saved0`. */
  method DlibFrame(ghost s0: DlibState, faces: seq<seq<Point>>, dist: Metric, t: Thresholds,
                   counter0: nat, drowsinessDetected0: bool, alarmStatus20: bool, saying0: bool,
                   saved0: seq<SavedAlert>)
    returns (counter: nat, drowsinessDetected: bool, alarmStatus2: bool, saying: bool,
             saved: seq<SavedAlert>)
    requires forall k :: 0 <= k < |faces| ==> IsShape(faces[k])
    requires s0 == DlibState(Latch(counter0, drowsinessDetected0), alarmStatus20, saying0)
    ensures DlibRun(s0, FaceReadings(faces, dist), t).0
         == DlibState(Latch(counter, drowsinessDetected), alarmStatus2, saying)
    ensures saved == saved0 + DlibRun(s0, FaceReadings(faces, dist), t).1
  {
    counter, drowsinessDetected, alarmStatus2, saying, saved :=
      counter0, drowsinessDetected0, alarmStatus20, saying0, saved0;
    ghost var rs := FaceReadings(faces, dist);
    TakeEnds(rs);
    var j := 0;
    while j < |faces|
      invariant 0 <= j <= |faces|
      invariant DlibRun(s0, rs[..j], t).0 == DlibState(Latch(counter, drowsinessDetected), alarmStatus2, saying)
      invariant saved == saved0 + DlibRun(s0, rs[..j], t).1
    {
      counter, drowsinessDetected, alarmStatus2, saying, saved :=
        DlibFaceAfter(s0, rs, j, faces[j], dist, t, counter, drowsinessDetected, alarmStatus2, saying, saved0, saved);
      j := j + 1;
    }
  }

  /** The dlib loop over the frames until the stream ends: the alerts it saves. */
  method DrowsinessDetectionTask(frames: seq<seq<seq<Point>>>, dist: Metric, t: Thresholds)
    returns (saved: seq<SavedAlert>)
    requires FramesValid(frames)
    ensures saved == DlibRun(DlibStart, FrameReadings(frames, dist), t).1
  {
    var alarmStatus2 := false;
    var saying := false;
    var drowsinessDetected := false;
    var counter: nat := 0;
    saved := [];
    var i := 0;
    while i < |frames|
      invariant 0 <= i <= |frames|
      invariant DlibRun(DlibStart, FrameReadings(frames[..i], dist), t)
             == (DlibState(Latch(counter, drowsinessDetected), alarmStatus2, saying), saved)
    {
      FrameReadingsSnoc(frames, i, dist);
      ghost var s0 := DlibState(Latch(counter, drowsinessDetected), alarmStatus2, saying);
      DlibRunAppend(DlibStart, FrameReadings(frames[..i], dist), FaceReadings(frames[i], dist), t);
      counter, drowsinessDetected, alarmStatus2, saying, saved :=
        DlibFrame(s0, frames[i], dist, t, counter, drowsinessDetected, alarmStatus2, saying, saved);
      i := i + 1;
    }
    assert frames[..|frames|] == frames;
  }

  /** Which readings have the eyes below the threshold. */
  function EyesClosed(rs: seq<FaceReading>, t: Thresholds): (cs: seq<bool>)
    ensures |cs| == |rs|
  {
    seq(|rs|, k requires 0 <= k < |rs| => rs[k].ear.LessThan(t.earThresh))
  }

  /** The alerts saved for reading `i`. */
  function DlibAlertsAt(rs: seq<FaceReading>, i: nat, t: Thresholds): seq<SavedAlert>
    requires i < |rs|
  {
    DlibFaceStep(DlibRun(DlibStart, rs[..i], t).0, rs[i], t).1
  }

  /** A face with an eye of no width gets an infinite or undefined ratio,
      which is not below the threshold: the counter and the latch are reset
      and no drowsiness alert is saved, while its yawn is judged as usual. */
  lemma DlibNarrowEyeResets(s: DlibState, shape: seq<Point>, dist: Metric, t: Thresholds)
    requires IsShape(shape) && IsMetric(dist)
    requires !(HasWidth(FinalEar(shape, dist).leftEye, dist) && HasWidth(FinalEar(shape, dist).rightEye, dist))
    ensures var next := DlibFaceStep(s, Reading(shape, dist), t);
            && next.0.eyes == Quiescent
            && DrowsinessAlert !in next.1
            && (YawnAlert in next.1 <==> LipDistance(shape) > t.yawnThresh && !s.alarmStatus2 && !s.saying)
  {
    FinalEarSpec(shape, dist, t.earThresh);
  }

  /** The yawn flags are always clear when the next face is looked at: the
      loop raises and lowers them within one face. */
  lemma {:induction false} DlibYawnFlagsClear(rs: seq<FaceReading>, t: Thresholds)
    ensures !DlibRun(DlibStart, rs, t).0.alarmStatus2 && !DlibRun(DlibStart, rs, t).0.saying
  {
    if rs != [] {
      DlibYawnFlagsClear(rs[..|rs| - 1], t);
    }
  }

  /** The eye channel is the latching debounce of the closed-eye readings. */
  lemma {:induction false} DlibEyesLatch(rs: seq<FaceReading>, t: Thresholds)
    ensures DlibRun(DlibStart, rs, t).0.eyes == LatchRun(Quiescent, EyesClosed(rs, t), t.earFrames)
  {
    if rs != [] {
      var p := rs[..|rs| - 1];
      DlibEyesLatch(p, t);
      assert EyesClosed(rs, t)[..|rs| - 1] == EyesClosed(p, t);
    }
  }

  /** Reading `i` saves a drowsiness alert exactly when its eyes are closed and
      it is the `ear_frames`-th closed reading in a row (at least the first),
      and a yawn alert exactly when its lip distance is above the threshold. */
  lemma DlibAlertsAtReading(rs: seq<FaceReading>, i: nat, t: Thresholds)
    requires i < |rs|
    ensures DrowsinessAlert in DlibAlertsAt(rs, i, t)
        <==> rs[i].ear.LessThan(t.earThresh) && Streak(0, EyesClosed(rs, t)[..i + 1]) == Max(t.earFrames, 1)
    ensures YawnAlert in DlibAlertsAt(rs, i, t) <==> rs[i].lipDistance > t.yawnThresh
  {
    DlibYawnFlagsClear(rs[..i], t);
    DlibEyesLatch(rs[..i], t);
    assert EyesClosed(rs[..i], t) == EyesClosed(rs, t)[..i];
    LatchFiresAtThreshold(EyesClosed(rs, t), i, t.earFrames);
    assert DrowsinessAlert != YawnAlert by { assert DrowsinessAlert.alertType[0] != YawnAlert.alertType[0]; }
  }

  /** The alerts saved so far grow by exactly the alerts of each reading. */
  lemma DlibSavedGrows(rs: seq<FaceReading>, i: nat, t: Thresholds)
    requires i < |rs|
    ensures DlibRun(DlibStart, rs[..i + 1], t).1 == DlibRun(DlibStart, rs[..i], t).1 + DlibAlertsAt(rs, i, t)
  {
    assert rs[..i + 1][..i] == rs[..i];
  }

  /** With the same readings a drowsiness alert is saved at most once per run of
      closed-eye readings. */
  lemma DlibDrowsinessOncePerStreak(rs: seq<FaceReading>, i: nat, j: nat, t: Thresholds)
    requires i < j < |rs|
    requires forall k :: i <= k <= j ==> rs[k].ear.LessThan(t.earThresh)
    ensures !(DrowsinessAlert in DlibAlertsAt(rs, i, t) && DrowsinessAlert in DlibAlertsAt(rs, j, t))
  {
    DlibAlertsAtReading(rs, i, t);
    DlibAlertsAtReading(rs, j, t);
    StreakGrows(0, EyesClosed(rs, t), i, j);
  }

  // ---------------------------------------------------------------------------
  // The production loop

  /** What the production detector returned for one frame, or that it raised. */
  datatype Detection = Detected(isDrowsy: bool, isYawning: bool) | DetectionRaised

  datatype ProductionState = ProductionState(drowsyFrameCount: nat, yawnFrameCount: nat)

  const ProductionStart := ProductionState(0, 0)
  const ProductionYawnAlert := SavedAlert("yawning", "Yawn detected!")

  /** One frame: both channels decay, and a raised detection changes nothing. */
  function ProductionStep(s: ProductionState, d: Detection, earFrames: int): (ProductionState, seq<SavedAlert>)
  {
    match d
    case DetectionRaised => (s, [])
    case Detected(drowsy, yawning) =>
      var dr := DecayStep(s.drowsyFrameCount, drowsy, earFrames);
      var yw := DecayStep(s.yawnFrameCount, yawning, earFrames);
      (ProductionState(dr.0, yw.0),
       (if dr.1 then [DrowsinessAlert] else []) + (if yw.1 then [ProductionYawnAlert] else []))
  }

  function ProductionRun(s: ProductionState, ds: seq<Detection>, earFrames: int): (ProductionState, seq<SavedAlert>)
  {
    if ds == [] then (s, [])
    else
      var prev := ProductionRun(s, ds[..|ds| - 1], earFrames);
      var next := ProductionStep(prev.0, ds[|ds| - 1], earFrames);
      (next.0, prev.1 + next.1)
  }

  lemma ProductionRunSnoc(s: ProductionState, ds: seq<Detection>, d: Detection, earFrames: int)
    ensures ProductionRun(s, ds + [d], earFrames)
         == (ProductionStep(ProductionRun(s, ds, earFrames).0, d, earFrames).0,
             ProductionRun(s, ds, earFrames).1 + ProductionStep(ProductionRun(s, ds, earFrames).0, d, earFrames).1)
  {
    assert (ds + [d])[..|ds|] == ds;
  }

  /** The production loop over the frames until the camera stops delivering:
      the alerts it saves and its final counters. */
  method ProductionDrowsinessDetection(detections: seq<Detection>, earFrames: int)
    returns (saved: seq<SavedAlert>, drowsyFrameCount: nat, yawnFrameCount: nat)
    ensures (ProductionState(drowsyFrameCount, yawnFrameCount), saved)
         == ProductionRun(ProductionStart, detections, earFrames)
  {
    drowsyFrameCount := 0;
    yawnFrameCount := 0;
    saved := [];
    var i := 0;
    while i < |detections|
      invariant 0 <= i <= |detections|
      invariant (ProductionState(drowsyFrameCount, yawnFrameCount), saved)
             == ProductionRun(ProductionStart, detections[..i], earFrames)
    {
      ghost var pre := ProductionState(drowsyFrameCount, yawnFrameCount);
      ghost var preSaved := saved;
      match detections[i] {
        case DetectionRaised =>
        case Detected(isDrowsy, isYawning) =>
        if isDrowsy {
          drowsyFrameCount := drowsyFrameCount + 1;
          if drowsyFrameCount >= earFrames {
            saved := saved + [DrowsinessAlert];
            drowsyFrameCount := 0;
          }
        } else {
          var decayed := drowsyFrameCount - 1;
          drowsyFrameCount := if decayed > 0 then decayed else 0;
        }
        if isYawning {
          yawnFrameCount := yawnFrameCount + 1;
          if yawnFrameCount >= earFrames {
            saved := saved + [ProductionYawnAlert];
            yawnFrameCount := 0;
          }
        } else {
          var decayed := yawnFrameCount - 1;
          yawnFrameCount := if decayed > 0 then decayed else 0;
        }
      }
      assert ProductionState(drowsyFrameCount, yawnFrameCount) == ProductionStep(pre, detections[i], earFrames).0;
      assert saved == preSaved + ProductionStep(pre, detections[i], earFrames).1;
      assert detections[..i + 1] == detections[..i] + [detections[i]];
      ProductionRunSnoc(ProductionStart, detections[..i], detections[i], earFrames);
      i := i + 1;
    }
    assert detections[..|detections|] == detections;
  }

  /** The drowsiness and the yawn condition of the frames whose detection did not raise. */
  function DrowsyChannel(ds: seq<Detection>): seq<bool>
  {
    if ds == [] then []
    else
      var d := ds[|ds| - 1];
      DrowsyChannel(ds[..|ds| - 1]) + (if d.Detected? then [d.isDrowsy] else [])
  }

  function YawnChannel(ds: seq<Detection>): seq<bool>
  {
    if ds == [] then []
    else
      var d := ds[|ds| - 1];
      YawnChannel(ds[..|ds| - 1]) + (if d.Detected? then [d.isYawning] else [])
  }

  lemma ChannelsSnoc(ds: seq<Detection>, d: Detection)
    ensures DrowsyChannel(ds + [d]) == DrowsyChannel(ds) + (if d.Detected? then [d.isDrowsy] else [])
    ensures YawnChannel(ds + [d]) == YawnChannel(ds) + (if d.Detected? then [d.isYawning] else [])
  {
    assert (ds + [d])[..|ds|] == ds;
  }

  /** The alerts of one production step, counted by kind. */
  lemma StepAlertCounts(drowsy: bool, yawning: bool)
    ensures var alerts := (if drowsy then [DrowsinessAlert] else []) + (if yawning then [ProductionYawnAlert] else []);
            && multiset(alerts)[DrowsinessAlert] == (if drowsy then 1 else 0)
            && multiset(alerts)[ProductionYawnAlert] == (if yawning then 1 else 0)
  {
    assert DrowsinessAlert.alertType[0] != ProductionYawnAlert.alertType[0];
  }

  /** Each counter is the decaying debounce of its own channel, a raised
      detection being skipped, and the number of alerts of each kind is the
      number of times that channel fires. */
  lemma {:induction false} ProductionChannels(ds: seq<Detection>, earFrames: int)
    ensures ProductionRun(ProductionStart, ds, earFrames).0
         == ProductionState(DecayRun(0, DrowsyChannel(ds), earFrames), DecayRun(0, YawnChannel(ds), earFrames))
    ensures multiset(ProductionRun(ProductionStart, ds, earFrames).1)[DrowsinessAlert]
         == DecayFireCount(0, DrowsyChannel(ds), earFrames)
    ensures multiset(ProductionRun(ProductionStart, ds, earFrames).1)[ProductionYawnAlert]
         == DecayFireCount(0, YawnChannel(ds), earFrames)
  {
    if ds != [] {
      var p := ds[..|ds| - 1];
      var d := ds[|ds| - 1];
      assert ds == p + [d];
      ProductionChannels(p, earFrames);
      ChannelsSnoc(p, d);
      var prev := ProductionRun(ProductionStart, p, earFrames);
      var next := ProductionStep(prev.0, d, earFrames);
      if d.Detected? {
        DecaySnoc(0, DrowsyChannel(p), d.isDrowsy, earFrames);
        DecaySnoc(0, YawnChannel(p), d.isYawning, earFrames);
        var dr := DecayStep(DecayRun(0, DrowsyChannel(p), earFrames), d.isDrowsy, earFrames);
        var yw := DecayStep(DecayRun(0, YawnChannel(p), earFrames), d.isYawning, earFrames);
        StepAlertCounts(dr.1, yw.1);
      } else {
        assert DrowsyChannel(ds) == DrowsyChannel(p) && YawnChannel(ds) == YawnChannel(p);
        assert prev.1 + [] == prev.1;
      }
    }
  }

  /** With `ear_frames` at least one, neither counter reaches `ear_frames`, and
      every alert of a kind is paid for by `ear_frames` frames on which that
      condition held. */
  lemma ProductionBounds(ds: seq<Detection>, earFrames: int)
    requires earFrames >= 1
    ensures ProductionRun(ProductionStart, ds, earFrames).0.drowsyFrameCount < earFrames
    ensures ProductionRun(ProductionStart, ds, earFrames).0.yawnFrameCount < earFrames
    ensures earFrames * multiset(ProductionRun(ProductionStart, ds, earFrames).1)[DrowsinessAlert]
         <= CountTrue(DrowsyChannel(ds))
    ensures earFrames * multiset(ProductionRun(ProductionStart, ds, earFrames).1)[ProductionYawnAlert]
         <= CountTrue(YawnChannel(ds))
  {
    ProductionChannels(ds, earFrames);
    DecayStaysBelowThreshold(0, DrowsyChannel(ds), earFrames);
    DecayStaysBelowThreshold(0, YawnChannel(ds), earFrames);
    DecayFiresCostThreshold(DrowsyChannel(ds), earFrames);
    DecayFiresCostThreshold(YawnChannel(ds), earFrames);
  }
}
