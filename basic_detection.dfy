/** The OpenCV-only fallback detector. The cascade classifiers and the contour
    finder are inputs: for each face found, its size, the eye boxes found in
    its upper half and the contours found in its lower half (or that finding
    them raised). */
module BasicDetection {
  import opened Wrappers
  import opened Debounce

  const ClosedEyeThreshold: real := 0.1
  const ConsecutiveFrames: nat := 3
  const InitialEyeRatio: real := 0.3

  /** A detected rectangle. */
  datatype Box = Box(x: int, y: int, w: int, h: int)

  function SumAreas(eyes: seq<Box>): int
  {
    if eyes == [] then 0 else SumAreas(eyes[..|eyes| - 1]) + eyes[|eyes| - 1].w * eyes[|eyes| - 1].h
  }

  /** The total eye-box area over the face area; zero without eyes or without
      a positive face area. */
  function EyeRatio(eyes: seq<Box>, faceWidth: int, faceHeight: int): real
  {
    if |eyes| == 0 then 0.0
    else
      var faceArea := faceWidth * faceHeight;
      if faceArea > 0 then SumAreas(eyes) as real / faceArea as real else 0.0
  }

  /** The ratio times the face area is the total eye area. */
  lemma EyeRatioSpec(eyes: seq<Box>, faceWidth: int, faceHeight: int)
    ensures eyes == [] || faceWidth * faceHeight <= 0 ==> EyeRatio(eyes, faceWidth, faceHeight) == 0.0
    ensures eyes != [] && faceWidth * faceHeight > 0 ==>
      EyeRatio(eyes, faceWidth, faceHeight) * (faceWidth * faceHeight) as real == SumAreas(eyes) as real
  {
  }

  /** `calculate_eye_ratio`, summing the eye areas in a loop. */
  method CalculateEyeRatio(eyes: seq<Box>, faceWidth: int, faceHeight: int) returns (r: real)
    ensures r == EyeRatio(eyes, faceWidth, faceHeight)
  {
    if |eyes| == 0 {
      return 0.0;
    }
    var totalEyeArea := 0;
    var k := 0;
    while k < |eyes|
      invariant 0 <= k <= |eyes|
      invariant totalEyeArea == SumAreas(eyes[..k])
    {
      assert eyes[..k + 1][..k] == eyes[..k];
      totalEyeArea := totalEyeArea + eyes[k].w * eyes[k].h;
      k := k + 1;
    }
    assert eyes[..|eyes|] == eyes;
    var faceArea := faceWidth * faceHeight;
    r := if faceArea > 0 then totalEyeArea as real / faceArea as real else 0.0;
  }

  /** A contour: its area and the width and height of its bounding box. */
  datatype Contour = Contour(area: real, w: int, h: int)

  /** `max(contours, key=area)`: the first contour of largest area. */
  function LargestIndex(cs: seq<Contour>): (k: nat)
    requires cs != []
    ensures k < |cs|
    ensures forall j :: 0 <= j < |cs| ==> cs[j].area <= cs[k].area
    ensures forall j :: 0 <= j < k ==> cs[j].area < cs[k].area
  {
    if |cs| == 1 then 0
    else
      var k := LargestIndex(cs[..|cs| - 1]);
      if cs[|cs| - 1].area > cs[k].area then |cs| - 1 else k
  }

  /** The bounding box's height over its width, zero for a zero width. */
  function BoxAspect(c: Contour): real
  {
    if c.w > 0 then c.h as real / c.w as real else 0.0
  }

  /** `detect_yawn_basic`: the largest contour covers more than 2% of the face
      and its box is more than half as high as wide. No contours, or contour
      finding that raised, is no yawn. */
  function DetectYawnBasic(contours: Option<seq<Contour>>, faceWidth: int, faceHeight: int): bool
  {
    match contours
    case None => false
    case Some(cs) =>
      if cs == [] then false
      else
        var largest := cs[LargestIndex(cs)];
        var minArea := (faceWidth * faceHeight) as real * 0.02;
        largest.area > minArea && BoxAspect(largest) > 0.5
  }

  /** A yawn exactly when there are contours and the first of largest area
      is big enough and tall enough. */
  lemma DetectYawnBasicSpec(contours: Option<seq<Contour>>, faceWidth: int, faceHeight: int)
    ensures DetectYawnBasic(contours, faceWidth, faceHeight)
        <==> contours.Some? && contours.value != []
             && exists k :: 0 <= k < |contours.value|
                  && (forall j :: 0 <= j < |contours.value| ==> contours.value[j].area <= contours.value[k].area)
                  && (forall j :: 0 <= j < k ==> contours.value[j].area < contours.value[k].area)
                  && contours.value[k].area > (faceWidth * faceHeight) as real * 0.02
                  && BoxAspect(contours.value[k]) > 0.5
  {
  }

  /** What the cascades and the contour finder report for one face. */
  datatype FaceObservation = FaceObservation(w: int, h: int, eyes: seq<Box>, mouthContours: Option<seq<Contour>>)

  /** Fewer than two eyes, or eyes covering less than a tenth of the face
      area (any eyes count as closed on a face of no area). */
  predicate EyesClosed(f: FaceObservation)
  {
    || |f.eyes| < 2
    || f.w * f.h <= 0
    || SumAreas(f.eyes) as real < ClosedEyeThreshold * (f.w * f.h) as real
  }

  /** The closed-eye test on areas is the detector's test on the ratio. */
  lemma EyesClosedByRatio(f: FaceObservation)
    ensures EyesClosed(f) <==> |f.eyes| < 2 || EyeRatio(f.eyes, f.w, f.h) < ClosedEyeThreshold
  {
    EyeRatioSpec(f.eyes, f.w, f.h);
    if |f.eyes| >= 2 && f.w * f.h > 0 {
      var area := (f.w * f.h) as real;
      var r := EyeRatio(f.eyes, f.w, f.h);
      assert r * area == SumAreas(f.eyes) as real;
      assert r < ClosedEyeThreshold <==> r * area < ClosedEyeThreshold * area;
    }
  }

  function ClosedFlags(faces: seq<FaceObservation>): (cs: seq<bool>)
    ensures |cs| == |faces|
  {
    seq(|faces|, i requires 0 <= i < |faces| => EyesClosed(faces[i]))
  }

  /** One frame: the eye counter after it, `is_drowsy` (raised by any face
      that reaches the threshold) and `is_yawning` (from the last face). */
  function BasicFrame(counter: nat, faces: seq<FaceObservation>): (nat, bool, bool)
  {
    if faces == [] then (counter, false, false)
    else
      var prev := BasicFrame(counter, faces[..|faces| - 1]);
      var f := faces[|faces| - 1];
      var c := HardResetStep(prev.0, EyesClosed(f));
      (c, prev.1 || HardResetFlag(c, EyesClosed(f), ConsecutiveFrames), DetectYawnBasic(f.mouthContours, f.w, f.h))
  }

  /** The frame step over one more face. */
  lemma BasicFrameSnoc(counter: nat, faces: seq<FaceObservation>, i: nat)
    requires i < |faces|
    ensures var prev := BasicFrame(counter, faces[..i]);
            var c := HardResetStep(prev.0, EyesClosed(faces[i]));
            BasicFrame(counter, faces[..i + 1])
              == (c, prev.1 || HardResetFlag(c, EyesClosed(faces[i]), ConsecutiveFrames),
                  DetectYawnBasic(faces[i].mouthContours, faces[i].w, faces[i].h))
  {
    assert faces[..i + 1][..i] == faces[..i];
  }

  class BasicOpenCVDetector {
    var eyeCounter: nat
    var yawnCounter: nat
    var prevEyeRatio: real

    constructor ()
      ensures eyeCounter == 0 && yawnCounter == 0 && prevEyeRatio == InitialEyeRatio
    {
      eyeCounter := 0;
      yawnCounter := 0;
      prevEyeRatio := InitialEyeRatio;
    }

    /** `detect_drowsiness` on one frame, given what was found for each face. */
    method DetectDrowsiness(faces: seq<FaceObservation>) returns (isDrowsy: bool, isYawning: bool)
      modifies this
      ensures (eyeCounter, isDrowsy, isYawning) == BasicFrame(old(eyeCounter), faces)
      ensures yawnCounter == old(yawnCounter) && prevEyeRatio == old(prevEyeRatio)
    {
      isDrowsy := false;
      isYawning := false;
      var i := 0;
      while i < |faces|
        invariant 0 <= i <= |faces|
        invariant (eyeCounter, isDrowsy, isYawning) == BasicFrame(old(eyeCounter), faces[..i])
        invariant yawnCounter == old(yawnCounter) && prevEyeRatio == old(prevEyeRatio)
      {
        var face := faces[i];
        BasicFrameSnoc(old(eyeCounter), faces, i);
        var eyeRatio := CalculateEyeRatio(face.eyes, face.w, face.h);
        EyesClosedByRatio(face);
        if |face.eyes| < 2 || eyeRatio < ClosedEyeThreshold {
          eyeCounter := eyeCounter + 1;
          if eyeCounter >= ConsecutiveFrames {
            isDrowsy := true;
          }
        } else {
          eyeCounter := 0;
        }
        isYawning := DetectYawnBasic(face.mouthContours, face.w, face.h);
        i := i + 1;
      }
      assert faces[..|faces|] == faces;
    }
  }

  /** The closed-eye flags of one more face. */
  lemma ClosedFlagsSnoc(faces: seq<FaceObservation>)
    requires faces != []
    ensures ClosedFlags(faces) == ClosedFlags(faces[..|faces| - 1]) + [EyesClosed(faces[|faces| - 1])]
  {
  }

  /** The eye counter runs the hard-reset debounce face after face, so it is
      the current streak of faces with closed eyes, carried over from the
      frames before. */
  lemma {:induction false} BasicFrameCounter(counter: nat, faces: seq<FaceObservation>)
    ensures BasicFrame(counter, faces).0 == Streak(counter, ClosedFlags(faces))
  {
    if faces != [] {
      var p := faces[..|faces| - 1];
      BasicFrameCounter(counter, p);
      ClosedFlagsSnoc(faces);
      StreakExtend(counter, ClosedFlags(p), EyesClosed(faces[|faces| - 1]));
    }
  }

  /** Face `i` has closed eyes and is at least the third closed-eye face in a
      row, counting `counter` faces of earlier frames. */
  predicate Reached(counter: nat, flags: seq<bool>, i: nat)
    requires i < |flags|
  {
    flags[i] && Streak(counter, flags[..i + 1]) >= ConsecutiveFrames
  }

  /** Some face reaches the threshold. */
  predicate AnyReached(counter: nat, flags: seq<bool>)
  {
    exists i :: 0 <= i < |flags| && Reached(counter, flags, i)
  }

  /** One more flag reaches the threshold exactly when it is set and extends
      the current streak to the threshold; the earlier flags keep theirs. */
  lemma ReachedSnoc(counter: nat, flags: seq<bool>, b: bool)
    ensures AnyReached(counter, flags + [b])
        <==> AnyReached(counter, flags) || HardResetFlag(HardResetStep(Streak(counter, flags), b), b, ConsecutiveFrames)
  {
    var n := |flags|;
    var all := flags + [b];
    assert all[..n] == flags;
    assert all[..n + 1] == all;
    StreakExtend(counter, flags, b);
    var last := HardResetFlag(HardResetStep(Streak(counter, flags), b), b, ConsecutiveFrames);
    assert Reached(counter, all, n) == last;
    forall i | 0 <= i < n
      ensures Reached(counter, flags, i) == Reached(counter, all, i)
    {
      assert all[..i + 1] == flags[..i + 1];
    }
    if AnyReached(counter, all) {
      var i :| 0 <= i < |all| && Reached(counter, all, i);
      assert i < n ==> Reached(counter, flags, i);
    }
    if AnyReached(counter, flags) {
      var i :| 0 <= i < n && Reached(counter, flags, i);
      assert Reached(counter, all, i);
    }
    if last {
      assert Reached(counter, all, n);
    }
  }

  /** A frame is reported drowsy exactly when one of its faces has closed eyes
      and is at least the third closed-eye face in a row, counting the faces
      of earlier frames. */
  lemma {:induction false} BasicFrameDrowsy(counter: nat, faces: seq<FaceObservation>)
    ensures BasicFrame(counter, faces).1 <==> AnyReached(counter, ClosedFlags(faces))
  {
    if faces != [] {
      var p := faces[..|faces| - 1];
      BasicFrameDrowsy(counter, p);
      BasicFrameCounter(counter, p);
      ClosedFlagsSnoc(faces);
      ReachedSnoc(counter, ClosedFlags(p), EyesClosed(faces[|faces| - 1]));
    }
  }

  /** A frame is reported yawning exactly when its last face is. */
  lemma BasicFrameYawning(counter: nat, faces: seq<FaceObservation>)
    ensures BasicFrame(counter, faces).2
        <==> faces != [] && DetectYawnBasic(faces[|faces| - 1].mouthContours, faces[|faces| - 1].w, faces[|faces| - 1].h)
  {
  }
}
