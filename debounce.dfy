/** The three debounce policies the detectors use to turn a per-frame condition
    (eyes closed, mouth open) into alerts, stated over the sequence of
    conditions seen so far, together with exact characterisations of when each
    one fires:
    - hard reset: a failed frame sets the counter back to zero, and the flag is
      raised on every frame once the counter has reached the threshold;
    - latch: as hard reset, but the alert fires only on the first such frame of
      a streak;
    - decay: a failed frame lowers the counter by one, and reaching the
      threshold fires and sets the counter back to zero. */
module Debounce {

  /** The index of the last frame whose condition failed, or -1 when none did. */
  function LastFalse(cs: seq<bool>): (k: int)
    ensures -1 <= k < |cs|
    ensures k >= 0 ==> !cs[k]
    ensures forall j :: k < j < |cs| ==> cs[j]
  {
    if cs == [] then -1
    else if !cs[|cs| - 1] then |cs| - 1
    else LastFalse(cs[..|cs| - 1])
  }

  /** The length of the current streak of met conditions: the frames since the
      last failed one, or, when none failed, all of them plus the `carry`
      frames of a streak that was already running before `cs` started. */
  function Streak(carry: nat, cs: seq<bool>): nat
  {
    var k := LastFalse(cs);
    if k < 0 then carry + |cs| else |cs| - 1 - k
  }

  lemma StreakExtend(carry: nat, cs: seq<bool>, b: bool)
    ensures Streak(carry, cs + [b]) == if b then Streak(carry, cs) + 1 else 0
  {
    assert (cs + [b])[..|cs|] == cs;
  }

  /** A streak that is met on every frame from `i + 1` to `j` grows by one per frame. */
  lemma {:induction false} StreakGrows(carry: nat, cs: seq<bool>, i: nat, j: nat)
    requires i <= j < |cs|
    requires forall k :: i < k <= j ==> cs[k]
    ensures Streak(carry, cs[..j + 1]) == Streak(carry, cs[..i + 1]) + (j - i)
  {
    if j > i {
      StreakGrows(carry, cs, i, j - 1);
      assert cs[..j + 1] == cs[..j] + [cs[j]];
      StreakExtend(carry, cs[..j], cs[j]);
    }
  }

  /** From a quiescent start, the streak ending at frame `i` is at least `t`
      long exactly when the last `t` frames up to `i` all met the condition. */
  lemma StreakWindow(cs: seq<bool>, i: nat, t: nat)
    requires i < |cs| && t >= 1
    ensures Streak(0, cs[..i + 1]) >= t <==> (i + 1 >= t && forall j :: i + 1 - t <= j <= i ==> cs[j])
  {
    var p := cs[..i + 1];
    var k := LastFalse(p);
    if Streak(0, p) >= t {
      forall j | i + 1 - t <= j <= i ensures cs[j] {
        assert p[j] == cs[j];
      }
    } else if i + 1 >= t {
      assert k >= 0 && k >= i + 1 - t;
      assert !cs[k] by { assert p[k] == cs[k]; }
    }
  }

  // ---------------------------------------------------------------------------
  // Hard reset, not latching

  /** One frame of the hard-reset counter. */
  function HardResetStep(counter: nat, conditionMet: bool): nat
  {
    if conditionMet then counter + 1 else 0
  }

  /** The flag a hard-reset channel reports for a frame, given the counter after
      the frame: only a frame that met the condition can raise it. */
  predicate HardResetFlag(counterAfter: nat, conditionMet: bool, threshold: int)
  {
    conditionMet && counterAfter >= threshold
  }

  /** The hard-reset counter after the frames `cs`, starting from `counter`. */
  function HardResetRun(counter: nat, cs: seq<bool>): nat
  {
    if cs == [] then counter
    else HardResetStep(HardResetRun(counter, cs[..|cs| - 1]), cs[|cs| - 1])
  }

  /** The hard-reset counter is the length of the current streak. */
  lemma {:induction false} HardResetCountsStreak(counter: nat, cs: seq<bool>)
    ensures HardResetRun(counter, cs) == Streak(counter, cs)
  {
    if cs != [] {
      var p := cs[..|cs| - 1];
      HardResetCountsStreak(counter, p);
      assert cs == p + [cs[|cs| - 1]];
      StreakExtend(counter, p, cs[|cs| - 1]);
    }
  }

  /** From a zero counter with threshold `t >= 1`, the flag is raised on frame
      `i` exactly when frames `i - t + 1` to `i` all met the condition: never
      before the `t`-th frame of a streak, and on every frame from then on until
      the condition fails. */
  lemma HardResetFlagIffWindow(cs: seq<bool>, i: nat, t: nat)
    requires i < |cs| && t >= 1
    ensures HardResetFlag(HardResetRun(0, cs[..i + 1]), cs[i], t)
        <==> (i + 1 >= t && forall j :: i + 1 - t <= j <= i ==> cs[j])
  {
    HardResetCountsStreak(0, cs[..i + 1]);
    StreakWindow(cs, i, t);
  }

  /** One failed frame brings a hard-reset channel back to quiescent, whatever it was. */
  lemma HardResetOneFailureResets(counter: nat, cs: seq<bool>, threshold: int)
    ensures HardResetRun(counter, cs + [false]) == 0
    ensures !HardResetFlag(HardResetRun(counter, cs + [false]), false, threshold)
  {
    assert (cs + [false])[..|cs|] == cs;
  }

  // ---------------------------------------------------------------------------
  // Hard reset with a one-shot latch

  /** The counter and the "already alerted in this streak" latch. */
  datatype Latch = Latch(counter: nat, latched: bool)

  const Quiescent := Latch(0, false)

  /** One frame of the latching policy: the new state, and whether an alert fires. */
  function LatchStep(s: Latch, conditionMet: bool, threshold: int): (Latch, bool)
  {
    if conditionMet then
      var c := s.counter + 1;
      if c >= threshold then
        if !s.latched then (Latch(c, true), true) else (Latch(c, s.latched), false)
      else
        (Latch(c, s.latched), false)
    else
      (Latch(0, false), false)
  }

  function LatchRun(s: Latch, cs: seq<bool>, threshold: int): Latch
  {
    if cs == [] then s
    else LatchStep(LatchRun(s, cs[..|cs| - 1], threshold), cs[|cs| - 1], threshold).0
  }

  /** Whether frame `i` of `cs` fires an alert, starting from `s`. */
  predicate LatchFires(s: Latch, cs: seq<bool>, i: nat, threshold: int)
    requires i < |cs|
  {
    LatchStep(LatchRun(s, cs[..i], threshold), cs[i], threshold).1
  }

  function Max(a: int, b: int): int
  {
    if a >= b then a else b
  }

  /** From quiescent, the counter is the streak length and the latch is set
      exactly when the streak has reached the threshold (at least one frame). */
  lemma {:induction false} LatchRunState(cs: seq<bool>, threshold: int)
    ensures LatchRun(Quiescent, cs, threshold).counter == Streak(0, cs)
    ensures LatchRun(Quiescent, cs, threshold).latched <==> Streak(0, cs) >= Max(threshold, 1)
  {
    if cs != [] {
      var p := cs[..|cs| - 1];
      LatchRunState(p, threshold);
      assert cs == p + [cs[|cs| - 1]];
      StreakExtend(0, p, cs[|cs| - 1]);
    }
  }

  /** From quiescent, frame `i` fires exactly when it met the condition and its
      streak is exactly the threshold long (a threshold below one acts as one):
      one alert for each streak that reaches the threshold. */
  lemma LatchFiresAtThreshold(cs: seq<bool>, i: nat, threshold: int)
    requires i < |cs|
    ensures LatchFires(Quiescent, cs, i, threshold)
        <==> cs[i] && Streak(0, cs[..i + 1]) == Max(threshold, 1)
  {
    LatchRunState(cs[..i], threshold);
    assert cs[..i + 1] == cs[..i] + [cs[i]];
    StreakExtend(0, cs[..i], cs[i]);
  }

  /** Within one streak the latching policy fires at most once. */
  lemma LatchAtMostOncePerStreak(cs: seq<bool>, i: nat, j: nat, threshold: int)
    requires i < j < |cs|
    requires forall k :: i <= k <= j ==> cs[k]
    ensures !(LatchFires(Quiescent, cs, i, threshold) && LatchFires(Quiescent, cs, j, threshold))
  {
    LatchFiresAtThreshold(cs, i, threshold);
    LatchFiresAtThreshold(cs, j, threshold);
    StreakGrows(0, cs, i, j);
  }

  // ---------------------------------------------------------------------------
  // Decay with reset on fire

  /** One frame of the decaying counter: the new counter, and whether an alert fires. */
  function DecayStep(counter: nat, conditionMet: bool, threshold: int): (nat, bool)
  {
    if conditionMet then
      if counter + 1 >= threshold then (0, true) else (counter + 1, false)
    else
      var decayed := counter - 1;
      (if decayed > 0 then decayed else 0, false)
  }

  function DecayRun(counter: nat, cs: seq<bool>, threshold: int): nat
  {
    if cs == [] then counter
    else DecayStep(DecayRun(counter, cs[..|cs| - 1], threshold), cs[|cs| - 1], threshold).0
  }

  predicate DecayFires(counter: nat, cs: seq<bool>, i: nat, threshold: int)
    requires i < |cs|
  {
    DecayStep(DecayRun(counter, cs[..i], threshold), cs[i], threshold).1
  }

  function CountTrue(cs: seq<bool>): nat
  {
    if cs == [] then 0 else CountTrue(cs[..|cs| - 1]) + (if cs[|cs| - 1] then 1 else 0)
  }

  /** With a threshold of at least one, a counter below it stays below it. */
  lemma {:induction false} DecayStaysBelowThreshold(counter: nat, cs: seq<bool>, threshold: int)
    requires 1 <= threshold && counter < threshold
    ensures DecayRun(counter, cs, threshold) < threshold
  {
    if cs != [] {
      DecayStaysBelowThreshold(counter, cs[..|cs| - 1], threshold);
    }
  }

  /** The counter never exceeds its start plus the number of met frames. */
  lemma {:induction false} DecayCountBound(counter: nat, cs: seq<bool>, threshold: int)
    ensures DecayRun(counter, cs, threshold) <= counter + CountTrue(cs)
  {
    if cs != [] {
      DecayCountBound(counter, cs[..|cs| - 1], threshold);
    }
  }

  /** An alert needs enough met frames: at frame `i` the start counter plus the
      met frames up to and including `i` have reached the threshold. */
  lemma DecayFireNeedsEnoughMet(counter: nat, cs: seq<bool>, i: nat, threshold: int)
    requires i < |cs|
    ensures DecayFires(counter, cs, i, threshold) ==> counter + CountTrue(cs[..i + 1]) >= threshold
  {
    DecayCountBound(counter, cs[..i], threshold);
    assert cs[..i + 1][..i] == cs[..i];
  }

  /** A condition met on every frame from a zero counter cycles the counter
      through 0 .. threshold - 1: after `q * threshold + r` frames, with
      `r < threshold`, the counter is `r`. */
  lemma {:induction false} DecaySustained(cs: seq<bool>, threshold: int, q: nat, r: nat)
    requires 1 <= threshold && r < threshold && |cs| == q * threshold + r
    requires forall k :: 0 <= k < |cs| ==> cs[k]
    ensures DecayRun(0, cs, threshold) == r
    decreases |cs|
  {
    if r > 0 {
      DecaySustained(cs[..|cs| - 1], threshold, q, r - 1);
    } else if q > 0 {
      assert |cs| - 1 == (q - 1) * threshold + (threshold - 1);
      DecaySustained(cs[..|cs| - 1], threshold, q - 1, threshold - 1);
    }
  }

  /** Under a condition met on every frame from a zero counter, frame
      `q * threshold + r` fires exactly when it is the last of its block of
      `threshold` frames: one alert every `threshold` frames. */
  lemma DecaySustainedFires(cs: seq<bool>, i: nat, threshold: int, q: nat, r: nat)
    requires 1 <= threshold && r < threshold && i == q * threshold + r && i < |cs|
    requires forall k :: 0 <= k < |cs| ==> cs[k]
    ensures DecayFires(0, cs, i, threshold) <==> r == threshold - 1
  {
    DecaySustained(cs[..i], threshold, q, r);
  }

  /** The number of alerts the decaying counter fires over `cs`. */
  function DecayFireCount(counter: nat, cs: seq<bool>, threshold: int): nat
  {
    if cs == [] then 0
    else
      var p := cs[..|cs| - 1];
      DecayFireCount(counter, p, threshold)
        + (if DecayStep(DecayRun(counter, p, threshold), cs[|cs| - 1], threshold).1 then 1 else 0)
  }

  /** One more frame of the decaying counter, and of its alert count. */
  lemma DecaySnoc(counter: nat, cs: seq<bool>, b: bool, threshold: int)
    ensures DecayRun(counter, cs + [b], threshold) == DecayStep(DecayRun(counter, cs, threshold), b, threshold).0
    ensures DecayFireCount(counter, cs + [b], threshold)
         == DecayFireCount(counter, cs, threshold)
            + (if DecayStep(DecayRun(counter, cs, threshold), b, threshold).1 then 1 else 0)
  {
    assert (cs + [b])[..|cs|] == cs;
  }

  /** Every alert is paid for by `threshold` met frames: from a zero counter,
      `threshold` times the number of alerts, plus what is still on the
      counter, never exceeds the number of met frames. */
  lemma {:induction false} DecayFiresCostThreshold(cs: seq<bool>, threshold: int)
    requires 1 <= threshold
    ensures threshold * DecayFireCount(0, cs, threshold) + DecayRun(0, cs, threshold) <= CountTrue(cs)
  {
    if cs != [] {
      var p := cs[..|cs| - 1];
      DecayFiresCostThreshold(p, threshold);
      var f := DecayFireCount(0, p, threshold);
      assert threshold * (f + 1) == threshold * f + threshold;
    }
  }
}
