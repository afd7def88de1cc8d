/** The final program: the LineTracer class with calibration, a PID
    regulator with anti-windup and oscillation damping, sharp-curve handling
    with a margin of 10, a direction-biased six-pivot line search, the
    follow_line loop, the settings dialogue and the sensor-test classifier. */
module Perfect {
  import opened Control

  const HISTORY_SIZE := 10
  const INTEGRAL_LIMIT := 100.0
  const MAX_TURN_RATE := 250.0
  /** Calibration moves each raw sample this far towards the other. */
  const THRESHOLD_MARGIN := 5
  const CURVE_MARGIN := 10
  /** A reading above white_threshold + LOST_MARGIN counts as "line lost". */
  const LOST_MARGIN := 5
  /** The search starts once more than LOST_LIMIT consecutive readings were lost. */
  const LOST_LIMIT := 5
  /** advanced_settings never lowers base_speed below this. */
  const MIN_BASE_SPEED := 50
  const SEARCH_LENGTH := 6

  // ---------------------------------------------------------------------
  // Calibration

  /** The fields calibrate() sets from the two samples. */
  datatype Profile = Profile(blackThreshold: int, whiteThreshold: int, target: real, grayZone: real)

  /** calibrate(): thresholds 5 inside the raw samples, the target at their
      midpoint (which is also the midpoint of the raw samples), and a gray zone
      of 30% of the threshold span. Nothing checks that white exceeds black;
      the ordering holds only when the samples are more than 10 apart. */
  function Calibration(white: int, black: int): (p: Profile)
    ensures p.blackThreshold == black + THRESHOLD_MARGIN && p.whiteThreshold == white - THRESHOLD_MARGIN
    ensures p.target == (white + black) as real / 2.0
    ensures p.target - p.blackThreshold as real == p.whiteThreshold as real - p.target
    ensures p.grayZone == 0.3 * (p.whiteThreshold - p.blackThreshold) as real
    ensures white - black > 10 <==> p.blackThreshold as real < p.target < p.whiteThreshold as real
    ensures white - black > 10 <==> p.grayZone > 0.0
  {
    var b := black + THRESHOLD_MARGIN;
    var w := white - THRESHOLD_MARGIN;
    Profile(b, w, (b + w) as real / 2.0, (w - b) as real * 0.3)
  }

  // ---------------------------------------------------------------------
  // The PID regulator

  /** error_history.append(e) followed by a single pop(0) when the list has
      grown beyond HISTORY_SIZE: the new error is last, and before it come the
      most recent earlier errors in their order. */
  function PushBounded(h: seq<real>, e: real): (r: seq<real>)
    ensures |r| == if |h| + 1 > HISTORY_SIZE then |h| else |h| + 1
    ensures |h| <= HISTORY_SIZE ==> |r| <= HISTORY_SIZE
    ensures r[|r| - 1] == e
  {
    var appended := h + [e];
    if |appended| > HISTORY_SIZE then appended[1..] else appended
  }

  /** Before the new error, the pushed history holds the most recent earlier
      errors in their order: all of them, or all but the oldest when the
      history was full. */
  lemma PushBoundedKeepsRecent(h: seq<real>, e: real)
    requires |h| <= HISTORY_SIZE
    ensures var r := PushBounded(h, e);
      r[..|r| - 1] == (if |h| == HISTORY_SIZE then h[1..] else h)
  {
  }

  /** The test detect_oscillation applies to two neighbouring errors. */
  predicate OppositeSigns(a: real, b: real)
  {
    b * a < 0.0
  }

  /** The number of adjacent pairs among the first i entries of the history
      whose product is negative, i.e. strict sign changes; a zero entry never
      takes part in one. */
  function SignChangesBefore(h: seq<real>, i: nat): (n: nat)
    requires i <= |h|
    ensures i >= 1 ==> n <= i - 1
    ensures i <= 1 ==> n == 0
  {
    if i < 2 then 0
    else SignChangesBefore(h, i - 1) + (if OppositeSigns(h[i - 2], h[i - 1]) then 1 else 0)
  }

  /** The sign changes of the whole history. */
  function SignChanges(h: seq<real>): (n: nat)
    ensures |h| >= 1 ==> n <= |h| - 1
    ensures |h| <= 1 ==> n == 0
  {
    SignChangesBefore(h, |h|)
  }

  /** detect_oscillation's verdict: a full history with more sign changes
      than 60% of its size. */
  predicate Oscillating(h: seq<real>)
  {
    |h| >= HISTORY_SIZE && SignChanges(h) as real > HISTORY_SIZE as real * 0.6
  }

  /** Counting the first i entries only looks at the first i entries. */
  lemma {:induction false} SignChangesPrefix(h: seq<real>, g: seq<real>, i: nat)
    requires i <= |h| && i <= |g| && h[..i] == g[..i]
    ensures SignChangesBefore(h, i) == SignChangesBefore(g, i)
  {
    if i >= 2 {
      assert h[i - 2] == h[..i][i - 2] == g[i - 2];
      assert h[i - 1] == h[..i][i - 1] == g[i - 1];
      assert h[..i - 1] == h[..i][..i - 1] == g[..i - 1];
      SignChangesPrefix(h, g, i - 1);
    }
  }

  /** Sign changes are additive over a concatenation, plus one for the seam
      when the two entries meeting there have opposite signs. */
  lemma {:induction false} SignChangesAppend(a: seq<real>, b: seq<real>)
    ensures SignChanges(a + b) == SignChanges(a) + SignChanges(b)
      + (if |a| > 0 && |b| > 0 && OppositeSigns(a[|a| - 1], b[0]) then 1 else 0)
    decreases |b|
  {
    if |b| == 0 {
      assert a + b == a;
    } else {
      var b' := b[..|b| - 1];
      var n := |a + b|;
      assert (a + b)[..n - 1] == (a + b')[..n - 1];
      SignChangesPrefix(a + b, a + b', n - 1);
      assert b[..|b| - 1] == b'[..|b| - 1];
      SignChangesPrefix(b, b', |b| - 1);
      SignChangesAppend(a, b');
      if |b| == 1 {
        assert a + b' == a;
      } else {
        assert b'[0] == b[0];
      }
    }
  }

  /** A zero error splits the history: no sign change is counted across it. */
  lemma ZeroCutsSignChanges(h: seq<real>, i: nat)
    requires i < |h| && h[i] == 0.0
    ensures SignChanges(h) == SignChanges(h[..i]) + SignChanges(h[i + 1..])
  {
    var a, b := h[..i], h[i + 1..];
    assert h == (a + [0.0]) + b;
    SignChangesAppend(a, [0.0]);
    SignChangesAppend(a + [0.0], b);
    assert SignChanges([0.0]) == 0;
    if |a| > 0 {
      assert !OppositeSigns(a[|a| - 1], 0.0);
    }
    if |b| > 0 {
      assert (a + [0.0])[|a + [0.0]| - 1] == 0.0;
      assert !OppositeSigns(0.0, b[0]);
    }
  }

  /** A history whose neighbours all have opposite, nonzero signs changes
      sign at every pair among its first i entries. */
  lemma {:induction false} AlternatingSignChanges(h: seq<real>, i: nat)
    requires 1 <= i <= |h|
    requires forall j :: 0 <= j < |h| ==> h[j] != 0.0
    requires forall j :: 1 <= j < |h| ==> (h[j] > 0.0 <==> h[j - 1] < 0.0)
    ensures SignChangesBefore(h, i) == i - 1
  {
    if i >= 2 {
      assert OppositeSigns(h[i - 2], h[i - 1]) by {
        if h[i - 1] > 0.0 {
          assert h[i - 2] < 0.0;
        } else {
          assert h[i - 2] > 0.0;
        }
      }
      AlternatingSignChanges(h, i - 1);
    }
  }

  /** A full history of strictly alternating nonzero errors (9 changes) is oscillating. */
  lemma AlternatingHistoryOscillates(h: seq<real>)
    requires |h| == HISTORY_SIZE
    requires forall i :: 0 <= i < |h| ==> h[i] != 0.0
    requires forall i :: 1 <= i < |h| ==> (h[i] > 0.0 <==> h[i - 1] < 0.0)
    ensures Oscillating(h)
  {
    AlternatingSignChanges(h, |h|);
  }

  /** The regulator's state: integral, last_error and error_history. */
  datatype PidState = PidState(integral: real, lastError: real, history: seq<real>)

  /** calculate_pid for a given error: record the error, accumulate and clamp
      the integral, halve it (after the clamp) when the history oscillates,
      and return the clamped sum of the three terms. */
  function PidUpdate(s: PidState, kp: real, ki: real, kd: real, error: real): (r: (PidState, real))
    ensures -INTEGRAL_LIMIT <= r.0.integral <= INTEGRAL_LIMIT
    ensures -MAX_TURN_RATE <= r.1 <= MAX_TURN_RATE
    ensures r.0.lastError == error
    ensures r.0.history == PushBounded(s.history, error)
    ensures var c := Clamp(s.integral + error, INTEGRAL_LIMIT);
      r.0.integral == if Oscillating(r.0.history) then c * 0.5 else c
    ensures r.1 == Clamp(PidTerms(kp, ki, kd, error, r.0.integral, error - s.lastError), MAX_TURN_RATE)
  {
    var history := PushBounded(s.history, error);
    var c := Clamp(s.integral + error, INTEGRAL_LIMIT);
    var integral := if Oscillating(history) then c * 0.5 else c;
    (PidState(integral, error, history),
     Clamp(PidTerms(kp, ki, kd, error, integral, error - s.lastError), MAX_TURN_RATE))
  }

  /** Sitting on the target with no accumulated or previous error, the
      regulator commands no turn and stays at rest. */
  lemma PidAtRest(history: seq<real>, kp: real, ki: real, kd: real)
    ensures var r := PidUpdate(PidState(0.0, 0.0, history), kp, ki, kd, 0.0);
      r.1 == 0.0 && r.0.integral == 0.0 && r.0.lastError == 0.0
  {
  }

  // ---------------------------------------------------------------------
  // Curves, search, speed and position

  /** detect_sharp_curve with the margin of 10 on the calibrated thresholds. */
  function SharpCurve(v: int, blackThreshold: int, whiteThreshold: int): (c: Curve)
    ensures c == SharpLeft <==> v < blackThreshold + 10
    ensures c == SharpRight <==> blackThreshold + 10 <= v && v > whiteThreshold - 10
    ensures c == NoCurve <==> blackThreshold + 10 <= v <= whiteThreshold - 10
  {
    DetectSharpCurve(v, blackThreshold, whiteThreshold, CURVE_MARGIN)
  }

  /** The search sweep: starting at +30 when the line was last seen on the
      left (position < 0), at -30 otherwise; six pivots of growing size and
      alternating direction, the two choices mirror images of each other. */
  function SearchPattern(linePosition: int): (p: seq<int>)
    ensures |p| == SEARCH_LENGTH
    ensures p[0] == 30 <==> linePosition < 0
    ensures forall i :: 0 <= i < |p| ==> p[i] == 30 * (i + 1) || p[i] == -30 * (i + 1)
    ensures forall i :: 0 <= i < |p| ==> (p[i] > 0 <==> (i % 2 == 0 <==> linePosition < 0))
  {
    if linePosition < 0 then [30, -60, 90, -120, 150, -180]
    else [-30, 60, -90, 120, -150, 180]
  }

  /** The left-biased and the other sweep are mirror images. */
  lemma SearchPatternsMirror(left: int, other: int)
    requires left < 0 <= other
    ensures forall i :: 0 <= i < SEARCH_LENGTH ==> SearchPattern(left)[i] == -SearchPattern(other)[i]
  {
  }

  /** Scaling a non-negative base speed by 1 - 0.4*share, for a share in
      [0, 1], keeps it between 60% and 100% of the base. */
  lemma Slowdown(base: real, share: real)
    requires base >= 0.0 && 0.0 <= share <= 1.0
    ensures 0.6 * base <= base * (1.0 - share * 0.4) <= base
  {
    assert base * (1.0 - share * 0.4) == base - 0.4 * (base * share);
    assert base - base * share == base * (1.0 - share);
  }

  /** The speed on the PID branch: the base speed reduced by up to 40% as the
      turn rate approaches its limit. */
  function PidSpeed(baseSpeed: int, turnRate: real): (s: real)
    requires baseSpeed >= 0 && -MAX_TURN_RATE <= turnRate <= MAX_TURN_RATE
    ensures 0.6 * baseSpeed as real <= s <= baseSpeed as real
    ensures turnRate == 0.0 ==> s == baseSpeed as real
  {
    Slowdown(baseSpeed as real, Abs(turnRate) / MAX_TURN_RATE);
    baseSpeed as real * (1.0 - (Abs(turnRate) / MAX_TURN_RATE) * 0.4)
  }

  /** line_position after a PID tick: centre inside the gray zone, otherwise
      left below the target and right above it. */
  function LinePosition(v: int, target: real, grayZone: real): (p: int)
    ensures p == 0 <==> Abs(v as real - target) < grayZone
    ensures p == -1 <==> Abs(v as real - target) >= grayZone && (v as real) < target
    ensures p == 1 <==> Abs(v as real - target) >= grayZone && v as real >= target
  {
    if Abs(v as real - target) < grayZone then 0
    else if (v as real) < target then -1
    else 1
  }

  /** The second half of a follow_line pass, for reading v under the
      calibration p, the gains, the base speed and the regulator state s:
      the command issued, the new regulator state and the new line position.
      A sharp curve gets a fixed half-speed turn at 80% of the maximum rate
      and leaves the regulator alone (no integral reset); otherwise the PID
      turn rate is driven at a speed reduced with the size of the turn, and
      the line position comes from the gray zone. */
  function SteerStep(v: int, p: Profile, kp: real, ki: real, kd: real, baseSpeed: int, s: PidState)
    : (r: (Command, PidState, int))
    requires baseSpeed >= 0
    ensures r.0.Drive? && 0.5 * baseSpeed as real <= r.0.speed <= baseSpeed as real
    ensures -MAX_TURN_RATE <= r.0.turnRate <= MAX_TURN_RATE
    ensures -1 <= r.2 <= 1
    ensures var curve := SharpCurve(v, p.blackThreshold, p.whiteThreshold);
      var pid := PidUpdate(s, kp, ki, kd, v as real - p.target);
      && (curve == SharpLeft ==> r == (Drive(baseSpeed as real * 0.5, -MAX_TURN_RATE * 0.8), s, -1))
      && (curve == SharpRight ==> r == (Drive(baseSpeed as real * 0.5, MAX_TURN_RATE * 0.8), s, 1))
      && (curve == NoCurve ==>
            r == (Drive(PidSpeed(baseSpeed, pid.1), pid.1), pid.0, LinePosition(v, p.target, p.grayZone)))
  {
    match SharpCurve(v, p.blackThreshold, p.whiteThreshold)
    case SharpLeft => (Drive(baseSpeed as real * 0.5, -MAX_TURN_RATE * 0.8), s, -1)
    case SharpRight => (Drive(baseSpeed as real * 0.5, MAX_TURN_RATE * 0.8), s, 1)
    case NoCurve =>
      var pid := PidUpdate(s, kp, ki, kd, v as real - p.target);
      (Drive(PidSpeed(baseSpeed, pid.1), pid.1), pid.0, LinePosition(v, p.target, p.grayZone))
  }

  /** A lost reading (above white_threshold + 5) takes the sharp-right
      branch once the thresholds are at least 4 apart: the regulator is left
      alone and the line position becomes 1, whatever a search has just set.
      Every search follow_line starts therefore begins with the -30 pivot. */
  lemma LostReadingTurnsRight(v: int, p: Profile, kp: real, ki: real, kd: real, baseSpeed: int, s: PidState)
    requires baseSpeed >= 0
    requires v > p.whiteThreshold + LOST_MARGIN && p.whiteThreshold - p.blackThreshold >= 4
    ensures var r := SteerStep(v, p, kp, ki, kd, baseSpeed, s);
      r.1 == s && r.2 == 1 && SearchPattern(r.2)[0] == -30
  {
    LostReadingIsSharp(v, p.blackThreshold, p.whiteThreshold, CURVE_MARGIN);
  }

  /** The tuning follow_line drives with: the three gains and the base speed. */
  datatype Tuning = Tuning(kp: real, ki: real, kd: real, baseSpeed: int)

  /** What follow_line carries from one pass to the next: the regulator, the
      remembered side of the line and the lost-line counter. */
  datatype Tracking = Tracking(regulator: PidState, linePosition: int, lostLineCount: nat)

  /** One pass of follow_line's loop after the button check, on reading v
      with the search readings `sweep`: the commands issued, the state after
      it, and whether a failed search broke the loop. A lost reading is
      counted and the sixth in a row starts a search from the remembered
      side; a failed search stops the robot and breaks the loop. Otherwise
      the pass steers on the same reading v (the sensor is not read again
      after a search), and SteerStep's line position replaces the side the
      search found. */
  function PassStep(v: int, sweep: seq<int>, p: Profile, k: Tuning, s: Tracking): (r: (seq<Command>, Tracking, bool))
    requires k.baseSpeed >= 0 && |sweep| >= SEARCH_LENGTH
    ensures var lost := v > p.whiteThreshold + LOST_MARGIN;
      && (r.2 <==> lost && s.lostLineCount + 1 > LOST_LIMIT
                   && FirstBelow(sweep[..SEARCH_LENGTH], p.target) == SEARCH_LENGTH)
      && (!r.2 ==> r.1.lostLineCount == NextCount(lost, s.lostLineCount, LOST_LIMIT))
    ensures |r.0| > 0 && StopsOnlyAtEnd(r.0, if r.2 then 1 else 0)
    ensures r.2 ==> r.1.regulator == s.regulator && r.1.linePosition == s.linePosition
    ensures !r.2 ==> r.0[|r.0| - 1].Drive?
    ensures var searching := v > p.whiteThreshold + LOST_MARGIN && s.lostLineCount + 1 > LOST_LIMIT;
      var pivots := if searching then SweepPivots(SearchPattern(s.linePosition), sweep, p.target) else [];
      var st := SteerStep(v, p, k.kp, k.ki, k.kd, k.baseSpeed, s.regulator);
      && (r.2 ==> r.0 == pivots + [Stop])
      && (!r.2 ==> r.0 == pivots + [st.0] && r.1.regulator == st.1 && r.1.linePosition == st.2)
  {
    var lost := v > p.whiteThreshold + LOST_MARGIN;
    var searching := lost && s.lostLineCount + 1 > LOST_LIMIT;
    var pattern := SearchPattern(s.linePosition);
    var pivots := if searching then SweepPivots(pattern, sweep, p.target) else [];
    SweepPivotsHasNoStop(pattern, sweep, p.target);
    if searching && FirstBelow(sweep[..SEARCH_LENGTH], p.target) == SEARCH_LENGTH then
      StopsOnlyAtEndConcat(pivots, [Stop], 1);
      (pivots + [Stop], s.(lostLineCount := s.lostLineCount + 1), true)
    else
      var st := SteerStep(v, p, k.kp, k.ki, k.kd, k.baseSpeed, s.regulator);
      StopsOnlyAtEndConcat(pivots, [st.0], 0);
      (pivots + [st.0], Tracking(st.1, st.2, NextCount(lost, s.lostLineCount, LOST_LIMIT)), false)
  }

  /** Every search in `log`, a maximal run of pivots, begins with the pivot
      by `angle`. */
  predicate SearchesBeginWith(log: seq<Command>, angle: int)
  {
    forall k {:trigger StartsSearch(log, k)} :: 0 <= k < |log| && StartsSearch(log, k) ==> log[k] == Turn(angle)
  }

  /** The command at k is a pivot that no pivot precedes. */
  predicate StartsSearch(log: seq<Command>, k: nat)
    requires k < |log|
  {
    log[k].Turn? && (k == 0 || !log[k - 1].Turn?)
  }

  lemma SearchesBeginWithConcat(a: seq<Command>, b: seq<Command>, angle: int)
    requires SearchesBeginWith(a, angle) && SearchesBeginWith(b, angle)
    requires |a| > 0 ==> !a[|a| - 1].Turn?
    ensures SearchesBeginWith(a + b, angle)
  {
    forall k | 0 <= k < |a + b| && StartsSearch(a + b, k)
      ensures (a + b)[k] == Turn(angle)
    {
      if k < |a| {
        assert StartsSearch(a, k);
      } else {
        assert StartsSearch(b, k - |a|);
      }
    }
  }

  /** The remembered side is 1 whenever the lost count is above 0. */
  predicate LostOnRight(s: Tracking)
  {
    s.lostLineCount > 0 ==> s.linePosition == 1
  }

  /** Every search follow_line starts pivots by -30 first. A nonzero lost
      count means the previous reading was lost, and its sharp-right branch
      set line_position to 1 (LostReadingTurnsRight); follow_line starts with
      the count at 0, and every pass keeps this. */
  lemma PassSearchesRightFirst(v: int, sweep: seq<int>, p: Profile, k: Tuning, s: Tracking)
    requires k.baseSpeed >= 0 && |sweep| >= SEARCH_LENGTH
    requires p.whiteThreshold - p.blackThreshold >= 4
    requires LostOnRight(s)
    ensures var r := PassStep(v, sweep, p, k, s);
      && (v > p.whiteThreshold + LOST_MARGIN && s.lostLineCount + 1 > LOST_LIMIT ==> r.0[0] == Turn(-30))
      && SearchesBeginWith(r.0, -30)
      && LostOnRight(r.1)
  {
    var r := PassStep(v, sweep, p, k, s);
    if v > p.whiteThreshold + LOST_MARGIN {
      LostReadingTurnsRight(v, p, k.kp, k.ki, k.kd, k.baseSpeed, s.regulator);
    }
    forall j | 0 <= j < |r.0| && StartsSearch(r.0, j)
      ensures r.0[j] == Turn(-30)
    {
      assert j == 0;
    }
  }

  /** What a run of follow_line's loop produces: how it ended, the tick at
      which it ended, the command log after it (the stop after the loop
      included) and the state it left. */
  datatype Trace = Trace(ending: Ending, passes: nat, log: seq<Command>, last: Tracking)

  /** follow_line's loop from tick i on with the state s, on a drive base
      that has already received the commands `done`, then stop() when the
      loop was left. */
  function RunTrace(ticks: seq<TickInput>, i: nat, p: Profile, k: Tuning, s: Tracking, done: seq<Command>)
    : (t: Trace)
    requires i <= |ticks| && k.baseSpeed >= 0
    requires forall j :: 0 <= j < |ticks| ==> |ticks[j].sweep| >= SEARCH_LENGTH
    ensures i <= t.passes <= |ticks|
    ensures t.ending == InputExhausted <==> t.passes == |ticks|
    decreases |ticks| - i
  {
    if i == |ticks| then Trace(InputExhausted, i, done, s)
    else if ticks[i].pressed then Trace(ButtonPressed, i, done + [Stop], s)
    else
      var r := PassStep(ticks[i].reflection, ticks[i].sweep, p, k, s);
      if r.2 then Trace(LineNotFound, i, done + r.0 + [Stop], r.1)
      else RunTrace(ticks, i + 1, p, k, r.1, done + r.0)
  }

  /** The lost-line rule of follow_line under the calibration p. */
  function LossOf(p: Profile): LossRule
  {
    LossRule(p.whiteThreshold + LOST_MARGIN, LOST_LIMIT, SEARCH_LENGTH, p.target)
  }

  /** A run on a drive base that already received `done` issues what the
      same run issues from scratch, after `done`. */
  lemma {:induction false} RunTraceShift(ticks: seq<TickInput>, i: nat, p: Profile, k: Tuning, s: Tracking,
                                         done: seq<Command>)
    requires i <= |ticks| && k.baseSpeed >= 0
    requires forall j :: 0 <= j < |ticks| ==> |ticks[j].sweep| >= SEARCH_LENGTH
    ensures var t := RunTrace(ticks, i, p, k, s, []);
      RunTrace(ticks, i, p, k, s, done) == t.(log := done + t.log)
    decreases |ticks| - i
  {
    if i < |ticks| && !ticks[i].pressed {
      var r := PassStep(ticks[i].reflection, ticks[i].sweep, p, k, s);
      if r.2 {
        assert done + r.0 + [Stop] == done + ([] + r.0 + [Stop]);
      } else {
        var rest := RunTrace(ticks, i + 1, p, k, r.1, []);
        calc {
          RunTrace(ticks, i, p, k, s, done);
          RunTrace(ticks, i + 1, p, k, r.1, done + r.0);
          { RunTraceShift(ticks, i + 1, p, k, r.1, done + r.0); }
          rest.(log := (done + r.0) + rest.log);
          { assert (done + r.0) + rest.log == done + (r.0 + rest.log); }
          rest.(log := done + (r.0 + rest.log));
        }
        calc {
          RunTrace(ticks, i, p, k, s, []);
          { assert [] + r.0 == r.0; }
          RunTrace(ticks, i + 1, p, k, r.1, r.0);
          { RunTraceShift(ticks, i + 1, p, k, r.1, r.0); }
          rest.(log := r.0 + rest.log);
        }
      }
    } else if i < |ticks| {
      assert done + [Stop] == done + ([] + [Stop]);
    }
  }

  /** The run ends where RunEnd says for follow_line's lost-line rule: at the
      first press or at the first failed search (Control.RunEndSpec). */
  lemma {:induction false} RunTraceEnd(ticks: seq<TickInput>, i: nat, p: Profile, k: Tuning, s: Tracking,
                                       done: seq<Command>)
    requires i <= |ticks| && k.baseSpeed >= 0
    requires forall j :: 0 <= j < |ticks| ==> |ticks[j].sweep| >= SEARCH_LENGTH
    ensures var t := RunTrace(ticks, i, p, k, s, done);
      (t.ending, t.passes) == RunEnd(ticks, i, s.lostLineCount, LossOf(p))
    decreases |ticks| - i
  {
    if i < |ticks| && !ticks[i].pressed {
      var r := PassStep(ticks[i].reflection, ticks[i].sweep, p, k, s);
      if !r.2 {
        RunTraceEnd(ticks, i + 1, p, k, r.1, done + r.0);
      }
    }
  }

  /** A run issues no stop before its end: one stop after a press, two (the
      failed search's and the one after the loop) after a failed search,
      none when the input ran out. */
  lemma {:induction false} RunTraceStops(ticks: seq<TickInput>, i: nat, p: Profile, k: Tuning, s: Tracking)
    requires i <= |ticks| && k.baseSpeed >= 0
    requires forall j :: 0 <= j < |ticks| ==> |ticks[j].sweep| >= SEARCH_LENGTH
    ensures var t := RunTrace(ticks, i, p, k, s, []);
      StopsOnlyAtEnd(t.log, if t.ending == InputExhausted then 0 else if t.ending == ButtonPressed then 1 else 2)
    decreases |ticks| - i
  {
    if i < |ticks| && !ticks[i].pressed {
      var r := PassStep(ticks[i].reflection, ticks[i].sweep, p, k, s);
      assert [] + r.0 == r.0;
      if r.2 {
        StopsOnlyAtEndStop(r.0, 1);
      } else {
        var t := RunTrace(ticks, i + 1, p, k, r.1, []);
        RunTraceShift(ticks, i + 1, p, k, r.1, r.0);
        RunTraceStops(ticks, i + 1, p, k, r.1);
        StopsOnlyAtEndConcat(r.0, t.log, if t.ending == InputExhausted then 0
                                         else if t.ending == ButtonPressed then 1 else 2);
      }
    }
  }

  /** The search readings only decide whether the loop goes on: a pass that
      does not break steers on the reading taken before the search, whatever
      the sensor saw while pivoting. */
  lemma PassSteersOnReading(v: int, sweep: seq<int>, sweep': seq<int>, p: Profile, k: Tuning, s: Tracking)
    requires k.baseSpeed >= 0 && |sweep| >= SEARCH_LENGTH && |sweep'| >= SEARCH_LENGTH
    ensures var r := PassStep(v, sweep, p, k, s);
      var r' := PassStep(v, sweep', p, k, s);
      !r.2 && !r'.2 ==> r.0[|r.0| - 1] == r'.0[|r'.0| - 1] && r.1 == r'.1
  {
  }

  /** Every drive a run issues is at between half and all of the base speed,
      with a turn rate within ±250. */
  lemma {:induction false} RunDrivesWithin(ticks: seq<TickInput>, i: nat, p: Profile, k: Tuning, s: Tracking)
    requires i <= |ticks| && k.baseSpeed >= 0
    requires forall j :: 0 <= j < |ticks| ==> |ticks[j].sweep| >= SEARCH_LENGTH
    ensures DrivesWithin(RunTrace(ticks, i, p, k, s, []).log, 0.5 * k.baseSpeed as real, k.baseSpeed as real,
                         MAX_TURN_RATE)
    decreases |ticks| - i
  {
    var lo, hi := 0.5 * k.baseSpeed as real, k.baseSpeed as real;
    if i < |ticks| && !ticks[i].pressed {
      var r := PassStep(ticks[i].reflection, ticks[i].sweep, p, k, s);
      assert [] + r.0 == r.0;
      assert DrivesWithin(r.0, lo, hi, MAX_TURN_RATE) by {
        SweepPivotsHasNoStop(SearchPattern(s.linePosition), ticks[i].sweep, p.target);
      }
      if r.2 {
        DrivesWithinConcat(r.0, [Stop], lo, hi, MAX_TURN_RATE);
      } else {
        RunTraceShift(ticks, i + 1, p, k, r.1, r.0);
        RunDrivesWithin(ticks, i + 1, p, k, r.1);
        DrivesWithinConcat(r.0, RunTrace(ticks, i + 1, p, k, r.1, []).log, lo, hi, MAX_TURN_RATE);
      }
    }
  }

  /** With thresholds at least 4 apart, every search of a follow_line run
      begins with the pivot by -30, so the +30-first pattern is never used. */
  lemma {:induction false} RunSearchesRightFirst(ticks: seq<TickInput>, i: nat, p: Profile, k: Tuning, s: Tracking)
    requires i <= |ticks| && k.baseSpeed >= 0
    requires forall j :: 0 <= j < |ticks| ==> |ticks[j].sweep| >= SEARCH_LENGTH
    requires p.whiteThreshold - p.blackThreshold >= 4 && LostOnRight(s)
    ensures SearchesBeginWith(RunTrace(ticks, i, p, k, s, []).log, -30)
    decreases |ticks| - i
  {
    if i < |ticks| && !ticks[i].pressed {
      var r := PassStep(ticks[i].reflection, ticks[i].sweep, p, k, s);
      PassSearchesRightFirst(ticks[i].reflection, ticks[i].sweep, p, k, s);
      assert [] + r.0 == r.0;
      if r.2 {
        SearchesBeginWithConcat(r.0, [Stop], -30);
      } else {
        RunTraceShift(ticks, i + 1, p, k, r.1, r.0);
        RunSearchesRightFirst(ticks, i + 1, p, k, r.1);
        SearchesBeginWithConcat(r.0, RunTrace(ticks, i + 1, p, k, r.1, []).log, -30);
      }
    } else if i < |ticks| {
      assert !StartsSearch([Stop], 0);
    }
  }

  // ---------------------------------------------------------------------
  // Settings dialogue and sensor test

  datatype Button = Left | Right | Up | Down | Center

  /** One pass of the advanced_settings loop on the set of pressed buttons,
      giving (kp, base_speed, done). Left beats Right beats Up beats Down
      beats Center; lowering the speed stops at 50. */
  function SettingsStep(kp: real, baseSpeed: int, pressed: set<Button>): (r: (real, int, bool))
    ensures r.2 <==> (Center in pressed && Left !in pressed && Right !in pressed
                      && Up !in pressed && Down !in pressed)
    ensures Left in pressed ==> r.0 == kp - 0.1 && r.1 == baseSpeed
    ensures Left !in pressed && Right in pressed ==> r.0 == kp + 0.1 && r.1 == baseSpeed
    ensures Left !in pressed && Right !in pressed ==> r.0 == kp
    ensures Left !in pressed && Right !in pressed && Up in pressed ==> r.1 == baseSpeed + 10
    ensures Left !in pressed && Right !in pressed && Up !in pressed && Down in pressed ==>
      r.1 == if baseSpeed - 10 < MIN_BASE_SPEED then MIN_BASE_SPEED else baseSpeed - 10
    ensures Left !in pressed && Right !in pressed && Up !in pressed && Down !in pressed ==>
      r.1 == baseSpeed
    ensures baseSpeed >= MIN_BASE_SPEED ==> r.1 >= MIN_BASE_SPEED
  {
    if Left in pressed then (kp - 0.1, baseSpeed, false)
    else if Right in pressed then (kp + 0.1, baseSpeed, false)
    else if Up in pressed then (kp, baseSpeed + 10, false)
    else if Down in pressed then (kp, if baseSpeed - 10 < MIN_BASE_SPEED then MIN_BASE_SPEED else baseSpeed - 10, false)
    else (kp, baseSpeed, Center in pressed)
  }

  /** The whole advanced_settings loop over successive button polls, giving
      (kp, base_speed, whether Center ended it). */
  function Settings(kp: real, baseSpeed: int, polls: seq<set<Button>>): (r: (real, int, bool))
    ensures baseSpeed >= MIN_BASE_SPEED ==> r.1 >= MIN_BASE_SPEED
    ensures r.2 <==> exists i :: 0 <= i < |polls| && SettingsStep(0.0, 0, polls[i]).2
    decreases |polls|
  {
    if |polls| == 0 then (kp, baseSpeed, false)
    else
      var (k, s, done) := SettingsStep(kp, baseSpeed, polls[0]);
      if done then (k, s, true)
      else
        var r := Settings(k, s, polls[1..]);
        assert forall i :: 1 <= i < |polls| ==> polls[i] == polls[1..][i - 1];
        r
  }

  /** What test_sensors reports for a reading. */
  datatype Shade = Black | White | Gray

  function Classify(reflection: int, blackThreshold: int, whiteThreshold: int): (s: Shade)
    ensures s == Black <==> reflection < blackThreshold
    ensures s == White <==> blackThreshold <= reflection && reflection > whiteThreshold
    ensures s == Gray <==> blackThreshold <= reflection <= whiteThreshold
  {
    if reflection < blackThreshold then Black
    else if reflection > whiteThreshold then White
    else Gray
  }

  // ---------------------------------------------------------------------
  // The controller object

  class LineTracer {
    var blackThreshold: int
    var whiteThreshold: int
    var targetValue: real
    var kp: real
    const ki: real
    const kd: real
    var integral: real
    var lastError: real
    var baseSpeed: int
    var errorHistory: seq<real>
    var isCalibrated: bool
    /** Last known side of the line: -1 left, 0 centre, 1 right. */
    var linePosition: int
    /** Set by calibrate only; 0.0 stands for "not yet assigned". */
    var grayZone: real

    ghost predicate Valid()
      reads this
    {
      && -INTEGRAL_LIMIT <= integral <= INTEGRAL_LIMIT
      && |errorHistory| <= HISTORY_SIZE
      && -1 <= linePosition <= 1
      && baseSpeed >= MIN_BASE_SPEED
    }

    function Regulator(): PidState
      reads this
    {
      PidState(integral, lastError, errorHistory)
    }

    constructor ()
      ensures Valid() && !isCalibrated
      ensures blackThreshold == 10 && whiteThreshold == 85 && targetValue == 47.5
      ensures kp == 2.0 && ki == 0.02 && kd == 0.8
      ensures Regulator() == PidState(0.0, 0.0, [])
      ensures baseSpeed == 150 && linePosition == 0
    {
      blackThreshold, whiteThreshold := 10, 85;
      targetValue := (10 + 85) as real / 2.0;
      kp, ki, kd := 2.0, 0.02, 0.8;
      integral, lastError := 0.0, 0.0;
      baseSpeed := 150;
      errorHistory := [];
      isCalibrated := false;
      linePosition := 0;
      grayZone := 0.0;
    }

    /** calibrate, given the white and then the black sample read when the
        center button was pressed. */
    method Calibrate(white: int, black: int)
      modifies this`blackThreshold, this`whiteThreshold, this`targetValue, this`grayZone, this`isCalibrated
      ensures Profile(blackThreshold, whiteThreshold, targetValue, grayZone) == Calibration(white, black)
      ensures isCalibrated
    {
      blackThreshold := black + THRESHOLD_MARGIN;
      whiteThreshold := white - THRESHOLD_MARGIN;
      targetValue := (blackThreshold + whiteThreshold) as real / 2.0;
      grayZone := (whiteThreshold - blackThreshold) as real * 0.3;
      isCalibrated := true;
    }

    /** detect_oscillation: count the strict sign changes between neighbours. */
    method DetectOscillation() returns (oscillating: bool)
      ensures oscillating == Oscillating(errorHistory)
      ensures |errorHistory| < HISTORY_SIZE ==> !oscillating
      ensures oscillating <==> |errorHistory| >= HISTORY_SIZE && SignChanges(errorHistory) > 6
    {
      if |errorHistory| < HISTORY_SIZE {
        return false;
      }
      var signChanges := 0;
      for i := 1 to |errorHistory|
        invariant signChanges == SignChangesBefore(errorHistory, i)
      {
        if OppositeSigns(errorHistory[i - 1], errorHistory[i]) {
          signChanges := signChanges + 1;
        }
      }
      return signChanges as real > HISTORY_SIZE as real * 0.6;
    }

    /** calculate_pid: updates integral, last_error and error_history in place. */
    method CalculatePid(sensorValue: int) returns (turnRate: real)
      requires Valid()
      modifies this`integral, this`lastError, this`errorHistory
      ensures Valid()
      ensures (Regulator(), turnRate)
        == PidUpdate(old(Regulator()), kp, ki, kd, sensorValue as real - targetValue)
    {
      var error := sensorValue as real - targetValue;
      errorHistory := errorHistory + [error];
      if |errorHistory| > HISTORY_SIZE {
        errorHistory := errorHistory[1..];
      }
      integral := Clamp(integral + error, INTEGRAL_LIMIT);
      var oscillating := DetectOscillation();
      if oscillating {
        integral := integral * 0.5;
      }
      var derivative := error - lastError;
      turnRate := Clamp(PidTerms(kp, ki, kd, error, integral, derivative), MAX_TURN_RATE);
      lastError := error;
      assert Regulator() == PidState(integral, error, errorHistory);
    }

    /** search_line, given the reading after each pivot: pivot through the
        pattern until a reading is below the target; on success remember the
        side the line was found on, on failure stop the robot. */
    method SearchLine(sweep: seq<int>, robot: DriveBase) returns (found: bool)
      requires Valid() && |sweep| >= SEARCH_LENGTH
      modifies this`linePosition, robot
      ensures Valid()
      ensures var pattern := SearchPattern(old(linePosition));
        var k := FirstBelow(sweep[..SEARCH_LENGTH], targetValue);
        && (found <==> k < SEARCH_LENGTH)
        && robot.commands == old(robot.commands) + SweepPivots(pattern, sweep, targetValue)
             + (if found then [] else [Stop])
        && linePosition == if found then (if pattern[k] > 0 then -1 else 1) else old(linePosition)
    {
      var pattern := SearchPattern(linePosition);
      var k := Sweep(pattern, sweep, targetValue, robot);
      if k < |pattern| {
        linePosition := if pattern[k] > 0 then -1 else 1;
        return true;
      }
      robot.Stop();
      return false;
    }

    /** The first half of a follow_line pass: count a lost reading (one above
        white_threshold + 5), reset the count on any other, and on the sixth
        lost reading in a row search; a failed search ends the loop. */
    method TrackLoss(reflection: int, sweep: seq<int>, lostLineCount: nat, robot: DriveBase)
      returns (newLostLineCount: nat, ended: bool)
      requires Valid() && |sweep| >= SEARCH_LENGTH
      modifies this`linePosition, robot
      ensures Valid() && Regulator() == old(Regulator())
      ensures var lost := reflection > whiteThreshold + LOST_MARGIN;
        var searching := lost && lostLineCount + 1 > LOST_LIMIT;
        var pattern := SearchPattern(old(linePosition));
        var k := FirstBelow(sweep[..SEARCH_LENGTH], targetValue);
        && (ended <==> searching && k == SEARCH_LENGTH)
        && robot.commands == old(robot.commands)
             + (if searching then SweepPivots(pattern, sweep, targetValue) else [])
             + (if ended then [Stop] else [])
        && newLostLineCount == (if ended then lostLineCount + 1 else NextCount(lost, lostLineCount, LOST_LIMIT))
        && linePosition == if searching && !ended then (if pattern[k] > 0 then -1 else 1) else old(linePosition)
    {
      newLostLineCount, ended := lostLineCount, false;
      if reflection > whiteThreshold + LOST_MARGIN {
        newLostLineCount := newLostLineCount + 1;
        if newLostLineCount > LOST_LIMIT {
          var found := SearchLine(sweep, robot);
          if !found {
            return newLostLineCount, true;
          }
          newLostLineCount := 0;
        }
      } else {
        newLostLineCount := 0;
      }
    }

    /** The gains and the base speed the tracer currently drives with. */
    function Tune(): Tuning
      reads this
    {
      Tuning(kp, ki, kd, baseSpeed)
    }

    /** The calibration the tracer currently works with. */
    function Setup(): Profile
      reads this
    {
      Profile(blackThreshold, whiteThreshold, targetValue, grayZone)
    }

    /** The second half of a follow_line pass, as SteerStep says. A reading
        TrackLoss counts as lost is always a sharp curve
        (LostReadingTurnsRight), so it never reaches the regulator. */
    method Steer(reflection: int, robot: DriveBase)
      requires Valid() && isCalibrated
      modifies this`integral, this`lastError, this`errorHistory, this`linePosition, robot
      ensures Valid()
      ensures var r := SteerStep(reflection, Setup(), kp, ki, kd, baseSpeed, old(Regulator()));
        robot.commands == old(robot.commands) + [r.0] && Regulator() == r.1 && linePosition == r.2
    {
      var curveType := SharpCurve(reflection, blackThreshold, whiteThreshold);
      if curveType != NoCurve {
        if curveType == SharpLeft {
          robot.Drive(baseSpeed as real * 0.5, -MAX_TURN_RATE * 0.8);
          linePosition := -1;
        } else if curveType == SharpRight {
          robot.Drive(baseSpeed as real * 0.5, MAX_TURN_RATE * 0.8);
          linePosition := 1;
        }
      } else {
        PidDrive(reflection, robot);
      }
    }

    /** The regular branch of a follow_line pass: the PID turn rate, driven
        at a speed reduced with the size of the turn, then the line position
        from the gray zone around the target. */
    method PidDrive(reflection: int, robot: DriveBase)
      requires Valid() && isCalibrated
      modifies this`integral, this`lastError, this`errorHistory, this`linePosition, robot
      ensures Valid()
      ensures var pid := PidUpdate(old(Regulator()), kp, ki, kd, reflection as real - targetValue);
        && Regulator() == pid.0
        && robot.commands == old(robot.commands) + [Drive(PidSpeed(baseSpeed, pid.1), pid.1)]
        && linePosition == LinePosition(reflection, targetValue, grayZone)
    {
      var turnRate := CalculatePid(reflection);
      ghost var regulator := Regulator();
      var currentSpeed := PidSpeed(baseSpeed, turnRate);
      robot.Drive(currentSpeed, turnRate);
      if Abs(reflection as real - targetValue) < grayZone {
        linePosition := 0;
      } else if (reflection as real) < targetValue {
        linePosition := -1;
      } else {
        linePosition := 1;
      }
      assert Regulator() == regulator;
    }

    /** One pass of follow_line's loop after the button check, as PassStep
        says: TrackLoss, then, unless a failed search broke the loop, Steer. */
    method FollowTick(reflection: int, sweep: seq<int>, lostLineCount: nat, robot: DriveBase)
      returns (newLostLineCount: nat, ended: bool)
      requires Valid() && isCalibrated && |sweep| >= SEARCH_LENGTH
      modifies this`integral, this`lastError, this`errorHistory, this`linePosition, robot
      ensures Valid()
      ensures var r := PassStep(reflection, sweep, Setup(), Tune(),
                                Tracking(old(Regulator()), old(linePosition), lostLineCount));
        && robot.commands == old(robot.commands) + r.0
        && Tracking(Regulator(), linePosition, newLostLineCount) == r.1 && ended == r.2
    {
      newLostLineCount, ended := TrackLoss(reflection, sweep, lostLineCount, robot);
      if !ended {
        Steer(reflection, robot);
      }
    }

    /** follow_line: calibrate first if that has not happened (with the given
        samples), then track the line. The run is RunTrace's from the
        calibration with the lost count at 0: it ends at the first press or
        at the first failed search, whichever comes first (RunEnd; see
        Control.RunEndSpec), and stops the robot only at its end. */
    method FollowLine(white: int, black: int, ticks: seq<TickInput>, robot: DriveBase)
      returns (ending: Ending, ghost passes: nat)
      requires Valid()
      requires forall i :: 0 <= i < |ticks| ==> |ticks[i].sweep| >= SEARCH_LENGTH
      modifies this`blackThreshold, this`whiteThreshold, this`targetValue, this`grayZone, this`isCalibrated
      modifies this`integral, this`lastError, this`errorHistory, this`linePosition, robot
      ensures Valid() && isCalibrated
      ensures !old(isCalibrated) ==> Setup() == Calibration(white, black)
      ensures old(isCalibrated) ==> Setup() == old(Setup())
      ensures var t := RunTrace(ticks, 0, Setup(), Tune(), Tracking(old(Regulator()), old(linePosition), 0), []);
        && ending == t.ending && passes == t.passes && robot.commands == old(robot.commands) + t.log
        && Regulator() == t.last.regulator && linePosition == t.last.linePosition
        && StopsOnlyAtEnd(t.log, if ending == InputExhausted then 0 else if ending == ButtonPressed then 1 else 2)
        && (whiteThreshold - blackThreshold >= 4 ==> SearchesBeginWith(t.log, -30))
        && DrivesWithin(t.log, 0.5 * baseSpeed as real, baseSpeed as real, MAX_TURN_RATE)
      ensures (ending, passes) == RunEnd(ticks, 0, 0, LossOf(Setup()))
    {
      if !isCalibrated {
        Calibrate(white, black);
      }
      ghost var start := Tracking(Regulator(), linePosition, 0);
      RunTraceShift(ticks, 0, Setup(), Tune(), start, robot.commands);
      RunTraceEnd(ticks, 0, Setup(), Tune(), start, []);
      RunTraceStops(ticks, 0, Setup(), Tune(), start);
      RunDrivesWithin(ticks, 0, Setup(), Tune(), start);
      if whiteThreshold - blackThreshold >= 4 {
        RunSearchesRightFirst(ticks, 0, Setup(), Tune(), start);
      }
      ending, passes := TrackLine(ticks, robot);
    }

    /** follow_line's loop and the stop after it, as RunTrace says, with the
        lost count starting at 0. */
    method TrackLine(ticks: seq<TickInput>, robot: DriveBase) returns (ending: Ending, ghost passes: nat)
      requires Valid() && isCalibrated
      requires forall i :: 0 <= i < |ticks| ==> |ticks[i].sweep| >= SEARCH_LENGTH
      modifies this`integral, this`lastError, this`errorHistory, this`linePosition, robot
      ensures Valid()
      ensures var t := RunTrace(ticks, 0, Setup(), Tune(), Tracking(old(Regulator()), old(linePosition), 0),
                                old(robot.commands));
        && ending == t.ending && passes == t.passes && robot.commands == t.log
        && Regulator() == t.last.regulator && linePosition == t.last.linePosition
    {
      var lostLineCount := 0;
      ghost var t0 := RunTrace(ticks, 0, Setup(), Tune(), Tracking(Regulator(), linePosition, 0), robot.commands);
      var i := 0;
      while i < |ticks|
        invariant 0 <= i <= |ticks| && Valid()
        invariant RunTrace(ticks, i, Setup(), Tune(), Tracking(Regulator(), linePosition, lostLineCount),
                           robot.commands) == t0
      {
        if ticks[i].pressed {
          robot.Stop();
          return ButtonPressed, i;
        }
        var ended;
        lostLineCount, ended := FollowTick(ticks[i].reflection, ticks[i].sweep, lostLineCount, robot);
        if ended {
          robot.Stop();
          return LineNotFound, i;
        }
        i := i + 1;
      }
      return InputExhausted, i;
    }

    /** advanced_settings over successive button polls; returns whether the
        center button ended the dialogue. */
    method AdvancedSettings(polls: seq<set<Button>>) returns (finished: bool)
      requires Valid()
      modifies this`kp, this`baseSpeed
      ensures Valid()
      ensures (kp, baseSpeed, finished) == Settings(old(kp), old(baseSpeed), polls)
    {
      finished := false;
      var i := 0;
      while i < |polls|
        invariant 0 <= i <= |polls| && Valid()
        invariant Settings(kp, baseSpeed, polls[i..]) == Settings(old(kp), old(baseSpeed), polls)
      {
        assert polls[i..][1..] == polls[i + 1..];
        var buttons := polls[i];
        if Left in buttons {
          kp := kp - 0.1;
        } else if Right in buttons {
          kp := kp + 0.1;
        } else if Up in buttons {
          baseSpeed := baseSpeed + 10;
        } else if Down in buttons {
          baseSpeed := baseSpeed - 10;
          if baseSpeed < MIN_BASE_SPEED {
            baseSpeed := MIN_BASE_SPEED;
          }
        } else if Center in buttons {
          finished := true;
          break;
        }
        i := i + 1;
      }
    }
  }
}
