/** Level 4: full PID steering over module-level state, sharp-curve handling
    with a margin of 5, and a fixed five-angle line search. */
module Level4 {
  import opened Control
  import Level3

  const BASE_SPEED := 150.0
  const KP := 2.0
  const KI := 0.02
  const KD := 0.8
  const INTEGRAL_LIMIT := 100.0
  const MAX_TURN := 250.0
  const CURVE_MARGIN := 5
  /** Turn rate of the fixed sharp-curve manoeuvre. */
  const SHARP_TURN := 200.0
  /** A reading above white_threshold + LOST_MARGIN counts as "line lost". */
  const LOST_MARGIN := 5
  /** The search starts once more than LOST_LIMIT consecutive readings were lost. */
  const LOST_LIMIT := 5
  const SEARCH_ANGLES: seq<int> := [30, -60, 90, -120, 150]

  /** calibrate(): target is the midpoint of the raw samples, the thresholds
      are moved 5 inwards; returns (target, black_threshold, white_threshold). */
  function Calibrate(white: int, black: int): (r: (real, int, int))
    ensures r.1 == black + 5 && r.2 == white - 5
    ensures r.0 == (r.1 + r.2) as real / 2.0
    ensures white - black > 10 ==> r.1 as real < r.0 < r.2 as real
    ensures white - black <= 10 ==> r.2 as real <= r.0 <= r.1 as real
  {
    ((white + black) as real / 2.0, black + 5, white - 5)
  }

  /** What calculate_pid_control returns, (turn_rate, error), together with the
      new values of the globals integral and last_error. */
  datatype PidOut = PidOut(turnRate: real, error: real, integral: real, lastError: real)

  /** calculate_pid_control as a function of the globals it reads: the error
      is unclamped, the integral saturates at +-100 before it is used, and the
      turn rate saturates at +-250; last_error becomes this call's error. */
  function PidControl(integral: real, lastError: real, sensor: int, target: real,
                      kp: real, ki: real, kd: real): (o: PidOut)
    ensures o.error == sensor as real - target
    ensures -INTEGRAL_LIMIT <= o.integral <= INTEGRAL_LIMIT
    ensures -INTEGRAL_LIMIT <= integral + o.error <= INTEGRAL_LIMIT ==> o.integral == integral + o.error
    ensures integral + o.error > INTEGRAL_LIMIT ==> o.integral == INTEGRAL_LIMIT
    ensures integral + o.error < -INTEGRAL_LIMIT ==> o.integral == -INTEGRAL_LIMIT
    ensures -MAX_TURN <= o.turnRate <= MAX_TURN
    ensures o.lastError == o.error
  {
    var error := sensor as real - target;
    var i := Clamp(integral + error, INTEGRAL_LIMIT);
    PidOut(Clamp(PidTerms(kp, ki, kd, error, i, error - lastError), MAX_TURN), error, i, error)
  }

  /** search_line: pivot through the five angles, after each pivot check the
      sensor, and report success at the first reading below the target; after
      the fifth unsuccessful pivot report failure. No stop is issued here. */
  method SearchLine(targetValue: real, sweep: seq<int>, robot: DriveBase) returns (found: bool)
    requires |sweep| >= |SEARCH_ANGLES|
    modifies robot
    ensures found <==> FirstBelow(sweep[..|SEARCH_ANGLES|], targetValue) < |SEARCH_ANGLES|
    ensures robot.commands == old(robot.commands) + SweepPivots(SEARCH_ANGLES, sweep, targetValue)
  {
    var k := Sweep(SEARCH_ANGLES, sweep, targetValue, robot);
    found := k < |SEARCH_ANGLES|;
  }

  /** The globals the main loop carries from one iteration to the next. */
  datatype Globals = Globals(integral: real, lastError: real, lostLineCount: nat)

  /** The second half of a main-loop iteration on reading v, under the
      calibration and the PID globals: the command issued and the new
      integral and last_error. A sharp curve gets a fixed half-speed turn at
      rate 200 and resets the integral; otherwise the PID turn rate is driven
      at the speed adjust_speed gives for the error. */
  function SteerStep(v: int, blackThreshold: int, whiteThreshold: int, target: real,
                     integral: real, lastError: real): (r: (Command, real, real))
    ensures r.0.Drive? && 50.0 <= r.0.speed <= BASE_SPEED && -MAX_TURN <= r.0.turnRate <= MAX_TURN
    ensures -INTEGRAL_LIMIT <= r.1 <= INTEGRAL_LIMIT
    ensures var curve := DetectSharpCurve(v, blackThreshold, whiteThreshold, CURVE_MARGIN);
      var pid := PidControl(integral, lastError, v, target, KP, KI, KD);
      && (curve == SharpLeft ==> r == (Drive(BASE_SPEED * 0.5, -SHARP_TURN), 0.0, lastError))
      && (curve == SharpRight ==> r == (Drive(BASE_SPEED * 0.5, SHARP_TURN), 0.0, lastError))
      && (curve == NoCurve ==>
            r == (Drive(Level3.AdjustSpeed(BASE_SPEED, pid.error), pid.turnRate), pid.integral, pid.lastError))
  {
    match DetectSharpCurve(v, blackThreshold, whiteThreshold, CURVE_MARGIN)
    case SharpLeft => (Drive(BASE_SPEED * 0.5, -SHARP_TURN), 0.0, lastError)
    case SharpRight => (Drive(BASE_SPEED * 0.5, SHARP_TURN), 0.0, lastError)
    case NoCurve =>
      var pid := PidControl(integral, lastError, v, target, KP, KI, KD);
      (Drive(Level3.AdjustSpeed(BASE_SPEED, pid.error), pid.turnRate), pid.integral, pid.lastError)
  }

  /** One main-loop iteration after the button check, on reading v with the
      search readings `sweep`: the commands issued, the globals after it, and
      whether a failed search broke the loop. A lost reading is counted, the
      sixth in a row starts a search, and a successful search resets the
      count and the integral. Unless the loop broke, the iteration then
      steers on the same reading v: the sensor is not read again after a
      search. */
  function PassStep(v: int, sweep: seq<int>, blackThreshold: int, whiteThreshold: int, target: real, g: Globals)
    : (r: (seq<Command>, Globals, bool))
    requires |sweep| >= |SEARCH_ANGLES|
    ensures var lost := v > whiteThreshold + LOST_MARGIN;
      && (r.2 <==> lost && g.lostLineCount + 1 > LOST_LIMIT
                   && FirstBelow(sweep[..|SEARCH_ANGLES|], target) == |SEARCH_ANGLES|)
      && (!r.2 ==> r.1.lostLineCount == NextCount(lost, g.lostLineCount, LOST_LIMIT))
    ensures |r.0| > 0 && StopsOnlyAtEnd(r.0, 0)
    ensures -INTEGRAL_LIMIT <= g.integral <= INTEGRAL_LIMIT ==> -INTEGRAL_LIMIT <= r.1.integral <= INTEGRAL_LIMIT
    ensures var searching := v > whiteThreshold + LOST_MARGIN && g.lostLineCount + 1 > LOST_LIMIT;
      var pivots := if searching then SweepPivots(SEARCH_ANGLES, sweep, target) else [];
      var s := SteerStep(v, blackThreshold, whiteThreshold, target, if searching then 0.0 else g.integral, g.lastError);
      && (r.2 ==> r.0 == pivots && r.1.integral == g.integral && r.1.lastError == g.lastError)
      && (!r.2 ==> r.0 == pivots + [s.0] && r.1.integral == s.1 && r.1.lastError == s.2)
  {
    var lost := v > whiteThreshold + LOST_MARGIN;
    var searching := lost && g.lostLineCount + 1 > LOST_LIMIT;
    var found := FirstBelow(sweep[..|SEARCH_ANGLES|], target) < |SEARCH_ANGLES|;
    var pivots := if searching then SweepPivots(SEARCH_ANGLES, sweep, target) else [];
    SweepPivotsHasNoStop(SEARCH_ANGLES, sweep, target);
    if searching && !found then (pivots, Globals(g.integral, g.lastError, g.lostLineCount + 1), true)
    else
      var s := SteerStep(v, blackThreshold, whiteThreshold, target, if searching then 0.0 else g.integral, g.lastError);
      (pivots + [s.0], Globals(s.1, s.2, NextCount(lost, g.lostLineCount, LOST_LIMIT)), false)
  }

  /** The search readings only decide whether the loop goes on: an iteration
      that does not break steers on the reading taken before the search,
      whatever the sensor saw while pivoting. */
  lemma PassSteersOnReading(v: int, sweep: seq<int>, sweep': seq<int>, blackThreshold: int, whiteThreshold: int,
                            target: real, g: Globals)
    requires |sweep| >= |SEARCH_ANGLES| && |sweep'| >= |SEARCH_ANGLES|
    ensures var r := PassStep(v, sweep, blackThreshold, whiteThreshold, target, g);
      var r' := PassStep(v, sweep', blackThreshold, whiteThreshold, target, g);
      !r.2 && !r'.2 ==> r.0[|r.0| - 1] == r'.0[|r'.0| - 1] && r.1 == r'.1
  {
  }

  /** A successful search resets the integral: the iteration then issues the
      same commands and leaves the same globals whatever integral had built
      up before it. */
  lemma SearchResetsIntegral(v: int, sweep: seq<int>, blackThreshold: int, whiteThreshold: int, target: real,
                             g: Globals, integral: real)
    requires |sweep| >= |SEARCH_ANGLES|
    requires v > whiteThreshold + LOST_MARGIN && g.lostLineCount + 1 > LOST_LIMIT
    ensures var r := PassStep(v, sweep, blackThreshold, whiteThreshold, target, g);
      var r' := PassStep(v, sweep, blackThreshold, whiteThreshold, target, g.(integral := integral));
      r.0 == r'.0 && r.2 == r'.2 && (!r.2 ==> r.1 == r'.1)
  {
  }

  /** What a run of the main loop produces: how it ended, the tick at which
      it ended, the command log after it (the stop after the loop included)
      and the globals it left. */
  datatype Trace = Trace(ending: Ending, passes: nat, log: seq<Command>, last: Globals)

  /** The main loop from tick i on with the globals g, on a drive base that
      has already received the commands `done`, then stop() when the loop
      was left. */
  function RunTrace(ticks: seq<TickInput>, i: nat, blackThreshold: int, whiteThreshold: int, target: real,
                    g: Globals, done: seq<Command>): (t: Trace)
    requires i <= |ticks|
    requires forall j :: 0 <= j < |ticks| ==> |ticks[j].sweep| >= |SEARCH_ANGLES|
    ensures i <= t.passes <= |ticks|
    ensures t.ending == InputExhausted <==> t.passes == |ticks|
    ensures -INTEGRAL_LIMIT <= g.integral <= INTEGRAL_LIMIT ==> -INTEGRAL_LIMIT <= t.last.integral <= INTEGRAL_LIMIT
    decreases |ticks| - i
  {
    if i == |ticks| then Trace(InputExhausted, i, done, g)
    else if ticks[i].pressed then Trace(ButtonPressed, i, done + [Stop], g)
    else
      var p := PassStep(ticks[i].reflection, ticks[i].sweep, blackThreshold, whiteThreshold, target, g);
      if p.2 then Trace(LineNotFound, i, done + p.0 + [Stop], p.1)
      else RunTrace(ticks, i + 1, blackThreshold, whiteThreshold, target, p.1, done + p.0)
  }

  /** The run ends where RunEnd says for Level 4's lost-line rule: at the
      first press or at the first failed search (Control.RunEndSpec). */
  lemma {:induction false} RunTraceEnd(ticks: seq<TickInput>, i: nat, blackThreshold: int, whiteThreshold: int,
                                       target: real, g: Globals, done: seq<Command>)
    requires i <= |ticks|
    requires forall j :: 0 <= j < |ticks| ==> |ticks[j].sweep| >= |SEARCH_ANGLES|
    ensures var t := RunTrace(ticks, i, blackThreshold, whiteThreshold, target, g, done);
      (t.ending, t.passes)
        == RunEnd(ticks, i, g.lostLineCount, LossRule(whiteThreshold + LOST_MARGIN, LOST_LIMIT, |SEARCH_ANGLES|, target))
    decreases |ticks| - i
  {
    if i < |ticks| && !ticks[i].pressed {
      var p := PassStep(ticks[i].reflection, ticks[i].sweep, blackThreshold, whiteThreshold, target, g);
      if !p.2 {
        RunTraceEnd(ticks, i + 1, blackThreshold, whiteThreshold, target, p.1, done + p.0);
      }
    }
  }

  /** A run on a drive base that already received `done` issues what the
      same run issues from scratch, after `done`. */
  lemma {:induction false} RunTraceShift(ticks: seq<TickInput>, i: nat, blackThreshold: int, whiteThreshold: int,
                                         target: real, g: Globals, done: seq<Command>)
    requires i <= |ticks|
    requires forall j :: 0 <= j < |ticks| ==> |ticks[j].sweep| >= |SEARCH_ANGLES|
    ensures var t := RunTrace(ticks, i, blackThreshold, whiteThreshold, target, g, []);
      RunTrace(ticks, i, blackThreshold, whiteThreshold, target, g, done) == t.(log := done + t.log)
    decreases |ticks| - i
  {
    if i < |ticks| && !ticks[i].pressed {
      var p := PassStep(ticks[i].reflection, ticks[i].sweep, blackThreshold, whiteThreshold, target, g);
      if p.2 {
        assert done + p.0 + [Stop] == done + ([] + p.0 + [Stop]);
      } else {
        var rest := RunTrace(ticks, i + 1, blackThreshold, whiteThreshold, target, p.1, []);
        calc {
          RunTrace(ticks, i, blackThreshold, whiteThreshold, target, g, done);
          RunTrace(ticks, i + 1, blackThreshold, whiteThreshold, target, p.1, done + p.0);
          { RunTraceShift(ticks, i + 1, blackThreshold, whiteThreshold, target, p.1, done + p.0); }
          rest.(log := (done + p.0) + rest.log);
          { assert (done + p.0) + rest.log == done + (p.0 + rest.log); }
          rest.(log := done + (p.0 + rest.log));
        }
        calc {
          RunTrace(ticks, i, blackThreshold, whiteThreshold, target, g, []);
          { assert [] + p.0 == p.0; }
          RunTrace(ticks, i + 1, blackThreshold, whiteThreshold, target, p.1, p.0);
          { RunTraceShift(ticks, i + 1, blackThreshold, whiteThreshold, target, p.1, p.0); }
          rest.(log := p.0 + rest.log);
        }
      }
    } else if i < |ticks| {
      assert done + [Stop] == done + ([] + [Stop]);
    }
  }

  /** The only stop a run issues is the one after the loop, as its last
      command; a run that used up its input issues none. */
  lemma {:induction false} RunTraceStops(ticks: seq<TickInput>, i: nat, blackThreshold: int, whiteThreshold: int,
                                         target: real, g: Globals)
    requires i <= |ticks|
    requires forall j :: 0 <= j < |ticks| ==> |ticks[j].sweep| >= |SEARCH_ANGLES|
    ensures var t := RunTrace(ticks, i, blackThreshold, whiteThreshold, target, g, []);
      StopsOnlyAtEnd(t.log, if t.ending == InputExhausted then 0 else 1)
    decreases |ticks| - i
  {
    if i < |ticks| && !ticks[i].pressed {
      var p := PassStep(ticks[i].reflection, ticks[i].sweep, blackThreshold, whiteThreshold, target, g);
      assert [] + p.0 == p.0;
      if p.2 {
        StopsOnlyAtEndConcat(p.0, [Stop], 1);
      } else {
        var t := RunTrace(ticks, i + 1, blackThreshold, whiteThreshold, target, p.1, []);
        RunTraceShift(ticks, i + 1, blackThreshold, whiteThreshold, target, p.1, p.0);
        RunTraceStops(ticks, i + 1, blackThreshold, whiteThreshold, target, p.1);
        StopsOnlyAtEndConcat(p.0, t.log, if t.ending == InputExhausted then 0 else 1);
      }
    }
  }

  /** Every drive a run issues is at a speed in [50, 150] with a turn rate
      within ±250. */
  lemma {:induction false} RunDrivesWithin(ticks: seq<TickInput>, i: nat, blackThreshold: int, whiteThreshold: int,
                                           target: real, g: Globals)
    requires i <= |ticks|
    requires forall j :: 0 <= j < |ticks| ==> |ticks[j].sweep| >= |SEARCH_ANGLES|
    ensures DrivesWithin(RunTrace(ticks, i, blackThreshold, whiteThreshold, target, g, []).log, 50.0, BASE_SPEED, MAX_TURN)
    decreases |ticks| - i
  {
    if i < |ticks| && !ticks[i].pressed {
      var p := PassStep(ticks[i].reflection, ticks[i].sweep, blackThreshold, whiteThreshold, target, g);
      assert [] + p.0 == p.0;
      assert DrivesWithin(p.0, 50.0, BASE_SPEED, MAX_TURN) by {
        SweepPivotsHasNoStop(SEARCH_ANGLES, ticks[i].sweep, target);
      }
      if p.2 {
        DrivesWithinConcat(p.0, [Stop], 50.0, BASE_SPEED, MAX_TURN);
      } else {
        RunTraceShift(ticks, i + 1, blackThreshold, whiteThreshold, target, p.1, p.0);
        RunDrivesWithin(ticks, i + 1, blackThreshold, whiteThreshold, target, p.1);
        DrivesWithinConcat(p.0, RunTrace(ticks, i + 1, blackThreshold, whiteThreshold, target, p.1, []).log,
                           50.0, BASE_SPEED, MAX_TURN);
      }
    }
  }

  /** The program's module-level state: the PID globals, the lost-line
      counter and the calibration results the main loop reads. */
  class Tracer {
    var integral: real
    var lastError: real
    var lostLineCount: nat
    const target: real
    const blackThreshold: int
    const whiteThreshold: int

    ghost predicate Valid()
      reads this
    {
      -INTEGRAL_LIMIT <= integral <= INTEGRAL_LIMIT
    }

    /** The globals' initial values and the calibration done before the loop. */
    constructor (white: int, black: int)
      ensures Valid()
      ensures (target, blackThreshold, whiteThreshold) == Calibrate(white, black)
      ensures integral == 0.0 && lastError == 0.0 && lostLineCount == 0
    {
      integral, lastError := 0.0, 0.0;
      var (t, b, w) := Calibrate(white, black);
      target, blackThreshold, whiteThreshold := t, b, w;
      lostLineCount := 0;
    }

    /** calculate_pid_control, rewriting the globals integral and last_error. */
    method CalculatePidControl(sensor: int, targetValue: real, kp: real, ki: real, kd: real)
      returns (turnRate: real, error: real)
      modifies this`integral, this`lastError
      ensures PidOut(turnRate, error, integral, lastError)
        == PidControl(old(integral), old(lastError), sensor, targetValue, kp, ki, kd)
      ensures Valid()
    {
      error := sensor as real - targetValue;
      integral := integral + error;
      if integral > INTEGRAL_LIMIT {
        integral := INTEGRAL_LIMIT;
      } else if integral < -INTEGRAL_LIMIT {
        integral := -INTEGRAL_LIMIT;
      }
      var derivative := error - lastError;
      turnRate := PidTerms(kp, ki, kd, error, integral, derivative);
      ghost var raw := turnRate;
      if turnRate > MAX_TURN {
        turnRate := MAX_TURN;
      } else if turnRate < -MAX_TURN {
        turnRate := -MAX_TURN;
      }
      lastError := error;
      assert turnRate == Clamp(raw, MAX_TURN);
    }

    /** The first half of a main-loop iteration: count a lost reading (one
        above white_threshold + 5), reset the count on any other, and on the
        sixth lost reading in a row search; a successful search resets the
        count and the integral, a failed one breaks the loop. */
    method TrackLoss(reflection: int, sweep: seq<int>, robot: DriveBase) returns (ended: bool)
      requires Valid() && |sweep| >= |SEARCH_ANGLES|
      modifies this`lostLineCount, this`integral, robot
      ensures Valid()
      ensures var lost := reflection > whiteThreshold + LOST_MARGIN;
        var searching := lost && old(lostLineCount) + 1 > LOST_LIMIT;
        var found := FirstBelow(sweep[..|SEARCH_ANGLES|], target) < |SEARCH_ANGLES|;
        && (ended <==> searching && !found)
        && robot.commands == old(robot.commands)
             + (if searching then SweepPivots(SEARCH_ANGLES, sweep, target) else [])
        && lostLineCount == (if ended then old(lostLineCount) + 1 else NextCount(lost, old(lostLineCount), LOST_LIMIT))
        && integral == if searching && found then 0.0 else old(integral)
    {
      ended := false;
      if reflection > whiteThreshold + LOST_MARGIN {
        lostLineCount := lostLineCount + 1;
        if lostLineCount > LOST_LIMIT {
          var found := SearchLine(target, sweep, robot);
          if !found {
            return true;
          }
          lostLineCount := 0;
          integral := 0.0;
        }
      } else {
        lostLineCount := 0;
      }
    }

    /** The second half of a main-loop iteration, as SteerStep says. A
        reading TrackLoss counts as lost is always a sharp curve
        (Control.LostReadingIsSharp), so it never reaches the regulator. */
    method Steer(reflection: int, robot: DriveBase)
      requires Valid()
      modifies this`integral, this`lastError, robot
      ensures Valid()
      ensures var r := SteerStep(reflection, blackThreshold, whiteThreshold, target, old(integral), old(lastError));
        robot.commands == old(robot.commands) + [r.0] && integral == r.1 && lastError == r.2
    {
      var curve := DetectSharpCurve(reflection, blackThreshold, whiteThreshold, CURVE_MARGIN);
      if curve == SharpLeft {
        robot.Drive(BASE_SPEED * 0.5, -SHARP_TURN);
        integral := 0.0;
      } else if curve == SharpRight {
        robot.Drive(BASE_SPEED * 0.5, SHARP_TURN);
        integral := 0.0;
      } else {
        var turnRate, error := CalculatePidControl(reflection, target, KP, KI, KD);
        var currentSpeed := Level3.AdjustSpeed(BASE_SPEED, error);
        robot.Drive(currentSpeed, turnRate);
      }
    }

    /** The globals the main loop reads and writes. */
    function State(): Globals
      reads this
    {
      Globals(integral, lastError, lostLineCount)
    }

    /** One iteration of the main loop after the button check, as PassStep
        says: TrackLoss, then, unless a failed search broke the loop, Steer. */
    method Tick(reflection: int, sweep: seq<int>, robot: DriveBase) returns (ended: bool)
      requires Valid() && |sweep| >= |SEARCH_ANGLES|
      modifies this`lostLineCount, this`integral, this`lastError, robot
      ensures Valid()
      ensures var r := PassStep(reflection, sweep, blackThreshold, whiteThreshold, target, old(State()));
        robot.commands == old(robot.commands) + r.0 && State() == r.1 && ended == r.2
    {
      ended := TrackLoss(reflection, sweep, robot);
      if !ended {
        Steer(reflection, robot);
      }
    }

    /** The main loop, then stop(): the ending, the number of iterations,
        the commands issued and the globals left are RunTrace's. So the run
        ends at the first press or at the first failed search, whichever
        comes first (RunEnd; see Control.RunEndSpec), and its only stop is
        the last command. */
    method Run(ticks: seq<TickInput>, robot: DriveBase) returns (ending: Ending, ghost passes: nat)
      requires Valid()
      requires forall i :: 0 <= i < |ticks| ==> |ticks[i].sweep| >= |SEARCH_ANGLES|
      modifies this`lostLineCount, this`integral, this`lastError, robot
      ensures Valid()
      ensures var t := RunTrace(ticks, 0, blackThreshold, whiteThreshold, target, old(State()), []);
        && ending == t.ending && passes == t.passes && State() == t.last
        && robot.commands == old(robot.commands) + t.log
        && StopsOnlyAtEnd(t.log, if ending == InputExhausted then 0 else 1)
        && DrivesWithin(t.log, 50.0, BASE_SPEED, MAX_TURN)
      ensures (ending, passes)
        == RunEnd(ticks, 0, old(lostLineCount), LossRule(whiteThreshold + LOST_MARGIN, LOST_LIMIT, |SEARCH_ANGLES|, target))
    {
      ghost var t0 := RunTrace(ticks, 0, blackThreshold, whiteThreshold, target, State(), robot.commands);
      RunTraceShift(ticks, 0, blackThreshold, whiteThreshold, target, State(), robot.commands);
      RunTraceEnd(ticks, 0, blackThreshold, whiteThreshold, target, State(), []);
      RunTraceStops(ticks, 0, blackThreshold, whiteThreshold, target, State());
      RunDrivesWithin(ticks, 0, blackThreshold, whiteThreshold, target, State());
      var i := 0;
      while i < |ticks|
        invariant 0 <= i <= |ticks| && Valid()
        invariant RunTrace(ticks, i, blackThreshold, whiteThreshold, target, State(), robot.commands) == t0
      {
        if ticks[i].pressed {
          robot.Stop();
          return ButtonPressed, i;
        }
        var ended := Tick(ticks[i].reflection, ticks[i].sweep, robot);
        if ended {
          robot.Stop();
          return LineNotFound, i;
        }
        i := i + 1;
      }
      return InputExhausted, i;
    }
  }
}
