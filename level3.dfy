/** Level 3: proportional steering with error-dependent slowdown. */
module Level3 {
  import opened Control
  import Level2

  const BASE_SPEED := 150.0
  const KP := 2.0
  /** The floor adjust_speed never goes below. */
  const MIN_SPEED := 50.0

  /** calculate_p_control: the error is the signed distance of the reading from
      the target and the turn rate is proportional to it, with no clamping.
      Returns (turn_rate, error). */
  function PControl(sensor: int, target: real, kp: real): (r: (real, real))
    ensures r.1 == sensor as real - target
    ensures r.0 == kp * (sensor as real - target)
    ensures kp != 0.0 ==> (r.0 == 0.0 <==> sensor as real == target)
    ensures kp > 0.0 ==> (r.0 > 0.0 <==> sensor as real > target) && (r.0 < 0.0 <==> (sensor as real) < target)
  {
    var error := sensor as real - target;
    (kp * error, error)
  }

  /** adjust_speed: slow down by 0.8 per unit of error, but never below 50.
      Level 4 inherits it unchanged. */
  function AdjustSpeed(baseSpeed: real, error: real): (s: real)
    ensures s >= MIN_SPEED
    ensures baseSpeed >= MIN_SPEED ==> s <= baseSpeed
    ensures s == MIN_SPEED || s == baseSpeed - Abs(error) * 0.8
  {
    var speed := baseSpeed - Abs(error) * 0.8;
    if speed < MIN_SPEED then MIN_SPEED else speed
  }

  /** At zero error the robot runs at its base speed (when that is above the floor). */
  lemma AdjustSpeedAtTarget(baseSpeed: real)
    requires baseSpeed >= MIN_SPEED
    ensures AdjustSpeed(baseSpeed, 0.0) == baseSpeed
  {
  }

  /** Errors of equal size, either side of the line, give the same speed. */
  lemma AdjustSpeedSymmetric(baseSpeed: real, error: real)
    ensures AdjustSpeed(baseSpeed, error) == AdjustSpeed(baseSpeed, -error)
  {
  }

  /** A larger error never gives a higher speed. */
  lemma AdjustSpeedMonotone(baseSpeed: real, e1: real, e2: real)
    requires Abs(e1) <= Abs(e2)
    ensures AdjustSpeed(baseSpeed, e2) <= AdjustSpeed(baseSpeed, e1)
  {
  }

  /** One iteration of the main loop: drive with the adjusted speed and the P turn rate
      computed from this iteration's reading. */
  function TickCommand(target: real, reflection: int): (c: Command)
    ensures var e := reflection as real - target;
      c == Drive(AdjustSpeed(BASE_SPEED, e), KP * e)
    ensures c.Drive? && MIN_SPEED <= c.speed <= BASE_SPEED
  {
    var (turnRate, error) := PControl(reflection, target, KP);
    Drive(AdjustSpeed(BASE_SPEED, error), turnRate)
  }

  /** The program after calibration: one P-controlled drive command per
      iteration, a stop when the center button is seen. */
  function Run(white: int, black: int, ticks: seq<TickInput>): (log: seq<Command>)
    ensures Stop in log <==> exists i :: 0 <= i < |ticks| && ticks[i].pressed
    ensures |log| >= FirstPress(ticks)
    ensures FirstPress(ticks) < |ticks| ==> |log| == FirstPress(ticks) + 1 && log[|log| - 1] == Stop
    ensures FirstPress(ticks) == |ticks| ==> |log| == |ticks|
    ensures forall i :: 0 <= i < FirstPress(ticks) ==>
      log[i] == TickCommand((white + black) as real / 2.0, ticks[i].reflection)
  {
    var target := Level2.Calibrate(white, black).0;
    var steer := (v: int) => TickCommand(target, v);
    PollLoopStopsOnlyOnButton(ticks, steer);
    PollLoop(ticks, steer)
  }
}
