/** Level 1: ON/OFF line following against a fixed threshold of 50. */
module Level1 {
  import opened Control

  const THRESHOLD := 50
  const BASE_SPEED := 150.0
  const TURN_RATE := 100.0

  /** The ON/OFF rule of the main loop: a reading below the threshold means the
      sensor is over the dark line and the robot turns left, any other reading
      turns it right; the forward speed is the same on both branches. Level 2
      keeps this rule and only replaces the threshold. */
  function OnOff(threshold: real, reflection: int): (c: Command)
    ensures c.Drive? && c.speed == BASE_SPEED
    ensures c.turnRate == -TURN_RATE <==> (reflection as real) < threshold
    ensures c.turnRate == TURN_RATE <==> (reflection as real) >= threshold
  {
    if (reflection as real) < threshold then Drive(BASE_SPEED, -TURN_RATE)
    else Drive(BASE_SPEED, TURN_RATE)
  }

  /** One iteration's decision with the fixed threshold. */
  function Steer(reflection: int): (c: Command)
    ensures c == Drive(150.0, -100.0) <==> reflection < 50
    ensures c == Drive(150.0, 100.0) <==> reflection >= 50
  {
    OnOff(THRESHOLD as real, reflection)
  }

  /** The whole program after the start button: the polling loop, then stop().
      Every command before the stop drives at 150 with turn rate -100 or +100,
      and the stop comes exactly when the center button is seen. */
  function Run(ticks: seq<TickInput>): (log: seq<Command>)
    ensures Stop in log <==> exists i :: 0 <= i < |ticks| && ticks[i].pressed
    ensures |log| >= FirstPress(ticks)
    ensures FirstPress(ticks) < |ticks| ==> |log| == FirstPress(ticks) + 1 && log[|log| - 1] == Stop
    ensures FirstPress(ticks) == |ticks| ==> |log| == |ticks|
    ensures forall i :: 0 <= i < |log| && log[i] != Stop ==>
      log[i].Drive? && log[i].speed == 150.0 && (log[i].turnRate == -100.0 || log[i].turnRate == 100.0)
    ensures forall i :: 0 <= i < FirstPress(ticks) ==> log[i] == Steer(ticks[i].reflection)
  {
    PollLoopStopsOnlyOnButton(ticks, Steer);
    PollLoop(ticks, Steer)
  }
}
