/** Level 2: the Level 1 ON/OFF loop with a threshold calibrated from a white
    and a black sample. */
module Level2 {
  import opened Control
  import Level1

  /** calibrate(): the threshold is the exact midpoint of the two samples, and
      the raw samples are returned unchanged as (threshold, black, white).
      Level 3's calibrate is the same code and is modelled by this function. */
  function Calibrate(white: int, black: int): (r: (real, int, int))
    ensures r.1 == black && r.2 == white
    ensures r.0 - black as real == white as real - r.0
    ensures black <= white ==> black as real <= r.0 <= white as real
    ensures white <= black ==> white as real <= r.0 <= black as real
    ensures black < white ==> black as real < r.0 < white as real
  {
    ((white + black) as real / 2.0, black, white)
  }

  /** The program after calibration: the polling loop drives at 150 and turns
      left (-100) on readings below the calibrated threshold, right (+100) on
      all others, and stops when the center button is seen. */
  function Run(white: int, black: int, ticks: seq<TickInput>): (log: seq<Command>)
    ensures Stop in log <==> exists i :: 0 <= i < |ticks| && ticks[i].pressed
    ensures |log| >= FirstPress(ticks)
    ensures FirstPress(ticks) < |ticks| ==> |log| == FirstPress(ticks) + 1 && log[|log| - 1] == Stop
    ensures FirstPress(ticks) == |ticks| ==> |log| == |ticks|
    ensures forall i :: 0 <= i < FirstPress(ticks) ==>
      log[i] == Drive(150.0, if ticks[i].reflection as real < (white + black) as real / 2.0 then -100.0 else 100.0)
  {
    var threshold := Calibrate(white, black).0;
    var steer := (v: int) => Level1.OnOff(threshold, v);
    PollLoopStopsOnlyOnButton(ticks, steer);
    PollLoop(ticks, steer)
  }
}
