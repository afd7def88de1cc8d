/** How the five programs relate: what each level keeps of the one before. */
module Variants {
  import opened Control
  import Level1
  import Level2
  import Level4
  import Perfect

  /** Level 2, Level 4 and the final program aim at the same target for the
      same samples: moving both thresholds 5 inwards leaves their midpoint
      where the raw samples' midpoint was. */
  lemma SameTarget(white: int, black: int)
    ensures Perfect.Calibration(white, black).target == Level4.Calibrate(white, black).0
    ensures Level4.Calibrate(white, black).0 == Level2.Calibrate(white, black).0
  {
  }

  /** Calibrated on samples whose midpoint is 50, Level 2 drives exactly as
      Level 1 does. */
  lemma Level2ExtendsLevel1(white: int, black: int, ticks: seq<TickInput>)
    requires white + black == 100
    ensures Level2.Run(white, black, ticks) == Level1.Run(ticks)
  {
    var threshold := Level2.Calibrate(white, black).0;
    PollLoopSameRule(ticks, (v: int) => Level1.OnOff(threshold, v), Level1.Steer);
  }

  /** A reading Level 4 treats as a sharp left turn (margin 5) is one for the
      final program (margin 10) too, given the same thresholds. */
  lemma SharpLeftWidens(v: int, blackThreshold: int, whiteThreshold: int)
    requires DetectSharpCurve(v, blackThreshold, whiteThreshold, Level4.CURVE_MARGIN) == SharpLeft
    ensures Perfect.SharpCurve(v, blackThreshold, whiteThreshold) == SharpLeft
  {
  }
}
