/** Vocabulary shared by the five line-follower programs: the commands the
    Pybricks DriveBase receives, what the polling main loop observes per tick,
    the saturating clamp, the sharp-curve classifier and the line-search sweep.
    Every reflection reading is the sensor's integer percentage; everything
    derived from readings (targets, gains, speeds) is an exact `real`. */
module Control {

  /** A command issued to the drive base: drive(speed, turn_rate), turn(angle) or stop(). */
  datatype Command = Drive(speed: real, turnRate: real) | Turn(angle: int) | Stop

  /** What one iteration of a main loop observes: whether the center button is
      down, the reflection reading, and the readings the sensor returns after
      each pivot of a line search started in this iteration (unused when none is). */
  datatype TickInput = TickInput(pressed: bool, reflection: int, sweep: seq<int>)

  /** How a main loop ended: the stop button, a failed line search, or (only in
      this model, whose input is finite) the ticks ran out while still driving. */
  datatype Ending = ButtonPressed | LineNotFound | InputExhausted

  /** Result of detect_sharp_curve: "sharp_left", "sharp_right" or None. */
  datatype Curve = SharpLeft | SharpRight | NoCurve

  /** The robot's DriveBase, observed through the commands it has been given. */
  class DriveBase {
    var commands: seq<Command>

    constructor ()
      ensures commands == []
    {
      commands := [];
    }

    method Drive(speed: real, turnRate: real)
      modifies this
      ensures commands == old(commands) + [Command.Drive(speed, turnRate)]
    {
      commands := commands + [Command.Drive(speed, turnRate)];
    }

    /** A blocking pivot by a relative angle in degrees. */
    method Turn(angle: int)
      modifies this
      ensures commands == old(commands) + [Command.Turn(angle)]
    {
      commands := commands + [Command.Turn(angle)];
    }

    method Stop()
      modifies this
      ensures commands == old(commands) + [Command.Stop]
    {
      commands := commands + [Command.Stop];
    }
  }

  function Abs(x: real): (r: real)
    ensures r >= 0.0 && (r == x || r == -x)
  {
    if x < 0.0 then -x else x
  }

  /** The saturating `if v > limit: v = limit elif v < -limit: v = -limit`
      the programs use for the integral and the turn rate. */
  function Clamp(x: real, limit: real): (r: real)
    requires limit >= 0.0
    ensures -limit <= r <= limit
    ensures -limit <= x <= limit ==> r == x
    ensures x > limit ==> r == limit
    ensures x < -limit ==> r == -limit
  {
    if x > limit then limit else if x < -limit then -limit else x
  }

  /** The PID sum before saturation: kp*error + ki*integral + kd*derivative. */
  function PidTerms(kp: real, ki: real, kd: real, error: real, integral: real, derivative: real): real
  {
    kp * error + ki * integral + kd * derivative
  }

  /** detect_sharp_curve with the curve margin as a parameter (10 in the final
      program, 5 in Level 4). The left test is made first, so it wins. */
  function DetectSharpCurve(v: int, blackThreshold: int, whiteThreshold: int, margin: int): (c: Curve)
    ensures c == SharpLeft <==> v < blackThreshold + margin
    ensures c == SharpRight <==> blackThreshold + margin <= v && v > whiteThreshold - margin
    ensures c == NoCurve <==> blackThreshold + margin <= v <= whiteThreshold - margin
  {
    if v < blackThreshold + margin then SharpLeft
    else if v > whiteThreshold - margin then SharpRight
    else NoCurve
  }

  /** A reading that counts as "line lost" (above white_threshold + 5) is
      always classified as a sharp curve once the margin is at least -5, so on
      such a tick the PID regulator is never consulted. */
  lemma LostReadingIsSharp(v: int, blackThreshold: int, whiteThreshold: int, margin: int)
    requires v > whiteThreshold + 5 && margin >= -5
    ensures DetectSharpCurve(v, blackThreshold, whiteThreshold, margin) != NoCurve
    ensures v >= blackThreshold + margin ==> DetectSharpCurve(v, blackThreshold, whiteThreshold, margin) == SharpRight
  {
  }

  /** Index of the first reading strictly below the target, or |readings| if none is. */
  function FirstBelow(readings: seq<int>, target: real): (k: nat)
    ensures k <= |readings|
    ensures forall j :: 0 <= j < k ==> readings[j] as real >= target
    ensures k < |readings| ==> (readings[k] as real) < target
  {
    if |readings| == 0 then 0
    else if (readings[0] as real) < target then 0
    else 1 + FirstBelow(readings[1..], target)
  }

  /** FirstBelow is determined by its contract: a position before which no
      reading is below the target, and at which one is (or the end). */
  lemma FirstBelowUnique(readings: seq<int>, target: real, i: nat)
    requires i <= |readings|
    requires forall j :: 0 <= j < i ==> readings[j] as real >= target
    requires i < |readings| ==> (readings[i] as real) < target
    ensures FirstBelow(readings, target) == i
  {
  }

  /** The pivot commands for a list of angles, in order. */
  function Pivots(angles: seq<int>): (cs: seq<Command>)
    ensures |cs| == |angles|
    ensures forall i :: 0 <= i < |cs| ==> cs[i] == Turn(angles[i])
  {
    seq(|angles|, i requires 0 <= i < |angles| => Turn(angles[i]))
  }

  lemma PivotsSnoc(angles: seq<int>, i: nat)
    requires i < |angles|
    ensures Pivots(angles[..i]) + [Turn(angles[i])] == Pivots(angles[..i + 1])
  {
    var a, b := Pivots(angles[..i]) + [Turn(angles[i])], Pivots(angles[..i + 1]);
    assert |a| == |b|;
    forall j | 0 <= j < |a| ensures a[j] == b[j] {
    }
  }

  /** The pivots a search sweep performs: every angle of the pattern up to and
      including the first one after which the reading is below the target, or
      all of them when there is none. `readings[i]` is the reading after pivot i. */
  function SweepPivots(pattern: seq<int>, readings: seq<int>, target: real): (cs: seq<Command>)
    requires |readings| >= |pattern|
    ensures var k := FirstBelow(readings[..|pattern|], target);
      && |cs| == (if k < |pattern| then k + 1 else |pattern|)
      && |cs| <= |pattern|
      && forall i :: 0 <= i < |cs| ==> cs[i] == Turn(pattern[i])
  {
    var k := FirstBelow(readings[..|pattern|], target);
    if k < |pattern| then Pivots(pattern[..k + 1]) else Pivots(pattern)
  }

  /** A sweep only pivots. */
  lemma SweepPivotsHasNoStop(pattern: seq<int>, readings: seq<int>, target: real)
    requires |readings| >= |pattern|
    ensures Stop !in SweepPivots(pattern, readings, target)
  {
    var cs := SweepPivots(pattern, readings, target);
    assert forall i :: 0 <= i < |cs| ==> cs[i].Turn?;
  }

  /** The loop both line searches share: pivot by each angle of the pattern
      in turn and read the sensor (`readings[i]` is the reading after pivot
      i), stopping at the first reading below the target. Returns the index
      of that pivot, or |pattern| when every reading stayed at or above it. */
  method Sweep(pattern: seq<int>, readings: seq<int>, target: real, robot: DriveBase) returns (k: nat)
    requires |readings| >= |pattern|
    modifies robot
    ensures k == FirstBelow(readings[..|pattern|], target)
    ensures robot.commands == old(robot.commands) + SweepPivots(pattern, readings, target)
  {
    ghost var seen := readings[..|pattern|];
    k := 0;
    while k < |pattern|
      invariant 0 <= k <= |pattern|
      invariant forall j :: 0 <= j < k ==> seen[j] as real >= target
      invariant robot.commands == old(robot.commands) + Pivots(pattern[..k])
    {
      robot.Turn(pattern[k]);
      PivotsSnoc(pattern, k);
      if (readings[k] as real) < target {
        FirstBelowUnique(seen, target, k);
        return;
      }
      k := k + 1;
    }
    FirstBelowUnique(seen, target, k);
    assert pattern[..k] == pattern;
  }

  /** The lost-line rule of the two PID main loops: a reading above
      `lostAbove` is lost, the lost reading that takes the consecutive count
      past `limit` starts a search of `searchLength` pivots, and the search
      succeeds at a reading below `target`. */
  datatype LossRule = LossRule(lostAbove: int, limit: nat, searchLength: nat, target: real)

  /** The lost-line counter after an iteration that did not break the loop:
      a lost reading adds one, unless it took the count past the limit and
      started a search (which, the loop going on, succeeded), and any other
      reading resets it. */
  function NextCount(lost: bool, count: nat, limit: nat): (c: nat)
    ensures c <= limit
    ensures c > 0 <==> lost && count + 1 <= limit
    ensures c > 0 ==> c == count + 1
  {
    if lost then (if count + 1 > limit then 0 else count + 1) else 0
  }

  /** The lost-line counter as it stands before tick n of a run that began
      with the count `start`: a lost reading adds one, any other reading
      resets it, and the reading that takes it past the limit starts a
      search, after which (the search having succeeded, since the run went
      on) it is 0 again. */
  function LostCount(ticks: seq<TickInput>, n: nat, start: nat, rule: LossRule): (c: nat)
    requires n <= |ticks|
    ensures n > 0 ==> c <= rule.limit
    ensures start == 0 ==> c <= n
    decreases n
  {
    if n == 0 then start
    else
      NextCount(ticks[n - 1].reflection > rule.lostAbove, LostCount(ticks, n - 1, start, rule), rule.limit)
  }

  /** Tick n is lost, takes the counter past the limit, and the search it
      starts finds no reading below the target. */
  predicate SearchFails(ticks: seq<TickInput>, n: nat, start: nat, rule: LossRule)
  {
    && n < |ticks|
    && ticks[n].reflection > rule.lostAbove
    && LostCount(ticks, n, start, rule) + 1 > rule.limit
    && |ticks[n].sweep| >= rule.searchLength
    && FirstBelow(ticks[n].sweep[..rule.searchLength], rule.target) == rule.searchLength
  }

  /** No search among the first n ticks fails. */
  predicate NoSearchFailsBefore(ticks: seq<TickInput>, n: nat, start: nat, rule: LossRule)
  {
    forall j :: 0 <= j < n ==> !SearchFails(ticks, j, start, rule)
  }

  /** The counter is the length of the current run of lost readings: the
      last `LostCount` ticks before n were all lost. */
  lemma {:induction false} LostCountConsecutive(ticks: seq<TickInput>, n: nat, start: nat, rule: LossRule)
    requires n <= |ticks|
    ensures forall j :: 0 <= j < n && n - j <= LostCount(ticks, n, start, rule) ==>
      ticks[j].reflection > rule.lostAbove
    decreases n
  {
    if n > 0 {
      LostCountConsecutive(ticks, n - 1, start, rule);
    }
  }

  /** Starting from 0, a search is entered only on the (limit + 1)-th lost
      reading in a row: the `limit` readings before it were lost too. */
  lemma SearchFollowsLostRun(ticks: seq<TickInput>, n: nat, rule: LossRule)
    requires n < |ticks| && ticks[n].reflection > rule.lostAbove
    requires LostCount(ticks, n, 0, rule) + 1 > rule.limit
    ensures n >= rule.limit
    ensures forall j :: n - rule.limit <= j <= n ==> ticks[j].reflection > rule.lostAbove
  {
    LostCountConsecutive(ticks, n, 0, rule);
  }

  /** How a PID main loop that has reached tick i with the lost count `count`
      ends, and at which tick: the button, a failed search, or the end of the
      input. */
  function RunEnd(ticks: seq<TickInput>, i: nat, count: nat, rule: LossRule): (r: (Ending, nat))
    requires i <= |ticks|
    ensures i <= r.1 <= |ticks|
    decreases |ticks| - i
  {
    if i == |ticks| then (InputExhausted, i)
    else if ticks[i].pressed then (ButtonPressed, i)
    else
      var lost := ticks[i].reflection > rule.lostAbove;
      if lost && count + 1 > rule.limit && |ticks[i].sweep| >= rule.searchLength
         && FirstBelow(ticks[i].sweep[..rule.searchLength], rule.target) == rule.searchLength
      then (LineNotFound, i)
      else RunEnd(ticks, i + 1, NextCount(lost, count, rule.limit), rule)
  }

  /** RunEnd from tick i on, with the counter the run has at tick i. */
  lemma {:induction false} RunEndFrom(ticks: seq<TickInput>, i: nat, start: nat, rule: LossRule)
    requires i <= |ticks|
    requires forall j :: 0 <= j < i ==> !ticks[j].pressed
    requires NoSearchFailsBefore(ticks, i, start, rule)
    ensures var r := RunEnd(ticks, i, LostCount(ticks, i, start, rule), rule);
      && r.1 <= FirstPress(ticks)
      && NoSearchFailsBefore(ticks, r.1, start, rule)
      && (r.0 == ButtonPressed ==> r.1 == FirstPress(ticks) < |ticks|)
      && (r.0 == InputExhausted ==> r.1 == FirstPress(ticks) == |ticks|)
      && (r.0 == LineNotFound ==> r.1 < FirstPress(ticks) && SearchFails(ticks, r.1, start, rule))
    decreases |ticks| - i
  {
    var count := LostCount(ticks, i, start, rule);
    if i == |ticks| || ticks[i].pressed {
      FirstPressUnique(ticks, i);
    } else if SearchFails(ticks, i, start, rule) {
      assert forall j :: 0 <= j <= i ==> !ticks[j].pressed;
    } else {
      assert NoSearchFailsBefore(ticks, i + 1, start, rule);
      assert forall j :: 0 <= j < i + 1 ==> !ticks[j].pressed;
      RunEndFrom(ticks, i + 1, start, rule);
    }
  }

  /** A run that starts with the count `start` ends at the first press or at
      the first failed search, whichever comes first; it runs out of input
      only when neither happens. */
  lemma RunEndSpec(ticks: seq<TickInput>, start: nat, rule: LossRule)
    ensures var r := RunEnd(ticks, 0, start, rule);
      && r.1 <= FirstPress(ticks)
      && NoSearchFailsBefore(ticks, r.1, start, rule)
      && (r.0 == ButtonPressed ==> r.1 == FirstPress(ticks) < |ticks|)
      && (r.0 == InputExhausted ==> r.1 == FirstPress(ticks) == |ticks|)
      && (r.0 == LineNotFound ==> r.1 < FirstPress(ticks) && SearchFails(ticks, r.1, start, rule))
  {
    RunEndFrom(ticks, 0, start, rule);
  }

  /** No command of `log` is a stop, except its last `stops`, which all are. */
  predicate StopsOnlyAtEnd(log: seq<Command>, stops: nat)
  {
    && |log| >= stops
    && (forall k :: 0 <= k < |log| - stops ==> log[k] != Stop)
    && (forall k :: |log| - stops <= k < |log| ==> log[k] == Stop)
  }

  /** A stop-free log followed by one that stops only at its end stops only
      at the end. */
  lemma StopsOnlyAtEndConcat(a: seq<Command>, b: seq<Command>, stops: nat)
    requires StopsOnlyAtEnd(a, 0) && StopsOnlyAtEnd(b, stops)
    ensures StopsOnlyAtEnd(a + b, stops)
  {
    forall k | |a| <= k < |a + b|
      ensures (a + b)[k] == b[k - |a|]
    {
    }
  }

  /** One more stop at the end keeps the stops at the end. */
  lemma StopsOnlyAtEndStop(log: seq<Command>, stops: nat)
    requires StopsOnlyAtEnd(log, stops)
    ensures StopsOnlyAtEnd(log + [Stop], stops + 1)
  {
  }

  /** Every drive in the log has a speed in [lo, hi] and a turn rate within
      ±maxTurn. */
  predicate DrivesWithin(log: seq<Command>, lo: real, hi: real, maxTurn: real)
  {
    forall k :: 0 <= k < |log| && log[k].Drive? ==>
      lo <= log[k].speed <= hi && -maxTurn <= log[k].turnRate <= maxTurn
  }

  lemma DrivesWithinConcat(a: seq<Command>, b: seq<Command>, lo: real, hi: real, maxTurn: real)
    requires DrivesWithin(a, lo, hi, maxTurn) && DrivesWithin(b, lo, hi, maxTurn)
    ensures DrivesWithin(a + b, lo, hi, maxTurn)
  {
    forall k | |a| <= k < |a + b|
      ensures (a + b)[k] == b[k - |a|]
    {
    }
  }

  /** Index of the first tick at which the stop button is seen, or |ticks|. */
  function FirstPress(ticks: seq<TickInput>): (k: nat)
    ensures k <= |ticks|
    ensures forall j :: 0 <= j < k ==> !ticks[j].pressed
    ensures k < |ticks| ==> ticks[k].pressed
  {
    if |ticks| == 0 then 0
    else if ticks[0].pressed then 0
    else 1 + FirstPress(ticks[1..])
  }

  /** FirstPress is determined by its contract. */
  lemma FirstPressUnique(ticks: seq<TickInput>, i: nat)
    requires i <= |ticks|
    requires forall j :: 0 <= j < i ==> !ticks[j].pressed
    requires i < |ticks| ==> ticks[i].pressed
    ensures FirstPress(ticks) == i
  {
  }

  /** A main loop that keeps no state between iterations (Levels 1 to 3):
      each iteration exits on the button, otherwise reads the sensor and
      issues the command `steer` picks for that reading; stop() follows the loop. */
  function PollLoop(ticks: seq<TickInput>, steer: int -> Command): (log: seq<Command>)
    ensures var k := FirstPress(ticks);
      && |log| == (if k < |ticks| then k + 1 else k)
      && (forall i :: 0 <= i < k ==> log[i] == steer(ticks[i].reflection))
      && (k < |ticks| ==> log[k] == Stop)
  {
    if |ticks| == 0 then []
    else if ticks[0].pressed then [Stop]
    else [steer(ticks[0].reflection)] + PollLoop(ticks[1..], steer)
  }

  /** The loop's log depends only on the decisions `steer` makes, not on how
      the rule is written down. */
  lemma {:induction false} PollLoopSameRule(ticks: seq<TickInput>, f: int -> Command, g: int -> Command)
    requires forall v :: f(v) == g(v)
    ensures PollLoop(ticks, f) == PollLoop(ticks, g)
    decreases |ticks|
  {
    if |ticks| > 0 && !ticks[0].pressed {
      PollLoopSameRule(ticks[1..], f, g);
    }
  }

  /** When every steering decision is a drive command, the loop's log holds a
      stop exactly when the button was seen, and then only as its last entry. */
  lemma PollLoopStopsOnlyOnButton(ticks: seq<TickInput>, steer: int -> Command)
    requires forall v :: steer(v).Drive?
    ensures var log := PollLoop(ticks, steer);
      && (Stop in log <==> exists i :: 0 <= i < |ticks| && ticks[i].pressed)
      && (Stop in log ==> log[|log| - 1] == Stop && Stop !in log[..|log| - 1])
      && (forall i :: 0 <= i < |log| && log[i] != Stop ==> i < FirstPress(ticks))
  {
    var log, k := PollLoop(ticks, steer), FirstPress(ticks);
    assert forall i :: 0 <= i < k ==> log[i].Drive?;
    if k < |ticks| {
      assert log[k] == Stop;
      assert log[..|log| - 1] == log[..k];
    } else {
      assert Stop !in log;
    }
  }
}
