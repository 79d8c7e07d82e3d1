/**
 * The decisions `Motor::setMotorSpeed` and `Motor::setLength` take, as
 * functions of the values they read: the angle interlock and the
 * duplicate-frame suppression of a speed command, and the target angle,
 * speed tier and achieved percentage of a seek. The `double`s of the
 * source (`endAngle`, `dif`, the percentage) are exact reals here.
 */
module Control {
  import opened Numeric
  import opened Protocol

  // ---------------------------------------------------------------------------
  // setMotorSpeed

  /** The interlock of `setMotorSpeed`: a reading at or beyond either bound refuses every command. */
  predicate Interlocked(angle: int, zeroAngle: int, maxAngle: int)
  {
    angle >= maxAngle || angle <= zeroAngle
  }

  /** The limit exit of the seek loop: a reading strictly beyond either bound. */
  predicate OutOfBounds(angle: int, zeroAngle: int, maxAngle: int)
  {
    angle > maxAngle || angle < zeroAngle
  }

  /** The loop's limit test is strict and the interlock is not, so every
      reading that ends the loop also blocks a command, and a reading exactly
      on a bound blocks commands without ending the loop. */
  lemma OutOfBoundsIsInterlocked(angle: int, zeroAngle: int, maxAngle: int)
    ensures OutOfBounds(angle, zeroAngle, maxAngle) ==> Interlocked(angle, zeroAngle, maxAngle)
    ensures (angle == zeroAngle || angle == maxAngle) ==>
              Interlocked(angle, zeroAngle, maxAngle) && (zeroAngle <= maxAngle ==> !OutOfBounds(angle, zeroAngle, maxAngle))
  {
  }

  /** With `maxAngle <= zeroAngle` every reading is interlocked: such a calibration stops all commands. */
  lemma InvertedCalibrationBlocks(angle: int, zeroAngle: int, maxAngle: int)
    requires maxAngle <= zeroAngle
    ensures Interlocked(angle, zeroAngle, maxAngle)
  {
  }

  /** What one call of `setMotorSpeed` leaves behind: the bytes it wrote and the new `currentSpeed`. */
  datatype Response = Response(frame: seq<byte>, currentSpeed: int)

  /** One call of `setMotorSpeed(speed)` with the interlock reading `angle`.
      As written, the source remembers the magnitude of the speed it sent,
      not the signed request. */
  function SpeedStep(id: byte, zeroAngle: int, maxAngle: int, current: int, angle: int, speed: int): Response
  {
    if Interlocked(angle, zeroAngle, maxAngle) || speed == current then
      Response([], current)
    else
      Response(SpeedFrame(id, speed), Abs(speed))
  }

  /** A call sends a frame exactly when the reading is inside the interlock
      and the speed differs from the remembered one. A sent frame reads back
      as the requested speed whenever its magnitude fits the thirteen bits
      of the frame, and the call then remembers the magnitude; a call that
      sends nothing changes nothing. */
  lemma SpeedStepSends(id: byte, zeroAngle: int, maxAngle: int, current: int, angle: int, speed: int)
    ensures var r := SpeedStep(id, zeroAngle, maxAngle, current, angle, speed);
      (|r.frame| > 0 <==> !Interlocked(angle, zeroAngle, maxAngle) && speed != current) &&
      (|r.frame| == 0 ==> r.currentSpeed == current) &&
      (|r.frame| > 0 ==> r.currentSpeed == Abs(speed)) &&
      (|r.frame| > 0 && Abs(speed) < 8192 ==> Decode(r.frame) == Some(SetSpeed(id, speed)))
  {
    if !Interlocked(angle, zeroAngle, maxAngle) && speed != current && Abs(speed) < 8192 {
      SpeedRoundTrip(id, speed);
    }
  }

  /** The remembered speed is never negative. */
  lemma StepKeepsMagnitude(id: byte, zeroAngle: int, maxAngle: int, current: int, angle: int, speed: int)
    requires current >= 0
    ensures SpeedStep(id, zeroAngle, maxAngle, current, angle, speed).currentSpeed >= 0
  {
  }

  /** A reverse request never equals the remembered magnitude, so it is sent
      every time the interlock allows, even when it repeats the last request. */
  lemma ReverseAlwaysSent(id: byte, zeroAngle: int, maxAngle: int, current: int, angle: int, speed: int)
    requires current >= 0 && speed < 0
    requires !Interlocked(angle, zeroAngle, maxAngle)
    ensures SpeedStep(id, zeroAngle, maxAngle, current, angle, speed) == Response(SpeedFrame(id, speed), -speed)
  {
  }

  /** `setMotorSpeed(-s)` followed by `setMotorSpeed(s)` sends one frame
      only, the reverse one: the forward request matches the remembered
      magnitude and is dropped, so the controller keeps running in reverse. */
  lemma ReversalSuppressed(id: byte, zeroAngle: int, maxAngle: int, current: int, angle1: int, angle2: int, s: int)
    requires current >= 0 && s > 0
    requires !Interlocked(angle1, zeroAngle, maxAngle) && !Interlocked(angle2, zeroAngle, maxAngle)
    ensures var first := SpeedStep(id, zeroAngle, maxAngle, current, angle1, -s);
      var second := SpeedStep(id, zeroAngle, maxAngle, first.currentSpeed, angle2, s);
      first.frame == SpeedFrame(id, -s) && second == Response([], s)
  {
  }

  /** Repeating a forward (or zero) speed sends nothing the second time. */
  lemma ForwardRepeatSilent(id: byte, zeroAngle: int, maxAngle: int, current: int, angle1: int, angle2: int, s: int)
    requires s >= 0
    ensures var first := SpeedStep(id, zeroAngle, maxAngle, current, angle1, s);
      var second := SpeedStep(id, zeroAngle, maxAngle, first.currentSpeed, angle2, s);
      first.currentSpeed == s ==> second == Response([], s)
  {
  }

  /** The first `k` calls of a run of `setMotorSpeed`, in order: `angles[i]`
      is the interlock reading of the call that requested `speeds[i]`. */
  function Calls(id: byte, zeroAngle: int, maxAngle: int, current: int, angles: seq<int>, speeds: seq<int>, k: nat): Response
    requires k <= |angles| && k <= |speeds|
  {
    if k == 0 then
      Response([], current)
    else
      var before := Calls(id, zeroAngle, maxAngle, current, angles, speeds, k - 1);
      var last := SpeedStep(id, zeroAngle, maxAngle, before.currentSpeed, angles[k - 1], speeds[k - 1]);
      Response(before.frame + last.frame, last.currentSpeed)
  }

  /** A run of `k` calls writes whole five-byte frames, at most one per
      call, and never leaves a negative speed remembered. */
  lemma {:induction false} CallsFrames(id: byte, zeroAngle: int, maxAngle: int, current: int, angles: seq<int>, speeds: seq<int>, k: nat)
    requires k <= |angles| && k <= |speeds|
    ensures var r := Calls(id, zeroAngle, maxAngle, current, angles, speeds, k);
      |r.frame| % 5 == 0 && |r.frame| <= 5 * k && (current >= 0 ==> r.currentSpeed >= 0)
  {
    if k > 0 {
      CallsFrames(id, zeroAngle, maxAngle, current, angles, speeds, k - 1);
      var before := Calls(id, zeroAngle, maxAngle, current, angles, speeds, k - 1);
      var last := SpeedStep(id, zeroAngle, maxAngle, before.currentSpeed, angles[k - 1], speeds[k - 1]);
      assert |last.frame| == 0 || |last.frame| == 5;
      var n := |before.frame| / 5;
      assert |before.frame + last.frame| == 5 * n + |last.frame|;
    }
  }

  /** A whole run of `setMotorSpeed`: the bytes it writes and the speed it leaves remembered. */
  function Replay(id: byte, zeroAngle: int, maxAngle: int, current: int, angles: seq<int>, speeds: seq<int>): Response
    requires |angles| == |speeds|
  {
    Calls(id, zeroAngle, maxAngle, current, angles, speeds, |speeds|)
  }

  /** The first `k` calls do not depend on the requests made after them. */
  lemma {:induction false} CallsPrefix(id: byte, zeroAngle: int, maxAngle: int, current: int,
                                       angles: seq<int>, speeds: seq<int>, angle: int, speed: int, k: nat)
    requires k <= |angles| && k <= |speeds|
    ensures Calls(id, zeroAngle, maxAngle, current, angles + [angle], speeds + [speed], k) ==
            Calls(id, zeroAngle, maxAngle, current, angles, speeds, k)
  {
    if k > 0 {
      CallsPrefix(id, zeroAngle, maxAngle, current, angles, speeds, angle, speed, k - 1);
      assert (angles + [angle])[k - 1] == angles[k - 1] && (speeds + [speed])[k - 1] == speeds[k - 1];
    }
  }

  /** One more call appends its own bytes to the run. */
  lemma ReplaySnoc(id: byte, zeroAngle: int, maxAngle: int, current: int, angles: seq<int>, speeds: seq<int>, angle: int, speed: int)
    requires |angles| == |speeds|
    ensures var before := Replay(id, zeroAngle, maxAngle, current, angles, speeds);
      var last := SpeedStep(id, zeroAngle, maxAngle, before.currentSpeed, angle, speed);
      Replay(id, zeroAngle, maxAngle, current, angles + [angle], speeds + [speed]) ==
        Response(before.frame + last.frame, last.currentSpeed)
  {
    CallsPrefix(id, zeroAngle, maxAngle, current, angles, speeds, angle, speed, |speeds|);
  }

  /** Calls whose every interlock reading is at or past a bound write
      nothing and remember nothing new. */
  lemma {:induction false} InterlockedCallsSilent(id: byte, zeroAngle: int, maxAngle: int, current: int,
                                                  angles: seq<int>, speeds: seq<int>, k: nat)
    requires k <= |angles| && k <= |speeds|
    requires forall i :: 0 <= i < k ==> Interlocked(angles[i], zeroAngle, maxAngle)
    ensures Calls(id, zeroAngle, maxAngle, current, angles, speeds, k) == Response([], current)
  {
    if k > 0 {
      InterlockedCallsSilent(id, zeroAngle, maxAngle, current, angles, speeds, k - 1);
    }
  }

  /** A run that ends with a zero request whose reading is inside the bounds
      leaves the remembered speed at zero: the motor's last command is "stop". */
  lemma StopTakesEffect(id: byte, zeroAngle: int, maxAngle: int, current: int, angles: seq<int>, speeds: seq<int>)
    requires |angles| == |speeds| > 0 && speeds[|speeds| - 1] == 0
    requires !Interlocked(angles[|angles| - 1], zeroAngle, maxAngle)
    ensures Replay(id, zeroAngle, maxAngle, current, angles, speeds).currentSpeed == 0
  {
  }

  // ---------------------------------------------------------------------------
  // setLength

  /** The requested rope length, capped to 0..100 per cent. */
  function Clamp(position: int): (p: int)
    ensures 0 <= p <= 100
    ensures 0 <= position <= 100 ==> p == position
    ensures position > 100 ==> p == 100
    ensures position < 0 ==> p == 0
  {
    if position > 100 then 100 else if position < 0 then 0 else position
  }

  lemma ClampIdempotent(position: int)
    ensures Clamp(Clamp(position)) == Clamp(position)
  {
  }

  /** The target angle: `position` per cent of the way from `zeroAngle` to `maxAngle`. */
  function EndAngle(zeroAngle: int, maxAngle: int, position: int): real
  {
    zeroAngle as real + (position as real / 100.0 * (maxAngle - zeroAngle) as real)
  }

  /** The target of a clamped position lies between the two calibrated
      angles, and the end positions map to the calibrated angles themselves. */
  lemma EndAngleBetween(zeroAngle: int, maxAngle: int, position: int)
    requires 0 <= position <= 100
    ensures var e := EndAngle(zeroAngle, maxAngle, position);
      (zeroAngle <= maxAngle ==> zeroAngle as real <= e <= maxAngle as real) &&
      (maxAngle <= zeroAngle ==> maxAngle as real <= e <= zeroAngle as real)
    ensures EndAngle(zeroAngle, maxAngle, 0) == zeroAngle as real
    ensures EndAngle(zeroAngle, maxAngle, 100) == maxAngle as real
  {
    var t := position as real / 100.0;
    assert 0.0 <= t <= 1.0;
    assert EndAngle(zeroAngle, maxAngle, position) == zeroAngle as real + t * (maxAngle - zeroAngle) as real;
    if zeroAngle <= maxAngle {
      ShareBetween(t, (maxAngle - zeroAngle) as real);
    } else {
      var m := (zeroAngle - maxAngle) as real;
      ShareBetween(t, m);
      assert t * (maxAngle - zeroAngle) as real == -(t * m);
    }
  }

  /** A share `t` of a non-negative length `m` lies between 0 and `m`. */
  lemma ShareBetween(t: real, m: real)
    requires 0.0 <= t <= 1.0 && 0.0 <= m
    ensures 0.0 <= t * m <= m
  {
    assert m - t * m == (1.0 - t) * m;
  }

  /** `abs(endAngle - currAngle)`: how far the reading is from the target. */
  function Dist(endAngle: real, angle: int): (d: real)
    ensures d >= 0.0
    ensures d == 0.0 <==> endAngle == angle as real
  {
    RealAbs(endAngle - angle as real)
  }

  /** The speed magnitude for an angular error: full, half, quarter or creep. */
  function Tier(dif: real): int
  {
    if dif > 90.0 then 3600
    else if dif > 40.0 then 1800
    else if dif > 15.0 then 900
    else 500
  }

  /** The four tiers and the error band that selects each of them. */
  lemma TierBands(dif: real)
    ensures var t := Tier(dif);
      (t == 500 || t == 900 || t == 1800 || t == 3600) &&
      (t == 3600 <==> dif > 90.0) && (t == 1800 <==> 40.0 < dif <= 90.0) &&
      (t == 900 <==> 15.0 < dif <= 40.0) && (t == 500 <==> dif <= 15.0)
  {
  }

  /** A larger error never picks a slower tier. */
  lemma TierMonotone(d1: real, d2: real)
    requires d1 <= d2
    ensures Tier(d1) <= Tier(d2)
  {
  }

  /** The speed one iteration of the seek loop requests: it drives toward the
      target, never requests a stop, and its magnitude is the error's tier.
      The source multiplies the tier by a sign of 1 or -1; the two signs are
      the two branches here. */
  function SeekSpeed(endAngle: real, angle: int): int
  {
    if endAngle > angle as real then Tier(Dist(endAngle, angle)) else -Tier(Dist(endAngle, angle))
  }

  lemma SeekSpeedSteers(endAngle: real, angle: int)
    ensures var s := SeekSpeed(endAngle, angle);
      s != 0 && (s > 0 <==> endAngle > angle as real) && Abs(s) == Tier(Dist(endAngle, angle))
  {
    TierBands(Dist(endAngle, angle));
  }

  /** The position reported for a reading: the per cent of the way from
      `zeroAngle` to `maxAngle`, truncated toward zero. */
  function Percent(angle: int, zeroAngle: int, maxAngle: int): int
    requires zeroAngle != maxAngle
  {
    Trunc((100 * (angle - zeroAngle)) as real / (maxAngle - zeroAngle) as real)
  }

  /** A reading between the calibrated angles reports a position in 0..100. */
  lemma PercentInRange(angle: int, zeroAngle: int, maxAngle: int)
    requires zeroAngle < maxAngle && zeroAngle <= angle <= maxAngle
    ensures 0 <= Percent(angle, zeroAngle, maxAngle) <= 100
  {
    var num := (100 * (angle - zeroAngle)) as real;
    var den := (maxAngle - zeroAngle) as real;
    assert 0.0 <= num <= 100.0 * den;
    assert num / den <= 100.0 by {
      assert num / den * den == num;
    }
  }

  /** `Percent` undoes `EndAngle`: a reading exactly on the target of a
      position reports that position. */
  lemma PercentOfEndAngle(zeroAngle: int, maxAngle: int, position: int, angle: int)
    requires zeroAngle != maxAngle
    requires EndAngle(zeroAngle, maxAngle, position) == angle as real
    ensures Percent(angle, zeroAngle, maxAngle) == position
  {
    var den := (maxAngle - zeroAngle) as real;
    var num := (100 * (angle - zeroAngle)) as real;
    assert num == position as real * den;
    assert num / den == position as real;
  }
}
