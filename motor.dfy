/**
 * The `Motor` class: one winch motor, its angle sensor and the motor
 * controller it commands over a serial line. The hardware the class talks
 * to is injected: `sensor` is the trace of values `analogRead` returns on
 * the angle pin, `clock` the trace of values `millis` returns, and `output`
 * is every byte written to the serial stream, in order. A read past the end
 * of a trace returns 0; a run makes finitely many reads, so a long enough
 * trace stands for any run.
 */
module MotorDriver {
  import opened Numeric
  import opened Sensor
  import opened Protocol
  import opened Control

  /** `unsigned long`, the type `millis()` returns. */
  type ulong = x: int | 0 <= x < 0x1_0000_0000

  /** The seek gives up once more than this many milliseconds have passed. */
  const TIMEOUT_MS := 2000

  /** `millis() - st` in `unsigned long` arithmetic: the time since `st`,
      also across a wrap-around of the counter. */
  function Elapsed(st: ulong, now: ulong): (d: ulong)
    ensures st <= now ==> d == now - st
    ensures now < st ==> d == now + 0x1_0000_0000 - st
  {
    (now - st) % 0x1_0000_0000
  }

  /** A reading taken `d` milliseconds after `st`, on the wrapping counter, is `d` after it. */
  lemma ElapsedAfter(st: ulong, d: ulong)
    ensures Elapsed(st, (st + d) % 0x1_0000_0000) == d
  {
  }

  /** The time-out test's `abs(millis() - st)`. `abs` is the macro
      `((x) > 0 ? (x) : -(x))`, so `millis()` is called twice: the first
      reading `first` picks the branch, the second reading `second` gives
      the value, negated in `unsigned long` when `first` equals `st`. */
  function AbsElapsed(st: ulong, first: ulong, second: ulong): ulong
  {
    if (first - st) % 0x1_0000_0000 > 0 then (second - st) % 0x1_0000_0000 else (st - second) % 0x1_0000_0000
  }

  /** The test sees the time since `st` at the second call when the first
      call is past `st`, and that time negated when it is not. */
  lemma AbsElapsedBranches(st: ulong, first: ulong, second: ulong)
    ensures Elapsed(st, first) > 0 ==> AbsElapsed(st, first, second) == Elapsed(st, second)
    ensures Elapsed(st, first) == 0 ==> (AbsElapsed(st, first, second) + Elapsed(st, second)) % 0x1_0000_0000 == 0
  {
  }

  /** When the counter does not move between the two calls, the test sees
      the plain time since `st`. */
  lemma AbsElapsedSteady(st: ulong, t: ulong)
    ensures AbsElapsed(st, t, t) == Elapsed(st, t)
  {
  }

  /** When the first call returns `st` itself and the counter ticks before
      the second, the test sees 2^32 - 1 milliseconds and times out, one
      millisecond after the start. */
  lemma AbsElapsedTick(st: ulong)
    ensures var next := (st + 1) % 0x1_0000_0000;
      Elapsed(st, next) == 1 && AbsElapsed(st, st, next) == 0xFFFF_FFFF && AbsElapsed(st, st, next) > TIMEOUT_MS
  {
    ElapsedAfter(st, 1);
  }

  /** Appending to the serial log is associative. */
  lemma AppendAssoc(a: seq<byte>, b: seq<byte>, c: seq<byte>)
    ensures (a + b) + c == a + (b + c)
  {
  }

  /** Why the seek loop of `setLength` stopped. The source does not report it. */
  datatype Exit = Converged | LimitReached | TimedOut

  /** Where the seek loop of `setLength` stops: how many iterations ran,
      how many samples and clock readings had been taken, and why it
      stopped. What it wrote is a function of the number of iterations. */
  datatype SeekEnd = SeekEnd(iterations: nat, samples: nat, clocks: nat, why: Exit)

  class Motor {
    const controllerID: byte
    const anglePin: int
    /** `ANGLE_ERROR`, the tolerance of the seek, declared in the class header. */
    const angleError: real
    const sensor: seq<Sample>
    const clock: seq<ulong>

    var zeroAngle: int
    var maxAngle: int
    /** The magnitude of the last speed frame sent. */
    var currentSpeed: int
    var output: seq<byte>
    var samplesTaken: nat
    var clockReads: nat

    ghost predicate Valid()
      reads this
    {
      currentSpeed >= 0
    }

    /** The k-th value `analogRead` returns on the angle pin (counting from 0). */
    function Raw(k: nat): Sample
    {
      if k < |sensor| then sensor[k] else 0
    }

    /** The k-th value `millis` returns. */
    function ClockAt(k: nat): ulong
    {
      if k < |clock| then clock[k] else 0
    }

    /** The angle the k-th sample converts to. */
    function Reading(k: nat): int
    {
      AngleOf(Raw(k))
    }

    /** The angles of every other sample, `count` of them from sample `start` on. */
    function Readings(start: nat, count: nat): (r: seq<int>)
      ensures |r| == count
    {
      if count == 0 then [] else Readings(start, count - 1) + [Reading(start + 2 * (count - 1))]
    }

    /** The i-th of those angles is the angle of sample `start + 2 * i`. */
    lemma {:induction false} ReadingsAt(start: nat, count: nat, i: nat)
      requires i < count
      ensures Readings(start, count)[i] == Reading(start + 2 * i)
    {
      if i < count - 1 {
        ReadingsAt(start, count - 1, i);
      }
    }

    /** The time-out test of the seek loop fires when its two calls of
        `millis()` return the k-th and the (k+1)-th readings. */
    predicate TimeIsUp(st: ulong, k: nat)
    {
      AbsElapsed(st, ClockAt(k), ClockAt(k + 1)) > TIMEOUT_MS
    }

    /** `millis()` keeps running: with the n-th reading as start time, the
        time-out test of some pass of a seek started then fires, on a pair
        of readings inside the trace. Pass `i` reads the clock at
        `n + 1 + 2 * i` and `n + 2 + 2 * i`. */
    ghost predicate TimesOutAfter(n: nat)
    {
      exists i: nat :: n + 2 + 2 * i < |clock| && TimeIsUp(ClockAt(n), n + 1 + 2 * i)
    }

    /** A pass whose time-out test fires. */
    ghost function TimeoutPass(n: nat): (i: nat)
      requires TimesOutAfter(n)
      ensures n + 2 + 2 * i < |clock| && TimeIsUp(ClockAt(n), n + 1 + 2 * i)
    {
      var i: nat :| n + 2 + 2 * i < |clock| && TimeIsUp(ClockAt(n), n + 1 + 2 * i);
      i
    }

    /** Where the seek loop of `setLength` goes from the test of its
        condition, after `n` iterations: `s` samples have been taken, the
        last sample is the current angle and `st` is the start time. The
        loop's clock readings start at index `c`: iteration `i` runs its
        time-out test on readings `c + 2 * i` and `c + 2 * i + 1`. The test
        of iteration `last` fires, so the loop stops by then. */
    ghost function SeekLoop(endAngle: real, zeroAngle: int, maxAngle: int, st: ulong, c: nat, last: nat,
                            s: nat, n: nat): SeekEnd
      requires 1 <= s && n <= last && TimeIsUp(st, c + 2 * last)
      decreases last - n, 1
    {
      if Dist(endAngle, Reading(s - 1)) <= angleError then
        SeekEnd(n, s, c + 2 * n, Converged)
      else
        SeekIteration(endAngle, zeroAngle, maxAngle, st, c, last, s, n)
    }

    /** One pass of the loop's body, then the rest of the loop: the speed
        request goes through `setMotorSpeed`, whose interlock reads sample
        `s`, sample `s + 1` is the new angle, and the loop stops on a
        reading strictly outside the bounds or, after two more clock
        readings, on the time-out test. */
    ghost function SeekIteration(endAngle: real, zeroAngle: int, maxAngle: int, st: ulong, c: nat, last: nat,
                                 s: nat, n: nat): SeekEnd
      requires 1 <= s && n <= last && TimeIsUp(st, c + 2 * last)
      decreases last - n, 0
    {
      if OutOfBounds(Reading(s + 1), zeroAngle, maxAngle) then
        SeekEnd(n + 1, s + 2, c + 2 * n, LimitReached)
      else if TimeIsUp(st, c + 2 * n) then
        SeekEnd(n + 1, s + 2, c + 2 * n + 2, TimedOut)
      else
        SeekLoop(endAngle, zeroAngle, maxAngle, st, c, last, s + 2, n + 1)
    }

    /** Each iteration takes two samples and two clock readings, except one
        that stops at a bound, which skips the clock; the time-out bounds
        the number of iterations. */
    lemma {:induction false} SeekCounts(endAngle: real, zeroAngle: int, maxAngle: int, st: ulong, c: nat, last: nat,
                                        s: nat, n: nat, e: SeekEnd)
      requires 1 <= s && n <= last && TimeIsUp(st, c + 2 * last)
      requires e == SeekLoop(endAngle, zeroAngle, maxAngle, st, c, last, s, n)
      ensures n <= e.iterations <= last + 1 &&
        e.samples == s + 2 * (e.iterations - n) &&
        (e.why == LimitReached ==> e.iterations > n && e.clocks + 2 == c + 2 * e.iterations) &&
        (e.why == TimedOut ==> e.iterations > n && e.clocks == c + 2 * e.iterations) &&
        (e.why == Converged ==> e.clocks == c + 2 * e.iterations)
      decreases last - n
    {
      if Dist(endAngle, Reading(s - 1)) > angleError && !OutOfBounds(Reading(s + 1), zeroAngle, maxAngle)
         && !TimeIsUp(st, c + 2 * n) {
        SeekCounts(endAngle, zeroAngle, maxAngle, st, c, last, s + 2, n + 1,
          SeekLoop(endAngle, zeroAngle, maxAngle, st, c, last, s + 2, n + 1));
      }
    }

    /** Every iteration began with a reading farther than `angleError` from
        the target. The loop started with sample `s0`; iteration `i` begins
        with the angle of sample `s0 + 2 * i`. */
    lemma {:induction false} SeekIterationsFar(endAngle: real, zeroAngle: int, maxAngle: int, st: ulong, c: nat, last: nat,
                                               s0: nat, s: nat, n: nat, e: SeekEnd)
      requires s == s0 + 1 + 2 * n
      requires n <= last && TimeIsUp(st, c + 2 * last)
      requires e == SeekLoop(endAngle, zeroAngle, maxAngle, st, c, last, s, n)
      ensures forall i :: n <= i < e.iterations ==> Dist(endAngle, Reading(s0 + 2 * i)) > angleError
      decreases last - n
    {
      assert Reading(s0 + 2 * n) == Reading(s - 1);
      if Dist(endAngle, Reading(s - 1)) > angleError && !OutOfBounds(Reading(s + 1), zeroAngle, maxAngle)
         && !TimeIsUp(st, c + 2 * n) {
        SeekIterationsFar(endAngle, zeroAngle, maxAngle, st, c, last, s0, s + 2, n + 1,
          SeekLoop(endAngle, zeroAngle, maxAngle, st, c, last, s + 2, n + 1));
      }
    }

    /** Each iteration but the last found the new reading inside the bounds
        and its time-out test not firing. The loop started with sample `s0`;
        iteration `i` ends with sample `s0 + 2 * i + 2` and tests the clock
        readings `c + 2 * i` and `c + 2 * i + 1`. */
    lemma {:induction false} SeekIterationsContinue(endAngle: real, zeroAngle: int, maxAngle: int, st: ulong, c: nat, last: nat,
                                                    s0: nat, s: nat, n: nat, e: SeekEnd)
      requires s == s0 + 1 + 2 * n
      requires n <= last && TimeIsUp(st, c + 2 * last)
      requires e == SeekLoop(endAngle, zeroAngle, maxAngle, st, c, last, s, n)
      ensures forall i :: n <= i && i + 1 < e.iterations ==>
          !OutOfBounds(Reading(s0 + 2 * i + 2), zeroAngle, maxAngle) && !TimeIsUp(st, c + 2 * i)
      decreases last - n
    {
      if Dist(endAngle, Reading(s - 1)) > angleError && !OutOfBounds(Reading(s + 1), zeroAngle, maxAngle)
         && !TimeIsUp(st, c + 2 * n) {
        SeekIterationsContinue(endAngle, zeroAngle, maxAngle, st, c, last, s0, s + 2, n + 1,
          SeekLoop(endAngle, zeroAngle, maxAngle, st, c, last, s + 2, n + 1));
      }
    }

    /** A loop that stopped early stopped for the reason it gives: a reading
        within `angleError` of the target, or one strictly past a bound. */
    lemma {:induction false} SeekStops(endAngle: real, zeroAngle: int, maxAngle: int, st: ulong, c: nat, last: nat,
                                       s: nat, n: nat, e: SeekEnd)
      requires 1 <= s && n <= last && TimeIsUp(st, c + 2 * last)
      requires e == SeekLoop(endAngle, zeroAngle, maxAngle, st, c, last, s, n)
      ensures e.samples >= s
      ensures e.why == Converged ==> Dist(endAngle, Reading(e.samples - 1)) <= angleError
      ensures e.why == LimitReached ==> OutOfBounds(Reading(e.samples - 1), zeroAngle, maxAngle)
      decreases last - n
    {
      if Dist(endAngle, Reading(s - 1)) > angleError && !OutOfBounds(Reading(s + 1), zeroAngle, maxAngle)
         && !TimeIsUp(st, c + 2 * n) {
        SeekStops(endAngle, zeroAngle, maxAngle, st, c, last, s + 2, n + 1,
          SeekLoop(endAngle, zeroAngle, maxAngle, st, c, last, s + 2, n + 1));
      }
    }

    /** A loop that timed out did so with its last reading inside the bounds
        and the time-out test firing on its last two clock readings. */
    lemma {:induction false} SeekTimesOut(endAngle: real, zeroAngle: int, maxAngle: int, st: ulong, c: nat, last: nat,
                                          s: nat, n: nat, e: SeekEnd)
      requires 1 <= s && n <= last && TimeIsUp(st, c + 2 * last)
      requires e == SeekLoop(endAngle, zeroAngle, maxAngle, st, c, last, s, n)
      ensures e.why == TimedOut ==>
        (e.samples >= 1 && e.clocks >= 2 &&
         !OutOfBounds(Reading(e.samples - 1), zeroAngle, maxAngle) && TimeIsUp(st, e.clocks - 2))
      decreases last - n
    {
      if Dist(endAngle, Reading(s - 1)) > angleError && !OutOfBounds(Reading(s + 1), zeroAngle, maxAngle)
         && !TimeIsUp(st, c + 2 * n) {
        SeekTimesOut(endAngle, zeroAngle, maxAngle, st, c, last, s + 2, n + 1,
          SeekLoop(endAngle, zeroAngle, maxAngle, st, c, last, s + 2, n + 1));
      }
    }

    /** The speeds the first `count` iterations request, the i-th chosen
        from the angle of sample `start + 2 * i`. */
    function Requests(endAngle: real, start: nat, count: nat): (r: seq<int>)
      ensures |r| == count
    {
      if count == 0 then [] else Requests(endAngle, start, count - 1) + [SeekSpeed(endAngle, Reading(start + 2 * (count - 1)))]
    }

    /** The i-th request is the seek speed for the angle of sample `start + 2 * i`. */
    lemma {:induction false} RequestsAt(endAngle: real, start: nat, count: nat, i: nat)
      requires i < count
      ensures Requests(endAngle, start, count)[i] == SeekSpeed(endAngle, Reading(start + 2 * i))
    {
      if i < count - 1 {
        RequestsAt(endAngle, start, count - 1, i);
      }
    }

    /** Every request drives toward the target at the tier of its reading's
        error and is never a stop. */
    lemma RequestsSteer(endAngle: real, start: nat, count: nat, i: nat)
      requires i < count
      ensures var r := Requests(endAngle, start, count)[i];
        var angle := Reading(start + 2 * i);
        r != 0 && (r > 0 <==> endAngle > angle as real) && Abs(r) == Tier(Dist(endAngle, angle))
    {
      RequestsAt(endAngle, start, count, i);
      SeekSpeedSteers(endAngle, Reading(start + 2 * i));
    }

    /** The serial log and the remembered speed after the first `k`
        iterations of a seek whose first interlock reading is sample `s`,
        begun on the log `log0` with the remembered speed `speed0`:
        iteration `i` calls `setMotorSpeed` with the seek speed for sample
        `s - 1 + 2 * i`, checking its interlock against sample `s + 2 * i`. */
    function Sent(endAngle: real, zeroAngle: int, maxAngle: int, s: nat, log0: seq<byte>, speed0: int, k: nat): Response
      requires s >= 1
    {
      if k == 0 then Response(log0, speed0)
      else
        var before := Sent(endAngle, zeroAngle, maxAngle, s, log0, speed0, k - 1);
        var step := SpeedStep(controllerID, zeroAngle, maxAngle, before.currentSpeed,
                              Reading(s + 2 * (k - 1)), SeekSpeed(endAngle, Reading(s - 1 + 2 * (k - 1))));
        Response(before.frame + step.frame, step.currentSpeed)
    }

    /** Those iterations append to `log0` a `Replay` of their requests
        against their interlock readings. */
    lemma {:induction false} SentReplays(endAngle: real, zeroAngle: int, maxAngle: int, s: nat, log0: seq<byte>, speed0: int, k: nat)
      requires s >= 1
      ensures var r := Replay(controllerID, zeroAngle, maxAngle, speed0, Readings(s, k), Requests(endAngle, s - 1, k));
        Sent(endAngle, zeroAngle, maxAngle, s, log0, speed0, k) == Response(log0 + r.frame, r.currentSpeed)
    {
      if k == 0 {
        assert log0 + [] == log0;
      } else {
        var n := k - 1;
        SentReplays(endAngle, zeroAngle, maxAngle, s, log0, speed0, n);
        assert Readings(s, n + 1) == Readings(s, n) + [Reading(s + 2 * n)];
        assert Requests(endAngle, s - 1, n + 1) == Requests(endAngle, s - 1, n) + [SeekSpeed(endAngle, Reading(s - 1 + 2 * n))];
        ReplaySnoc(controllerID, zeroAngle, maxAngle, speed0, Readings(s, n), Requests(endAngle, s - 1, n),
                   Reading(s + 2 * n), SeekSpeed(endAngle, Reading(s - 1 + 2 * n)));
        var r := Replay(controllerID, zeroAngle, maxAngle, speed0, Readings(s, n), Requests(endAngle, s - 1, n));
        var step := SpeedStep(controllerID, zeroAngle, maxAngle, r.currentSpeed,
                              Reading(s + 2 * n), SeekSpeed(endAngle, Reading(s - 1 + 2 * n)));
        AppendAssoc(log0, r.frame, step.frame);
      }
    }

    /** Stores the serial line, pin and controller number and takes the
        controller out of safe-start mode. The calibration is left unset. */
    constructor (controllerID: byte, pin: int, angleError: real, sensor: seq<Sample>, clock: seq<ulong>)
      ensures Valid()
      ensures this.controllerID == controllerID && anglePin == pin && this.angleError == angleError
      ensures this.sensor == sensor && this.clock == clock
      ensures output == ExitSafeStartFrame(controllerID) && currentSpeed == 0
      ensures samplesTaken == 0 && clockReads == 0
    {
      this.controllerID := controllerID;
      anglePin := pin;
      this.angleError := angleError;
      this.sensor := sensor;
      this.clock := clock;
      output := [SYNC, controllerID, EXIT_SAFE_START];
      currentSpeed := 0;
      samplesTaken := 0;
      clockReads := 0;
    }

    /** Calibration: only the two angle bounds change; nothing is sent. */
    method SetMotorParams(min: int, max: int)
      modifies this`zeroAngle, this`maxAngle
      ensures zeroAngle == min && maxAngle == max
    {
      zeroAngle := min;
      maxAngle := max;
    }

    /** Reads the sensor once and converts the sample to degrees. */
    method GetAngle() returns (angle: int)
      modifies this`samplesTaken
      ensures samplesTaken == old(samplesTaken) + 1
      ensures angle == Reading(old(samplesTaken))
    {
      var raw := Raw(samplesTaken);
      samplesTaken := samplesTaken + 1;
      angle := AngleOf(raw);
    }

    /** Re-sends the exit-safe-start frame and forgets the last speed. */
    method Reset()
      modifies this`output, this`currentSpeed
      ensures Valid()
      ensures output == old(output) + ExitSafeStartFrame(controllerID)
      ensures currentSpeed == 0
    {
      output := output + [SYNC, controllerID, EXIT_SAFE_START];
      currentSpeed := 0;
    }

    /** Sends a speed command unless the angle is at or past a bound or the
        speed repeats the remembered one; always returns 0. */
    method SetMotorSpeed(speed: int) returns (status: int)
      requires Valid()
      modifies this`output, this`currentSpeed, this`samplesTaken
      ensures Valid() && status == 0
      ensures samplesTaken == old(samplesTaken) + 1
      ensures var step := SpeedStep(controllerID, zeroAngle, maxAngle, old(currentSpeed), Reading(old(samplesTaken)), speed);
        output == old(output) + step.frame && currentSpeed == step.currentSpeed
    {
      var currAngle := GetAngle();
      status := 0;
      if currAngle >= maxAngle || currAngle <= zeroAngle {
        return;
      }
      if speed != currentSpeed {
        var command := MOTOR_FORWARD;
        var magnitude := speed;
        if speed < 0 {
          command := MOTOR_REVERSE;
          magnitude := -speed;
        }
        output := output + [SYNC, controllerID, command, magnitude % 32, LowByte(magnitude / 32)];
        currentSpeed := magnitude;
      }
    }

    /** One reading of the injected clock. */
    method Millis() returns (t: ulong)
      modifies this`clockReads
      ensures clockReads == old(clockReads) + 1
      ensures t == ClockAt(old(clockReads))
    {
      t := ClockAt(clockReads);
      clockReads := clockReads + 1;
    }

    /** One pass of the body of the seek loop, after `n` passes: requests
        the tier speed toward `endAngle` from the current angle, re-reads
        the angle, and stops the loop at a reading strictly outside the
        bounds, or else runs the time-out test, which reads the clock twice,
        and stops it when the test fires. The pass extends the log and the
        remembered speed of the first `n` iterations to those of `n + 1`. */
    method SeekPass(endAngle: real, currAngle: int, st: ulong, ghost c: nat, ghost last: nat, ghost n: nat,
                    ghost s: nat, ghost speed0: int, ghost out0: seq<byte>)
      returns (next: int, stop: Option<Exit>)
      requires Valid() && s >= 1 && samplesTaken == s + 2 * n && currAngle == Reading(samplesTaken - 1)
      requires clockReads == c + 2 * n && n <= last && TimeIsUp(st, c + 2 * last)
      requires Dist(endAngle, currAngle) > angleError
      requires var run := Sent(endAngle, zeroAngle, maxAngle, s, out0, speed0, n);
        output == run.frame && currentSpeed == run.currentSpeed
      modifies this`output, this`currentSpeed, this`samplesTaken, this`clockReads
      ensures Valid() && samplesTaken == old(samplesTaken) + 2 && next == Reading(samplesTaken - 1)
      ensures var run := Sent(endAngle, zeroAngle, maxAngle, s, out0, speed0, n + 1);
        output == run.frame && currentSpeed == run.currentSpeed
      ensures stop.None? ==> clockReads == c + 2 * (n + 1) && n + 1 <= last
      ensures var e := SeekLoop(endAngle, zeroAngle, maxAngle, st, c, last, old(samplesTaken), n);
        if stop.Some? then
          e == SeekEnd(n + 1, samplesTaken, clockReads, stop.value)
        else
          e == SeekLoop(endAngle, zeroAngle, maxAngle, st, c, last, samplesTaken, n + 1)
    {
      var speed := SeekSpeed(endAngle, currAngle);
      var _ := SetMotorSpeed(speed);
      next := GetAngle();
      if next > maxAngle || next < zeroAngle {
        return next, Some(LimitReached);
      }
      var first := Millis();
      var second := Millis();
      assert first == ClockAt(c + 2 * n) && second == ClockAt(c + 2 * n + 1);
      stop := if AbsElapsed(st, first, second) > TIMEOUT_MS then Some(TimedOut) else None;
    }

    /** The seek loop of `setLength`, from the reading `currAngle` and the
        start time `st`: while the reading is farther than `angleError`
        from `endAngle`, requests the tier speed toward it, re-reads the
        angle, and stops early on a reading strictly outside the bounds or
        when the time-out test fires. `last` is a pass at which the test
        fires, so the loop ends; `s`, `c`, `log0` and `speed0` name the
        samples taken, the clock readings taken, the log and the remembered
        speed on entry. */
    method Seek(endAngle: real, currAngle: int, st: ulong, ghost last: nat, ghost s: nat, ghost c: nat,
                ghost log0: seq<byte>, ghost speed0: int)
      returns (finalAngle: int)
      requires Valid() && s >= 1 && currAngle == Reading(s - 1) && TimeIsUp(st, c + 2 * last)
      requires samplesTaken == s && clockReads == c && output == log0 && currentSpeed == speed0
      modifies this`output, this`currentSpeed, this`samplesTaken, this`clockReads
      ensures Valid() && samplesTaken >= 1 && finalAngle == Reading(samplesTaken - 1)
      ensures var e := SeekLoop(endAngle, zeroAngle, maxAngle, st, c, last, s, 0);
        var run := Sent(endAngle, zeroAngle, maxAngle, s, log0, speed0, e.iterations);
        samplesTaken == e.samples && clockReads == e.clocks &&
        output == run.frame && currentSpeed == run.currentSpeed
    {
      ghost var zero, max := zeroAngle, maxAngle;
      ghost var target := SeekLoop(endAngle, zero, max, st, c, last, s, 0);
      ghost var n := 0;
      finalAngle := currAngle;
      var dif := Dist(endAngle, finalAngle);
      while dif > angleError
        invariant Valid() && zeroAngle == zero && maxAngle == max
        invariant samplesTaken == s + 2 * n && clockReads == c + 2 * n && n <= last
        invariant finalAngle == Reading(samplesTaken - 1) && dif == Dist(endAngle, finalAngle)
        invariant SeekLoop(endAngle, zero, max, st, c, last, samplesTaken, n) == target
        invariant var run := Sent(endAngle, zero, max, s, log0, speed0, n);
          output == run.frame && currentSpeed == run.currentSpeed
        decreases last - n
      {
        var stop;
        finalAngle, stop := SeekPass(endAngle, finalAngle, st, c, last, n, s, speed0, log0);
        n := n + 1;
        dif := Dist(endAngle, finalAngle);
        if stop.Some? {
          break;
        }
      }
      assert target.iterations == n && target.samples == samplesTaken && target.clocks == clockReads;
    }

    /** `setLength`: caps `position` to 0..100, seeks the angle that far
        between the calibrated bounds, always requests a stop afterwards,
        and reports the per cent of travel of a fresh reading. */
    method SetLength(position: int) returns (achieved: int)
      requires Valid() && zeroAngle != maxAngle && TimesOutAfter(clockReads)
      modifies this`output, this`currentSpeed, this`samplesTaken, this`clockReads
      ensures Valid()
      ensures var endAngle := EndAngle(zeroAngle, maxAngle, Clamp(position));
        var seek := SeekLoop(endAngle, zeroAngle, maxAngle, ClockAt(old(clockReads)), old(clockReads) + 1,
                             TimeoutPass(old(clockReads)), old(samplesTaken) + 1, 0);
        var run := Sent(endAngle, zeroAngle, maxAngle, old(samplesTaken) + 1, old(output), old(currentSpeed), seek.iterations);
        // the stop request, checked against the sample after the seek's last
        var stop := SpeedStep(controllerID, zeroAngle, maxAngle, run.currentSpeed, Reading(seek.samples), 0);
        samplesTaken == seek.samples + 2 && clockReads == seek.clocks &&
        output == run.frame + stop.frame && currentSpeed == stop.currentSpeed &&
        // the result is the position of the final reading
        achieved == Percent(Reading(seek.samples + 1), zeroAngle, maxAngle)
    {
      ghost var s0, c0, log0, speed0 := samplesTaken, clockReads, output, currentSpeed;
      var target := Clamp(position);
      var endAngle := EndAngle(zeroAngle, maxAngle, target);
      var currAngle := GetAngle();
      var st := Millis();
      ghost var last := TimeoutPass(c0);
      currAngle := Seek(endAngle, currAngle, st, last, s0 + 1, c0 + 1, log0, speed0);
      ghost var seek := SeekLoop(endAngle, zeroAngle, maxAngle, st, c0 + 1, last, s0 + 1, 0);
      ghost var run := Sent(endAngle, zeroAngle, maxAngle, s0 + 1, log0, speed0, seek.iterations);
      assert samplesTaken == seek.samples && output == run.frame && currentSpeed == run.currentSpeed;
      var _ := SetMotorSpeed(0);
      currAngle := GetAngle();
      achieved := Percent(currAngle, zeroAngle, maxAngle);
    }
  }
}
