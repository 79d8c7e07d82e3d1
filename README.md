# Winch motor controller — a Dafny model of `Motor`

This project models the `Motor` class of the winch controller
(`Arduino/libraries/motor/motor.cpp`) and proves what it does. The class
drives a DC motor through a serial motor controller and reads the rope
angle from an analog sensor. It offers:

- the constructor, which takes the controller out of safe-start mode;
- `setMotorParams`, the calibration of the two angle bounds;
- `getAngle`, the conversion of a 10-bit sample into whole degrees;
- `reset`;
- `setMotorSpeed`, which sends one speed frame behind an angle interlock
  and suppresses a frame that repeats the last one;
- `setLength`, which seeks a rope position, given as a per cent, with a
  four-tier speed choice. It stops on convergence, on a reading past a
  bound or after 2000 ms, always requests a stop afterwards, and reports
  the position reached.

Layout, one module per concern:

- `numeric.dfy` (`Numeric`): the magnitude of a speed, the `abs` macro on a `double` and the truncating `int(double)`.
- `sensor.dfy` (`Sensor`): the angle conversion of `getAngle`, computed in
  integers and proved equal to the C++ expression over exact reals.
- `protocol.dfy` (`Protocol`): the two serial frames, the eight-bit
  truncation of `Stream::write`, and a decoder for the frames, which is
  the partner of the round-trip lemmas.
- `control.dfy` (`Control`): the decisions of `setMotorSpeed` and
  `setLength` as functions:
  - `SpeedStep` is one call of `setMotorSpeed`;
  - `Calls`/`Replay` is a run of such calls;
  - also the clamp, the target angle, the speed tier and the percentage.
- `motor.dfy` (`MotorDriver`): the class `Motor`.
  - Fields: the calibration, `currentSpeed`, the byte log `output`, and
    counters of the sensor and clock readings taken so far.
  - Methods: one per source operation. They are proved against the
    functions above, against the ghost function `SeekLoop`, which states
    where the seek loop of `setLength` ends, and against `Sent`, which
    states what its iterations write.

The hardware is injected:
- `analogRead` is the trace `sensor`, read in order;
- `millis` is the trace `clock`, read in order;
- `Stream::write` appends to `output`.

The model follows the code as written, including three details a reader might not expect:
- `setMotorSpeed` negates a negative request before it stores it in
  `currentSpeed` (lines 115 and 123). So the field holds the magnitude of
  the last speed sent, not the signed request. As a result:
  - a repeated reverse request is sent again every time;
  - a forward request of the same magnitude right after a reverse one is
    dropped (`Control.ReversalSuppressed`, `Control.ReverseAlwaysSent`).
- The seek loop's limit exit (line 85) is strict: it stops only on a
  reading strictly past a bound. The interlock of `setMotorSpeed`
  (line 105) refuses readings at a bound too, so a reading exactly on a
  bound blocks commands without ending the loop
  (`Control.OutOfBoundsIsInterlocked`).
- The time-out test at line 89 is `abs(millis() - st) > 2000`, and `abs`
  is the macro `((x) > 0 ? (x) : -(x))`. So each test calls `millis()`
  twice: the first result picks the branch, the second gives the value.
  When the first call returns `st` itself and the counter ticks before
  the second, the test sees `-(1UL)`, 2^32 - 1 milliseconds, and the loop
  stops as timed out one millisecond after it started
  (`MotorDriver.AbsElapsedTick`). The model reads the clock twice per
  test and keeps this exit.

## Model

| member | source | states |
|---|---|---|
| Numeric.Abs | Arduino/libraries/motor/motor.cpp:112-116 | The magnitude of a speed is the speed or its negation, and never negative. |
| Numeric.RealAbs | Arduino/libraries/motor/motor.cpp:64 | `abs` of a double is non-negative and is the value or its negation. |
| Numeric.Trunc | Arduino/libraries/motor/motor.cpp:98 | `int(x)` is the integer within less than one of `x` on the side of zero. |
| Numeric.TruncUnique | Arduino/libraries/motor/motor.cpp:98 | Truncation is the only integer with that property, so any such integer is `int(x)`. |
| Numeric.TruncTowardZero | Arduino/libraries/motor/motor.cpp:98 | Truncation never moves away from zero and keeps the sign. |
| Sensor.AngleOf | Arduino/libraries/motor/motor.cpp:31 | Every 10-bit sample converts to an angle in -225..225 degrees. |
| Sensor.AngleOfTruncates | Arduino/libraries/motor/motor.cpp:31 | The integer conversion equals `int(double(val) * 0.4399 - 225)` over exact reals. |
| Sensor.AngleNeverWhole | Arduino/libraries/motor/motor.cpp:31 | For every sample but 0, `val * 0.4399 - 225` is not a whole number, so the conversion cannot sit on a truncation boundary. |
| Sensor.AngleEndpoints | Arduino/libraries/motor/motor.cpp:24-31 | Sample 0 reads -225 degrees and sample 1023 reads 225. |
| Sensor.AngleMonotone | Arduino/libraries/motor/motor.cpp:31 | A larger sample never reads a smaller angle. |
| Protocol.LowByte | Arduino/libraries/motor/motor.cpp:122 | `write` of an int sends its low eight bits, and a value that fits a byte unchanged. |
| Protocol.ExitSafeStartFrame | Arduino/libraries/motor/motor.cpp:9-11 | The exit-safe-start frame is three bytes. |
| Protocol.SpeedFrame | Arduino/libraries/motor/motor.cpp:109-122 | A speed frame is five bytes. |
| Protocol.Decode | Arduino/libraries/motor/motor.cpp:109-122 | A frame that decodes starts with the sync byte and names the device in its second byte. |
| Protocol.ExitSafeStartRoundTrip | Arduino/libraries/motor/motor.cpp:9-11 | The exit-safe-start frame decodes to exit-safe-start for the same controller. |
| Protocol.MagnitudeBytes | Arduino/libraries/motor/motor.cpp:121-122 | The fourth byte is below 32, and the two magnitude bytes hold the magnitude modulo 2^13. |
| Protocol.SpeedRoundTrip | Arduino/libraries/motor/motor.cpp:109-122 | A speed frame decodes to the signed speed it encodes when the magnitude is below 8192. |
| Control.Interlocked | Arduino/libraries/motor/motor.cpp:105 | The interlock of `setMotorSpeed` refuses a reading at or beyond either bound (see `OutOfBoundsIsInterlocked`, `InvertedCalibrationBlocks`). |
| Control.OutOfBounds | Arduino/libraries/motor/motor.cpp:85 | The limit exit of the loop fires on a reading strictly beyond either bound (see `OutOfBoundsIsInterlocked`, `SeekStops`). |
| Control.SpeedStep | Arduino/libraries/motor/motor.cpp:104-124 | One call of `setMotorSpeed`: the bytes it writes and the speed it remembers. Its meaning is stated by `SpeedStepSends`, `StepKeepsMagnitude`, `ReverseAlwaysSent`, `ReversalSuppressed` and `ForwardRepeatSilent`. |
| Control.OutOfBoundsIsInterlocked | Arduino/libraries/motor/motor.cpp:85-106 | A reading that ends the loop also blocks commands. A reading exactly on a bound blocks commands without ending the loop. |
| Control.InvertedCalibrationBlocks | Arduino/libraries/motor/motor.cpp:105 | With `maxAngle <= zeroAngle`, every reading is interlocked. |
| Control.SpeedStepSends | Arduino/libraries/motor/motor.cpp:104-124 | A call sends a frame if and only if the reading is inside the interlock and the speed differs from the remembered one. A sent frame decodes to the request and the magnitude is remembered. Otherwise nothing changes. |
| Control.StepKeepsMagnitude | Arduino/libraries/motor/motor.cpp:115-123 | The remembered speed never becomes negative. |
| Control.ReverseAlwaysSent | Arduino/libraries/motor/motor.cpp:108-123 | A reverse request inside the interlock is always sent, even when it repeats the last one. |
| Control.ReversalSuppressed | Arduino/libraries/motor/motor.cpp:108-123 | A reverse request followed by the forward request of the same magnitude sends only the reverse frame. |
| Control.ForwardRepeatSilent | Arduino/libraries/motor/motor.cpp:108 | Repeating a forward or zero request that was stored sends nothing. |
| Control.Calls | Arduino/libraries/motor/motor.cpp:102-126 | The first `k` calls of a run of `setMotorSpeed`, in order (see `CallsFrames`, `CallsPrefix`, `InterlockedCallsSilent`). |
| Control.Replay | Arduino/libraries/motor/motor.cpp:102-126 | A whole run of `setMotorSpeed` calls (see `ReplaySnoc`, `StopTakesEffect`, `MotorDriver.Motor.SentReplays`). |
| Control.CallsFrames | Arduino/libraries/motor/motor.cpp:109-123 | A run of `k` calls writes whole five-byte frames, at most one per call, and keeps the remembered speed non-negative. |
| Control.CallsPrefix | Arduino/libraries/motor/motor.cpp:102-126 | The first `k` calls of a run do not depend on later requests. |
| Control.ReplaySnoc | Arduino/libraries/motor/motor.cpp:102-126 | One more call appends its own bytes and sets the remembered speed. |
| Control.InterlockedCallsSilent | Arduino/libraries/motor/motor.cpp:104-106 | Calls whose readings are all at or past a bound write nothing and change nothing. |
| Control.StopTakesEffect | Arduino/libraries/motor/motor.cpp:94 | A run ending in a zero request with a reading inside the bounds leaves the remembered speed at 0. |
| Control.Clamp | Arduino/libraries/motor/motor.cpp:52-56 | The position is capped to 0..100: above 100 gives 100, below 0 gives 0, and values in range are kept. |
| Control.ClampIdempotent | Arduino/libraries/motor/motor.cpp:52-56 | Capping twice is capping once. |
| Control.EndAngle | Arduino/libraries/motor/motor.cpp:60-61 | The target angle, `position` per cent of the way from `zeroAngle` to `maxAngle` (see `EndAngleBetween`, `PercentOfEndAngle`). |
| Control.EndAngleBetween | Arduino/libraries/motor/motor.cpp:60-61 | The target of a capped position lies between the two calibrated angles. Positions 0 and 100 map to `zeroAngle` and `maxAngle`. |
| Control.Dist | Arduino/libraries/motor/motor.cpp:64 | The error is non-negative, and zero exactly when the reading is the target. |
| Control.Tier | Arduino/libraries/motor/motor.cpp:72-80 | The speed magnitude for an angular error (see `TierBands`, `TierMonotone`). |
| Control.TierBands | Arduino/libraries/motor/motor.cpp:72-80 | The tier is 500, 900, 1800 or 3600. Each tier is selected exactly by its band: full speed above 90, half speed in (40, 90], quarter speed in (15, 40], creep at most 15. |
| Control.TierMonotone | Arduino/libraries/motor/motor.cpp:72-80 | A larger error never selects a slower tier. |
| Control.SeekSpeed | Arduino/libraries/motor/motor.cpp:71-80 | The signed speed an iteration of the loop requests (see `SeekSpeedSteers`, `RequestsSteer`). |
| Control.SeekSpeedSteers | Arduino/libraries/motor/motor.cpp:71-80 | The loop's request is never 0. It is positive exactly when the target is above the reading, and its magnitude is the error's tier. |
| Control.Percent | Arduino/libraries/motor/motor.cpp:98 | The reported position of a reading, truncated toward zero (see `PercentInRange`, `PercentOfEndAngle`). |
| Control.PercentInRange | Arduino/libraries/motor/motor.cpp:98 | With `zeroAngle < maxAngle`, a reading between the bounds reports a position in 0..100. |
| Control.PercentOfEndAngle | Arduino/libraries/motor/motor.cpp:61-98 | A reading exactly on the target of a position reports that position. |
| MotorDriver.Elapsed | Arduino/libraries/motor/motor.cpp:89 | The subtraction `millis() - st` in `unsigned long` is the elapsed time, also across a wrap-around of the counter. |
| MotorDriver.ElapsedAfter | Arduino/libraries/motor/motor.cpp:89 | A reading `d` ms after `st` on the wrapping counter measures exactly `d`. |
| MotorDriver.AbsElapsed | Arduino/libraries/motor/motor.cpp:89 | The value the time-out test compares with 2000: the `abs` macro calls `millis()` twice, the first result picks the branch and the second gives the value (see `AbsElapsedBranches`, `AbsElapsedSteady`, `AbsElapsedTick`). |
| MotorDriver.AbsElapsedBranches | Arduino/libraries/motor/motor.cpp:89 | When the first call is past `st` the test sees the time since `st` at the second call; when the first call returns `st` it sees that time negated modulo 2^32. |
| MotorDriver.AbsElapsedSteady | Arduino/libraries/motor/motor.cpp:89 | When the counter does not move between the two calls, the test sees the plain elapsed time. |
| MotorDriver.AbsElapsedTick | Arduino/libraries/motor/motor.cpp:89-90 | When the first call returns `st` and the counter ticks before the second, the test sees 2^32 - 1 ms and fires, one millisecond after the start. |
| MotorDriver.Motor.Reading | Arduino/libraries/motor/motor.cpp:21-31 | The angle the k-th sample converts to (see `Sensor.AngleOf`, `AngleOfTruncates`, `GetAngle`). |
| MotorDriver.Motor.Readings | Arduino/libraries/motor/motor.cpp:81-82 | The interlock readings of `count` iterations are `count` angles. |
| MotorDriver.Motor.ReadingsAt | Arduino/libraries/motor/motor.cpp:81-82 | Iteration `i` of the loop has its interlock checked against sample `start + 2i`. |
| MotorDriver.Motor.TimeIsUp | Arduino/libraries/motor/motor.cpp:89 | The time-out test fires when its two calls of `millis()` return the k-th and the (k+1)-th clock readings (see `SeekTimesOut`, `SeekIterationsContinue`). |
| MotorDriver.Motor.TimeoutPass | Arduino/libraries/motor/motor.cpp:89-91 | While `millis` keeps running, some pass of a seek begun at the n-th reading has its time-out test fire on two readings inside the trace, and this picks one. |
| MotorDriver.Motor.Requests | Arduino/libraries/motor/motor.cpp:71-81 | `count` iterations make `count` requests. |
| MotorDriver.Motor.RequestsAt | Arduino/libraries/motor/motor.cpp:71-81 | Iteration `i` requests the tier speed for the angle of sample `start + 2i`. |
| MotorDriver.Motor.RequestsSteer | Arduino/libraries/motor/motor.cpp:71-81 | Every request in the loop steers toward the target at its error's tier and is never a stop. |
| MotorDriver.Motor.SeekLoop | Arduino/libraries/motor/motor.cpp:68-92 | Where the seek loop ends from a given state: its guard, then one pass. Its meaning is stated by `SeekCounts`, `SeekIterationsFar`, `SeekIterationsContinue`, `SeekStops` and `SeekTimesOut`; what its iterations write is `Sent` (see `SentReplays`). |
| MotorDriver.Motor.SeekIteration | Arduino/libraries/motor/motor.cpp:70-91 | One pass of the loop body: the request through `setMotorSpeed`, the new reading, the strict limit test and then the time-out test on two clock readings (see `SeekStops`, `SeekTimesOut`, `SeekPass`). |
| MotorDriver.Motor.SeekCounts | Arduino/libraries/motor/motor.cpp:68-92 | Each iteration takes two samples and two clock readings, except that a limit exit skips the clock. The iteration count is at most one more than the pass whose time-out test fires. |
| MotorDriver.Motor.SeekIterationsFar | Arduino/libraries/motor/motor.cpp:68 | Every iteration began with a reading more than `ANGLE_ERROR` from the target. |
| MotorDriver.Motor.SeekIterationsContinue | Arduino/libraries/motor/motor.cpp:85-91 | Every iteration but the last found the new reading inside the bounds and its time-out test, on its own two clock readings, not firing. |
| MotorDriver.Motor.SeekStops | Arduino/libraries/motor/motor.cpp:68-87 | A converged loop's last reading is within `ANGLE_ERROR` of the target. A limit exit's last reading is strictly past a bound. |
| MotorDriver.Motor.SeekTimesOut | Arduino/libraries/motor/motor.cpp:85-91 | A timed-out loop's last reading is inside the bounds, and the time-out test fired on its last two clock readings. |
| MotorDriver.Motor.Sent | Arduino/libraries/motor/motor.cpp:71-81 | The serial log and the remembered speed after the first `k` iterations, starting from a given log and speed: each iteration adds the `setMotorSpeed` call of its request against its interlock reading (see `SentReplays`, `SeekPass`, `Seek`). |
| MotorDriver.Motor.SentReplays | Arduino/libraries/motor/motor.cpp:68-92 | The first `k` iterations append to the log exactly the `Replay` of their requests against their interlock readings, and leave the speed that run remembers. |
| MotorDriver.Motor.constructor | Arduino/libraries/motor/motor.cpp:3-13 | Stores the pin and controller number, writes the exit-safe-start frame and sets `currentSpeed` to 0. |
| MotorDriver.Motor.SetMotorParams | Arduino/libraries/motor/motor.cpp:15-18 | Only the two angle bounds change, and nothing is written. |
| MotorDriver.Motor.GetAngle | Arduino/libraries/motor/motor.cpp:20-33 | Takes one sample and returns its converted angle. |
| MotorDriver.Motor.Reset | Arduino/libraries/motor/motor.cpp:35-40 | Appends the exit-safe-start frame and sets `currentSpeed` to 0. |
| MotorDriver.Motor.SetMotorSpeed | Arduino/libraries/motor/motor.cpp:102-126 | Takes one sample, always returns 0, and writes and remembers exactly what `SpeedStep` of that reading gives. |
| MotorDriver.Motor.Millis | Arduino/libraries/motor/motor.cpp:67 | Takes the next reading of the clock. |
| MotorDriver.Motor.SeekPass | Arduino/libraries/motor/motor.cpp:70-91 | One pass of the loop body extends the log and the remembered speed of `n` iterations to those of `n + 1`, and moves the state one step along `SeekLoop` or ends it with the exit reason the pass took. |
| MotorDriver.Motor.Seek | Arduino/libraries/motor/motor.cpp:67-92 | From the given reading and start time, the loop leaves samples and clock readings where `SeekLoop` ends, and output and `currentSpeed` as `Sent` gives for that many iterations. |
| MotorDriver.Motor.SetLength | Arduino/libraries/motor/motor.cpp:42-100 | Seeks the target of the capped position from a first reading and a start time taken from the clock. It then requests a stop, checked against the sample after the loop's last, and returns the percentage of a fresh reading. |

## Left out

- `analogRead`, `millis` and `Stream::write` are Arduino library calls.
  - Only their results are modelled: two finite traces of readings and an append-only byte log.
  - A read past the end of a trace returns 0. Any single call reads finitely many values, so a long enough trace stands for any run.
  - Buffering, failures of the serial line and the pin number's electrical meaning are not modelled. `anglePin` is stored but selects nothing.
- Real-time behaviour is not modelled: how long the busy loop takes and how fast the clock advances.
- MotorDriver.Motor.SetLength: needs `TimesOutAfter(clockReads)`, meaning that, with the next clock reading as start time, the time-out test of some pass fires on two readings inside the trace.
  - The loop in the source terminates only because the clock advances.
  - MotorDriver.Motor.Seek needs the same, as `last`, a pass whose test fires.
- MotorDriver.Motor.SetLength: needs `zeroAngle != maxAngle`, because line 98 divides by `maxAngle - zeroAngle`.
- The `double` values at lines 31, 60-64 and 98 are exact reals here. IEEE rounding is not modelled.
  - `Sensor.AngleNeverWhole` shows that the exact value at line 31 is at least 1/10000 from a whole number, more than the rounding error of the double computation.
- MotorDriver.Motor.SetMotorSpeed: integers are unbounded. The board's 16-bit `int` is not modelled, so `-speed` overflowing for `speed == -32768` is not captured; the speeds `setLength` requests are at most 3600 in magnitude.
- Control.Percent: computed over unbounded values. At line 98 the `int(...)` of a quotient outside the 16-bit range is undefined on the board; for example zeroAngle = -225, maxAngle = -224 and a reading of 225 give 45000.
- Control.EndAngle: computed over unbounded values. At line 60 `maxAngle - zeroAngle` is an `int` subtraction that can overflow 16 bits for bounds far apart; the model does not capture that.
- The speed frame keeps the magnitude modulo 2^13 (`Protocol.MagnitudeBytes`); the round trip is stated only below 8192.
- `ANGLE_ERROR` and the field types are declared in `motor.h`, which is not part of this model. `ANGLE_ERROR` is a constructor parameter here.
- The controller number, a `char`, is modelled as the byte that `write` sends.
- `zeroAngle` and `maxAngle` are left uninitialised by the constructor, as in the source. The model leaves them unconstrained until `SetMotorParams`.
- The commented-out `Serial.print` lines (22-23) do nothing and are not modelled.
- `Motor.Valid()` (`currentSpeed >= 0`) is a precondition of the methods that send speeds. The constructor establishes it, and every method keeps it.
