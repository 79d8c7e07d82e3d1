/**
 * `Motor::getAngle`: the conversion of a 10-bit analog sample of the
 * angle sensor into whole degrees. The sensor spans 0.5 V .. 4.5 V for
 * -180 .. +180 degrees; at 1023 counts per 5 V that is 0.4399 degrees
 * per count, offset by 225 degrees so that mid-scale reads about 0.
 */
module Sensor {
  import opened Numeric

  /** What `analogRead` returns: a 10-bit conversion result. */
  type Sample = r: int | 0 <= r < 1024

  /** The angle in degrees for raw sample `raw`, computed in integers:
      `raw * 0.4399 - 225` is `(raw * 4399 - 2250000) / 10000`, truncated toward zero. */
  function AngleOf(raw: Sample): (angle: int)
    ensures -225 <= angle <= 225
  {
    var scaled := raw * 4399 - 2250000;
    if scaled >= 0 then scaled / 10000 else -((-scaled) / 10000)
  }

  /** The integer computation is exactly the C++ expression
      `int(double(val) * 0.4399 - 225)` evaluated over exact reals. */
  lemma AngleOfTruncates(raw: Sample)
    ensures AngleOf(raw) == Trunc(raw as real * 0.4399 - 225.0)
  {
    var x := raw as real * 0.4399 - 225.0;
    var scaled := raw * 4399 - 2250000;
    assert x == scaled as real / 10000.0;
    var q := AngleOf(raw);
    if scaled >= 0 {
      assert 10000 * q <= scaled < 10000 * (q + 1);
    } else {
      assert 10000 * q >= scaled > 10000 * (q - 1);
    }
    TruncUnique(x, q);
  }

  /** For every sample but 0 the exact value `raw * 0.4399 - 225` is not a
      whole number: 4399 and 10000 are coprime (4399 * 5599 = 1 + 2463 * 10000),
      so `raw * 4399` is a multiple of 10000 only when `raw` is. Its distance
      to the nearest integer is therefore at least 1/10000, far more than the
      rounding error of the double computation, which is why the exact-real
      model of the conversion agrees with the hardware's doubles. */
  lemma AngleNeverWhole(raw: Sample)
    requires raw != 0
    ensures (raw * 4399 - 2250000) % 10000 != 0
  {
    var q, r := (raw * 4399 - 2250000) / 10000, (raw * 4399 - 2250000) % 10000;
    assert raw * 4399 - 2250000 == 10000 * q + r;
    // multiplying by 5599, the inverse of 4399 modulo 10000, recovers `raw` from `r`
    assert raw == 5599 * r + 10000 * (5599 * q + 1259775 - 2463 * raw);
  }

  /** The end points of the sensor range: 0 counts reads -225 degrees, 1023 counts reads 225. */
  lemma AngleEndpoints()
    ensures AngleOf(0) == -225 && AngleOf(1023) == 225
  {
  }

  /** A larger sample never reads a smaller angle. */
  lemma {:induction false} AngleMonotone(a: Sample, b: Sample)
    requires a <= b
    ensures AngleOf(a) <= AngleOf(b)
  {
    var sa, sb := a * 4399 - 2250000, b * 4399 - 2250000;
    assert sa <= sb;
    if sa < 0 && sb >= 0 {
    } else if sa >= 0 {
      assert sa / 10000 <= sb / 10000;
    } else {
      assert (-sb) / 10000 <= (-sa) / 10000;
    }
  }
}
