/**
 * The serial frames the controller writes to the motor controller.
 * Every byte goes through `Stream::write(uint8_t)`, so an `int` argument
 * keeps only its low eight bits.
 */
module Protocol {
  import opened Numeric

  type byte = b: int | 0 <= b < 256

  const SYNC: byte := 0xAA
  const EXIT_SAFE_START: byte := 0x03
  const MOTOR_FORWARD: byte := 0x85
  const MOTOR_REVERSE: byte := 0x86

  /** The byte `write` transmits for an integer argument: its low eight bits. */
  function LowByte(x: int): (b: byte)
    ensures 0 <= x < 256 ==> b == x
  {
    x % 256
  }

  /** The frame that takes the motor controller out of safe-start mode. */
  function ExitSafeStartFrame(id: byte): (f: seq<byte>)
    ensures |f| == 3
  {
    [SYNC, id, EXIT_SAFE_START]
  }

  /** The frame for a signed speed: the direction goes into the command byte,
      the magnitude is split into its low five bits and the bits above them. */
  function SpeedFrame(id: byte, speed: int): (f: seq<byte>)
    ensures |f| == 5
  {
    var magnitude := Abs(speed);
    [SYNC, id, if speed < 0 then MOTOR_REVERSE else MOTOR_FORWARD,
     magnitude % 32, LowByte(magnitude / 32)]
  }

  datatype Option<T> = None | Some(value: T)

  /** What a frame asks of the motor controller. */
  datatype Command = ExitSafeStart(device: byte) | SetSpeed(device: byte, speed: int)

  /** How the frames above are read back: the partner of the two encoders. */
  function Decode(f: seq<byte>): (c: Option<Command>)
    ensures c.Some? ==> |f| >= 3 && f[0] == SYNC && c.value.device == f[1]
  {
    if |f| == 3 && f[0] == SYNC && f[2] == EXIT_SAFE_START then
      Some(ExitSafeStart(f[1]))
    else if |f| == 5 && f[0] == SYNC && (f[2] == MOTOR_FORWARD || f[2] == MOTOR_REVERSE) && f[3] < 32 then
      var magnitude: int := f[3] as int + 32 * (f[4] as int);
      Some(SetSpeed(f[1], if f[2] == MOTOR_REVERSE then -magnitude else magnitude))
    else
      None
  }

  lemma ExitSafeStartRoundTrip(id: byte)
    ensures Decode(ExitSafeStartFrame(id)) == Some(ExitSafeStart(id))
  {
  }

  /** The two magnitude bytes hold the magnitude modulo 2^13: the low byte is
      below 32 and the high byte keeps only eight bits of `magnitude >> 5`. */
  lemma {:induction false} MagnitudeBytes(id: byte, speed: int)
    ensures var f := SpeedFrame(id, speed);
      f[3] < 32 && f[3] as int + 32 * (f[4] as int) == Abs(speed) % 8192
  {
    var m := Abs(speed);
    var f := SpeedFrame(id, speed);
    var q := m / 32;
    assert m == 32 * q + m % 32;
    assert q == 256 * (q / 256) + q % 256;
    assert m == 8192 * (q / 256) + (m % 32 + 32 * (q % 256));
    assert 0 <= m % 32 + 32 * (q % 256) < 8192;
  }

  /** A speed frame decodes to the speed it was built from whenever the
      magnitude fits the thirteen bits the two bytes can carry. */
  lemma SpeedRoundTrip(id: byte, speed: int)
    requires Abs(speed) < 8192
    ensures Decode(SpeedFrame(id, speed)) == Some(SetSpeed(id, speed))
  {
    MagnitudeBytes(id, speed);
  }
}
