/** The duration of a wheel-pulse command: the wheel with the larger pulse
    count moves at `Speed` pulses per millisecond. */
module Command {
  import opened JavaNumbers

  /** `speed`: 200 pulses per second, in pulses per millisecond. */
  const Speed: real := 200.0 / 1000.0

  /** `(long) (max / speed)` with `max` the larger magnitude, computed on
      exact integers. Five milliseconds per pulse of the busier wheel; zero
      exactly for the null command. */
  function Duration(w0: int, w1: int): (d: int)
    ensures d == 5 * Max(Abs(w0), Abs(w1))
    ensures d >= 0
    ensures d == 0 <==> w0 == 0 && w1 == 0
  {
    TruncToLong(Max(Abs(w0), Abs(w1)) as real / Speed)
  }

  /** The same expression as the source writes it, with `Math.abs` on 32-bit
      `int`s. */
  function DurationAsWritten(w0: int32, w1: int32): (d: int)
    ensures d == 5 * Max(JavaAbs(w0) as int, JavaAbs(w1) as int)
  {
    TruncToLong(Max(JavaAbs(w0) as int, JavaAbs(w1) as int) as real / Speed)
  }

  /** Away from -2^31 the source's expression is the exact duration. */
  lemma DurationAsWrittenAgrees(w0: int32, w1: int32)
    requires w0 as int != MinInt && w1 as int != MinInt
    ensures DurationAsWritten(w0, w1) == Duration(w0 as int, w1 as int)
  {
  }

  /** `Math.abs(-2^31)` is negative, so a command of -2^31 pulses on one wheel
      and none on the other gets duration 0 and is dropped as a null move,
      and -2^31 on both wheels gets a negative duration; the exact duration
      of the first is 10737418240 ms. */
  lemma MinIntCommandDropped()
    ensures DurationAsWritten(MinInt as int32, 0) == 0
    ensures Duration(MinInt, 0) == 10737418240
    ensures DurationAsWritten(MinInt as int32, MinInt as int32) < 0
  {
  }
}
