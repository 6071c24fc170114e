/**
 Instants are whole nanoseconds counted from the zero time. The zero time itself
 doubles as "no time known", as it does in the metering code.
 */
module Clock {
  type Instant = int

  const ZERO_TIME: Instant := 0
  const HOUR: int := 3_600_000_000_000

  /** The start of the whole hour that holds `t`. */
  function PeriodStart(t: Instant): (h: Instant)
    ensures h <= t < h + HOUR
    ensures h % HOUR == 0
  {
    t - t % HOUR
  }
}
