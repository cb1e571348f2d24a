/**
 * The parts of Go's `time` package the watcher and the Loki sink rely on.
 *
 * A `Time` is the number of nanoseconds elapsed since Go's zero instant,
 * January 1 of year 1, 00:00:00 UTC.  Counting from that instant makes
 * Go's `IsZero` the test `t == 0` (it is NOT the Unix epoch), and makes
 * `Since` of a zero time saturate exactly as Go's `Sub` does.
 */
module GoTime {

  type Time = int

  const ZERO_TIME: Time := 0

  /** Go's Time.IsZero. */
  predicate IsZero(t: Time) {
    t == ZERO_TIME
  }

  /** Go's t.After(u). */
  predicate After(t: Time, u: Time) {
    t > u
  }

  const MIN_INT64: int := -0x8000_0000_0000_0000
  const MAX_INT64: int := 0x7fff_ffff_ffff_ffff
  const TWO_TO_64: int := 0x1_0000_0000_0000_0000

  predicate IsInt64(x: int) {
    MIN_INT64 <= x <= MAX_INT64
  }

  /** A time.Duration: a signed 64-bit count of nanoseconds. */
  type Duration = d: int | IsInt64(d)

  const SECOND: Duration := 1_000_000_000

  /** Seconds from Go's zero instant to the Unix epoch. */
  const UNIX_TO_INTERNAL: int := 62_135_596_800

  /**
   * Go's t.Sub(u): the exact difference when it fits in a Duration,
   * otherwise the nearest bound (Go saturates instead of overflowing).
   */
  function Sub(t: Time, u: Time): (d: Duration)
    ensures IsInt64(t - u) ==> d == t - u
    ensures t - u > MAX_INT64 ==> d == MAX_INT64
    ensures t - u < MIN_INT64 ==> d == MIN_INT64
  {
    if t - u > MAX_INT64 then MAX_INT64
    else if t - u < MIN_INT64 then MIN_INT64
    else t - u
  }

  /** time.Since(t), with the clock reading `now` passed in. */
  function Since(now: Time, t: Time): Duration {
    Sub(now, t)
  }

  /** Two's-complement wrap-around of a Go int64 arithmetic result. */
  function Wrap64(x: int): (r: Duration)
    ensures IsInt64(x) ==> r == x
    ensures (x - r) % TWO_TO_64 == 0
  {
    (x - MIN_INT64) % TWO_TO_64 + MIN_INT64
  }

  /**
   * `time.Second * time.Duration(seconds)`: an int64 product, which wraps
   * when the configured number of seconds is too large.
   */
  function SecondsToDuration(seconds: int): (d: Duration)
    requires IsInt64(seconds)
    ensures IsInt64(seconds * SECOND) ==> d == seconds * SECOND
    ensures (seconds * SECOND - d) % TWO_TO_64 == 0
  {
    Wrap64(SECOND * seconds)
  }

  /** Go's t.Unix(): whole seconds since the Unix epoch, rounded down. */
  function UnixSeconds(t: Time): int {
    t / SECOND - UNIX_TO_INTERNAL
  }

  /**
   * Every maximum age from 9223372037 up to 18446744073 seconds overflows
   * int64 nanoseconds once, so it wraps to the product minus 2^64, which is
   * negative.
   */
  lemma HugeMaxAgeWrapsNegative(seconds: int)
    requires MAX_INT64 / SECOND < seconds <= (TWO_TO_64 - 1) / SECOND
    ensures SecondsToDuration(seconds) == seconds * SECOND - TWO_TO_64
    ensures SecondsToDuration(seconds) < 0
  {
    var x := SECOND * seconds;
    assert TWO_TO_64 <= x - MIN_INT64 < 2 * TWO_TO_64;
    assert (x - MIN_INT64) % TWO_TO_64 == x - MIN_INT64 - TWO_TO_64;
  }

  /** `Since` never decreases as the clock advances. */
  lemma SinceMonotonic(now: Time, later: Time, t: Time)
    requires now <= later
    ensures Since(now, t) <= Since(later, t)
  {
  }
}
