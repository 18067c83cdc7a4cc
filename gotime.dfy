/**
 * Go's `time.Time` and `time.Duration` as integers. A time is the number of nanoseconds
 * since Go's zero instant (January 1, year 1, 00:00:00 UTC), so the zero `time.Time{}` is 0;
 * a duration is a number of nanoseconds.
 */
module GoTime {

  type Time = int
  type Duration = int

  const Nanosecond: Duration := 1
  const Second: Duration := 1_000_000_000

  /** Seconds from Go's zero instant to the Unix epoch (1970-01-01 UTC). */
  const UnixToInternal: int := 62_135_596_800

  /** `t.IsZero()`. */
  predicate IsZero(t: Time) {
    t == 0
  }

  /** `t.Unix()`: whole seconds since the Unix epoch, rounded down. */
  function Unix(t: Time): int {
    t / Second - UnixToInternal
  }

  /** `time.Unix(sec, nsec)`. */
  function FromUnix(sec: int, nsec: int): Time {
    (sec + UnixToInternal) * Second + nsec
  }

  /** `t.Sub(u)`, and so `time.Since(u)` when `t` is the current time. */
  function Sub(t: Time, u: Time): Duration {
    t - u
  }

  /** `Unix` reads back the seconds that `time.Unix` was given. */
  lemma UnixFromUnix(sec: int, nsec: int)
    requires 0 <= nsec < Second
    ensures Unix(FromUnix(sec, nsec)) == sec
  {
    var a := sec + UnixToInternal;
    assert FromUnix(sec, nsec) == a * Second + nsec;
    assert (a * Second + nsec) / Second == a;
  }
}
