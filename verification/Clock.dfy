/** Points in time and durations, both counted in nanoseconds as the Go `time` package does. */
module Clock {
  /** Nanoseconds since the Unix epoch. */
  type Time = int

  /** A `time.Duration`: a signed 64-bit number of nanoseconds. */
  type Duration = d: int | -0x8000_0000_0000_0000 <= d < 0x8000_0000_0000_0000

  const SECOND: int := 1_000_000_000

  /** Go's zero `time.Time` (1 January of year 1, UTC); `IsZero` compares with it. */
  const ZERO_TIME: Time := -62_135_596_800_000_000_000

  predicate IsInt64(n: int) {
    -0x8000_0000_0000_0000 <= n < 0x8000_0000_0000_0000
  }

  /** `Time.Unix`: the second a point in time falls into, rounded down. */
  function Second(t: Time): int {
    t / 1_000_000_000
  }

  /** The first nanosecond of the second `t` falls into. */
  function Floor(t: Time): Time {
    Second(t) * 1_000_000_000
  }

  /** The moment `seconds` after `t`, at which EXPIRE ends a key. */
  function AfterSeconds(t: Time, seconds: int): Time {
    t + seconds * SECOND
  }

  /** `int(d.Seconds())`: whole seconds, rounded toward zero. */
  function WholeSeconds(d: int): int {
    if d >= 0 then d / 1_000_000_000 else -((-d) / 1_000_000_000)
  }

  /** Whole seconds never exceed the duration in magnitude and fall short of it by less than a second. */
  lemma WholeSecondsBound(d: int)
    ensures d >= 0 ==> d - 1_000_000_000 < WholeSeconds(d) * 1_000_000_000 <= d
    ensures d < 0 ==> d <= WholeSeconds(d) * 1_000_000_000 < d + 1_000_000_000
  {
    if d < 0 {
      assert WholeSeconds(d) == -((-d) / 1_000_000_000);
    }
  }

  /** A duration cut to whole seconds. */
  function Cut(d: Duration): (r: Duration)
    ensures WholeSeconds(r) == WholeSeconds(d)
    ensures r == d <==> d % 1_000_000_000 == 0
  {
    WholeSecondsBound(d);
    WholeSeconds(d) * 1_000_000_000
  }
}
