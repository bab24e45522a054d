/**
 * Wall-clock instants are integers counting microseconds (the resolution of
 * Python's `datetime`).  Every reading of the clock in the source becomes a
 * `now` parameter of the operation that reads it.
 */
module Clock {

  const MicrosPerSecond: int := 1_000_000
  const MicrosPerHour: int := 3600 * MicrosPerSecond

  /** `timedelta(hours = h)` in microseconds. */
  function Hours(h: int): int
  {
    h * MicrosPerHour
  }

  /**
   * `int((now - start).total_seconds())`: whole seconds elapsed, with Python's
   * `int()` truncating toward zero (not flooring) when the clock went backwards.
   */
  function ElapsedSeconds(start: int, now: int): (s: int)
    ensures now >= start ==> 0 <= s && s * MicrosPerSecond <= now - start < (s + 1) * MicrosPerSecond
    ensures now < start ==> s <= 0 && (s - 1) * MicrosPerSecond < now - start <= s * MicrosPerSecond
  {
    var d := now - start;
    if d >= 0 then d / MicrosPerSecond else -((-d) / MicrosPerSecond)
  }
}
