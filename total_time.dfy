/**
 * The duration arithmetic of `calculateTotalTime`: the milliseconds between a
 * session's start and "now", split into hours, minutes and seconds.
 */
module TotalTime {
  import opened Wrappers

  /** The `{hours, minutes, seconds}` object the service stores as `totalTime`. */
  datatype Duration = Duration(hours: int, minutes: int, seconds: int)

  const Zero := Duration(0, 0, 0)

  /** Hours non-negative, minutes and seconds each in [0, 59]. */
  predicate Normal(d: Duration)
  {
    0 <= d.hours && 0 <= d.minutes < 60 && 0 <= d.seconds < 60
  }

  /** The number of seconds a duration stands for. */
  function TotalSeconds(d: Duration): int
  {
    d.hours * 3600 + d.minutes * 60 + d.seconds
  }

  /**
   * JavaScript's `a % 60`: the remainder of a division truncated toward zero,
   * so it carries the sign of the dividend (Dafny's `%` is never negative).
   */
  function JsRemainder60(a: int): (r: int)
    ensures 0 <= a ==> 0 <= r < 60
    ensures a < 0 ==> -60 < r <= 0
    ensures (a - r) % 60 == 0
  {
    if a >= 0 then a % 60 else -((-a) % 60)
  }

  /**
   * A timestamp formatted as ISO-8601 text and parsed back: the text carries
   * whole seconds, so the instant is rounded down to the second.
   */
  function Stamp(t: int): (r: int)
    ensures r <= t < r + 1000
    ensures r % 1000 == 0
  {
    t - t % 1000
  }

  /**
   * `calculateTotalTime(startTime)` with the wall clock passed in as `now`.
   * `None` is a start that does not parse; it gives the zero duration.
   * `Math.floor` on a positive divisor is Dafny's `/`; the `% 60` is JavaScript's.
   */
  function CalculateTotalTime(start: Option<int>, now: int): (r: Duration)
    ensures start.None? ==> r == Zero
    ensures start.Some? && start.value <= now ==>
              Normal(r) && TotalSeconds(r) == (now - start.value) / 1000
    ensures start.Some? && now < start.value ==>
              r.hours < 0 && -60 < r.minutes <= 0 && -60 < r.seconds <= 0
  {
    match start
    case None => Zero
    case Some(t) =>
      var seconds := (now - t) / 1000;
      var minutes := seconds / 60;
      var hours := minutes / 60;
      Duration(hours, JsRemainder60(minutes), JsRemainder60(seconds))
  }

  /** Less than one second of presence gives the zero duration. */
  lemma UnderOneSecondIsZero(t: int, ms: int)
    requires 0 <= ms < 1000
    ensures CalculateTotalTime(Some(t), t + ms) == Zero
  {
  }

  /** The worked examples: 3661 s give 1 h 1 min 1 s, and 125 s give 2 min 5 s. */
  lemma ElapsedExamples(t: int)
    ensures CalculateTotalTime(Some(t), t + 3661000) == Duration(1, 1, 1)
    ensures CalculateTotalTime(Some(t), t + 125000) == Duration(0, 2, 5)
  {
  }

  /** Only the difference between start and now matters. */
  lemma ShiftInvariant(t: int, d: int)
    ensures CalculateTotalTime(Some(t), t + d) == CalculateTotalTime(Some(0), d)
  {
  }

  /**
   * A start one second after "now" (the clock moved back) gives minus one in
   * every component, because JavaScript's `%` keeps the sign of the dividend.
   */
  lemma ClockSkewExample(t: int)
    ensures CalculateTotalTime(Some(t + 1000), t) == Duration(-1, -1, -1)
  {
  }

  /**
   * Round trip: every normal duration is what the split returns for that many
   * whole seconds, whatever the leftover milliseconds below one second.
   */
  lemma SplitRoundTrip(d: Duration, start: int, ms: int)
    requires Normal(d)
    requires 0 <= ms < 1000
    ensures CalculateTotalTime(Some(start), start + TotalSeconds(d) * 1000 + ms) == d
  {
  }

  /**
   * A session whose start was stored as formatted text lasts, in whole seconds,
   * the difference of the two instants' second counts.
   */
  lemma StampedElapsed(t0: int, t1: int)
    requires t0 <= t1
    ensures TotalSeconds(CalculateTotalTime(Some(Stamp(t0)), t1)) == t1 / 1000 - t0 / 1000
  {
  }
}
