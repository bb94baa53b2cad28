/** Shared vocabulary: an optional value, and time as integer milliseconds. */
module Base {

  datatype Option<+T> = None | Some(value: T)

  /** A point in time, in milliseconds since the epoch (what `Date.getTime()` returns). */
  type Instant = int

  const HOUR: int := 3600 * 1000
  const DAY: int := 24 * 3600 * 1000

  /**
   * The browser clock at one render: now, the instant one calendar month earlier, and the
   * bounds of the current local calendar day.
   */
  datatype Clock = Clock(now: Instant, oneMonthAgo: Instant, todayStart: Instant, tomorrowStart: Instant)

  /** A month is four weeks to 31 days; a local day, 23 to 25 hours, contains now. */
  predicate ClockValid(clock: Clock)
  {
    && clock.now - 31 * DAY <= clock.oneMonthAgo <= clock.now - 28 * DAY
    && clock.todayStart <= clock.now < clock.tomorrowStart
    && 23 * HOUR <= clock.tomorrowStart - clock.todayStart <= 25 * HOUR
  }
}
