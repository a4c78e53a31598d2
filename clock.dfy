/** Wall-clock arithmetic shared by the scheduling rules. A moment is a whole
    number of seconds since a Monday at 00:00, so the day of a moment is
    `t / DAY` and the weekday of day `d` is `d % 7` with Monday = 0, as in
    Python's `date.weekday()`. Every division here has a positive divisor, so
    Dafny's `/` and `%` agree with Python's `//` and `%`. */
module Clock {

  const MINUTE: int := 60
  const HOUR: int := 3600
  const DAY: int := 86400
  const WEEK: int := 7 * DAY

  const SUNDAY: int := 6

  /** The day number of moment `t` (`datetime.date()`). */
  function DayOf(t: int): int {
    t / DAY
  }

  /** Monday = 0 ... Sunday = 6. */
  function Weekday(day: int): (w: int)
    ensures 0 <= w < 7
  {
    day % 7
  }

  /** Seconds since midnight of the day of `t`. */
  function SecondOfDay(t: int): (s: int)
    ensures 0 <= s < DAY
  {
    t % DAY
  }

  predicate ValidTimeOfDay(hour: int, minute: int) {
    0 <= hour <= 23 && 0 <= minute <= 59
  }

  /** `datetime.combine(day, time(hour, minute))`. */
  function At(day: int, hour: int, minute: int): int
    requires ValidTimeOfDay(hour, minute)
  {
    day * DAY + hour * HOUR + minute * MINUTE
  }

  /** Whole days in a time difference, as `timedelta.days` (rounded down). */
  function WholeDays(delta: int): int {
    delta / DAY
  }

  /** First due time of a daily rule: today at hour:minute, moved to tomorrow
      only when it is strictly earlier than `now`. */
  function NextDaily(now: int, hour: int, minute: int): (t: int)
    requires ValidTimeOfDay(hour, minute)
    ensures now <= t < now + DAY
    ensures SecondOfDay(t) == hour * HOUR + minute * MINUTE
  {
    var candidate := At(DayOf(now), hour, minute);
    if candidate < now then candidate + DAY else candidate
  }

  /** The Sunday of the week containing `day` (`today + (6 - weekday)`). */
  function SundayOfWeek(day: int): (s: int)
    ensures day <= s < day + 7 && Weekday(s) == SUNDAY
  {
    day + (SUNDAY - Weekday(day))
  }

  /** First due time of a weekly rule: this week's Sunday at hour:minute,
      moved a week on only when it is strictly earlier than `now`. */
  function NextWeekly(now: int, hour: int, minute: int): (t: int)
    requires ValidTimeOfDay(hour, minute)
    ensures now <= t < now + WEEK
    ensures Weekday(DayOf(t)) == SUNDAY
    ensures SecondOfDay(t) == hour * HOUR + minute * MINUTE
  {
    var sunday := SundayOfWeek(DayOf(now));
    var candidate := At(sunday, hour, minute);
    var day := if candidate < now then sunday + 7 else sunday;
    DayParts(now);
    DayParts(At(day, hour, minute));
    assert candidate < now ==> candidate + WEEK == At(day, hour, minute);
    if candidate < now then candidate + WEEK else candidate
  }

  /** A moment splits into its day and its second of the day. */
  lemma DayParts(t: int)
    ensures t == DayOf(t) * DAY + SecondOfDay(t)
  {
  }

  /** Two moments less than a day apart with the same time of day are equal. */
  lemma SameSecondOfDay(a: int, b: int)
    requires a % DAY == b % DAY && -DAY < a - b < DAY
    ensures a == b
  {
    assert a == DAY * (a / DAY) + a % DAY;
    assert b == DAY * (b / DAY) + b % DAY;
  }

  /** Two moments less than a week apart with the same remainder modulo a
      week are equal. */
  lemma SameSecondOfWeek(a: int, b: int)
    requires a % WEEK == b % WEEK && -WEEK < a - b < WEEK
    ensures a == b
  {
    assert a == WEEK * (a / WEEK) + a % WEEK;
    assert b == WEEK * (b / WEEK) + b % WEEK;
  }

  /** The daily due time is the only moment in `[now, now + 1 day)` that
      falls at hour:minute. */
  lemma NextDailyUnique(now: int, hour: int, minute: int, t: int)
    requires ValidTimeOfDay(hour, minute)
    requires now <= t < now + DAY
    requires SecondOfDay(t) == hour * HOUR + minute * MINUTE
    ensures t == NextDaily(now, hour, minute)
  {
    SameSecondOfDay(t, NextDaily(now, hour, minute));
  }

  /** A Sunday at a given time of day has a fixed remainder modulo a week. */
  lemma SundayResidue(t: int)
    requires Weekday(DayOf(t)) == SUNDAY
    ensures t % WEEK == SUNDAY * DAY + SecondOfDay(t)
  {
    var d := DayOf(t);
    var k := d / 7;
    assert d == 7 * k + SUNDAY;
    assert t == DAY * d + SecondOfDay(t);
    assert t == WEEK * k + (SUNDAY * DAY + SecondOfDay(t));
  }

  /** The weekly due time is the only Sunday moment at hour:minute in
      `[now, now + 7 days)`. */
  lemma NextWeeklyUnique(now: int, hour: int, minute: int, t: int)
    requires ValidTimeOfDay(hour, minute)
    requires now <= t < now + WEEK
    requires Weekday(DayOf(t)) == SUNDAY
    requires SecondOfDay(t) == hour * HOUR + minute * MINUTE
    ensures t == NextWeekly(now, hour, minute)
  {
    var r := NextWeekly(now, hour, minute);
    SundayResidue(t);
    SundayResidue(r);
    SameSecondOfWeek(t, r);
  }
}
