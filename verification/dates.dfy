/** Calendar arithmetic standing in for JavaScript `Date` in local time.
    Instants are whole minutes on an integer clock; a stored `YYYY-MM-DD`
    value denotes the local midnight that starts that day. */
module Dates {

  const MINUTES_PER_DAY: int := 1440
  /** The width of the dashboard's look-ahead window, `addDays(today, 7)`. */
  const WEEK: int := 7 * MINUTES_PER_DAY

  type Month = m: int | 1 <= m <= 12 witness 1

  /** A calendar date as stored (`YYYY-MM-DD`). The day is not bounded by
      the month's length: like `new Date(y, m - 1, d)`, a day past the end
      of a month runs on into the following days. */
  datatype CivilDate = CivilDate(year: int, month: Month, day: int)

  /** The clock the dashboard reads: the current year (`getFullYear()`) and
      the current instant in minutes. */
  datatype Clock = Clock(year: int, now: int)

  predicate IsLeapYear(y: int) {
    y % 4 == 0 && (y % 100 != 0 || y % 400 == 0)
  }

  /** Days in the months of year `y` that precede month `m`. */
  function DaysBeforeMonth(y: int, m: Month): int {
    var leap := if IsLeapYear(y) then 1 else 0;
    match m
    case 1 => 0
    case 2 => 31
    case 3 => 59 + leap
    case 4 => 90 + leap
    case 5 => 120 + leap
    case 6 => 151 + leap
    case 7 => 181 + leap
    case 8 => 212 + leap
    case 9 => 243 + leap
    case 10 => 273 + leap
    case 11 => 304 + leap
    case 12 => 334 + leap
  }

  /** Days of the proleptic Gregorian calendar before 1 January of year `y`,
      counted from 1 January of year 1. */
  function DaysBeforeYear(y: int): int {
    365 * (y - 1) + (y - 1) / 4 - (y - 1) / 100 + (y - 1) / 400
  }

  /** The day number of a date. */
  function DayNumber(d: CivilDate): int {
    DaysBeforeYear(d.year) + DaysBeforeMonth(d.year, d.month) + d.day - 1
  }

  /** The local-midnight instant that starts the date (`new Date(y, m - 1, d)`). */
  function Midnight(d: CivilDate): int {
    DayNumber(d) * MINUTES_PER_DAY
  }

  /** Moving the day field by `k` moves the instant by `k` whole days. */
  lemma MidnightShift(d: CivilDate, k: int)
    ensures Midnight(CivilDate(d.year, d.month, d.day + k)) == Midnight(d) + k * MINUTES_PER_DAY
  {
  }

  /** `instant >= today && instant <= addDays(today, 7)` */
  predicate InNextWeek(instant: int, now: int) {
    now <= instant <= now + WEEK
  }

  /** The window seen day by day: an instant that starts a day (a parsed
      date) is inside it exactly when that day is one of the seven days
      after today, or is today itself and the clock stands exactly at
      midnight. */
  lemma {:induction false} NextWeekByDays(dayNumber: int, now: int)
    ensures InNextWeek(dayNumber * MINUTES_PER_DAY, now) <==>
            var today := now / MINUTES_PER_DAY;
            (dayNumber == today && now % MINUTES_PER_DAY == 0) || today < dayNumber <= today + 7
  {
    var today := now / MINUTES_PER_DAY;
    var r := now % MINUTES_PER_DAY;
    assert now == today * MINUTES_PER_DAY + r && 0 <= r < MINUTES_PER_DAY;
    if dayNumber <= today - 1 {
      assert dayNumber * MINUTES_PER_DAY <= today * MINUTES_PER_DAY - MINUTES_PER_DAY;
    } else if dayNumber >= today + 8 {
      assert dayNumber * MINUTES_PER_DAY >= today * MINUTES_PER_DAY + 8 * MINUTES_PER_DAY;
    } else if dayNumber == today {
    } else {
      assert today * MINUTES_PER_DAY + MINUTES_PER_DAY <= dayNumber * MINUTES_PER_DAY <= today * MINUTES_PER_DAY + 7 * MINUTES_PER_DAY;
    }
  }
}
