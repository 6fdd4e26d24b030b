/**
 * Calendar days as integers.
 *
 * A day is an `int` counting days from Monday 5 January 1970 (day 0), so
 * every multiple of 7 is a Monday and the proleptic Gregorian calendar
 * extends without bound in both directions. Time of day, time zones and
 * daylight-saving shifts are not represented: every date is a local
 * midnight and one day is one unit.
 *
 * The two date-library calls the dashboard makes are given integer
 * stand-ins here: `AddDays` for adding days and `StartOfWeek` for the
 * Monday-start of a week.
 */
module Calendar {

  /** Day number of Thursday 1 January 1970, four days before day 0. */
  const UnixEpochDay: int := -4

  /** A day number in a Monday-first week: 0 = Monday, ..., 6 = Sunday. */
  function DayOfWeek(d: int): (w: int)
    ensures 0 <= w < 7
  {
    d % 7
  }

  predicate IsMonday(d: int) {
    DayOfWeek(d) == 0
  }

  /** The day `n` days after `d` (before it when `n` is negative). */
  function AddDays(d: int, n: int): int {
    d + n
  }

  /**
   * The Monday that starts the week containing `d`: the latest Monday at
   * or before `d`, and so the only Monday less than seven days before it.
   */
  function StartOfWeek(d: int): (r: int)
    ensures IsMonday(r)
    ensures r <= d < r + 7
    ensures forall m :: IsMonday(m) && m <= d < m + 7 ==> m == r
  {
    d - d % 7
  }

  /** Days from 1 January 1970 to `year`-`month`-`day`, month in 1..12 (Gregorian). */
  function DaysFromCivil(year: int, month: int, day: int): int
    requires 1 <= month <= 12
  {
    var y := if month <= 2 then year - 1 else year;
    var era := y / 400;
    var yoe := y - era * 400;
    var mp := if month > 2 then month - 3 else month + 9;
    var doy := (153 * mp + 2) / 5 + day - 1;
    var doe := yoe * 365 + yoe / 4 - yoe / 100 + doy;
    era * 146097 + doe - 719468
  }

  /**
   * The day of `year`-`monthIndex`-`day` with a zero-based `monthIndex`
   * and a one-based `day`, as the MakeDay operation of the ECMAScript
   * language specification (section 21.4.1) combines them:
   * a month index outside 0..11 moves whole years (floor division by 12)
   * and a day outside the month moves into later or earlier months.
   */
  function MakeDay(year: int, monthIndex: int, day: int): int {
    var y := year + monthIndex / 12;
    var m := monthIndex % 12;
    DaysFromCivil(y, m + 1, 1) + (day - 1) + UnixEpochDay
  }

  /**
   * The day of the local date `new Date(year, monthIndex, day)`: a year
   * argument from 0 to 99 stands for 1900 to 1999, then the three numbers
   * are combined as MakeDay does.
   */
  function MakeDate(year: int, monthIndex: int, day: int): int {
    var fullYear := if 0 <= year <= 99 then 1900 + year else year;
    MakeDay(fullYear, monthIndex, day)
  }

  /** `new Date(99, 0, 1)` is 1 January 1999, not 1 January of the year 99. */
  lemma TwoDigitYearAnchor()
    ensures MakeDate(99, 0, 1) == MakeDay(1999, 0, 1) == 10588
    ensures MakeDay(99, 0, 1) == -683372
  {
    Year1999Anchor();
    Year99Anchor();
  }

  lemma Year1999Anchor()
    ensures MakeDay(1999, 0, 1) == 10588
  {
    assert DaysFromCivil(1999, 1, 1) == 10592;
  }

  lemma Year99Anchor()
    ensures MakeDay(99, 0, 1) == -683372
  {
    assert DaysFromCivil(99, 1, 1) == -683368;
  }

  /**
   * Adding days to a constructed date is constructing it with a later
   * (or earlier) day of the month, which is how the date library moves
   * a date by days.
   */
  lemma AddDaysIsDayOfMonthOverflow(year: int, monthIndex: int, day: int, n: int)
    ensures AddDays(MakeDate(year, monthIndex, day), n) == MakeDate(year, monthIndex, day + n)
  {
  }

  /** Overflowing the day of the month or the month of the year normalises. */
  lemma MakeDayNormalises(year: int, monthIndex: int, day: int, n: int)
    ensures MakeDay(year, monthIndex, day + n) == AddDays(MakeDay(year, monthIndex, day), n)
    ensures MakeDay(year, monthIndex + 12, day) == MakeDay(year + 1, monthIndex, day)
    ensures MakeDay(year, monthIndex - 12, day) == MakeDay(year - 1, monthIndex, day)
  {
    assert (monthIndex + 12) / 12 == monthIndex / 12 + 1;
    assert (monthIndex + 12) % 12 == monthIndex % 12;
    assert (monthIndex - 12) / 12 == monthIndex / 12 - 1;
    assert (monthIndex - 12) % 12 == monthIndex % 12;
  }

  /** Fixed points that tie the numbering to the calendar. */
  lemma CalendarAnchors()
    ensures MakeDate(1970, 0, 1) == UnixEpochDay
    ensures MakeDate(1970, 0, 5) == 0 && IsMonday(MakeDate(1970, 0, 5))
  {
    assert DaysFromCivil(1970, 1, 1) == 0;
  }

  /** The Gregorian leap-year rule: 2000 has a 29 February, 1900 does not. */
  lemma LeapYearAnchors()
    ensures MakeDate(2000, 2, 1) == MakeDate(2000, 1, 30)
    ensures MakeDate(1900, 2, 1) == MakeDate(1900, 1, 29)
  {
    assert DaysFromCivil(2000, 3, 1) == 11017;
    assert DaysFromCivil(2000, 2, 1) == 10988;
    assert DaysFromCivil(1900, 3, 1) == -25508;
    assert DaysFromCivil(1900, 2, 1) == -25536;
  }
}
