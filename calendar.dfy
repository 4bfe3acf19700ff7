/** Calendar values as the presence data carries them: a clock time of day
    and a proleptic Gregorian calendar date, with the date's weekday counted
    from Monday = 0 exactly as the date type of the host language does
    (ordinal day 1 is 0001-01-01, a Monday). */
module Calendar {

  const MinYear := 1
  const MaxYear := 9999

  /** A time of day: hour, minute and second. */
  datatype Time = Time(hour: int, minute: int, second: int) {
    predicate Valid() {
      0 <= hour < 24 && 0 <= minute < 60 && 0 <= second < 60
    }
  }

  /** Only well-formed clock times exist, as with the host's time objects. */
  type ClockTime = t: Time | t.Valid() witness Time(0, 0, 0)

  predicate IsLeap(year: int) {
    year % 4 == 0 && (year % 100 != 0 || year % 400 == 0)
  }

  function DaysInMonth(year: int, month: int): (n: int)
    requires 1 <= month <= 12
    ensures 28 <= n <= 31
    ensures n == 29 <==> month == 2 && IsLeap(year)
  {
    if month == 2 then (if IsLeap(year) then 29 else 28)
    else if month == 4 || month == 6 || month == 9 || month == 11 then 30
    else 31
  }

  /** Days of the year that precede the first of `month`. */
  function DaysBeforeMonth(year: int, month: int): int
    requires 1 <= month <= 12
  {
    var table := [0, 31, 59, 90, 120, 151, 181, 212, 243, 273, 304, 334];
    table[month - 1] + (if month > 2 && IsLeap(year) then 1 else 0)
  }

  /** Days in all the years before `year`, counting from year 1. */
  function DaysBeforeYear(year: int): int {
    var y := year - 1;
    y * 365 + y / 4 - y / 100 + y / 400
  }

  /** A calendar date: year, month (1..12) and day of the month. */
  datatype Date = Date(year: int, month: int, day: int) {
    predicate Valid() {
      MinYear <= year <= MaxYear && 1 <= month <= 12 && 1 <= day <= DaysInMonth(year, month)
    }
  }

  /** Only well-formed dates exist, as with the host's date objects. */
  type CalendarDate = d: Date | d.Valid() witness Date(1, 1, 1)

  /** Weekday index: 0 = Monday .. 6 = Sunday. */
  type Weekday = w: int | 0 <= w < 7

  /** The proleptic Gregorian ordinal: 0001-01-01 is day 1, and the days
      of a year follow those of all the years before it. */
  function Ordinal(d: CalendarDate): (o: int)
    ensures o >= 1
    ensures DaysBeforeYear(d.year) < o <= DaysBeforeYear(d.year + 1)
  {
    YearLength(d.year);
    DaysBeforeYear(d.year) + DaysBeforeMonth(d.year, d.month) + d.day
  }

  /** Weekday index of a date, Monday = 0: the number of days since the
      last Monday, where ordinal day 1 is a Monday, so that `Ordinal(d) - w`
      is always the ordinal of a Monday. */
  function WeekdayOf(d: CalendarDate): (w: Weekday)
    ensures (Ordinal(d) - w) % 7 == 1
  {
    MondayOffset(Ordinal(d));
    (Ordinal(d) + 6) % 7
  }

  lemma MondayOffset(o: int)
    ensures (o - (o + 6) % 7) % 7 == 1
  {
    var q := (o + 6) / 7;
    var r := (o + 6) % 7;
    assert o + 6 == 7 * q + r;
    assert o - r == 7 * (q - 1) + 1;
  }

  /** The date that follows `d`; the last representable date has none. */
  function NextDay(d: CalendarDate): (e: CalendarDate)
    requires d != Date(MaxYear, 12, 31)
    ensures e.year == d.year || (e.year == d.year + 1 && e.month == 1 && e.day == 1)
  {
    if d.day < DaysInMonth(d.year, d.month) then Date(d.year, d.month, d.day + 1)
    else if d.month < 12 then Date(d.year, d.month + 1, 1)
    else Date(d.year + 1, 1, 1)
  }

  /** Over whole years, y / 4 grows by one exactly at the multiples of 4; likewise for 100 and 400. */
  lemma DivSteps(y: int)
    ensures y / 4 - (y - 1) / 4 == if y % 4 == 0 then 1 else 0
    ensures y / 100 - (y - 1) / 100 == if y % 100 == 0 then 1 else 0
    ensures y / 400 - (y - 1) / 400 == if y % 400 == 0 then 1 else 0
  {
  }

  /** Every multiple of 400 is a multiple of 100, and every multiple of 100 one of 4. */
  lemma Multiples(y: int)
    ensures y % 400 == 0 ==> y % 100 == 0
    ensures y % 100 == 0 ==> y % 4 == 0
  {
    if y % 400 == 0 {
      var q := y / 400;
      assert y == 100 * (4 * q) + 0;
    }
    if y % 100 == 0 {
      var q := y / 100;
      assert y == 4 * (25 * q) + 0;
    }
  }

  /** A year has 366 days exactly when it is a leap year. */
  lemma {:induction false} YearLength(y: int)
    ensures DaysBeforeYear(y + 1) - DaysBeforeYear(y) == if IsLeap(y) then 366 else 365
  {
    DivSteps(y);
    Multiples(y);
  }

  /** Consecutive dates have consecutive ordinals. */
  lemma {:induction false} NextDayOrdinal(d: CalendarDate)
    requires d != Date(MaxYear, 12, 31)
    ensures Ordinal(NextDay(d)) == Ordinal(d) + 1
  {
    if d.day == DaysInMonth(d.year, d.month) && d.month == 12 {
      YearLength(d.year);
    }
  }

  /** The weekday advances by one, Sunday wrapping to Monday, from each date to the next. */
  lemma {:induction false} WeekdayAdvances(d: CalendarDate)
    requires d != Date(MaxYear, 12, 31)
    ensures WeekdayOf(NextDay(d)) == (WeekdayOf(d) + 1) % 7
  {
    NextDayOrdinal(d);
    WeekStep(Ordinal(d) + 6);
  }

  lemma WeekStep(n: int)
    ensures (n + 1) % 7 == (n % 7 + 1) % 7
  {
  }
}
