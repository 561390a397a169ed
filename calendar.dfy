/**
 * UTC calendar arithmetic. The source reads the clock through `new Date()` and
 * formats it with `toISOString`; here the clock is an input and a date is a triple
 * of integers. `YYYY-MM-DD` strings are `Date` values and `YYYY-MM` strings are
 * `YearMonth` values, so two such strings are equal exactly when the values are.
 */
module Calendar {

  datatype Date = Date(year: int, month: int, day: int)
  datatype YearMonth = YearMonth(year: int, month: int)
  datatype DateTime = DateTime(date: Date, hour: int, minute: int, second: int, ms: int)

  const MS_PER_DAY: int := 86_400_000

  predicate IsLeapYear(y: int) {
    (y % 4 == 0 && y % 100 != 0) || y % 400 == 0
  }

  function DaysInMonth(y: int, m: int): (n: int)
    requires 1 <= m <= 12
    ensures 28 <= n <= 31
  {
    if m == 2 then (if IsLeapYear(y) then 29 else 28)
    else if m == 4 || m == 6 || m == 9 || m == 11 then 30
    else 31
  }

  predicate ValidDate(d: Date) {
    1 <= d.month <= 12 && 1 <= d.day <= DaysInMonth(d.year, d.month)
  }

  predicate ValidDateTime(t: DateTime) {
    ValidDate(t.date) && 0 <= t.hour < 24 && 0 <= t.minute < 60 && 0 <= t.second < 60 && 0 <= t.ms < 1000
  }

  /** `toISOString().slice(0, 7)` of a date. */
  function MonthOf(d: Date): YearMonth {
    YearMonth(d.year, d.month)
  }

  /** Number of leap years in the years 0 .. y-1 (a proleptic Gregorian count, floor division). */
  function LeapYearsBefore(y: int): int {
    (y + 3) / 4 - (y + 99) / 100 + (y + 399) / 400
  }

  function DaysBeforeYear(y: int): int {
    365 * y + LeapYearsBefore(y)
  }

  function DaysBeforeMonth(y: int, m: int): int
    requires 1 <= m <= 13
  {
    if m == 1 then 0 else DaysBeforeMonth(y, m - 1) + DaysInMonth(y, m - 1)
  }

  /** A day counter: consecutive calendar days get consecutive numbers. */
  function DayIndex(d: Date): int
    requires ValidDate(d)
  {
    DaysBeforeYear(d.year) + DaysBeforeMonth(d.year, d.month) + d.day - 1
  }

  /** Milliseconds since the start of day 0, the model's `getTime()`. */
  function EpochMs(t: DateTime): int
    requires ValidDate(t.date)
  {
    DayIndex(t.date) * MS_PER_DAY + t.hour * 3_600_000 + t.minute * 60_000 + t.second * 1000 + t.ms
  }

  function NextDate(d: Date): (r: Date)
    requires ValidDate(d)
    ensures ValidDate(r)
  {
    if d.day < DaysInMonth(d.year, d.month) then Date(d.year, d.month, d.day + 1)
    else if d.month < 12 then Date(d.year, d.month + 1, 1)
    else Date(d.year + 1, 1, 1)
  }

  /** Day 1 of the month after `d`'s month; December rolls over to January of the next year. */
  function FirstOfNextMonth(d: Date): (r: Date)
    requires ValidDate(d)
    ensures ValidDate(r) && r.day == 1
    ensures d.month < 12 ==> r.year == d.year && r.month == d.month + 1
    ensures d.month == 12 ==> r.year == d.year + 1 && r.month == 1
  {
    if d.month < 12 then Date(d.year, d.month + 1, 1) else Date(d.year + 1, 1, 1)
  }

  lemma DaysInYear(y: int)
    ensures DaysBeforeMonth(y, 13) == if IsLeapYear(y) then 366 else 365
  {
    var feb := DaysInMonth(y, 2);
    assert DaysBeforeMonth(y, 2) == 31;
    assert DaysBeforeMonth(y, 3) == 31 + feb;
    assert DaysBeforeMonth(y, 4) == 62 + feb;
    assert DaysBeforeMonth(y, 5) == 92 + feb;
    assert DaysBeforeMonth(y, 6) == 123 + feb;
    assert DaysBeforeMonth(y, 7) == 153 + feb;
    assert DaysBeforeMonth(y, 8) == 184 + feb;
    assert DaysBeforeMonth(y, 9) == 215 + feb;
    assert DaysBeforeMonth(y, 10) == 245 + feb;
    assert DaysBeforeMonth(y, 11) == 276 + feb;
    assert DaysBeforeMonth(y, 12) == 306 + feb;
    assert DaysBeforeMonth(y, 13) == 337 + feb;
  }

  lemma FloorStep(y: int, k: int)
    requires k == 4 || k == 100 || k == 400
    ensures (y + k) / k == (y + k - 1) / k + (if y % k == 0 then 1 else 0)
  {
    if k == 4 {
      FloorStep4(y);
    } else if k == 100 {
      FloorStep100(y);
    } else {
      FloorStep400(y);
    }
  }

  lemma FloorStep4(y: int)
    ensures (y + 4) / 4 == (y + 3) / 4 + (if y % 4 == 0 then 1 else 0)
  {
  }

  lemma FloorStep100(y: int)
    ensures (y + 100) / 100 == (y + 99) / 100 + (if y % 100 == 0 then 1 else 0)
  {
  }

  lemma FloorStep400(y: int)
    ensures (y + 400) / 400 == (y + 399) / 400 + (if y % 400 == 0 then 1 else 0)
  {
  }

  lemma YearStep(y: int)
    ensures DaysBeforeYear(y + 1) == DaysBeforeYear(y) + DaysBeforeMonth(y, 13)
  {
    DaysInYear(y);
    LeapStep(y);
  }

  /** One more leap year is counted exactly when `y` is one. */
  lemma LeapStep(y: int)
    ensures LeapYearsBefore(y + 1) == LeapYearsBefore(y) + (if IsLeapYear(y) then 1 else 0)
  {
    FloorStep(y, 4);
    FloorStep(y, 100);
    FloorStep(y, 400);
    DivisibilityChain(y);
  }

  /** A multiple of 400 is a multiple of 100, and a multiple of 100 is a multiple of 4. */
  lemma DivisibilityChain(y: int)
    ensures y % 400 == 0 ==> y % 100 == 0
    ensures y % 100 == 0 ==> y % 4 == 0
  {
    if y % 400 == 0 {
      MultipleOf100(y, 4 * (y / 400));
    }
    if y % 100 == 0 {
      MultipleOf4(y, 25 * (y / 100));
    }
  }

  lemma MultipleOf100(y: int, t: int)
    requires y == 100 * t
    ensures y % 100 == 0
  {
  }

  lemma MultipleOf4(y: int, t: int)
    requires y == 4 * t
    ensures y % 4 == 0
  {
  }

  /** The day after `d` has the next day number. */
  lemma NextDateIndex(d: Date)
    requires ValidDate(d)
    ensures DayIndex(NextDate(d)) == DayIndex(d) + 1
  {
    if d.day == DaysInMonth(d.year, d.month) && d.month == 12 {
      YearStep(d.year);
    }
  }

  /** The first of next month is no earlier than the day after `d`. */
  lemma FirstOfNextMonthIndex(d: Date)
    requires ValidDate(d)
    ensures DayIndex(FirstOfNextMonth(d)) >= DayIndex(NextDate(d))
  {
    NextDateIndex(d);
    if d.month == 12 {
      YearStep(d.year);
    }
  }

  /**
   * `t.setUTCHours(h, 0, 0, 0)` for the hours the source passes: 0 .. 23 stay on the
   * same day, 24 overflows to midnight of the next day, as JavaScript normalises it.
   */
  function SetUTCHours(t: DateTime, h: int): (r: DateTime)
    requires ValidDate(t.date) && 0 <= h <= 24
    ensures ValidDate(r.date) && r.minute == 0 && r.second == 0 && r.ms == 0
    ensures h < 24 ==> r.date == t.date && r.hour == h
    ensures h == 24 ==> r.date == NextDate(t.date) && r.hour == 0
  {
    if h == 24 then DateTime(NextDate(t.date), 0, 0, 0, 0) else DateTime(t.date, h, 0, 0, 0)
  }

  /**
   * `t.setUTCMonth(monthIndex, day)` with a zero-based month index in 0 .. 12 (12 overflows
   * into January of the next year) and a day that exists in every month.
   */
  function SetUTCMonth(t: DateTime, monthIndex: int, day: int): (r: DateTime)
    requires 0 <= monthIndex <= 12 && 1 <= day <= 28
    ensures ValidDate(r.date)
  {
    var d := if monthIndex == 12 then Date(t.date.year + 1, 1, day) else Date(t.date.year, monthIndex + 1, day);
    DateTime(d, t.hour, t.minute, t.second, t.ms)
  }

  /** `getUTCMonth()`: the zero-based month. */
  function GetUTCMonth(t: DateTime): int {
    t.date.month - 1
  }
}
