/**
 * The proleptic Gregorian calendar with days counted from the Unix epoch
 * (day 0 is Thursday 1970-01-01).  Both JavaScript's Date and Python's
 * datetime.date are modelled on top of it.
 */
module CivilCalendar {

  datatype Date = Date(year: int, month: int, day: int)

  predicate IsLeap(y: int) { y % 4 == 0 && (y % 100 != 0 || y % 400 == 0) }

  function YearLength(y: int): int { if IsLeap(y) then 366 else 365 }

  function MonthLength(y: int, m: int): (n: int)
    requires 1 <= m <= 12
    ensures 28 <= n <= 31
  {
    if m == 2 then (if IsLeap(y) then 29 else 28)
    else if m == 4 || m == 6 || m == 9 || m == 11 then 30
    else 31
  }

  /** Days in the months of year y before month m (m = 13 gives the whole year). */
  function DaysBeforeMonth(y: int, m: int): (n: int)
    requires 1 <= m <= 13
    ensures 0 <= n
  {
    [0, 31, 59, 90, 120, 151, 181, 212, 243, 273, 304, 334, 365][m - 1]
      + (if m > 2 && IsLeap(y) then 1 else 0)
  }

  lemma DaysBeforeMonthStep(y: int, m: int)
    requires 1 <= m <= 12
    ensures DaysBeforeMonth(y, m + 1) == DaysBeforeMonth(y, m) + MonthLength(y, m)
    ensures DaysBeforeMonth(y, 13) == YearLength(y)
  {
  }

  /** Day number of January 1st of year y. */
  function DaysBeforeYear(y: int): int
    decreases if y >= 1970 then y - 1970 else 1970 - y
  {
    if y == 1970 then 0
    else if y > 1970 then DaysBeforeYear(y - 1) + YearLength(y - 1)
    else DaysBeforeYear(y + 1) - YearLength(y)
  }

  lemma DaysBeforeYearStep(y: int)
    ensures DaysBeforeYear(y + 1) == DaysBeforeYear(y) + YearLength(y)
  {
  }

  lemma {:induction false} DaysBeforeYearMonotone(a: int, b: int)
    requires a <= b
    ensures DaysBeforeYear(a) + 365 * (b - a) <= DaysBeforeYear(b)
    decreases b - a
  {
    if a < b {
      DaysBeforeYearMonotone(a, b - 1);
      DaysBeforeYearStep(b - 1);
    }
  }

  lemma {:induction false} DaysBeforeYearBounded(a: int, b: int)
    requires a <= b
    ensures DaysBeforeYear(b) <= DaysBeforeYear(a) + 366 * (b - a)
    decreases b - a
  {
    if a < b {
      DaysBeforeYearBounded(a, b - 1);
      DaysBeforeYearStep(b - 1);
    }
  }

  predicate ValidDate(d: Date)
  {
    1 <= d.month <= 12 && 1 <= d.day <= MonthLength(d.year, d.month)
  }

  /** Day number (days since 1970-01-01) of a calendar date. */
  function DayNumber(d: Date): int
    requires 1 <= d.month <= 12
  {
    DaysBeforeYear(d.year) + DaysBeforeMonth(d.year, d.month) + d.day - 1
  }

  /** The year containing day n, searched upward from y. */
  function YearUp(n: int, y: int): (r: int)
    requires DaysBeforeYear(y) <= n
    ensures DaysBeforeYear(r) <= n < DaysBeforeYear(r + 1)
    decreases n - DaysBeforeYear(y)
  {
    DaysBeforeYearStep(y);
    if n < DaysBeforeYear(y + 1) then y else YearUp(n, y + 1)
  }

  /** The year containing day n, searched downward from y. */
  function YearDown(n: int, y: int): (r: int)
    requires n < DaysBeforeYear(y + 1)
    ensures DaysBeforeYear(r) <= n < DaysBeforeYear(r + 1)
    decreases DaysBeforeYear(y + 1) - n
  {
    DaysBeforeYearStep(y);
    DaysBeforeYearStep(y - 1);
    if DaysBeforeYear(y) <= n then y else YearDown(n, y - 1)
  }

  function YearOf(n: int): (r: int)
    ensures DaysBeforeYear(r) <= n < DaysBeforeYear(r + 1)
  {
    if n >= 0 then YearUp(n, 1970) else YearDown(n, 1969)
  }

  /** The month of year y containing day r of that year (0-based), searched upward from m. */
  function MonthFrom(y: int, r: int, m: int): (k: int)
    requires 1 <= m <= 12 && DaysBeforeMonth(y, m) <= r < YearLength(y)
    ensures m <= k <= 12
    ensures DaysBeforeMonth(y, k) <= r < DaysBeforeMonth(y, k) + MonthLength(y, k)
    decreases 12 - m
  {
    DaysBeforeMonthStep(y, m);
    if m == 12 || r < DaysBeforeMonth(y, m + 1) then m else MonthFrom(y, r, m + 1)
  }

  /** The calendar date of day number n. */
  function ToCivil(n: int): (d: Date)
    ensures ValidDate(d) && DayNumber(d) == n
  {
    var y := YearOf(n);
    var r := n - DaysBeforeYear(y);
    DaysBeforeYearStep(y);
    var m := MonthFrom(y, r, 1);
    Date(y, m, r - DaysBeforeMonth(y, m) + 1)
  }

  /** Only one year contains a given day. */
  lemma YearUnique(n: int, a: int, b: int)
    requires DaysBeforeYear(a) <= n < DaysBeforeYear(a + 1)
    requires DaysBeforeYear(b) <= n < DaysBeforeYear(b + 1)
    ensures a == b
  {
    if a < b { DaysBeforeYearMonotone(a + 1, b); }
    if b < a { DaysBeforeYearMonotone(b + 1, a); }
  }

  /** Only one month contains a given day of the year. */
  lemma MonthUnique(y: int, r: int, a: int, b: int)
    requires 1 <= a <= 12 && 1 <= b <= 12
    requires DaysBeforeMonth(y, a) <= r < DaysBeforeMonth(y, a) + MonthLength(y, a)
    requires DaysBeforeMonth(y, b) <= r < DaysBeforeMonth(y, b) + MonthLength(y, b)
    ensures a == b
  {
  }

  /** A valid date lies within its year. */
  lemma DayNumberInYear(d: Date)
    requires ValidDate(d)
    ensures DaysBeforeYear(d.year) <= DayNumber(d) < DaysBeforeYear(d.year + 1)
  {
    DaysBeforeYearStep(d.year);
    DaysBeforeMonthStep(d.year, d.month);
    if d.month < 12 {
      assert DaysBeforeMonth(d.year, d.month) + MonthLength(d.year, d.month) <= DaysBeforeMonth(d.year, 13);
    }
  }

  /** Two valid dates with the same day number are the same date. */
  lemma DayNumberInjective(a: Date, b: Date)
    requires ValidDate(a) && ValidDate(b) && DayNumber(a) == DayNumber(b)
    ensures a == b
  {
    var n := DayNumber(a);
    DayNumberInYear(a);
    DayNumberInYear(b);
    YearUnique(n, a.year, b.year);
    var y := a.year;
    var r := n - DaysBeforeYear(y);
    assert DaysBeforeMonth(y, a.month) <= r < DaysBeforeMonth(y, a.month) + MonthLength(y, a.month);
    assert DaysBeforeMonth(y, b.month) <= r < DaysBeforeMonth(y, b.month) + MonthLength(y, b.month);
    MonthUnique(y, r, a.month, b.month);
  }

  /** Day numbers and valid dates are in one-to-one correspondence. */
  lemma ToCivilOfDayNumber(d: Date)
    requires ValidDate(d)
    ensures ToCivil(DayNumber(d)) == d
  {
    DayNumberInjective(ToCivil(DayNumber(d)), d);
  }

  /** Day of the week, 0 = Sunday .. 6 = Saturday (Date.prototype.getDay). */
  function Weekday(n: int): (w: int)
    ensures 0 <= w < 7
  {
    (n + 4) % 7
  }

  lemma WeekdayEpoch()
    ensures Weekday(0) == 4 && Weekday(-4) == 0
  {
  }

  /**
   * JavaScript's MakeDay: a year, a month index that may overflow in either
   * direction, and a day of the month that may overflow, to a day number.
   */
  function MakeDay(year: int, monthIndex: int, date: int): int
  {
    var y := year + monthIndex / 12;
    var m := monthIndex % 12;
    DaysBeforeYear(y) + DaysBeforeMonth(y, m + 1) + date - 1
  }

  /** For an in-range month and day, MakeDay is the day number of that date. */
  lemma MakeDayOfValid(d: Date)
    requires ValidDate(d)
    ensures MakeDay(d.year, d.month - 1, d.day) == DayNumber(d)
  {
  }

  /** Overflowing the day of the month just moves by that many days. */
  lemma MakeDayShift(year: int, monthIndex: int, date: int, k: int)
    ensures MakeDay(year, monthIndex, date + k) == MakeDay(year, monthIndex, date) + k
  {
  }

  /** Twelve months forward is the same month of the next year. */
  lemma MakeDayYearCarry(year: int, monthIndex: int, date: int)
    ensures MakeDay(year, monthIndex + 12, date) == MakeDay(year + 1, monthIndex, date)
  {
    assert (monthIndex + 12) / 12 == monthIndex / 12 + 1;
    assert (monthIndex + 12) % 12 == monthIndex % 12;
  }
}
