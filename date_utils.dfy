/**
 * The front end's date helpers (frontend/src/utils/dateUtils.js) over a model
 * of JavaScript's local-time Date at day granularity.  A Date is its day number
 * (CivilCalendar); an Invalid Date is None.
 */
module DateUtils {
  import opened Wrappers
  import opened Text
  import opened CivilCalendar

  /** Largest magnitude of a Date's day number (8.64e15 ms). */
  const MaxDays: int := 100000000

  /**
   * Number(s) on a string: surrounding whitespace is ignored, the empty string
   * is 0 and a run of decimal digits is its value; anything else is NaN (None).
   */
  function JsNumber(s: string): (r: Option<int>)
    ensures JsTrim(s) == "" ==> r == Some(0)
    ensures IsDigits(JsTrim(s)) ==> r == Some(DigitsValue(JsTrim(s)))
  {
    var t := JsTrim(s);
    if t == "" then Some(0) else if IsDigits(t) then Some(DigitsValue(t)) else None
  }

  /** The year rule of the Date constructor: 0..99 means 1900..1999. */
  function ConstructorYear(y: int): int { if 0 <= y <= 99 then 1900 + y else y }

  /** new Date(year, monthIndex, date) at midnight local time. */
  function NewDate(year: Option<int>, monthIndex: Option<int>, date: Option<int>): (r: Option<int>)
    ensures r.Some? ==> year.Some? && monthIndex.Some? && date.Some?
    ensures r.Some? ==> -MaxDays <= r.value <= MaxDays
  {
    if year.None? || monthIndex.None? || date.None? then None
    else
      var n := MakeDay(ConstructorYear(year.value), monthIndex.value, date.value);
      if -MaxDays <= n <= MaxDays then Some(n) else None
  }

  function Pred(x: Option<int>): Option<int> { if x.Some? then Some(x.value - 1) else None }

  /** parseDate: split on '-', Number each part, new Date(y, m - 1, d). */
  function ParseDate(s: string): (r: Option<int>)
    ensures |Split(s, '-')| < 3 ==> r == None
    ensures r.Some? ==> -MaxDays <= r.value <= MaxDays
  {
    var parts := Split(s, '-');
    if |parts| < 3 then None
    else NewDate(JsNumber(parts[0]), Pred(JsNumber(parts[1])), JsNumber(parts[2]))
  }

  /** `${year}-${mm}-${dd}` for a calendar date. */
  function CivilString(c: Date): string
    requires ValidDate(c)
  {
    IntToString(c.year) + "-" + Pad2(c.month) + "-" + Pad2(c.day)
  }

  /** formatDate; an Invalid Date renders every field as NaN. */
  function FormatDate(d: Option<int>): (r: string)
    ensures r == "NaN-NaN-NaN" <==> d.None?
  {
    if d.None? then "NaN-NaN-NaN"
    else
      var c := ToCivil(d.value);
      var y := IntToString(c.year);
      assert y[0] == '-' || IsDigit(y[0]);
      assert CivilString(c)[0] == y[0];
      CivilString(c)
  }

  /** A "y-mm-dd" string with two-character month and day determines its three parts. */
  lemma DashedPartsInjective(y1: string, m1: string, d1: string, y2: string, m2: string, d2: string)
    requires |m1| == |m2| == |d1| == |d2| == 2
    requires y1 + "-" + m1 + "-" + d1 == y2 + "-" + m2 + "-" + d2
    ensures y1 == y2 && m1 == m2 && d1 == d2
  {
    var s := y1 + "-" + m1 + "-" + d1;
    var t := y2 + "-" + m2 + "-" + d2;
    assert |y1| == |y2|;
    assert s[..|y1|] == y1 && t[..|y2|] == y2;
    assert s[|y1| + 1..|y1| + 3] == m1 && t[|y2| + 1..|y2| + 3] == m2;
    assert s[|y1| + 4..] == d1 && t[|y2| + 4..] == d2;
  }

  /** The year, month and day of a valid date can be read back from its string. */
  lemma CivilStringInjective(a: Date, b: Date)
    requires ValidDate(a) && ValidDate(b) && CivilString(a) == CivilString(b)
    ensures a == b
  {
    Pad2Shape(a.month); Pad2Shape(a.day); Pad2Shape(b.month); Pad2Shape(b.day);
    DashedPartsInjective(IntToString(a.year), Pad2(a.month), Pad2(a.day), IntToString(b.year), Pad2(b.month), Pad2(b.day));
    IntToStringInjective(a.year, b.year);
    Pad2Injective(a.month, b.month);
    Pad2Injective(a.day, b.day);
  }

  /** isSameDay compares the formatted strings. */
  function IsSameDay(a: Option<int>, b: Option<int>): (r: bool)
    ensures a == b ==> r
    ensures r ==> (a.Some? <==> b.Some?)
  {
    FormatDate(a) == FormatDate(b)
  }

  /** Two valid dates are the same day exactly when they are the same date. */
  lemma IsSameDayIff(a: int, b: int)
    ensures IsSameDay(Some(a), Some(b)) <==> a == b
  {
    if IsSameDay(Some(a), Some(b)) {
      CivilStringInjective(ToCivil(a), ToCivil(b));
    }
  }

  /** Never the same day as an Invalid Date; two Invalid Dates compare equal. */
  lemma IsSameDayInvalid(a: int)
    ensures !IsSameDay(Some(a), None) && IsSameDay(None, None)
  {
    var c := ToCivil(a);
    var y := IntToString(c.year);
    assert FormatDate(Some(a))[0] == y[0];
  }

  datatype DateArg = DateValue(day: int) | DateText(text: string)

  /** isToday, with "now" passed in as today's day number. */
  function IsToday(d: DateArg, today: int): (r: bool)
    ensures d.DateValue? && d.day == today ==> r
    ensures d.DateText? && ParseDate(d.text).None? ==> !r
  {
    var compare := if d.DateText? then ParseDate(d.text) else Some(d.day);
    IsSameDay(Some(today), compare)
  }

  /** isPastDate: both sides at midnight, strictly before; NaN compares false. */
  function IsPastDate(s: string, today: int): (r: bool)
    ensures r ==> ParseDate(s).Some? && ParseDate(s).value < today
    ensures ParseDate(s).Some? && ParseDate(s).value < today ==> r
  {
    var d := ParseDate(s);
    d.Some? && d.value < today
  }

  /** The calendar dates whose strings parseDate reads back exactly. */
  predicate RoundTrips(c: Date)
  {
    ValidDate(c) && c.year >= 100 && DayNumber(c) <= MaxDays
  }

  lemma {:induction false} JsNumberOfDigits(s: string)
    requires IsDigits(s)
    ensures JsNumber(s) == Some(DigitsValue(s))
  {
    assert !JsSpace(s[0]) && !JsSpace(s[|s| - 1]);
    TrimUnchanged(s, JsSpace);
  }

  lemma SplitDashed(y: string, m: string, d: string)
    requires '-' !in y && '-' !in m && '-' !in d
    ensures Split(y + "-" + m + "-" + d, '-') == [y, m, d]
  {
    assert y + "-" + m + "-" + d == y + ['-'] + (m + ['-'] + d);
    SplitCons(y, '-', m + ['-'] + d);
    SplitCons(m, '-', d);
  }

  lemma NoDashInDigits(s: string)
    requires IsDigits(s)
    ensures '-' !in s
  {
  }

  /** A date from year 100 on lies well inside the range of Date. */
  lemma RoundTripInRange(c: Date)
    requires RoundTrips(c)
    ensures -MaxDays <= DayNumber(c) <= MaxDays
  {
    DayNumberInYear(c);
    DaysBeforeYearMonotone(100, c.year);
    DaysBeforeYearBounded(100, 1970);
  }

  /** The Date constructor on an in-range date from year 100 on gives its day number. */
  lemma NewDateOfValid(c: Date)
    requires RoundTrips(c)
    ensures NewDate(Some(c.year), Some(c.month - 1), Some(c.day)) == Some(DayNumber(c))
  {
    RoundTripInRange(c);
    MakeDayOfValid(c);
  }

  /** Number() of each part of a formatted date gives back its field. */
  lemma NumbersOfParts(c: Date)
    requires RoundTrips(c)
    ensures JsNumber(NatToString(c.year)) == Some(c.year)
    ensures JsNumber(Pad2(c.month)) == Some(c.month)
    ensures JsNumber(Pad2(c.day)) == Some(c.day)
  {
    Pad2Shape(c.month);
    Pad2Shape(c.day);
    JsNumberOfDigits(NatToString(c.year));
    JsNumberOfDigits(Pad2(c.month));
    JsNumberOfDigits(Pad2(c.day));
    DigitsValueOfNatToString(c.year);
    Pad2Value(c.month);
    Pad2Value(c.day);
  }

  /** parseDate reads a formatted date back as the same day. */
  lemma ParseCivilString(c: Date)
    requires RoundTrips(c)
    ensures ParseDate(CivilString(c)) == Some(DayNumber(c))
  {
    var y, m, d := NatToString(c.year), Pad2(c.month), Pad2(c.day);
    Pad2Shape(c.month);
    Pad2Shape(c.day);
    NoDashInDigits(y);
    NoDashInDigits(m);
    NoDashInDigits(d);
    SplitDashed(y, m, d);
    NumbersOfParts(c);
    NewDateOfValid(c);
  }

  /** formatDate(parseDate(s)) == s for every zero-padded date string s. */
  lemma FormatParseRoundTrip(c: Date)
    requires RoundTrips(c)
    ensures FormatDate(ParseDate(CivilString(c))) == CivilString(c)
  {
    ParseCivilString(c);
    ToCivilOfDayNumber(c);
  }

  /** parseDate(formatDate(d)) is d again. */
  lemma ParseFormatRoundTrip(n: int)
    requires RoundTrips(ToCivil(n))
    ensures ParseDate(FormatDate(Some(n))) == Some(n)
  {
    ParseCivilString(ToCivil(n));
  }

  /** A formatted date is past exactly when it is before today. */
  lemma IsPastDateOfFormatted(n: int, today: int)
    requires RoundTrips(ToCivil(n))
    ensures IsPastDate(FormatDate(Some(n)), today) <==> n < today
  {
    ParseFormatRoundTrip(n);
  }

  /** Today is never past. */
  lemma TodayIsNotPast(today: int)
    requires RoundTrips(ToCivil(today))
    ensures !IsPastDate(FormatDate(Some(today)), today)
  {
    IsPastDateOfFormatted(today, today);
  }

  /** isToday of a Date or of its formatted string. */
  lemma IsTodayIff(n: int, today: int)
    ensures IsToday(DateValue(n), today) <==> n == today
    ensures RoundTrips(ToCivil(n)) ==> (IsToday(DateText(FormatDate(Some(n))), today) <==> n == today)
  {
    IsSameDayIff(today, n);
    if RoundTrips(ToCivil(n)) {
      ParseFormatRoundTrip(n);
    }
  }

  /** Weekday of the Sunday that starts n's week. */
  lemma StartOfWeek(n: int, start: int)
    requires start == n - Weekday(n)
    ensures Weekday(start) == 0
  {
    var w := Weekday(n);
    assert n + 4 == 7 * ((n + 4) / 7) + w;
    assert start + 4 == 7 * ((n + 4) / 7);
  }

  /** date.setDate(date.getDate() + k): the new day number, which is k days on. */
  method AddDays(n: int, k: int) returns (r: int)
    ensures r == n + k
  {
    var c := ToCivil(n);
    MakeDayOfValid(c);
    MakeDayShift(c.year, c.month - 1, c.day, k);
    r := MakeDay(c.year, c.month - 1, c.day + k);
  }

  /** The first and last day of the month with index month (0..11) of year y. */
  lemma MonthEnds(y: int, month: int)
    requires 0 <= month < 12
    ensures ToCivil(MakeDay(y, month, 1)).year == y
    ensures MakeDay(y, month, 1) == DayNumber(Date(y, month + 1, 1))
    ensures MakeDay(y, month + 1, 0) == MakeDay(y, month, 1) + MonthLength(y, month + 1) - 1
    ensures ToCivil(MakeDay(y, month + 1, 0)).day == MonthLength(y, month + 1)
  {
    FirstOfMonth(Date(y, month + 1, 1));
    NextMonthStart(y, month);
    LastOfMonth(y, month);
  }

  lemma FirstOfMonth(first: Date)
    requires ValidDate(first) && first.day == 1
    ensures MakeDay(first.year, first.month - 1, 1) == DayNumber(first)
    ensures ToCivil(MakeDay(first.year, first.month - 1, 1)) == first
  {
    MakeDayOfValid(first);
    ToCivilOfDayNumber(first);
  }

  lemma LastOfMonth(y: int, month: int)
    requires 0 <= month < 12
    ensures ToCivil(MakeDay(y, month + 1, 0)).day == MonthLength(y, month + 1)
  {
    var last := Date(y, month + 1, MonthLength(y, month + 1));
    var n := MakeDay(y, month + 1, 0);
    assert n == DayNumber(last) by { NextMonthStart(y, month); }
    ToCivilOfDayNumber(last);
  }

  /** Day 0 of the following month is the last day of this one. */
  lemma NextMonthStart(y: int, month: int)
    requires 0 <= month < 12
    ensures MakeDay(y, month + 1, 0) == DaysBeforeYear(y) + DaysBeforeMonth(y, month + 1) + MonthLength(y, month + 1) - 1
  {
    DaysBeforeMonthStep(y, month + 1);
    if month == 11 {
      DecemberEnd(y);
      DaysBeforeYearStep(y);
    } else {
      MakeDayInYear(y, month + 1);
    }
  }

  lemma DecemberEnd(y: int)
    ensures MakeDay(y, 12, 0) == DaysBeforeYear(y + 1) - 1
  {
    assert 12 / 12 == 1 && 12 % 12 == 0;
  }

  lemma MakeDayInYear(y: int, m: int)
    requires 0 <= m < 12
    ensures MakeDay(y, m, 0) == DaysBeforeYear(y) + DaysBeforeMonth(y, m + 1) - 1
  {
    assert m / 12 == 0 && m % 12 == m;
  }

  datatype MonthData = MonthData(days: seq<int>, firstDay: int, lastDay: int, daysInMonth: int, year: int)

  /** The grid loop of getMonthData: count days from start, advancing a copy one day at a time. */
  method ConsecutiveDays(start: int, count: nat) returns (days: seq<int>)
    ensures |days| == count
    ensures forall k :: 0 <= k < count ==> days[k] == start + k
  {
    days := [];
    var current := start;
    var i := 0;
    while i < count
      invariant 0 <= i <= count
      invariant |days| == i && current == start + i
      invariant forall k :: 0 <= k < i ==> days[k] == start + k
    {
      days := days + [current];
      current := AddDays(current, 1);
      i := i + 1;
    }
  }

  /** getMonthData(year, month): the 6-week grid for the month with index month. */
  method GetMonthData(year: int, month: int) returns (r: MonthData)
    requires 0 <= month < 12
    ensures r.year == ConstructorYear(year)
    ensures r.firstDay == DayNumber(Date(r.year, month + 1, 1))
    ensures r.daysInMonth == MonthLength(r.year, month + 1)
    ensures r.lastDay == r.firstDay + r.daysInMonth - 1
    ensures |r.days| == 42
    ensures forall i :: 0 <= i < 42 ==> r.days[i] == r.days[0] + i
    ensures Weekday(r.days[0]) == 0
    ensures r.days[0] <= r.firstDay && r.lastDay < r.days[0] + 42
    ensures r.firstDay - r.days[0] == Weekday(r.firstDay)
    ensures r.days[Weekday(r.firstDay)] == r.firstDay
  {
    var y := ConstructorYear(year);
    var firstDay := MakeDay(y, month, 1);
    var lastDay := MakeDay(y, month + 1, 0);
    MonthEnds(y, month);
    var daysInMonth := ToCivil(lastDay).day;
    var shownYear := ToCivil(firstDay).year;
    var start := AddDays(firstDay, -Weekday(firstDay));
    StartOfWeek(firstDay, start);
    var days := ConsecutiveDays(start, 42);
    assert days[0] == start;
    r := MonthData(days, firstDay, lastDay, daysInMonth, shownYear);
  }

  /** getWeekData(date): the seven days of date's week, Sunday first. */
  method GetWeekData(date: int) returns (days: seq<int>)
    ensures |days| == 7
    ensures forall i :: 0 <= i < 7 ==> days[i] == days[0] + i
    ensures Weekday(days[0]) == 0
    ensures days[Weekday(date)] == date
  {
    var startOfWeek := AddDays(date, -Weekday(date));
    StartOfWeek(date, startOfWeek);
    days := [];
    var i := 0;
    while i < 7
      invariant 0 <= i <= 7 && |days| == i
      invariant forall k :: 0 <= k < i ==> days[k] == startOfWeek + k
    {
      var day := AddDays(startOfWeek, i);
      days := days + [day];
      i := i + 1;
    }
  }

  datatype HourSlot = HourSlot(hour: int, time24: string)

  /** getDayHours: one slot per hour of the day, labelled "HH:00". */
  method GetDayHours() returns (hours: seq<HourSlot>)
    ensures |hours| == 24
    ensures forall i :: 0 <= i < 24 ==> hours[i].hour == i
    ensures forall i :: 0 <= i < 24 ==>
      |hours[i].time24| == 5 && IsDigits(hours[i].time24[..2])
      && DigitsValue(hours[i].time24[..2]) == i && hours[i].time24[2..] == ":00"
  {
    hours := [];
    var i := 0;
    while i < 24
      invariant 0 <= i <= 24 && |hours| == i
      invariant forall k :: 0 <= k < i ==> hours[k].hour == k
      invariant forall k :: 0 <= k < i ==>
        |hours[k].time24| == 5 && IsDigits(hours[k].time24[..2])
        && DigitsValue(hours[k].time24[..2]) == k && hours[k].time24[2..] == ":00"
    {
      var time24 := Pad2(i) + ":00";
      Pad2Shape(i);
      Pad2Value(i);
      assert time24[..2] == Pad2(i) && time24[2..] == ":00";
      hours := hours + [HourSlot(i, time24)];
      i := i + 1;
    }
  }
}
