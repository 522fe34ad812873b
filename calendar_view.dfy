/**
 * The calendar's navigation state (frontend/src/components/Calendar/Calendar.jsx):
 * the date on display and the view mode, with previous/next/today and the
 * date a click reports.  Dates are day numbers; the time of day is not kept.
 */
module CalendarView {
  import opened Wrappers
  import opened CivilCalendar
  import opened DateUtils

  datatype ViewMode = MonthView | WeekView | DayView

  /** new Date(n).setMonth(getMonth() + k): same day of the month, with JavaScript's overflow. */
  function ShiftMonth(n: int, k: int): int
  {
    var c := ToCivil(n);
    MakeDay(c.year, c.month - 1 + k, c.day)
  }

  /** The date previous (forward false) or next (forward true) moves to in a view. */
  function Moved(view: ViewMode, n: int, forward: bool): (r: int)
    ensures view == WeekView ==> r == (if forward then n + 7 else n - 7)
    ensures view == DayView ==> r == (if forward then n + 1 else n - 1)
  {
    match view
    case MonthView => ShiftMonth(n, if forward then 1 else -1)
    case WeekView => if forward then n + 7 else n - 7
    case DayView => if forward then n + 1 else n - 1
  }

  /** The calendar date k months after c, keeping the day of the month. */
  function MonthsOn(c: Date, k: int): Date
  {
    Date(c.year + (c.month - 1 + k) / 12, (c.month - 1 + k) % 12 + 1, c.day)
  }

  /** Shifting by k months lands on the same day of month k months on, when that day exists there. */
  lemma ShiftMonthInRange(n: int, k: int)
    requires ValidDate(MonthsOn(ToCivil(n), k))
    ensures ToCivil(ShiftMonth(n, k)) == MonthsOn(ToCivil(n), k)
  {
    var target := MonthsOn(ToCivil(n), k);
    assert ShiftMonth(n, k) == DayNumber(target);
    ToCivilOfDayNumber(target);
  }

  /** One month on and one month back is the same calendar date. */
  lemma MonthsOnAndBack(c: Date)
    requires ValidDate(c)
    ensures MonthsOn(MonthsOn(c, 1), -1) == c
  {
    if c.month == 12 {
      assert MonthsOn(c, 1) == Date(c.year + 1, 1, c.day);
    } else {
      assert MonthsOn(c, 1) == Date(c.year, c.month + 1, c.day);
    }
  }

  /** In the first 28 days of a month, next month then previous month returns to the same date. */
  lemma MonthNextPrevious(n: int)
    requires ToCivil(n).day <= 28
    ensures ShiftMonth(ShiftMonth(n, 1), -1) == n
  {
    var c := ToCivil(n);
    var next := ShiftMonth(n, 1);
    MonthsOnAndBack(c);
    ShiftMonthInRange(n, 1);
    ShiftMonthInRange(next, -1);
    ToCivilOfDayNumber(c);
    DayNumberInjective(ToCivil(ShiftMonth(next, -1)), c);
  }

  /** In week and day views next then previous (and previous then next) restores the date. */
  lemma NextPreviousRestores(view: ViewMode, n: int)
    requires view != MonthView || ToCivil(n).day <= 28
    ensures view != MonthView ==> Moved(view, Moved(view, n, true), false) == n
    ensures view != MonthView ==> Moved(view, Moved(view, n, false), true) == n
    ensures view == MonthView ==> Moved(view, Moved(view, n, true), false) == n
  {
    if view == MonthView {
      MonthNextPrevious(n);
    }
  }

  class Calendar {
    var currentDate: int
    var view: ViewMode

    constructor (now: int)
      ensures currentDate == now && view == MonthView
    {
      currentDate := now;
      view := MonthView;
    }

    method SetView(v: ViewMode)
      modifies this`view
      ensures view == v
    {
      view := v;
    }

    /** handlePrevious. */
    method HandlePrevious()
      modifies this`currentDate
      ensures currentDate == Moved(view, old(currentDate), false)
    {
      var c := ToCivil(currentDate);
      if view == MonthView {
        currentDate := MakeDay(c.year, c.month - 1 - 1, c.day);
      } else if view == WeekView {
        currentDate := AddDays(currentDate, -7);
      } else {
        currentDate := AddDays(currentDate, -1);
      }
    }

    /** handleNext. */
    method HandleNext()
      modifies this`currentDate
      ensures currentDate == Moved(view, old(currentDate), true)
    {
      var c := ToCivil(currentDate);
      if view == MonthView {
        currentDate := MakeDay(c.year, c.month - 1 + 1, c.day);
      } else if view == WeekView {
        currentDate := AddDays(currentDate, 7);
      } else {
        currentDate := AddDays(currentDate, 1);
      }
    }

    /** handleToday, with "now" passed in. */
    method HandleToday(now: int)
      modifies this`currentDate
      ensures currentDate == now
    {
      currentDate := now;
    }
  }

  /** handleDateClick: what onDateSelect receives, a date and its formatted string. */
  function HandleDateClick(date: int): (r: (int, string))
    ensures r.0 == date
  {
    (date, FormatDate(Some(date)))
  }

  /** The reported string names the clicked date and no other, and reads back as it. */
  lemma DateClickIdentifies(date: int, other: int)
    ensures HandleDateClick(date).1 == FormatDate(Some(other)) <==> other == date
    ensures RoundTrips(ToCivil(date)) ==> ParseDate(HandleDateClick(date).1) == Some(date)
  {
    IsSameDayIff(date, other);
    if RoundTrips(ToCivil(date)) {
      ParseFormatRoundTrip(date);
    }
  }
}
