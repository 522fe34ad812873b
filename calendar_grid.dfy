/**
 * The month grid's per-day logic (frontend/src/components/Calendar/CalendarGrid.jsx):
 * the status badge of a day and the truncated task list of a cell.
 */
module CalendarGrid {
  import opened Wrappers
  import opened Text
  import opened CivilCalendar
  import opened DateUtils
  import opened TaskUtils

  const MsPerDay: int := 86400000

  datatype DayStatus = OverdueStatus | PendingStatus | CompletedStatus | NoTasks

  /**
   * parseDate(dueDate) < new Date(), with now given as today's day number and
   * the milliseconds since local midnight: a parsed date is midnight of its day,
   * and comparing with an Invalid Date is false.
   */
  predicate BeforeNow(dueDate: string, nowDay: int, nowMs: int)
  {
    var d := ParseDate(dueDate);
    d.Some? && d.value * MsPerDay < nowDay * MsPerDay + nowMs
  }

  /** With now inside its day, "before now" is "before today, or today after midnight". */
  lemma BeforeNowDays(dueDate: string, nowDay: int, nowMs: int)
    requires 0 <= nowMs < MsPerDay
    ensures BeforeNow(dueDate, nowDay, nowMs) <==>
      ParseDate(dueDate).Some? && (ParseDate(dueDate).value < nowDay || (ParseDate(dueDate).value == nowDay && nowMs > 0))
  {
    var d := ParseDate(dueDate);
    if d.Some? {
      if d.value < nowDay {
        assert d.value * MsPerDay <= nowDay * MsPerDay - MsPerDay;
      } else if d.value > nowDay {
        assert d.value * MsPerDay >= nowDay * MsPerDay + MsPerDay;
      }
    }
  }

  /** getDayStatus as written: a pending task due earlier than this instant makes the day overdue. */
  function DayStatusAsWritten(dayTasks: seq<Task>, nowDay: int, nowMs: int): (r: DayStatus)
    ensures r == OverdueStatus <==>
      exists i :: 0 <= i < |dayTasks| && BeforeNow(dayTasks[i].dueDate, nowDay, nowMs) && !dayTasks[i].completed
  {
    if exists i :: 0 <= i < |dayTasks| && BeforeNow(dayTasks[i].dueDate, nowDay, nowMs) && !dayTasks[i].completed
    then OverdueStatus
    else if exists i :: 0 <= i < |dayTasks| && !dayTasks[i].completed then PendingStatus
    else if exists i :: 0 <= i < |dayTasks| && dayTasks[i].completed then CompletedStatus
    else NoTasks
  }

  /**
   * As written, a pending task due today shows the day as overdue from one
   * millisecond past midnight, though isPastDate and the overdue filter say it is
   * not past.
   */
  lemma DueTodayShownOverdue(t: Task, today: int)
    requires t.dueDate == FormatDate(Some(today)) && !t.completed && RoundTrips(ToCivil(today))
    ensures DayStatusAsWritten([t], today, 1) == OverdueStatus
    ensures !IsPastDate(t.dueDate, today)
  {
    ParseFormatRoundTrip(today);
    BeforeNowDays(t.dueDate, today, 1);
    assert BeforeNow([t][0].dueDate, today, 1) && ![t][0].completed;
    IsPastDateOfFormatted(today, today);
  }

  /** The day status with the overdue test taken at day granularity, as isPastDate does. */
  function GetDayStatus(dayTasks: seq<Task>, today: int): (r: DayStatus)
    ensures r == OverdueStatus <==>
      exists i :: 0 <= i < |dayTasks| && IsPastDate(dayTasks[i].dueDate, today) && !dayTasks[i].completed
    ensures r == PendingStatus <==>
      r != OverdueStatus && exists i :: 0 <= i < |dayTasks| && !dayTasks[i].completed
    ensures r == CompletedStatus <==>
      dayTasks != [] && forall i :: 0 <= i < |dayTasks| ==> dayTasks[i].completed
    ensures r == NoTasks <==> dayTasks == []
  {
    assert dayTasks == [] || dayTasks[0].completed || !dayTasks[0].completed;
    if exists i :: 0 <= i < |dayTasks| && IsPastDate(dayTasks[i].dueDate, today) && !dayTasks[i].completed
    then OverdueStatus
    else if exists i :: 0 <= i < |dayTasks| && !dayTasks[i].completed then PendingStatus
    else if exists i :: 0 <= i < |dayTasks| && dayTasks[i].completed then CompletedStatus
    else NoTasks
  }

  /** A task due today is never what makes the day overdue. */
  lemma DueTodayNotOverdue(t: Task, today: int)
    requires t.dueDate == FormatDate(Some(today)) && RoundTrips(ToCivil(today))
    ensures GetDayStatus([t], today) != OverdueStatus
  {
    IsPastDateOfFormatted(today, today);
  }

  /** What a cell lists: at most three tasks, then "+k more" for the rest. */
  datatype CellTasks = CellTasks(shown: seq<Task>, more: Option<string>)

  function CellContents(dayTasks: seq<Task>): (r: CellTasks)
    ensures |r.shown| <= 3 && |r.shown| <= |dayTasks|
    ensures dayTasks[..|r.shown|] == r.shown
    ensures |dayTasks| <= 3 ==> r.shown == dayTasks && r.more.None?
    ensures |dayTasks| > 3 ==> |r.shown| == 3 && r.more == Some("+" + NatToString(|dayTasks| - 3) + " more")
  {
    var shown := if |dayTasks| <= 3 then dayTasks else dayTasks[..3];
    CellTasks(shown, if |dayTasks| > 3 then Some("+" + NatToString(|dayTasks| - 3) + " more") else None)
  }

  /** The shown tasks and the counted rest account for every task of the day. */
  lemma CellAccountsForAll(dayTasks: seq<Task>)
    requires |dayTasks| > 3
    ensures |CellContents(dayTasks).shown| + (|dayTasks| - 3) == |dayTasks|
    ensures DigitsValue(NatToString(|dayTasks| - 3)) == |dayTasks| - 3
  {
    DigitsValueOfNatToString(|dayTasks| - 3);
  }
}
