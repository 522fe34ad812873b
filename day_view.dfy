/**
 * The day view's spreading of a day's tasks over the business hours
 * (frontend/src/components/Calendar/DayView.jsx): hours 9 to 17 each take the
 * next ceil(n / 9) tasks.
 */
module DayView {
  import opened TaskUtils

  const FirstHour: int := 9
  const LastHour: int := 17
  const BusinessHours: int := 9

  function Min(a: int, b: int): int { if a <= b then a else b }

  /** Array.prototype.slice(from, to) for 0 <= from <= to: both ends clamped to the length. */
  function Slice<T>(s: seq<T>, from: nat, to: nat): (r: seq<T>)
    requires from <= to
    ensures |r| <= to - from
    ensures from >= |s| ==> r == []
    ensures from <= |s| ==> |r| == Min(to, |s|) - from
    ensures forall k :: 0 <= k < |r| ==> r[k] == s[from + k]
  {
    s[Min(from, |s|)..Min(to, |s|)]
  }

  /** Math.ceil(n / 9). */
  function TasksPerHour(n: nat): (k: nat)
    ensures BusinessHours * k >= n
    ensures n > 0 ==> BusinessHours * (k - 1) < n
  {
    (n + BusinessHours - 1) / BusinessHours
  }

  /** getTasksForHour: nothing outside business hours, otherwise this hour's share of the day's tasks. */
  function GetTasksForHour(dayTasks: seq<Task>, hour: int): (r: seq<Task>)
    ensures !(FirstHour <= hour <= LastHour) ==> r == []
    ensures |r| <= TasksPerHour(|dayTasks|)
  {
    if !(FirstHour <= hour <= LastHour) then []
    else
      var per := TasksPerHour(|dayTasks|);
      var index := hour - FirstHour;
      Slice(dayTasks, index * per, (index + 1) * per)
  }

  /** The slices of the hours from `hour` through 17, in order. */
  function SlicesFrom(dayTasks: seq<Task>, hour: int): seq<Task>
    requires FirstHour <= hour <= LastHour + 1
    decreases LastHour + 1 - hour
  {
    if hour > LastHour then [] else GetTasksForHour(dayTasks, hour) + SlicesFrom(dayTasks, hour + 1)
  }

  /** One hour's slice followed by the rest from its end is the rest from its start. */
  lemma SliceThenRest(s: seq<Task>, lo: nat, per: nat)
    ensures Slice(s, lo, lo + per) + s[Min(lo + per, |s|)..] == s[Min(lo, |s|)..]
  {
    var a, b := Min(lo, |s|), Min(lo + per, |s|);
    assert s[a..b] + s[b..] == s[a..];
  }

  /** The hour after index i starts per tasks further on. */
  lemma NextHourStart(i: nat, per: nat)
    ensures i * per >= 0 && (i + 1) * per == i * per + per
  {
  }

  /** From `hour` on, the slices are exactly the tasks not taken by the earlier hours. */
  lemma {:induction false} SlicesFromSuffix(dayTasks: seq<Task>, hour: int)
    requires FirstHour <= hour <= LastHour + 1
    ensures SlicesFrom(dayTasks, hour) == dayTasks[Min((hour - FirstHour) * TasksPerHour(|dayTasks|), |dayTasks|)..]
    decreases LastHour + 1 - hour
  {
    var per := TasksPerHour(|dayTasks|);
    var i: nat := hour - FirstHour;
    NextHourStart(i, per);
    var lo: nat := i * per;
    if hour > LastHour {
      assert lo == BusinessHours * per;
    } else {
      SlicesFromSuffix(dayTasks, hour + 1);
      assert GetTasksForHour(dayTasks, hour) == Slice(dayTasks, lo, lo + per);
      SliceThenRest(dayTasks, lo, per);
    }
  }

  /** The nine slices, concatenated in hour order, are the day's tasks: none lost, none repeated. */
  lemma HoursPartitionTasks(dayTasks: seq<Task>)
    ensures SlicesFrom(dayTasks, FirstHour) == dayTasks
  {
    SlicesFromSuffix(dayTasks, FirstHour);
  }
}
