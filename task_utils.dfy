/**
 * Task filtering, per-day selection, counters and colour lookups of the to-do
 * and calendar views (frontend/src/utils/taskUtils.js).  "Now" is passed in as
 * today's day number.
 */
module TaskUtils {
  import opened Wrappers
  import opened Seqs
  import opened DateUtils
  import opened Text

  /** A task as the front end holds it. */
  datatype Task = Task(
    id: string, description: string, list: string, dueDate: string,
    subTasks: string, priority: string, completed: bool, importance: bool)

  // ---------------------------------------------------------------------------
  // Colour lookups: an object literal indexed by the key, `|| fallback`.

  /** Keys every object literal inherits from Object.prototype (all truthy). */
  predicate IsPrototypeKey(k: string)
  {
    k in {"constructor", "hasOwnProperty", "isPrototypeOf", "propertyIsEnumerable",
          "toLocaleString", "toString", "valueOf", "__proto__", "__defineGetter__",
          "__defineSetter__", "__lookupGetter__", "__lookupSetter__"}
  }

  /** The value of colors[key] || fallback: a class string, or an inherited member. */
  datatype Lookup = ClassName(classes: string) | Inherited(member: string)

  function LookupClass(table: map<string, string>, key: string, fallback: string): (r: Lookup)
    ensures key in table && table[key] != "" ==> r == ClassName(table[key])
    ensures key !in table && !IsPrototypeKey(key) ==> r == ClassName(fallback)
    ensures r.Inherited? <==> key !in table && IsPrototypeKey(key)
  {
    if key in table then (if table[key] != "" then ClassName(table[key]) else ClassName(fallback))
    else if IsPrototypeKey(key) then Inherited(key)
    else ClassName(fallback)
  }

  const ListColors: map<string, string> :=
    map["Personal" := "bg-pink-600", "Work" := "bg-yellow-500", "Study" := "bg-green-500"]

  const ListColorsLight: map<string, string> :=
    map["Personal" := "bg-pink-100 border-pink-300 text-pink-800",
        "Work" := "bg-yellow-100 border-yellow-300 text-yellow-800",
        "Study" := "bg-green-100 border-green-300 text-green-800"]

  const PriorityColors: map<string, string> :=
    map["high" := "text-red-600 bg-red-50 border-red-200",
        "medium" := "text-yellow-600 bg-yellow-50 border-yellow-200",
        "low" := "text-green-600 bg-green-50 border-green-200"]

  /** The strong colour of a list: its own, gray for any other plain key. */
  function GetListColor(listType: string): (r: Lookup)
    ensures listType in ListColors ==> r == ClassName(ListColors[listType])
    ensures listType !in ListColors && !IsPrototypeKey(listType) ==> r == ClassName("bg-gray-500")
    ensures r.Inherited? <==> IsPrototypeKey(listType)
  {
    LookupClass(ListColors, listType, "bg-gray-500")
  }

  /** The light colour classes of a list: its own, light gray for any other plain key. */
  function GetListColorLight(listType: string): (r: Lookup)
    ensures listType in ListColorsLight ==> r == ClassName(ListColorsLight[listType])
    ensures listType !in ListColorsLight && !IsPrototypeKey(listType) ==>
      r == ClassName("bg-gray-100 border-gray-300 text-gray-800")
    ensures r.Inherited? <==> IsPrototypeKey(listType)
  {
    LookupClass(ListColorsLight, listType, "bg-gray-100 border-gray-300 text-gray-800")
  }

  /** The colour classes of a priority: its own, the low ones for any other plain key. */
  function GetPriorityColor(priority: string): (r: Lookup)
    ensures priority in PriorityColors ==> r == ClassName(PriorityColors[priority])
    ensures priority !in PriorityColors && !IsPrototypeKey(priority) ==> r == ClassName(PriorityColors["low"])
    ensures r.Inherited? <==> IsPrototypeKey(priority)
  {
    LookupClass(PriorityColors, priority, PriorityColors["low"])
  }

  predicate IsListName(s: string) { s == "Personal" || s == "Work" || s == "Study" }

  /** The three lists have their own colours; every other plain key is gray, or low for priorities. */
  lemma ColourFallbacks(key: string)
    ensures IsListName(key) ==> GetListColor(key) == ClassName(ListColors[key])
    ensures !IsListName(key) && !IsPrototypeKey(key) ==>
      GetListColor(key) == ClassName("bg-gray-500")
      && GetListColorLight(key) == ClassName("bg-gray-100 border-gray-300 text-gray-800")
    ensures key !in {"high", "medium", "low"} && !IsPrototypeKey(key) ==>
      GetPriorityColor(key) == GetPriorityColor("low")
    ensures IsPrototypeKey(key) ==> GetListColor(key).Inherited? && GetPriorityColor(key).Inherited?
  {
    if IsListName(key) {
      OwnListColour(key);
    } else if IsPrototypeKey(key) {
      PrototypeColours(key);
    } else {
      GrayListColours(key);
    }
    if key !in {"high", "medium", "low"} && !IsPrototypeKey(key) {
      LowPriorityFallback(key);
    }
  }

  lemma OwnListColour(key: string)
    requires IsListName(key)
    ensures GetListColor(key) == ClassName(ListColors[key])
  {
  }

  lemma GrayListColours(key: string)
    requires !IsListName(key) && !IsPrototypeKey(key)
    ensures GetListColor(key) == ClassName("bg-gray-500")
    ensures GetListColorLight(key) == ClassName("bg-gray-100 border-gray-300 text-gray-800")
  {
  }

  lemma LowPriorityFallback(key: string)
    requires key !in {"high", "medium", "low"} && !IsPrototypeKey(key)
    ensures GetPriorityColor(key) == GetPriorityColor("low")
  {
  }

  lemma PrototypeColours(key: string)
    requires IsPrototypeKey(key)
    ensures GetListColor(key).Inherited? && GetPriorityColor(key).Inherited?
  {
  }

  // ---------------------------------------------------------------------------
  // Filters

  /** The cases of filterTasks' switch; an unknown filter behaves like 'all'. */
  datatype View = All | Upcoming | DueToday | CompletedOnly | ImportantOnly | Overdue | InList(name: string)

  function ViewOf(filter: string): View
  {
    if filter == "upcoming" then Upcoming
    else if filter == "today" then DueToday
    else if filter == "completed" then CompletedOnly
    else if filter == "important" then ImportantOnly
    else if filter == "overdue" then Overdue
    else if IsListName(filter) then InList(filter)
    else All
  }

  /** The filter names of the switch select their own case. */
  lemma ViewNames()
    ensures ViewOf("all") == All && ViewOf("upcoming") == Upcoming && ViewOf("today") == DueToday
    ensures ViewOf("completed") == CompletedOnly && ViewOf("important") == ImportantOnly
    ensures ViewOf("overdue") == Overdue
    ensures ViewOf("Personal") == InList("Personal") && ViewOf("Work") == InList("Work")
    ensures ViewOf("Study") == InList("Study")
  {
  }

  /** Whether view v shows task t, with today's formatted date. */
  predicate Shows(v: View, t: Task, today: int)
  {
    var todayString := FormatDate(Some(today));
    match v
    case All => true
    case Upcoming => StrLess(todayString, t.dueDate) && !t.completed
    case DueToday => t.dueDate == todayString && !t.completed
    case CompletedOnly => t.completed
    case ImportantOnly => t.importance
    case Overdue => IsPastDate(t.dueDate, today) && !t.completed
    case InList(name) => t.list == name
  }

  function ShowsFn(v: View, today: int): Task -> bool { t => Shows(v, t, today) }

  /** filterTasks(tasks, filter). */
  function FilterTasks(tasks: seq<Task>, filter: string, today: int): (r: seq<Task>)
    ensures IsSubseq(r, tasks)
    ensures forall t :: t in r <==> t in tasks && Shows(ViewOf(filter), t, today)
    ensures ViewOf(filter) == All ==> r == tasks
    ensures |r| == Count(tasks, ShowsFn(ViewOf(filter), today))
  {
    var v := ViewOf(filter);
    FilterLength(tasks, ShowsFn(v, today));
    if v == All then
      assert IsSubseq(tasks, tasks) by { FilterAllPass(tasks, ShowsFn(All, today)); FilterIsSubseq(tasks, ShowsFn(All, today)); }
      assert Filter(tasks, ShowsFn(All, today)) == tasks by { FilterAllPass(tasks, ShowsFn(All, today)); }
      tasks
    else
      FilterIsSubseq(tasks, ShowsFn(v, today));
      assert forall t :: t in Filter(tasks, ShowsFn(v, today)) <==> t in tasks && Shows(v, t, today) by {
        forall t ensures t in Filter(tasks, ShowsFn(v, today)) <==> t in tasks && Shows(v, t, today) {
          FilterMember(tasks, ShowsFn(v, today), t);
        }
      }
      Filter(tasks, ShowsFn(v, today))
  }

  /** 'today' and 'upcoming' never show the same task; neither shows a completed one, nor does 'overdue'. */
  lemma TodayUpcomingDisjoint(t: Task, today: int)
    ensures !(Shows(DueToday, t, today) && Shows(Upcoming, t, today))
    ensures Shows(DueToday, t, today) || Shows(Upcoming, t, today) || Shows(Overdue, t, today) ==> !t.completed
  {
    StrLessIrreflexive(t.dueDate);
  }

  function DueOn(date: int): Task -> bool { (t: Task) => t.dueDate == FormatDate(Some(date)) }

  /** getTasksForDate(tasks, date). */
  function GetTasksForDate(tasks: seq<Task>, date: int): (r: seq<Task>)
    ensures IsSubseq(r, tasks)
    ensures forall t :: t in r <==> t in tasks && t.dueDate == FormatDate(Some(date))
    ensures |r| == Count(tasks, DueOn(date))
  {
    var p := DueOn(date);
    FilterIsSubseq(tasks, p);
    FilterLength(tasks, p);
    assert forall t :: t in Filter(tasks, p) <==> t in tasks && p(t) by {
      forall t ensures t in Filter(tasks, p) <==> t in tasks && p(t) {
        FilterMember(tasks, p, t);
      }
    }
    Filter(tasks, p)
  }

  /** A task due on a formatted day n is selected for date exactly when n is that date. */
  lemma TasksForDateExact(tasks: seq<Task>, t: Task, n: int, date: int)
    requires t in tasks && t.dueDate == FormatDate(Some(n))
    ensures t in GetTasksForDate(tasks, date) <==> n == date
  {
    IsSameDayIff(n, date);
  }

  datatype Stats = Stats(total: nat, completed: nat, pending: nat, today: nat, upcoming: nat, overdue: nat, important: nat)

  /** getTaskStats(tasks). */
  function GetTaskStats(tasks: seq<Task>, today: int): (s: Stats)
    ensures s.total == |tasks|
    ensures s.completed + s.pending == s.total
    ensures s.completed == |FilterTasks(tasks, "completed", today)|
    ensures s.today == |FilterTasks(tasks, "today", today)|
    ensures s.upcoming == |FilterTasks(tasks, "upcoming", today)|
    ensures s.overdue == |FilterTasks(tasks, "overdue", today)|
    ensures s.important == |FilterTasks(tasks, "important", today)|
  {
    var pending := (t: Task) => !t.completed;
    ViewNames();
    FilterComplement(tasks, ShowsFn(CompletedOnly, today), pending);
    Stats(|tasks|,
          |Filter(tasks, ShowsFn(CompletedOnly, today))|,
          |Filter(tasks, pending)|,
          |Filter(tasks, ShowsFn(DueToday, today))|,
          |Filter(tasks, ShowsFn(Upcoming, today))|,
          |Filter(tasks, ShowsFn(Overdue, today))|,
          |Filter(tasks, ShowsFn(ImportantOnly, today))|)
  }
}
