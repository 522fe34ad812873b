/**
 * The LangGraph agent of the backend (agent.py): due dates written in
 * natural language, the router that classifies a message, the two nodes
 * that answer it, the state dictionary those nodes update in place, the
 * reply assembled from the final state, and the confirmation step that
 * writes a task to Firestore. The language model, `json.loads`,
 * dateparser and uuid4 are parameters.
 */
module Agent {
  import opened Wrappers
  import opened Text
  import opened CivilCalendar
  import opened Json
  import DateUtils
  import TaskExtractor
  import Firestore

  // ---------------------------------------------------------------------------
  // parse_natural_date

  /** The two ways dateparser is called: first with the PARSERS setting, then, on a retry, without it. */
  datatype ParserSettings = WithParsers | DefaultParsers

  /**
   * dateparser.parse followed by the conversion to Asia/Colombo: the day
   * number of the calendar day it lands on, or None when nothing parses.
   * The reference time (now, in Sri Lanka) is part of the oracle.
   */
  type DateParser = (string, ParserSettings) -> Option<int>

  /** strftime("%Y-%m-%d") of a day. */
  function FormatDay(n: int): string
  {
    DateUtils.CivilString(ToCivil(n))
  }

  /** The formatted text of some day. */
  ghost predicate IsDayString(d: string)
  {
    exists n: int :: d == FormatDay(n)
  }

  /**
   * The day parse_natural_date lands on: a non-string or empty value has
   * none; otherwise the stripped text is parsed, and only when that fails
   * and the text starts with "next " (in any case) is the rest parsed once
   * more, with the default parsers.
   */
  function ResolveDay(value: Json, parse: DateParser): (r: Option<int>)
    ensures !value.JStr? || value.s == "" ==> r.None?
    ensures value.JStr? && value.s != "" && parse(PyStrip(value.s), WithParsers).Some? ==>
              r == parse(PyStrip(value.s), WithParsers)
    ensures value.JStr? && r.Some? && parse(PyStrip(value.s), WithParsers).None? ==>
              (StartsWith(Lower(PyStrip(value.s)), "next ") &&
               r == parse(PyStrip(PyStrip(value.s)[5..]), DefaultParsers))
  {
    if !value.JStr? || value.s == "" then None
    else
      var s := PyStrip(value.s);
      var first := parse(s, WithParsers);
      if first.Some? then first
      else if StartsWith(Lower(s), "next ") then parse(PyStrip(s[5..]), DefaultParsers)
      else None
  }

  /** parse_natural_date: a formatted day, or None; never the phrase it was given. */
  function ParseNaturalDate(value: Json, parse: DateParser): (r: Option<string>)
    ensures r.Some? <==> ResolveDay(value, parse).Some?
    ensures r.Some? ==> IsDayString(r.value)
    ensures !value.JStr? || value.s == "" ==> r.None?
  {
    match ResolveDay(value, parse)
    case Some(n) => Some(FormatDay(n))
    case None => None
  }

  /** A phrase "next X" that dateparser cannot read is read once more as X alone. */
  lemma NextPrefixRetried(x: string, parse: DateParser)
    requires x != [] && !PySpace(x[0]) && !PySpace(x[|x| - 1])
    requires parse("next " + x, WithParsers).None?
    ensures ResolveDay(JStr("next " + x), parse) == parse(x, DefaultParsers)
  {
    var s := "next " + x;
    NextPhraseStripped(x);
    NextPhrasePrefix(x);
    assert s[5..] == x;
    TrimUnchanged(x, PySpace);
  }

  lemma NextPhraseStripped(x: string)
    requires x != [] && !PySpace(x[|x| - 1])
    ensures PyStrip("next " + x) == "next " + x
  {
    var s := "next " + x;
    assert s[0] == 'n' && s[|s| - 1] == x[|x| - 1];
    TrimUnchanged(s, PySpace);
  }

  lemma NextPhrasePrefix(x: string)
    ensures StartsWith(Lower("next " + x), "next ")
  {
    var s := "next " + x;
    forall k | 0 <= k < 5 ensures Lower(s)[k] == "next "[k] {
      assert s[k] == "next "[k];
    }
  }

  /** A date already written YYYY-MM-DD, which dateparser reads as that day, comes back unchanged. */
  lemma IsoDateUnchanged(c: Date, parse: DateParser)
    requires ValidDate(c) && 1000 <= c.year <= 9999
    requires parse(DateUtils.CivilString(c), WithParsers) == Some(DayNumber(c))
    ensures ParseNaturalDate(JStr(DateUtils.CivilString(c)), parse) == Some(DateUtils.CivilString(c))
  {
    var s := DateUtils.CivilString(c);
    TaskExtractor.CivilStringShape(c);
    assert !PySpace(s[0]) && !PySpace(s[|s| - 1]);
    TrimUnchanged(s, PySpace);
    ToCivilOfDayNumber(c);
  }

  /** A word dateparser reads as a day comes back as that day, formatted. */
  lemma WordResolved(w: string, day: int, parse: DateParser)
    requires w != [] && !PySpace(w[0]) && !PySpace(w[|w| - 1])
    requires parse(w, WithParsers) == Some(day)
    ensures ParseNaturalDate(JStr(w), parse) == Some(FormatDay(day))
  {
    TrimUnchanged(w, PySpace);
  }

  /** The documented example "today", assuming dateparser reads it as the reference day. */
  lemma TodayResolved(today: int, parse: DateParser)
    requires parse("today", WithParsers) == Some(today)
    ensures ParseNaturalDate(JStr("today"), parse) == Some(FormatDay(today))
  {
    WordResolved("today", today, parse);
  }

  /** The documented example "tomorrow", assuming dateparser reads it as the day after the reference day. */
  lemma TomorrowResolved(today: int, parse: DateParser)
    requires parse("tomorrow", WithParsers) == Some(today + 1)
    ensures ParseNaturalDate(JStr("tomorrow"), parse) == Some(FormatDay(today + 1))
  {
    WordResolved("tomorrow", today + 1, parse);
  }

  // ---------------------------------------------------------------------------
  // Router and routing

  const SmallTalk: Json := JStr("small_talk")
  const ToolUse: Json := JStr("tool_use")

  /**
   * The intent router_node leaves in the state: the model's "intent" when
   * its reply decodes to an object holding both "intent" and "confidence"
   * (the confidence is read for the log, so its absence also falls back);
   * "small_talk" on any failure.
   */
  function RouterIntent(reply: Outcome<string>, loads: string -> Option<Json>): (r: Json)
    ensures reply.Rejected? || loads(reply.value).None? ==> r == SmallTalk
    ensures r != SmallTalk ==>
              (reply.Resolved? && loads(reply.value).Some? && loads(reply.value).value.JObj? &&
               "intent" in loads(reply.value).value.fields && "confidence" in loads(reply.value).value.fields &&
               r == loads(reply.value).value.fields["intent"])
    ensures forall m :: reply.Resolved? && loads(reply.value) == Some(JObj(m)) && "intent" in m && "confidence" in m ==>
              r == m["intent"]
  {
    if reply.Rejected? then SmallTalk
    else match loads(reply.value)
      case Some(JObj(m)) => if "intent" in m && "confidence" in m then m["intent"] else SmallTalk
      case _ => SmallTalk
  }

  /** route_decision: the intent when it is truthy, else "small_talk". */
  function RouteDecision(intent: Json): (r: Json)
    ensures Truthy(r)
    ensures Truthy(intent) ==> r == intent
    ensures !Truthy(intent) ==> r == SmallTalk
  {
    if Truthy(intent) then intent else SmallTalk
  }

  datatype NextNode = ToConversationalist | ToTaskExtractor

  /** The conditional edges out of the router; any other decision has no edge and the graph raises. */
  function Route(decision: Json): (r: Option<NextNode>)
    ensures r == Some(ToConversationalist) <==> decision == SmallTalk
    ensures r == Some(ToTaskExtractor) <==> decision == ToolUse
  {
    if decision == SmallTalk then Some(ToConversationalist)
    else if decision == ToolUse then Some(ToTaskExtractor)
    else None
  }

  /** A failed classification always reaches the conversationalist. */
  lemma FailedClassificationTalks(reply: Outcome<string>, loads: string -> Option<Json>)
    requires reply.Rejected? || loads(reply.value).None?
    ensures Route(RouteDecision(RouterIntent(reply, loads))) == Some(ToConversationalist)
  {
  }

  /** The graph has an edge for an intent exactly when it is falsy or one of the two names. */
  lemma RouteDefined(intent: Json)
    ensures Route(RouteDecision(intent)).Some? <==> !Truthy(intent) || intent == SmallTalk || intent == ToolUse
  {
  }

  // ---------------------------------------------------------------------------
  // The records the extractor builds

  const TaskLists: seq<string> := ["Personal", "Work", "Study"]
  const Priorities: seq<string> := ["low", "medium", "high"]
  const PendingStatus := "pending"

  /** TaskData as the extractor builds it: list and priority are enum members, dueDate a formatted day. */
  datatype TaskData = TaskData(
    description: Json,
    list: string,
    dueDate: string,
    subTasks: Json,
    priority: string,
    importance: Json)

  /** PendingTask: a task still missing fields; every field may be absent. */
  datatype PendingTask = PendingTask(
    description: Json,
    list: Option<string>,
    dueDate: Json,
    subTasks: Json,
    priority: Option<string>,
    missingFields: Json)

  datatype TaskConfirmation = TaskConfirmation(taskId: string, task: TaskData, status: string)

  /** An entry of pending_tasks: a dictionary sent by the client, or a PendingTask the extractor built. */
  datatype PendingEntry = Carried(raw: Json) | Drafted(draft: PendingTask)

  /** A pipe-delimited string keeps its first segment, stripped; any other value is kept. */
  function CutAtBar(raw: Json): (r: Json)
    ensures !(raw.JStr? && '|' in raw.s) ==> r == raw
    ensures raw.JStr? && '|' in raw.s ==> r == JStr(PyStrip(raw.s[..IndexOf(raw.s, '|')]))
  {
    if raw.JStr? && '|' in raw.s then
      SplitFirst(raw.s, '|');
      JStr(PyStrip(Split(raw.s, '|')[0]))
    else raw
  }

  /** TaskList(x) or TaskPriority(x) after the pipe clean-up: the member named, or None (the ValueError). */
  function ToChoice(raw: Json, values: seq<string>): (r: Option<string>)
    ensures r.Some? <==> CutAtBar(raw).JStr? && CutAtBar(raw).s in values
    ensures r.Some? ==> r.value in values && CutAtBar(raw) == JStr(r.value)
  {
    var cut := CutAtBar(raw);
    if cut.JStr? && cut.s in values then Some(cut.s) else None
  }

  /** The member named, or the default member when the value names none. */
  function ChoiceOr(raw: Json, values: seq<string>, default: string): (r: string)
    requires default in values
    ensures r in values
    ensures ToChoice(raw, values).Some? ==> r == ToChoice(raw, values).value
    ensures ToChoice(raw, values).None? ==> r == default
  {
    match ToChoice(raw, values)
    case Some(v) => v
    case None => default
  }

  /** "Personal|Work|Study" and the like pick their first alternative. */
  lemma FirstAlternativeChosen(v: string, rest: string, values: seq<string>)
    requires v in values && '|' !in v
    requires v != [] && !PySpace(v[0]) && !PySpace(v[|v| - 1])
    ensures ToChoice(JStr(v + "|" + rest), values) == Some(v)
  {
    var s := v + "|" + rest;
    assert s == v + ['|'] + rest;
    SplitCons(v, '|', rest);
    assert s[|v|] == '|';
    TrimUnchanged(v, PySpace);
    assert CutAtBar(JStr(s)) == JStr(PyStrip(Split(s, '|')[0]));
  }

  /**
   * One element of the model's "tasks": kept only when description and
   * dueDate are both truthy and the due date resolves to a day; list and
   * priority are cleaned up, falling back to Personal and medium.
   */
  function AcceptTask(f: map<string, Json>, parse: DateParser): (r: Option<TaskData>)
    ensures r.Some? <==>
              Truthy(Lookup(f, "description")) && Truthy(Lookup(f, "dueDate")) &&
              ParseNaturalDate(Lookup(f, "dueDate"), parse).Some?
    ensures r.Some? ==> "description" in f && r.value.description == f["description"] && Truthy(r.value.description)
    ensures r.Some? ==> ParseNaturalDate(Lookup(f, "dueDate"), parse) == Some(r.value.dueDate) && IsDayString(r.value.dueDate)
    ensures r.Some? ==> r.value.list == ChoiceOr(Get(f, "list", JStr("Personal")), TaskLists, "Personal")
    ensures r.Some? ==> r.value.priority == ChoiceOr(Get(f, "priority", JStr("medium")), Priorities, "medium")
    ensures r.Some? ==> r.value.list in TaskLists && r.value.priority in Priorities
    ensures r.Some? ==> r.value.subTasks == Lookup(f, "subTasks") && r.value.importance == Get(f, "importance", JBool(false))
  {
    var due := Lookup(f, "dueDate");
    if Truthy(Lookup(f, "description")) && Truthy(due) then
      match ParseNaturalDate(due, parse)
      case None => None
      case Some(d) =>
        Some(TaskData(
          f["description"],
          ChoiceOr(Get(f, "list", JStr("Personal")), TaskLists, "Personal"),
          d,
          Lookup(f, "subTasks"),
          ChoiceOr(Get(f, "priority", JStr("medium")), Priorities, "medium"),
          Get(f, "importance", JBool(false))))
    else None
  }

  /**
   * One element of the model's "pendingTasks": a truthy due date is
   * replaced by its formatted day when it resolves and kept as given when
   * it does not; list and priority become None when absent or invalid.
   */
  function DraftPending(f: map<string, Json>, parse: DateParser): (r: PendingTask)
    ensures r.description == Lookup(f, "description") && r.subTasks == Lookup(f, "subTasks")
    ensures r.missingFields == Get(f, "missingFields", JArr([]))
    ensures !Truthy(Lookup(f, "dueDate")) ==> r.dueDate == JNull
    ensures Truthy(Lookup(f, "dueDate")) ==>
              r.dueDate == (match ParseNaturalDate(f["dueDate"], parse)
                            case Some(d) => JStr(d)
                            case None => f["dueDate"])
    ensures !Truthy(Lookup(f, "list")) ==> r.list.None?
    ensures Truthy(Lookup(f, "list")) ==> r.list == ToChoice(f["list"], TaskLists)
    ensures !Truthy(Lookup(f, "priority")) ==> r.priority.None?
    ensures Truthy(Lookup(f, "priority")) ==> r.priority == ToChoice(f["priority"], Priorities)
  {
    var due := Lookup(f, "dueDate");
    var list := Lookup(f, "list");
    var priority := Lookup(f, "priority");
    PendingTask(
      Lookup(f, "description"),
      if Truthy(list) then ToChoice(list, TaskLists) else None,
      if Truthy(due) then
        (match ParseNaturalDate(due, parse)
         case Some(d) => JStr(d)
         case None => due)
      else JNull,
      Lookup(f, "subTasks"),
      if Truthy(priority) then ToChoice(priority, Priorities) else None,
      Get(f, "missingFields", JArr([])))
  }

  /** The confirmations for tasks accepted in one turn: one each, in order, pending, with the i-th fresh id. */
  function Confirmations(ts: seq<TaskData>, uuid: nat -> string): (r: seq<TaskConfirmation>)
    ensures |r| == |ts|
    ensures forall i :: 0 <= i < |ts| ==> r[i] == TaskConfirmation(uuid(i), ts[i], PendingStatus)
  {
    if ts == [] then []
    else Confirmations(ts[..|ts| - 1], uuid) + [TaskConfirmation(uuid(|ts| - 1), ts[|ts| - 1], PendingStatus)]
  }

  // ---------------------------------------------------------------------------
  // The two loops of task_extractor_node, as functions of the decoded lists

  /**
   * The tasks loop: the tasks accepted so far, and whether an element that
   * is not an object has been met (`.get` on it raises and ends the loop).
   */
  datatype Scan = Scan(accepted: seq<TaskData>, crashed: bool)

  /** What every accepted task satisfies: a truthy description, a formatted due date, a member list and priority. */
  ghost predicate ValidTask(t: TaskData)
  {
    Truthy(t.description) && IsDayString(t.dueDate) && t.list in TaskLists && t.priority in Priorities
  }

  /** One element of the tasks loop after the ones summed up in `pre`. */
  function ScanStep(pre: Scan, x: Json, parse: DateParser): (r: Scan)
    ensures pre.crashed ==> r == pre
    ensures !pre.crashed ==> (r.crashed <==> !x.JObj?)
    ensures |r.accepted| <= |pre.accepted| + 1
  {
    if pre.crashed then pre
    else if !x.JObj? then Scan(pre.accepted, true)
    else match AcceptTask(x.fields, parse)
      case None => pre
      case Some(t) => Scan(pre.accepted + [t], false)
  }

  /** Some element is not an object. */
  predicate HasNonObject(xs: seq<Json>)
  {
    exists i :: 0 <= i < |xs| && !xs[i].JObj?
  }

  lemma HasNonObjectSnoc(init: seq<Json>, last: Json)
    ensures HasNonObject(init + [last]) <==> HasNonObject(init) || !last.JObj?
  {
    var xs := init + [last];
    if HasNonObject(init) {
      var i :| 0 <= i < |init| && !init[i].JObj?;
      assert xs[i] == init[i];
    }
    if !last.JObj? {
      assert xs[|init|] == last;
    }
    if HasNonObject(xs) {
      var i :| 0 <= i < |xs| && !xs[i].JObj?;
      if i < |init| {
        assert init[i] == xs[i];
      }
    }
  }

  function ScanTasks(xs: seq<Json>, parse: DateParser): (r: Scan)
    ensures r.crashed <==> HasNonObject(xs)
    ensures |r.accepted| <= |xs|
  {
    if xs == [] then Scan([], false)
    else
      var init := xs[..|xs| - 1];
      var last := xs[|xs| - 1];
      HasNonObjectSnoc(init, last);
      assert xs == init + [last];
      ScanStep(ScanTasks(init, parse), last, parse)
  }

  /** A step keeps every accepted task valid: a task it adds passed AcceptTask. */
  lemma ScanStepValid(pre: Scan, x: Json, parse: DateParser)
    requires forall k :: 0 <= k < |pre.accepted| ==> ValidTask(pre.accepted[k])
    ensures forall k :: 0 <= k < |ScanStep(pre, x, parse).accepted| ==> ValidTask(ScanStep(pre, x, parse).accepted[k])
  {
    if !pre.crashed && x.JObj? && AcceptTask(x.fields, parse).Some? {
      var t := AcceptTask(x.fields, parse).value;
      AcceptedValid(x.fields, parse);
      AppendValid(pre.accepted, t);
      assert ScanStep(pre, x, parse).accepted == pre.accepted + [t];
    } else {
      assert ScanStep(pre, x, parse).accepted == pre.accepted;
    }
  }

  lemma AppendValid(ts: seq<TaskData>, t: TaskData)
    requires forall k :: 0 <= k < |ts| ==> ValidTask(ts[k])
    requires ValidTask(t)
    ensures forall k :: 0 <= k < |ts + [t]| ==> ValidTask((ts + [t])[k])
  {
  }

  /** A task AcceptTask keeps is valid. */
  lemma AcceptedValid(f: map<string, Json>, parse: DateParser)
    requires AcceptTask(f, parse).Some?
    ensures ValidTask(AcceptTask(f, parse).value)
  {
  }

  /**
   * No raw phrase reaches a task: every task the loop accepts has a truthy
   * description, a formatted due date, and a member list and priority.
   */
  lemma {:induction false} ScanTasksValid(xs: seq<Json>, parse: DateParser)
    ensures forall k :: 0 <= k < |ScanTasks(xs, parse).accepted| ==> ValidTask(ScanTasks(xs, parse).accepted[k])
  {
    if xs != [] {
      var init := xs[..|xs| - 1];
      assert xs == init + [xs[|xs| - 1]];
      ScanTasksSnoc(init, xs[|xs| - 1], parse);
      ScanTasksValid(init, parse);
      ScanStepValid(ScanTasks(init, parse), xs[|xs| - 1], parse);
    }
  }

  /** The loop over one more element is one more step. */
  lemma ScanTasksSnoc(ys: seq<Json>, x: Json, parse: DateParser)
    ensures ScanTasks(ys + [x], parse) == ScanStep(ScanTasks(ys, parse), x, parse)
  {
    assert (ys + [x])[..|ys|] == ys;
  }

  /** Once the loop has raised, later elements change nothing. */
  lemma {:induction false} ScanTasksStopsAtCrash(xs: seq<Json>, k: nat, parse: DateParser)
    requires k <= |xs| && ScanTasks(xs[..k], parse).crashed
    ensures ScanTasks(xs, parse) == ScanTasks(xs[..k], parse)
    decreases |xs| - k
  {
    if k < |xs| {
      assert xs[..k + 1] == xs[..k] + [xs[k]];
      ScanTasksSnoc(xs[..k], xs[k], parse);
      ScanTasksStopsAtCrash(xs, k + 1, parse);
    } else {
      assert xs[..k] == xs;
    }
  }

  /** The pending loop: the drafts, or None when an element that is not an object makes it raise. */
  function ScanPending(xs: seq<Json>, parse: DateParser): Option<seq<PendingTask>>
  {
    if xs == [] then Some([])
    else
      var pre := ScanPending(xs[..|xs| - 1], parse);
      var x := xs[|xs| - 1];
      if pre.None? || !x.JObj? then None
      else Some(pre.value + [DraftPending(x.fields, parse)])
  }

  /** The pending loop finishes exactly when every element is an object. */
  lemma {:induction false} ScanPendingDefined(xs: seq<Json>, parse: DateParser)
    ensures ScanPending(xs, parse).Some? <==> forall i :: 0 <= i < |xs| ==> xs[i].JObj?
  {
    if xs != [] {
      var init := xs[..|xs| - 1];
      ScanPendingDefined(init, parse);
      assert forall i :: 0 <= i < |init| ==> init[i] == xs[i];
      if ScanPending(xs, parse).None? {
        if forall i :: 0 <= i < |init| ==> init[i].JObj? {
          assert !xs[|xs| - 1].JObj?;
        } else {
          var i :| 0 <= i < |init| && !init[i].JObj?;
          assert !xs[i].JObj?;
        }
      }
    }
  }

  /** When the pending loop finishes, it has drafted every element in order. */
  lemma {:induction false} ScanPendingContents(xs: seq<Json>, parse: DateParser)
    requires ScanPending(xs, parse).Some?
    ensures |ScanPending(xs, parse).value| == |xs|
    ensures forall i :: 0 <= i < |xs| ==> xs[i].JObj? && ScanPending(xs, parse).value[i] == DraftPending(xs[i].fields, parse)
  {
    if xs != [] {
      var init := xs[..|xs| - 1];
      var last := xs[|xs| - 1];
      assert ScanPending(init, parse).Some? && last.JObj?;
      ScanPendingContents(init, parse);
      var pre := ScanPending(init, parse).value;
      var r := ScanPending(xs, parse).value;
      assert r == pre + [DraftPending(last.fields, parse)];
      forall i | 0 <= i < |xs|
        ensures xs[i].JObj? && r[i] == DraftPending(xs[i].fields, parse)
      {
        if i < |init| {
          assert init[i] == xs[i];
          assert r[i] == pre[i];
        }
      }
    }
  }

  /** The pending loop drafts every element, in order, unless some element is not an object. */
  lemma ScanPendingDrafts(xs: seq<Json>, parse: DateParser)
    ensures ScanPending(xs, parse).Some? <==> forall i :: 0 <= i < |xs| ==> xs[i].JObj?
    ensures ScanPending(xs, parse).Some? ==>
              |ScanPending(xs, parse).value| == |xs| &&
              forall i :: 0 <= i < |xs| ==> ScanPending(xs, parse).value[i] == DraftPending(xs[i].fields, parse)
  {
    ScanPendingDefined(xs, parse);
    if ScanPending(xs, parse).Some? {
      ScanPendingContents(xs, parse);
    }
  }

  /** `for task in result.get("tasks", [])`: a string or an object with items raises on the first `.get`. */
  function ScanTaskItems(j: Json, parse: DateParser): Scan
  {
    match Iterate(j)
    case Elements(xs) => ScanTasks(xs, parse)
    case Strings(n) => Scan([], n != 0)
    case NotIterable => Scan([], true)
  }

  function ScanPendingItems(j: Json, parse: DateParser): Option<seq<PendingTask>>
  {
    match Iterate(j)
    case Elements(xs) => ScanPending(xs, parse)
    case Strings(n) => if n == 0 then Some([]) else None
    case NotIterable => None
  }

  // ---------------------------------------------------------------------------
  // The state dictionary

  /** A conversation_history entry. */
  type Message = map<string, string>

  predicate Readable(msg: Message)
  {
    "role" in msg && "content" in msg
  }

  /** `history[-n:]`. */
  function Recent(h: seq<Message>, n: nat): (r: seq<Message>)
    ensures |r| <= n && |r| <= |h| && r == h[|h| - |r|..]
    ensures |h| <= n ==> r == h
  {
    if |h| <= n then h else h[|h| - n..]
  }

  /** Whether the last n messages can be read (each has a role and a content). */
  predicate HistoryReadable(h: seq<Message>, n: nat)
  {
    forall k :: 0 <= k < |Recent(h, n)| ==> Readable(Recent(h, n)[k])
  }

  /** `', '.join(v)` succeeds: v is a list of strings, a string, or an object (its keys). */
  predicate JoinsAsText(j: Json)
  {
    match Iterate(j)
    case Elements(xs) => forall k :: 0 <= k < |xs| ==> xs[k].JStr?
    case Strings(_) => true
    case NotIterable => false
  }

  /** Describing the pending tasks in the prompt succeeds: each is a dictionary whose missingFields joins. */
  predicate PromptReadable(pending: seq<PendingEntry>)
  {
    forall k :: 0 <= k < |pending| ==>
      pending[k].Carried? && pending[k].raw.JObj? &&
      JoinsAsText(Get(pending[k].raw.fields, "missingFields", JArr([])))
  }

  /** A snapshot of the state dictionary (the timestamp is left out). */
  datatype State = State(
    userMessage: string,
    userId: string,
    userRole: Firestore.UserRole,
    sessionId: string,
    history: seq<Message>,
    intent: Json,
    extractedTasks: seq<TaskData>,
    pendingTasks: seq<PendingEntry>,
    taskConfirmations: seq<TaskConfirmation>,
    response: Json,
    needsFollowUp: Json,
    followUpQuestion: Json,
    error: bool)

  function CarriedEntries(xs: seq<Json>): (r: seq<PendingEntry>)
    ensures |r| == |xs| && forall i :: 0 <= i < |xs| ==> r[i] == Carried(xs[i])
  {
    seq(|xs|, i requires 0 <= i < |xs| => Carried(xs[i]))
  }

  function DraftedEntries(ps: seq<PendingTask>): (r: seq<PendingEntry>)
    ensures |r| == |ps| && forall i :: 0 <= i < |ps| ==> r[i] == Drafted(ps[i])
  {
    seq(|ps|, i requires 0 <= i < |ps| => Drafted(ps[i]))
  }

  /** The initial state process_message builds. */
  function InitialState(userMessage: string, userId: string, role: Firestore.UserRole, sessionId: string,
                        history: seq<Message>, pending: seq<Json>): State
  {
    State(userMessage, userId, role, sessionId, history, JNull, [], CarriedEntries(pending), [],
          JStr(""), JBool(false), JNull, false)
  }

  class AgentState {
    var userMessage: string
    var userId: string
    var userRole: Firestore.UserRole
    var sessionId: string
    var history: seq<Message>
    var intent: Json
    var extractedTasks: seq<TaskData>
    var pendingTasks: seq<PendingEntry>
    var taskConfirmations: seq<TaskConfirmation>
    var response: Json
    var needsFollowUp: Json
    var followUpQuestion: Json
    var error: bool

    constructor(s: State)
      ensures Snapshot() == s
    {
      userMessage := s.userMessage;
      userId := s.userId;
      userRole := s.userRole;
      sessionId := s.sessionId;
      history := s.history;
      intent := s.intent;
      extractedTasks := s.extractedTasks;
      pendingTasks := s.pendingTasks;
      taskConfirmations := s.taskConfirmations;
      response := s.response;
      needsFollowUp := s.needsFollowUp;
      followUpQuestion := s.followUpQuestion;
      error := s.error;
    }

    function Snapshot(): State
      reads this
    {
      State(userMessage, userId, userRole, sessionId, history, intent, extractedTasks, pendingTasks,
            taskConfirmations, response, needsFollowUp, followUpQuestion, error)
    }
  }

  // ---------------------------------------------------------------------------
  // The nodes

  const HelpReply := "I'm here to help! How can I assist you today?"
  const TroubleReply := "I'm having trouble processing that. Could you rephrase what you'd like to accomplish?"
  const ClarifyReply := "I understand you want to create a task. Could you tell me what you need to do and when you'd like to complete it?"
  const UnderstoodReply := "I understand. How can I help you organize your tasks?"
  const ApologyReply := "I apologize, I'm having trouble processing that right now. Please try again."

  function RouterStep(s: State, reply: Outcome<string>, loads: string -> Option<Json>): State
  {
    s.(intent := RouterIntent(reply, loads))
  }

  function ConversationStep(s: State, reply: Outcome<string>): State
  {
    s.(response := if HistoryReadable(s.history, 6) && reply.Resolved? then JStr(reply.value) else JStr(HelpReply))
  }

  /** How a run of task_extractor_node ends. */
  datatype Extraction =
    | PromptFailed
      // the pending tasks could not be described: the node raises
    | Failed(accepted: seq<TaskData>)
      // the outer `except`, after accepting these tasks
    | Undecodable
      // the reply is not JSON
    | Extracted(result: map<string, Json>, tasks: seq<TaskData>, pending: seq<PendingTask>)

  function Extract(s: State, reply: Outcome<string>, loads: string -> Option<Json>, parse: DateParser): Extraction
  {
    if !PromptReadable(s.pendingTasks) then PromptFailed
    else if !HistoryReadable(s.history, 8) || reply.Rejected? then Failed([])
    else match loads(reply.value)
      case None => Undecodable
      case Some(result) =>
        if !result.JObj? then Failed([]) else ExtractFields(result.fields, parse)
  }

  /** The two loops over a decoded object: they fail or they extract. */
  function ExtractFields(m: map<string, Json>, parse: DateParser): (r: Extraction)
    ensures r.Failed? || r.Extracted?
  {
    var scan := ScanTaskItems(Get(m, "tasks", JArr([])), parse);
    if scan.crashed then Failed(scan.accepted)
    else match ScanPendingItems(Get(m, "pendingTasks", JArr([])), parse)
      case None => Failed(scan.accepted)
      case Some(ps) => Extracted(m, scan.accepted, ps)
  }

  /**
   * The state after the node, with confirmations committed together with
   * the tasks they confirm; None when the node raises.
   */
  function Commit(s: State, e: Extraction, uuid: nat -> string): Option<State>
  {
    match e
    case PromptFailed => None
    case Failed(_) => Some(s.(response := JStr(TroubleReply), error := true))
    case Undecodable => Some(s.(response := JStr(ClarifyReply), needsFollowUp := JBool(true)))
    case Extracted(m, ts, ps) =>
      Some(s.(extractedTasks := ts, pendingTasks := DraftedEntries(ps),
              taskConfirmations := s.taskConfirmations + Confirmations(ts, uuid),
              response := Get(m, "response", JStr(UnderstoodReply)),
              needsFollowUp := Get(m, "needsFollowUp", JBool(false)),
              followUpQuestion := Lookup(m, "followUpQuestion")))
  }

  function ExtractorStep(s: State, reply: Outcome<string>, loads: string -> Option<Json>, parse: DateParser,
                         uuid: nat -> string): (r: Option<State>)
    ensures r.None? <==> !PromptReadable(s.pendingTasks)
    ensures r.Some? ==> r.value.sessionId == s.sessionId && r.value.userId == s.userId
  {
    Commit(s, Extract(s, reply, loads, parse), uuid)
  }

  /**
   * task_extractor_node as written: each confirmation is appended to the
   * state as its task is accepted, so a failure later in the loops leaves
   * confirmations behind while extracted_tasks keeps its old value.
   */
  function ExtractorStepAsWritten(s: State, reply: Outcome<string>, loads: string -> Option<Json>, parse: DateParser,
                                 uuid: nat -> string): (r: Option<State>)
    ensures r.None? <==> !PromptReadable(s.pendingTasks)
    ensures r.Some? ==> r.value.sessionId == s.sessionId && r.value.userId == s.userId
  {
    var e := Extract(s, reply, loads, parse);
    match e
    case Failed(accepted) =>
      Some(s.(response := JStr(TroubleReply), error := true,
              taskConfirmations := s.taskConfirmations + Confirmations(accepted, uuid)))
    case _ => Commit(s, e, uuid)
  }

  /** Whether the recent history can be read, message by message, as both nodes do. */
  method CheckHistory(h: seq<Message>, n: nat) returns (ok: bool)
    ensures ok == HistoryReadable(h, n)
  {
    var recent := Recent(h, n);
    ok := true;
    var i := 0;
    while i < |recent| && ok
      invariant 0 <= i <= |recent|
      invariant ok == forall k :: 0 <= k < i ==> Readable(recent[k])
    {
      ok := Readable(recent[i]);
      i := i + 1;
    }
  }

  /** router_node: records the classified intent and nothing else. */
  method RouterNode(state: AgentState, reply: Outcome<string>, loads: string -> Option<Json>)
    modifies state
    ensures state.Snapshot() == RouterStep(old(state.Snapshot()), reply, loads)
  {
    var intent := SmallTalk;
    if reply.Resolved? {
      var result := loads(reply.value);
      if result.Some? && result.value.JObj? && "intent" in result.value.fields && "confidence" in result.value.fields {
        intent := result.value.fields["intent"];
      }
    }
    state.intent := intent;
  }

  /** conversationalist_node: the model's reply, or the stock answer when the history or the call fails. */
  method ConversationalistNode(state: AgentState, reply: Outcome<string>)
    modifies state
    ensures state.Snapshot() == ConversationStep(old(state.Snapshot()), reply)
  {
    var ok := CheckHistory(state.history, 6);
    if ok && reply.Resolved? {
      state.response := JStr(reply.value);
    } else {
      state.response := JStr(HelpReply);
    }
  }

  /** The tasks loop: the accepted tasks and their confirmations, or ok false where the loop raises. */
  method CollectTasks(xs: seq<Json>, parse: DateParser, uuid: nat -> string)
    returns (tasks: seq<TaskData>, confirmations: seq<TaskConfirmation>, ok: bool)
    ensures ScanTasks(xs, parse) == Scan(tasks, !ok)
    ensures confirmations == Confirmations(tasks, uuid)
  {
    tasks, confirmations := [], [];
    var i := 0;
    while i < |xs|
      invariant 0 <= i <= |xs|
      invariant ScanTasks(xs[..i], parse) == Scan(tasks, false)
      invariant confirmations == Confirmations(tasks, uuid)
    {
      assert xs[..i + 1] == xs[..i] + [xs[i]];
      ScanTasksSnoc(xs[..i], xs[i], parse);
      var x := xs[i];
      if !x.JObj? {
        ScanTasksStopsAtCrash(xs, i + 1, parse);
        return tasks, confirmations, false;
      }
      var t := AcceptTask(x.fields, parse);
      if t.Some? {
        assert (tasks + [t.value])[..|tasks|] == tasks;
        confirmations := confirmations + [TaskConfirmation(uuid(|tasks|), t.value, PendingStatus)];
        tasks := tasks + [t.value];
      }
      i := i + 1;
    }
    assert xs[..i] == xs;
    ok := true;
  }

  /** The pending loop: the drafts in order, or ok false where the loop raises. */
  method CollectPending(xs: seq<Json>, parse: DateParser) returns (drafts: seq<PendingTask>, ok: bool)
    ensures ok <==> ScanPending(xs, parse).Some?
    ensures ok ==> drafts == ScanPending(xs, parse).value
  {
    drafts := [];
    var i := 0;
    while i < |xs|
      invariant 0 <= i <= |xs|
      invariant ScanPending(xs[..i], parse) == Some(drafts)
    {
      assert xs[..i + 1][..i] == xs[..i];
      if !xs[i].JObj? {
        ScanPendingDrafts(xs, parse);
        return drafts, false;
      }
      drafts := drafts + [DraftPending(xs[i].fields, parse)];
      i := i + 1;
    }
    assert xs[..i] == xs;
    ok := true;
  }

  /** `for task in v` over whatever the reply holds under "tasks". */
  method CollectTaskItems(j: Json, parse: DateParser, uuid: nat -> string)
    returns (tasks: seq<TaskData>, confirmations: seq<TaskConfirmation>, ok: bool)
    ensures ScanTaskItems(j, parse) == Scan(tasks, !ok)
    ensures confirmations == Confirmations(tasks, uuid)
  {
    match Iterate(j)
    case Elements(xs) =>
      tasks, confirmations, ok := CollectTasks(xs, parse, uuid);
    case Strings(n) =>
      tasks, confirmations, ok := [], [], n == 0;
    case NotIterable =>
      tasks, confirmations, ok := [], [], false;
  }

  /** `for pending in v` over whatever the reply holds under "pendingTasks". */
  method CollectPendingItems(j: Json, parse: DateParser) returns (drafts: seq<PendingTask>, ok: bool)
    ensures ok <==> ScanPendingItems(j, parse).Some?
    ensures ok ==> drafts == ScanPendingItems(j, parse).value
  {
    match Iterate(j)
    case Elements(xs) =>
      drafts, ok := CollectPending(xs, parse);
    case Strings(n) =>
      drafts, ok := [], n == 0;
    case NotIterable =>
      drafts, ok := [], false;
  }

  /**
   * task_extractor_node with confirmations committed at the end: raised is
   * set when the node raises before its `try`, and the state is then as it
   * was.
   */
  method TaskExtractorNode(state: AgentState, reply: Outcome<string>, loads: string -> Option<Json>,
                           parse: DateParser, uuid: nat -> string) returns (raised: bool)
    modifies state
    ensures raised <==> ExtractorStep(old(state.Snapshot()), reply, loads, parse, uuid).None?
    ensures raised ==> state.Snapshot() == old(state.Snapshot())
    ensures !raised ==> state.Snapshot() == ExtractorStep(old(state.Snapshot()), reply, loads, parse, uuid).value
  {
    ghost var s0 := state.Snapshot();
    if !PromptReadable(state.pendingTasks) {
      assert Extract(s0, reply, loads, parse) == PromptFailed;
      return true;
    }
    raised := false;
    var ok := CheckHistory(state.history, 8);
    if !ok || reply.Rejected? {
      assert Extract(s0, reply, loads, parse) == Failed([]);
      Fail(state);
      return;
    }
    var decoded := loads(reply.value);
    if decoded.None? {
      assert Extract(s0, reply, loads, parse) == Undecodable;
      state.response, state.needsFollowUp := JStr(ClarifyReply), JBool(true);
      return;
    }
    if !decoded.value.JObj? {
      assert Extract(s0, reply, loads, parse) == Failed([]);
      Fail(state);
      return;
    }
    assert Extract(s0, reply, loads, parse) == ExtractFields(decoded.value.fields, parse);
    ExtractorFields(state, decoded.value.fields, parse, uuid);
  }

  /** The node's loops over the decoded object, then the commit or the outer `except`. */
  method ExtractorFields(state: AgentState, m: map<string, Json>, parse: DateParser, uuid: nat -> string)
    modifies state
    ensures Commit(old(state.Snapshot()), ExtractFields(m, parse), uuid).Some?
    ensures state.Snapshot() == Commit(old(state.Snapshot()), ExtractFields(m, parse), uuid).value
  {
    var tasks, confirmations, tasksOk := CollectTaskItems(Get(m, "tasks", JArr([])), parse, uuid);
    if !tasksOk {
      TasksLoopFailed(m, parse, tasks);
      Fail(state);
      return;
    }
    var drafts, pendingOk := CollectPendingItems(Get(m, "pendingTasks", JArr([])), parse);
    if !pendingOk {
      PendingLoopFailed(m, parse, tasks);
      Fail(state);
      return;
    }
    LoopsDone(m, parse, tasks, drafts);
    Succeed(state, m, tasks, confirmations, drafts);
  }

  lemma TasksLoopFailed(m: map<string, Json>, parse: DateParser, tasks: seq<TaskData>)
    requires ScanTaskItems(Get(m, "tasks", JArr([])), parse) == Scan(tasks, true)
    ensures ExtractFields(m, parse) == Failed(tasks)
  {
  }

  lemma PendingLoopFailed(m: map<string, Json>, parse: DateParser, tasks: seq<TaskData>)
    requires ScanTaskItems(Get(m, "tasks", JArr([])), parse) == Scan(tasks, false)
    requires ScanPendingItems(Get(m, "pendingTasks", JArr([])), parse).None?
    ensures ExtractFields(m, parse) == Failed(tasks)
  {
  }

  lemma LoopsDone(m: map<string, Json>, parse: DateParser, tasks: seq<TaskData>, drafts: seq<PendingTask>)
    requires ScanTaskItems(Get(m, "tasks", JArr([])), parse) == Scan(tasks, false)
    requires ScanPendingItems(Get(m, "pendingTasks", JArr([])), parse) == Some(drafts)
    ensures ExtractFields(m, parse) == Extracted(m, tasks, drafts)
  {
  }

  /** The outer `except` of the node: the stock answer, and the error recorded. */
  method Fail(state: AgentState)
    modifies state
    ensures state.Snapshot() == old(state.Snapshot()).(response := JStr(TroubleReply), error := true)
  {
    state.response, state.error := JStr(TroubleReply), true;
  }

  /** The end of the node's `try`: tasks, drafts and confirmations committed, the reply's fields copied. */
  method Succeed(state: AgentState, m: map<string, Json>, tasks: seq<TaskData>,
                 confirmations: seq<TaskConfirmation>, drafts: seq<PendingTask>)
    modifies state
    ensures state.Snapshot() == old(state.Snapshot()).(
              extractedTasks := tasks, pendingTasks := DraftedEntries(drafts),
              taskConfirmations := old(state.taskConfirmations) + confirmations,
              response := Get(m, "response", JStr(UnderstoodReply)),
              needsFollowUp := Get(m, "needsFollowUp", JBool(false)),
              followUpQuestion := Lookup(m, "followUpQuestion"))
  {
    state.extractedTasks := tasks;
    state.pendingTasks := DraftedEntries(drafts);
    state.taskConfirmations := state.taskConfirmations + confirmations;
    state.response := Get(m, "response", JStr(UnderstoodReply));
    state.needsFollowUp := Get(m, "needsFollowUp", JBool(false));
    state.followUpQuestion := Lookup(m, "followUpQuestion");
  }

  // ---------------------------------------------------------------------------
  // process_message

  /** The outside world of one message: the two model calls, json.loads, dateparser and uuid4. */
  datatype Oracles = Oracles(
    routerReply: Outcome<string>,
    nodeReply: Outcome<string>,
    loads: string -> Option<Json>,
    parse: DateParser,
    uuid: nat -> string)

  /** The graph run: router, then the node its decision names; None when the graph raises. */
  function Turn(s: State, o: Oracles): (r: Option<State>)
    ensures r.Some? ==> r.value.sessionId == s.sessionId && r.value.userId == s.userId
  {
    var routed := RouterStep(s, o.routerReply, o.loads);
    match Route(RouteDecision(routed.intent))
    case None => None
    case Some(ToConversationalist) => Some(ConversationStep(routed, o.nodeReply))
    case Some(ToTaskExtractor) => ExtractorStep(routed, o.nodeReply, o.loads, o.parse, o.uuid)
  }

  /** The dictionary process_message returns. */
  datatype AgentReply =
    | Reply(response: Json, tasks: seq<TaskData>, pendingTasks: seq<PendingEntry>,
            taskConfirmations: seq<TaskConfirmation>, needsFollowUp: Json, followUpQuestion: Json,
            sessionId: string, intentType: Json)
      // the `except` reply: ApologyReply, no tasks, no follow-up
    | Apology(sessionId: string)

  function ReplyOf(s: State): AgentReply
  {
    Reply(s.response, s.extractedTasks, s.pendingTasks, s.taskConfirmations, s.needsFollowUp,
          s.followUpQuestion, s.sessionId, s.intent)
  }

  /**
   * process_message. An empty session id means none was given: the state
   * takes freshSession, and the apology, which draws uuid4 again, takes
   * fallbackSession.
   */
  function ProcessReply(userMessage: string, userId: string, role: Firestore.UserRole, sessionId: string,
                        history: seq<Message>, pending: seq<Json>, o: Oracles,
                        freshSession: string, fallbackSession: string): (r: AgentReply)
    ensures r.Reply? ==> r.sessionId == (if sessionId != "" then sessionId else freshSession)
    ensures r.Apology? ==> r.sessionId == (if sessionId != "" then sessionId else fallbackSession)
  {
    var s := InitialState(userMessage, userId, role, if sessionId != "" then sessionId else freshSession,
                          history, pending);
    match Turn(s, o)
    case None => Apology(if sessionId != "" then sessionId else fallbackSession)
    case Some(t) => ReplyOf(t)
  }

  method ProcessMessage(store: Firestore.FirestoreService, userMessage: string, userId: string, readOk: bool,
                        sessionId: string, history: seq<Message>, pending: seq<Json>, o: Oracles,
                        freshSession: string, fallbackSession: string) returns (r: AgentReply)
    ensures r == ProcessReply(userMessage, userId, store.GetUserRole(userId, readOk), sessionId, history,
                              pending, o, freshSession, fallbackSession)
  {
    var role := store.GetUserRole(userId, readOk);
    var session := if sessionId != "" then sessionId else freshSession;
    var state := new AgentState(InitialState(userMessage, userId, role, session, history, pending));
    RouterNode(state, o.routerReply, o.loads);
    var next := Route(RouteDecision(state.intent));
    if next.None? {
      return Apology(if sessionId != "" then sessionId else fallbackSession);
    }
    if next.value == ToConversationalist {
      ConversationalistNode(state, o.nodeReply);
    } else {
      var raised := TaskExtractorNode(state, o.nodeReply, o.loads, o.parse, o.uuid);
      if raised {
        return Apology(if sessionId != "" then sessionId else fallbackSession);
      }
    }
    r := ReplyOf(state.Snapshot());
  }

  /** Committing any extraction to a state with no tasks and no confirmations confirms each task it reports. */
  lemma CommitConfirmsEach(s: State, e: Extraction, uuid: nat -> string)
    requires s.extractedTasks == [] && s.taskConfirmations == []
    ensures Commit(s, e, uuid).Some? ==> Commit(s, e, uuid).value.taskConfirmations == Confirmations(Commit(s, e, uuid).value.extractedTasks, uuid)
  {
    assert Confirmations([], uuid) == [];
    if e.Extracted? {
      assert [] + Confirmations(e.tasks, uuid) == Confirmations(e.tasks, uuid);
    }
  }

  /** A turn from a state with no tasks and no confirmations ends with one confirmation per reported task. */
  lemma TurnConfirmsEach(s: State, o: Oracles)
    requires s.extractedTasks == [] && s.taskConfirmations == []
    ensures Turn(s, o).Some? ==> Turn(s, o).value.taskConfirmations == Confirmations(Turn(s, o).value.extractedTasks, o.uuid)
  {
    var routed := RouterStep(s, o.routerReply, o.loads);
    CommitConfirmsEach(routed, Extract(routed, o.nodeReply, o.loads, o.parse), o.uuid);
    assert Confirmations([], o.uuid) == [];
  }

  /**
   * Every reply confirms exactly the tasks it reports: one confirmation per
   * task, in order, pending, with the i-th fresh id.
   */
  lemma ReplyConfirmsEachTask(userMessage: string, userId: string, role: Firestore.UserRole, sessionId: string,
                              history: seq<Message>, pending: seq<Json>, o: Oracles,
                              freshSession: string, fallbackSession: string)
    ensures var r := ProcessReply(userMessage, userId, role, sessionId, history, pending, o, freshSession, fallbackSession);
      r.Reply? ==>
        |r.taskConfirmations| == |r.tasks| &&
        forall i :: 0 <= i < |r.tasks| ==> r.taskConfirmations[i] == TaskConfirmation(o.uuid(i), r.tasks[i], PendingStatus)
  {
    var s := InitialState(userMessage, userId, role, if sessionId != "" then sessionId else freshSession,
                          history, pending);
    TurnConfirmsEach(s, o);
  }

  /** A decision the graph has no edge for ends in the apology. */
  lemma UnroutedIntentApologises(userMessage: string, userId: string, role: Firestore.UserRole, sessionId: string,
                                 history: seq<Message>, pending: seq<Json>, o: Oracles,
                                 freshSession: string, fallbackSession: string, m: map<string, Json>)
    requires o.routerReply.Resolved? && o.loads(o.routerReply.value) == Some(JObj(m))
    requires "intent" in m && "confidence" in m && Truthy(m["intent"])
    requires m["intent"] != SmallTalk && m["intent"] != ToolUse
    ensures ProcessReply(userMessage, userId, role, sessionId, history, pending, o, freshSession, fallbackSession)
            == Apology(if sessionId != "" then sessionId else fallbackSession)
  {
  }

  /** A reply that is not JSON asks for the task again and leaves every list as it was. */
  lemma UndecodableKeepsLists(s: State, text: string, loads: string -> Option<Json>, parse: DateParser, uuid: nat -> string)
    requires PromptReadable(s.pendingTasks) && HistoryReadable(s.history, 8) && loads(text).None?
    ensures ExtractorStep(s, Resolved(text), loads, parse, uuid) ==
            Some(s.(response := JStr(ClarifyReply), needsFollowUp := JBool(true)))
  {
  }

  /**
   * A successful run replaces pending_tasks by the drafts of the reply's
   * pendingTasks, element for element.
   */
  lemma PendingReplaced(s: State, text: string, loads: string -> Option<Json>, parse: DateParser, uuid: nat -> string,
                        m: map<string, Json>, ys: seq<Json>)
    requires PromptReadable(s.pendingTasks) && HistoryReadable(s.history, 8)
    requires loads(text) == Some(JObj(m)) && Get(m, "pendingTasks", JArr([])) == JArr(ys)
    requires ExtractorStep(s, Resolved(text), loads, parse, uuid).Some?
    requires !ExtractorStep(s, Resolved(text), loads, parse, uuid).value.error
    ensures var t := ExtractorStep(s, Resolved(text), loads, parse, uuid).value;
      |t.pendingTasks| == |ys| &&
      forall i :: 0 <= i < |ys| ==> ys[i].JObj? && t.pendingTasks[i] == Drafted(DraftPending(ys[i].fields, parse))
  {
    var e := Extract(s, Resolved(text), loads, parse);
    assert e.Extracted?;
    ScanPendingDrafts(ys, parse);
    assert ScanPending(ys, parse) == Some(e.pending);
  }

  /** An accepted task followed by a number: the tasks loop accepts the task, then raises. */
  lemma AcceptThenRaise(f: map<string, Json>, y: Json, parse: DateParser)
    requires AcceptTask(f, parse).Some? && !y.JObj?
    ensures ScanTasks([JObj(f), y], parse) == Scan([AcceptTask(f, parse).value], true)
  {
    var t := AcceptTask(f, parse).value;
    OneAccepted(f, parse);
    ScanTasksSnoc([JObj(f)], y, parse);
    assert [JObj(f)] + [y] == [JObj(f), y];
    assert ScanStep(Scan([t], false), y, parse) == Scan([t], true);
  }

  /** A one-element list whose object is accepted gives that task. */
  lemma OneAccepted(f: map<string, Json>, parse: DateParser)
    requires AcceptTask(f, parse).Some?
    ensures ScanTasks([JObj(f)], parse) == Scan([AcceptTask(f, parse).value], false)
  {
    var t := AcceptTask(f, parse).value;
    ScanTasksSnoc([], JObj(f), parse);
    assert [] + [JObj(f)] == [JObj(f)];
    assert ScanStep(Scan([], false), JObj(f), parse) == Scan([] + [t], false);
  }

  /** A decoded object whose tasks loop raises makes the node fail with what was accepted. */
  lemma FailedScan(s: State, text: string, loads: string -> Option<Json>, parse: DateParser,
                   m: map<string, Json>, acc: seq<TaskData>)
    requires PromptReadable(s.pendingTasks) && HistoryReadable(s.history, 8)
    requires loads(text) == Some(JObj(m))
    requires ScanTaskItems(Get(m, "tasks", JArr([])), parse) == Scan(acc, true)
    ensures Extract(s, Resolved(text), loads, parse) == Failed(acc)
  {
  }

  /** Such a reply makes the node fail with the one task accepted before the raise. */
  lemma FailsAfterOne(s: State, text: string, loads: string -> Option<Json>, parse: DateParser, f: map<string, Json>)
    requires PromptReadable(s.pendingTasks) && HistoryReadable(s.history, 8)
    requires loads(text) == Some(JObj(map["tasks" := JArr([JObj(f), JNum(5)])]))
    requires AcceptTask(f, parse).Some?
    ensures Extract(s, Resolved(text), loads, parse) == Failed([AcceptTask(f, parse).value])
  {
    var t := AcceptTask(f, parse).value;
    var xs := [JObj(f), JNum(5)];
    var m := map["tasks" := JArr(xs)];
    assert Get(m, "tasks", JArr([])) == JArr(xs);
    AcceptThenRaise(f, JNum(5), parse);
    assert ScanTaskItems(JArr(xs), parse) == Scan([t], true);
    FailedScan(s, text, loads, parse, m, [t]);
  }

  /**
   * The confirmations left behind by the code as written: an accepted task
   * followed by a list element that is not an object adds a confirmation
   * while extracted_tasks stays as it was, and the reply says processing
   * failed. Committing at the end adds none.
   */
  lemma PartialConfirmationsAsWritten(s: State, text: string, loads: string -> Option<Json>, parse: DateParser,
                                      uuid: nat -> string, f: map<string, Json>)
    requires PromptReadable(s.pendingTasks) && HistoryReadable(s.history, 8)
    requires loads(text) == Some(JObj(map["tasks" := JArr([JObj(f), JNum(5)])]))
    requires AcceptTask(f, parse).Some?
    ensures var w := ExtractorStepAsWritten(s, Resolved(text), loads, parse, uuid);
      w.Some? && w.value.extractedTasks == s.extractedTasks && w.value.response == JStr(TroubleReply) &&
      |w.value.taskConfirmations| == |s.taskConfirmations| + 1
    ensures var c := ExtractorStep(s, Resolved(text), loads, parse, uuid);
      c.Some? && c.value.taskConfirmations == s.taskConfirmations
  {
    FailsAfterOne(s, text, loads, parse, f);
    assert |Confirmations([AcceptTask(f, parse).value], uuid)| == 1;
  }

  /** The graph run with task_extractor_node as written. */
  function TurnAsWritten(s: State, o: Oracles): (r: Option<State>)
    ensures r.Some? ==> r.value.sessionId == s.sessionId && r.value.userId == s.userId
  {
    var routed := RouterStep(s, o.routerReply, o.loads);
    match Route(RouteDecision(routed.intent))
    case None => None
    case Some(ToConversationalist) => Some(ConversationStep(routed, o.nodeReply))
    case Some(ToTaskExtractor) => ExtractorStepAsWritten(routed, o.nodeReply, o.loads, o.parse, o.uuid)
  }

  /** process_message over the graph as written. */
  function ProcessReplyAsWritten(userMessage: string, userId: string, role: Firestore.UserRole, sessionId: string,
                                 history: seq<Message>, pending: seq<Json>, o: Oracles,
                                 freshSession: string, fallbackSession: string): (r: AgentReply)
    ensures r.Reply? ==> r.sessionId == (if sessionId != "" then sessionId else freshSession)
    ensures r.Apology? ==> r.sessionId == (if sessionId != "" then sessionId else fallbackSession)
  {
    var s := InitialState(userMessage, userId, role, if sessionId != "" then sessionId else freshSession,
                          history, pending);
    match TurnAsWritten(s, o)
    case None => Apology(if sessionId != "" then sessionId else fallbackSession)
    case Some(t) => ReplyOf(t)
  }

  /**
   * End to end, the code as written replies with a confirmation for a task it
   * does not report when the tasks list is an accepted task followed by a
   * non-object; with confirmations committed at the end the reply has neither.
   */
  lemma UnmatchedConfirmationAsWritten(userMessage: string, userId: string, role: Firestore.UserRole,
                                       sessionId: string, history: seq<Message>, pending: seq<Json>, o: Oracles,
                                       freshSession: string, fallbackSession: string,
                                       text: string, f: map<string, Json>)
    requires PromptReadable(CarriedEntries(pending)) && HistoryReadable(history, 8)
    requires RouteDecision(RouterIntent(o.routerReply, o.loads)) == ToolUse
    requires o.nodeReply == Resolved(text)
    requires o.loads(text) == Some(JObj(map["tasks" := JArr([JObj(f), JNum(5)])]))
    requires AcceptTask(f, o.parse).Some?
    ensures var w := ProcessReplyAsWritten(userMessage, userId, role, sessionId, history, pending, o,
                                           freshSession, fallbackSession);
      w.Reply? && w.tasks == [] && |w.taskConfirmations| == 1
    ensures var c := ProcessReply(userMessage, userId, role, sessionId, history, pending, o,
                                  freshSession, fallbackSession);
      c.Reply? && c.tasks == [] && c.taskConfirmations == []
  {
    var s := InitialState(userMessage, userId, role, if sessionId != "" then sessionId else freshSession,
                          history, pending);
    var routed := RouterStep(s, o.routerReply, o.loads);
    assert Route(RouteDecision(routed.intent)) == Some(ToTaskExtractor);
    assert TurnAsWritten(s, o) == ExtractorStepAsWritten(routed, o.nodeReply, o.loads, o.parse, o.uuid);
    assert Turn(s, o) == ExtractorStep(routed, o.nodeReply, o.loads, o.parse, o.uuid);
    PartialConfirmationsAsWritten(routed, text, o.loads, o.parse, o.uuid, f);
  }

  // ---------------------------------------------------------------------------
  // confirm_task

  /** confirm_task: only a student's task is written; any other role gets False and nothing is written. */
  method ConfirmTask(store: Firestore.FirestoreService, userId: string, taskData: Firestore.Record, readOk: bool,
                     newId: string, createdDate: string, writeOk: bool) returns (r: bool)
    modifies store
    ensures store.connected == old(store.connected) && store.users == old(store.users)
    ensures old(store.GetUserRole(userId, readOk)) != Firestore.Student ==> !r && store.tasks == old(store.tasks)
    ensures old(store.GetUserRole(userId, readOk)) == Firestore.Student ==> r == (store.connected && writeOk)
    ensures r ==> store.tasks == old(store.tasks)[userId := old(store.TasksOf(userId))[newId := Firestore.TaskRecord(taskData, createdDate)]]
    ensures !r ==> store.tasks == old(store.tasks)
  {
    var role := store.GetUserRole(userId, readOk);
    if role != Firestore.Student {
      return false;
    }
    r := store.AddTask(userId, taskData, newId, createdDate, writeOk);
  }
}
