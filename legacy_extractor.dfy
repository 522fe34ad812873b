/**
 * The older task extractor of the backend (task_extractor.py): cleaning of
 * the model's JSON reply, with Python's `datetime.strptime` for the
 * "%Y-%m-%d", "%m/%d/%Y" and "%m-%d-%Y" formats, and the keyword and
 * pattern date extractor. The model's reply, `json.loads` and `repr` are
 * parameters; today's date is a day number (CivilCalendar).
 */
module TaskExtractor {
  import opened Wrappers
  import opened Text
  import opened CivilCalendar
  import opened Json
  import DateUtils
  import Seqs

  // ---------------------------------------------------------------------------
  // strptime: %Y is exactly four digits; %m is 1[0-2], 0[1-9] or [1-9]; %d is
  // 3[01], [12]\d, 0[1-9], [1-9] or a space and [1-9]; the whole string must be
  // consumed, and the date must exist (year 1 or later).
  // ---------------------------------------------------------------------------

  predicate NonZeroDigit(c: char) { '1' <= c <= '9' }

  predicate YearToken(t: string) { |t| == 4 && IsDigits(t) }

  predicate MonthToken(t: string)
  {
    (|t| == 2 && t[0] == '1' && '0' <= t[1] <= '2') ||
    (|t| == 2 && t[0] == '0' && NonZeroDigit(t[1])) ||
    (|t| == 1 && NonZeroDigit(t[0]))
  }

  predicate DayToken(t: string)
  {
    (|t| == 2 && t[0] == '3' && (t[1] == '0' || t[1] == '1')) ||
    (|t| == 2 && (t[0] == '1' || t[0] == '2') && IsDigit(t[1])) ||
    (|t| == 2 && t[0] == '0' && NonZeroDigit(t[1])) ||
    (|t| == 1 && NonZeroDigit(t[0])) ||
    (|t| == 2 && t[0] == ' ' && NonZeroDigit(t[1]))
  }

  function DayValue(t: string): nat
    requires DayToken(t)
  {
    if t[0] == ' ' then DigitValue(t[1]) else DigitsValue(t)
  }

  /** The date named by the three fields of a format, if each field is well formed and the date exists. */
  function StrptimeFields(y: string, m: string, d: string): (r: Option<Date>)
    ensures r.Some? ==> YearToken(y) && MonthToken(m) && DayToken(d)
    ensures r.Some? ==> ValidDate(r.value) && r.value.year >= 1
    ensures r.Some? ==> r.value == Date(DigitsValue(y), DigitsValue(m), DayValue(d))
  {
    if YearToken(y) && MonthToken(m) && DayToken(d) then
      var c := Date(DigitsValue(y), DigitsValue(m), DayValue(d));
      if c.year >= 1 && ValidDate(c) then Some(c) else None
    else None
  }

  /** strptime(s, "%Y-%m-%d"). */
  function StrptimeYmd(s: string): (r: Option<Date>)
    ensures r.Some? ==> ValidDate(r.value) && r.value.year >= 1
  {
    var p := Split(s, '-');
    if |p| == 3 then StrptimeFields(p[0], p[1], p[2]) else None
  }

  /** strptime(s, "%m<sep>%d<sep>%Y"). */
  function StrptimeMdy(s: string, sep: char): (r: Option<Date>)
    ensures r.Some? ==> ValidDate(r.value) && r.value.year >= 1
  {
    var p := Split(s, sep);
    if |p| == 3 then StrptimeFields(p[2], p[0], p[1]) else None
  }

  lemma FourDigits(n: nat)
    requires 1000 <= n <= 9999
    ensures |NatToString(n)| == 4 && NatToString(n)[0] != '0'
  {
    assert NatToString(n) == NatToString(n / 10) + [DigitChar(n % 10)];
    assert NatToString(n / 10) == NatToString(n / 100) + [DigitChar(n / 10 % 10)];
    assert NatToString(n / 100) == NatToString(n / 1000) + [DigitChar(n / 100 % 10)];
  }

  lemma MonthTokenOfPad2(m: nat)
    requires 1 <= m <= 12
    ensures MonthToken(Pad2(m)) && DigitsValue(Pad2(m)) == m
  {
    Pad2Shape(m);
    Pad2Value(m);
    var t := Pad2(m);
    if m < 10 {
      assert t[0] == DigitChar(0) == '0';
    } else {
      assert t[0] == DigitChar(1) == '1';
      assert t[1] == DigitChar(m - 10);
    }
  }

  lemma DayTokenOfPad2(d: nat)
    requires 1 <= d <= 31
    ensures DayToken(Pad2(d)) && DayValue(Pad2(d)) == d
  {
    Pad2Shape(d);
    Pad2Value(d);
    var t := Pad2(d);
    assert t[0] == DigitChar(d / 10);
    if d < 10 {
      assert t[0] == '0';
    } else if d < 30 {
      assert t[0] == '1' || t[0] == '2';
    } else {
      assert t[0] == '3';
      assert t[1] == DigitChar(d - 30);
    }
  }

  /** The fields of a formatted four-digit-year date. */
  lemma SplitCivilString(c: Date)
    requires ValidDate(c) && 1000 <= c.year <= 9999
    ensures Split(DateUtils.CivilString(c), '-') == [NatToString(c.year), Pad2(c.month), Pad2(c.day)]
    ensures YearToken(NatToString(c.year)) && DigitsValue(NatToString(c.year)) == c.year
  {
    FourDigits(c.year);
    Pad2Shape(c.month);
    Pad2Shape(c.day);
    assert '-' !in NatToString(c.year);
    assert '-' !in Pad2(c.month);
    assert '-' !in Pad2(c.day);
    DateUtils.SplitDashed(NatToString(c.year), Pad2(c.month), Pad2(c.day));
    DigitsValueOfNatToString(c.year);
  }

  /** strptime reads back what strftime wrote, for four-digit years. */
  lemma StrptimeOfCivilString(c: Date)
    requires ValidDate(c) && 1000 <= c.year <= 9999
    ensures StrptimeYmd(DateUtils.CivilString(c)) == Some(c)
  {
    SplitCivilString(c);
    MonthTokenOfPad2(c.month);
    DayTokenOfPad2(c.day);
  }

  // ---------------------------------------------------------------------------
  // Cleaning the reply (extract_tasks_from_message)
  // ---------------------------------------------------------------------------

  const ListValues: seq<Json> := [JStr("Personal"), JStr("Work"), JStr("Study")]
  const PriorityValues: seq<Json> := [JStr("low"), JStr("medium"), JStr("high")]
  const TaskKeys: set<string> := {"description", "list", "dueDate", "subTasks", "priority", "completed"}

  const DefaultReply := "I understand you want to organize some tasks. Let me help you with that!"
  const FallbackReply := "I understand your message, but I'm having trouble processing it right now. Could you please rephrase what you'd like to accomplish?"
  const SorryReply := "I'm sorry, I'm having trouble processing your request right now. Please try again."

  /** The reply returned when the model call or the cleaning fails. */
  const Sorry: Json := JObj(map["response" := JStr(SorryReply), "tasks" := JArr([])])

  /** The reply returned when no JSON can be recovered from the model's text. */
  const Fallback: Json := JObj(map["response" := JStr(FallbackReply), "tasks" := JArr([])])

  /** A list value outside Personal/Work/Study becomes Personal. */
  function NormalList(j: Json): (r: Json)
    ensures r in ListValues
    ensures j in ListValues ==> r == j
    ensures j !in ListValues ==> r == JStr("Personal")
  {
    if j in ListValues then j else JStr("Personal")
  }

  /** A priority outside low/medium/high becomes low. */
  function NormalPriority(j: Json): (r: Json)
    ensures r in PriorityValues
    ensures j in PriorityValues ==> r == j
    ensures j !in PriorityValues ==> r == JStr("low")
  {
    if j in PriorityValues then j else JStr("low")
  }

  /** A truthy due date is kept only when strptime accepts it; a falsy one is kept as it is. */
  function CheckedDue(due: Json): (r: Json)
    requires !Truthy(due) || due.JStr?
    ensures !Truthy(due) ==> r == due
    ensures Truthy(due) ==> r == (if StrptimeYmd(due.s).Some? then due else JNull)
  {
    if Truthy(due) && StrptimeYmd(due.s).None? then JNull else due
  }

  /**
   * One candidate task, cleaned, or None when it is skipped. Only an object
   * with a truthy description is kept; for every other value the membership
   * test or the indexing raises and the task is skipped. A truthy dueDate
   * that is not a string makes strptime raise TypeError, which skips the task.
   */
  function CleanTask(x: Json, repr: Json -> string): (r: Option<Json>)
    ensures r.Some? <==> x.JObj? && "description" in x.fields && Truthy(x.fields["description"]) &&
                         (!Truthy(Lookup(x.fields, "dueDate")) || Lookup(x.fields, "dueDate").JStr?)
    ensures r.Some? ==> r.value == JObj(map[
      "description" := JStr(PyStrip(PyStr(x.fields["description"], repr))),
      "list" := NormalList(Get(x.fields, "list", JStr("Personal"))),
      "dueDate" := CheckedDue(Lookup(x.fields, "dueDate")),
      "subTasks" := Lookup(x.fields, "subTasks"),
      "priority" := NormalPriority(Get(x.fields, "priority", JStr("low"))),
      "completed" := JBool(false)])
  {
    if !x.JObj? || "description" !in x.fields || !Truthy(x.fields["description"]) then None
    else
      var f := x.fields;
      var due := Lookup(f, "dueDate");
      if Truthy(due) && !due.JStr? then None
      else
        Some(JObj(map[
          "description" := JStr(PyStrip(PyStr(f["description"], repr))),
          "list" := NormalList(Get(f, "list", JStr("Personal"))),
          "dueDate" := CheckedDue(due),
          "subTasks" := Lookup(f, "subTasks"),
          "priority" := NormalPriority(Get(f, "priority", JStr("low"))),
          "completed" := JBool(false)]))
  }

  /** The cleaned tasks of a list of candidates, defined from the back as the loop builds them. */
  function CleanTasks(xs: seq<Json>, repr: Json -> string): (r: seq<Json>)
    ensures |r| <= |xs|
  {
    if xs == [] then []
    else
      var last := CleanTask(xs[|xs| - 1], repr);
      CleanTasks(xs[..|xs| - 1], repr) + (if last.Some? then [last.value] else [])
  }

  /** Cleaning works candidate by candidate: the output keeps the input's order. */
  lemma {:induction false} CleanTasksAppend(a: seq<Json>, b: seq<Json>, repr: Json -> string)
    ensures CleanTasks(a + b, repr) == CleanTasks(a, repr) + CleanTasks(b, repr)
    decreases |b|
  {
    if b == [] {
      assert a + b == a;
    } else {
      var b' := b[..|b| - 1];
      var last := CleanTask(b[|b| - 1], repr);
      var kept := if last.Some? then [last.value] else [];
      Seqs.AppendDropLast(a, b);
      assert CleanTasks(a + b, repr) == CleanTasks(a + b', repr) + kept;
      CleanTasksAppend(a, b', repr);
      Seqs.AppendAssoc(CleanTasks(a, repr), CleanTasks(b', repr), kept);
    }
  }

  /** Every output task is the cleaned form of some candidate, and there are no more outputs than candidates. */
  lemma {:induction false} CleanTasksFromCandidates(xs: seq<Json>, repr: Json -> string)
    ensures |CleanTasks(xs, repr)| <= |xs|
    ensures forall t :: t in CleanTasks(xs, repr) ==> exists x :: x in xs && CleanTask(x, repr) == Some(t)
  {
    if xs != [] {
      var init := xs[..|xs| - 1];
      CleanTasksFromCandidates(init, repr);
      forall t | t in CleanTasks(xs, repr)
        ensures exists x :: x in xs && CleanTask(x, repr) == Some(t)
      {
        if t in CleanTasks(init, repr) {
          var x :| x in init && CleanTask(x, repr) == Some(t);
          assert x in xs;
        } else {
          assert xs[|xs| - 1] in xs;
        }
      }
    }
  }

  /** A cleaned task in normal form. */
  predicate Normalised(t: Json)
  {
    t.JObj? && TaskKeys <= t.fields.Keys && t.fields["completed"] == JBool(false) &&
    t.fields["list"] in ListValues && t.fields["priority"] in PriorityValues &&
    (Truthy(t.fields["dueDate"]) ==> t.fields["dueDate"].JStr? && StrptimeYmd(t.fields["dueDate"].s).Some?)
  }

  lemma NormalisedFields(description: string, list: Json, due: Json, subTasks: Json, priority: Json)
    requires list in ListValues && priority in PriorityValues
    requires Truthy(due) ==> due.JStr? && StrptimeYmd(due.s).Some?
    ensures Normalised(JObj(map["description" := JStr(description), "list" := list, "dueDate" := due,
                                "subTasks" := subTasks, "priority" := priority, "completed" := JBool(false)]))
  {
  }

  lemma CheckedDueAccepted(due: Json)
    requires !Truthy(due) || due.JStr?
    ensures var d := CheckedDue(due); Truthy(d) ==> d.JStr? && StrptimeYmd(d.s).Some?
  {
  }

  lemma CleanTaskNormalised(x: Json, repr: Json -> string)
    requires CleanTask(x, repr).Some?
    ensures Normalised(CleanTask(x, repr).value)
  {
    var f := x.fields;
    CheckedDueAccepted(Lookup(f, "dueDate"));
    NormalisedFields(PyStrip(PyStr(f["description"], repr)), NormalList(Get(f, "list", JStr("Personal"))),
      CheckedDue(Lookup(f, "dueDate")), Lookup(f, "subTasks"), NormalPriority(Get(f, "priority", JStr("low"))));
  }

  /** Every task the cleaning keeps is in normal form. */
  lemma CleanTasksNormalised(xs: seq<Json>, repr: Json -> string)
    ensures forall t :: t in CleanTasks(xs, repr) ==> Normalised(t)
  {
    CleanTasksFromCandidates(xs, repr);
    forall t | t in CleanTasks(xs, repr) ensures Normalised(t) {
      var x :| x in xs && CleanTask(x, repr) == Some(t);
      CleanTaskNormalised(x, repr);
    }
  }

  /** A list of candidates whose every element is skipped yields no tasks. */
  lemma {:induction false} CleanTasksAllSkipped(xs: seq<Json>, repr: Json -> string)
    requires forall i :: 0 <= i < |xs| ==> CleanTask(xs[i], repr).None?
    ensures CleanTasks(xs, repr) == []
  {
    if xs != [] {
      CleanTasksAllSkipped(xs[..|xs| - 1], repr);
    }
  }

  /** The first `{` through the last `}` (the DOTALL search for `\{.*\}`), when a `}` follows a `{`. */
  function BraceSpan(text: string): (r: Option<string>)
    ensures r.Some? ==> '{' in text && '}' in text && IndexOf(text, '{') < LastIndexOf(text, '}')
    ensures r.Some? ==> r.value == text[IndexOf(text, '{')..LastIndexOf(text, '}') + 1]
    ensures r.None? ==> '{' !in text || '}' !in text || LastIndexOf(text, '}') < IndexOf(text, '{')
  {
    if '{' in text && '}' in text && IndexOf(text, '{') < LastIndexOf(text, '}') then
      Some(text[IndexOf(text, '{')..LastIndexOf(text, '}') + 1])
    else None
  }

  /** The reply object with the four top-level keys defaulted when absent. */
  function WithDefaults(m: map<string, Json>): (r: map<string, Json>)
    ensures r.Keys == m.Keys + {"response", "tasks", "needsFollowUp", "followUpQuestion"}
    ensures r["response"] == Get(m, "response", JStr(DefaultReply))
    ensures r["tasks"] == Get(m, "tasks", JArr([]))
    ensures r["needsFollowUp"] == Get(m, "needsFollowUp", JBool(false))
    ensures r["followUpQuestion"] == Get(m, "followUpQuestion", JNull)
    ensures forall k :: k in m ==> r[k] == m[k]
  {
    var m1 := if "response" in m then m else m["response" := JStr(DefaultReply)];
    var m2 := if "tasks" in m1 then m1 else m1["tasks" := JArr([])];
    var m3 := if "needsFollowUp" in m2 then m2 else m2["needsFollowUp" := JBool(false)];
    if "followUpQuestion" in m3 then m3 else m3["followUpQuestion" := JNull]
  }

  /** What extract_tasks_from_message returns, given the model's reply. */
  function Extraction(reply: Outcome<string>, loads: string -> Option<Json>, repr: Json -> string): (r: Json)
    ensures reply.Rejected? ==> r == Sorry
    ensures reply.Resolved? && loads(reply.value).Some? ==> r.JObj? && "tasks" in r.fields && r.fields["tasks"].JArr?
  {
    if reply.Rejected? then Sorry
    else
      var text := reply.value;
      match loads(text)
      case None =>
        var span := BraceSpan(text);
        if span.Some? && loads(span.value).Some? then loads(span.value).value else Fallback
      case Some(parsed) =>
        if !parsed.JObj? then Sorry
        else
          var m := WithDefaults(parsed.fields);
          match Iterate(m["tasks"])
          case NotIterable => Sorry
          case Strings(_) => JObj(m["tasks" := JArr([])])
          case Elements(xs) => JObj(m["tasks" := JArr(CleanTasks(xs, repr))])
  }

  /** extract_tasks_from_message. */
  method ExtractTasksFromMessage(reply: Outcome<string>, loads: string -> Option<Json>, repr: Json -> string) returns (r: Json)
    ensures r == Extraction(reply, loads, repr)
  {
    if reply.Rejected? {
      return Sorry;
    }
    var text := reply.value;
    var parsed := loads(text);
    if parsed.None? {
      var span := BraceSpan(text);
      if span.Some? {
        var recovered := loads(span.value);
        if recovered.Some? {
          return recovered.value;
        }
      }
      return Fallback;
    }
    if !parsed.value.JObj? {
      return Sorry;
    }
    var response := parsed.value.fields;
    if "response" !in response {
      response := response["response" := JStr(DefaultReply)];
    }
    if "tasks" !in response {
      response := response["tasks" := JArr([])];
    }
    if "needsFollowUp" !in response {
      response := response["needsFollowUp" := JBool(false)];
    }
    if "followUpQuestion" !in response {
      response := response["followUpQuestion" := JNull];
    }
    var candidates := Iterate(response["tasks"]);
    if candidates.NotIterable? {
      return Sorry;
    }
    var validTasks: seq<Json> := [];
    if candidates.Elements? {
      var xs := candidates.items;
      var i := 0;
      while i < |xs|
        invariant 0 <= i <= |xs|
        invariant validTasks == CleanTasks(xs[..i], repr)
      {
        assert xs[..i + 1][..i] == xs[..i];
        var cleaned := CleanTask(xs[i], repr);
        if cleaned.Some? {
          validTasks := validTasks + [cleaned.value];
        }
        i := i + 1;
      }
      assert xs[..|xs|] == xs;
    }
    response := response["tasks" := JArr(validTasks)];
    r := JObj(response);
  }

  /** A decoded object keeps its extra keys, gets the four defaults, and its tasks are the cleaned candidates. */
  lemma ExtractionOfObject(text: string, m: map<string, Json>, loads: string -> Option<Json>, repr: Json -> string)
    requires loads(text) == Some(JObj(m))
    requires Get(m, "tasks", JArr([])).JArr?
    ensures var r := Extraction(Resolved(text), loads, repr);
      r.JObj? && r.fields.Keys == m.Keys + {"response", "tasks", "needsFollowUp", "followUpQuestion"} &&
      r.fields["response"] == Get(m, "response", JStr(DefaultReply)) &&
      r.fields["needsFollowUp"] == Get(m, "needsFollowUp", JBool(false)) &&
      r.fields["followUpQuestion"] == Get(m, "followUpQuestion", JNull) &&
      r.fields["tasks"] == JArr(CleanTasks(Get(m, "tasks", JArr([])).items, repr)) &&
      (forall k :: k in m && k != "tasks" ==> r.fields[k] == m[k])
  {
  }

  /** Undecodable text: the brace span is decoded and returned as is, else the fallback reply. */
  lemma ExtractionOfUndecodable(text: string, loads: string -> Option<Json>, repr: Json -> string)
    requires loads(text).None?
    ensures var r := Extraction(Resolved(text), loads, repr);
      (BraceSpan(text).Some? && loads(BraceSpan(text).value).Some? ==> r == loads(BraceSpan(text).value).value) &&
      (BraceSpan(text).None? || loads(BraceSpan(text).value).None? ==> r == Fallback)
  {
  }

  /** A failed model call, a decoded value that is not an object, and a tasks value that cannot be iterated all give the sorry reply. */
  lemma ExtractionFailures(text: string, loads: string -> Option<Json>, repr: Json -> string, message: string)
    ensures Extraction(Rejected(message), loads, repr) == Sorry
    ensures loads(text).Some? && !loads(text).value.JObj? ==> Extraction(Resolved(text), loads, repr) == Sorry
    ensures loads(text).Some? && loads(text).value.JObj? && Iterate(Get(loads(text).value.fields, "tasks", JArr([]))).NotIterable? ==>
      Extraction(Resolved(text), loads, repr) == Sorry
  {
  }

  // ---------------------------------------------------------------------------
  // _extract_date_from_text
  // ---------------------------------------------------------------------------

  /** The three patterns, tried in order: \d{4}-\d{2}-\d{2}, \d{1,2}/\d{1,2}/\d{4}, \d{1,2}-\d{1,2}-\d{4}. */
  datatype Pattern = IsoPattern | SlashPattern | DashPattern

  const Patterns: seq<Pattern> := [IsoPattern, SlashPattern, DashPattern]

  predicate AllDigits(s: string, i: nat, n: nat)
  {
    i + n <= |s| && forall k :: i <= k < i + n ==> IsDigit(s[k])
  }

  /** Length of `\d{1,2}` followed by sep at i (two digits are tried first), or 0. */
  function GroupLen(s: string, i: nat, sep: char): (n: nat)
    ensures n <= 2
    ensures n > 0 ==> AllDigits(s, i, n) && i + n < |s| && s[i + n] == sep
  {
    if i + 2 < |s| && IsDigit(s[i]) && IsDigit(s[i + 1]) && s[i + 2] == sep then 2
    else if i + 1 < |s| && IsDigit(s[i]) && s[i + 1] == sep then 1
    else 0
  }

  /** Length of the match of a pattern starting at i, or 0 when none starts there. */
  function MatchLen(s: string, i: nat, p: Pattern): (n: nat)
    ensures n > 0 ==> i + n <= |s|
  {
    match p
    case IsoPattern =>
      if AllDigits(s, i, 4) && i + 4 < |s| && s[i + 4] == '-' && AllDigits(s, i + 5, 2) &&
         i + 7 < |s| && s[i + 7] == '-' && AllDigits(s, i + 8, 2) then 10 else 0
    case _ =>
      var sep := if p == SlashPattern then '/' else '-';
      var a := GroupLen(s, i, sep);
      if a == 0 then 0
      else
        var j := i + a + 1;
        var b := GroupLen(s, j, sep);
        if b == 0 then 0
        else
          var k := j + b + 1;
          if AllDigits(s, k, 4) then k + 4 - i else 0
  }

  /** re.search: the leftmost position from `from` on where the pattern matches, or -1. */
  function Search(s: string, p: Pattern, from: nat): (i: int)
    ensures i == -1 || (from <= i && MatchLen(s, i, p) > 0)
    ensures i == -1 ==> forall j: nat :: from <= j < |s| ==> MatchLen(s, j, p) == 0
    ensures i >= 0 ==> forall j: nat :: from <= j < i ==> MatchLen(s, j, p) == 0
    decreases |s| - from
  {
    if from >= |s| then -1
    else if MatchLen(s, from, p) > 0 then from
    else Search(s, p, from + 1)
  }

  /** The matched text, read with the format the source picks for it. */
  function ParseMatch(span: string): (r: Option<Date>)
    ensures r.Some? ==> ValidDate(r.value) && r.value.year >= 1
  {
    if '/' in span then StrptimeMdy(span, '/')
    else if '-' in span && |Split(span, '-')[0]| == 4 then StrptimeYmd(span)
    else StrptimeMdy(span, '-')
  }

  /** The date a pattern yields from text: its leftmost match, read as a date. */
  function PatternDate(text: string, p: Pattern): (r: Option<Date>)
    ensures r.Some? ==> ValidDate(r.value) && r.value.year >= 1
  {
    var i := Search(text, p, 0);
    if i < 0 then None else ParseMatch(text[i..i + MatchLen(text, i, p)])
  }

  /** The patterns are tried in order; an invalid date moves on to the next one. */
  function TryPatterns(text: string, ps: seq<Pattern>): (r: Option<int>)
    ensures r.None? <==> forall k :: 0 <= k < |ps| ==> PatternDate(text, ps[k]).None?
  {
    if ps == [] then None
    else
      var d := PatternDate(text, ps[0]);
      if d.Some? then Some(DayNumber(d.value))
      else
        var rest := TryPatterns(text, ps[1..]);
        assert forall k :: 1 <= k < |ps| ==> ps[k] == ps[1..][k - 1];
        rest
  }

  /** _extract_date_from_text as a day number: keywords first, in order, then the patterns. */
  function ExtractDay(text: string, today: int): Option<int>
  {
    var lower := Lower(text);
    if Contains(lower, "today") then Some(today)
    else if Contains(lower, "tomorrow") then Some(today + 1)
    else if Contains(lower, "next week") then Some(today + 7)
    else if Contains(lower, "next month") then Some(today + 30)
    else TryPatterns(text, Patterns)
  }

  /** _extract_date_from_text: the day found, written as YYYY-MM-DD. */
  function ExtractDateFromText(text: string, today: int): (r: Option<string>)
    ensures r.Some? <==> ExtractDay(text, today).Some?
  {
    match ExtractDay(text, today)
    case Some(n) => Some(DateUtils.CivilString(ToCivil(n)))
    case None => None
  }

  /** The keywords are case-insensitive substrings, checked in the order today, tomorrow, next week, next month. */
  lemma KeywordOrder(text: string, today: int)
    ensures Contains(Lower(text), "today") ==> ExtractDay(text, today) == Some(today)
    ensures !Contains(Lower(text), "today") && Contains(Lower(text), "tomorrow") ==> ExtractDay(text, today) == Some(today + 1)
    ensures !Contains(Lower(text), "today") && !Contains(Lower(text), "tomorrow") && Contains(Lower(text), "next week") ==>
      ExtractDay(text, today) == Some(today + 7)
    ensures (!Contains(Lower(text), "today") && !Contains(Lower(text), "tomorrow") && !Contains(Lower(text), "next week") &&
             Contains(Lower(text), "next month")) ==> ExtractDay(text, today) == Some(today + 30)
  {
  }

  predicate NoKeyword(text: string)
  {
    var lower := Lower(text);
    !Contains(lower, "today") && !Contains(lower, "tomorrow") && !Contains(lower, "next week") && !Contains(lower, "next month")
  }

  /** Without a keyword, the result is the first pattern whose match is a real date; None when there is none. */
  lemma PatternFallThrough(text: string, today: int)
    requires NoKeyword(text)
    ensures ExtractDay(text, today).None? <==> forall k :: 0 <= k < |Patterns| ==> PatternDate(text, Patterns[k]).None?
    ensures PatternDate(text, IsoPattern).Some? ==> ExtractDay(text, today) == Some(DayNumber(PatternDate(text, IsoPattern).value))
    ensures PatternDate(text, IsoPattern).None? && PatternDate(text, SlashPattern).Some? ==>
      ExtractDay(text, today) == Some(DayNumber(PatternDate(text, SlashPattern).value))
    ensures PatternDate(text, IsoPattern).None? && PatternDate(text, SlashPattern).None? && PatternDate(text, DashPattern).Some? ==>
      ExtractDay(text, today) == Some(DayNumber(PatternDate(text, DashPattern).value))
  {
    var iso, slash, dash := PatternDate(text, IsoPattern), PatternDate(text, SlashPattern), PatternDate(text, DashPattern);
    assert Patterns[1..] == [SlashPattern, DashPattern];
    assert Patterns[1..][1..] == [DashPattern];
    assert TryPatterns(text, [DashPattern]) == if dash.Some? then Some(DayNumber(dash.value)) else TryPatterns(text, []);
    assert TryPatterns(text, [SlashPattern, DashPattern]) ==
      if slash.Some? then Some(DayNumber(slash.value)) else TryPatterns(text, [DashPattern]);
    assert TryPatterns(text, Patterns) == if iso.Some? then Some(DayNumber(iso.value)) else TryPatterns(text, [SlashPattern, DashPattern]);
  }

  /** The text written is one strptime("%Y-%m-%d") reads back as the same day (for four-digit years). */
  lemma ExtractedIsIsoDate(text: string, today: int)
    requires ExtractDay(text, today).Some?
    requires 1000 <= ToCivil(ExtractDay(text, today).value).year <= 9999
    ensures StrptimeYmd(ExtractDateFromText(text, today).value) == Some(ToCivil(ExtractDay(text, today).value))
  {
    StrptimeOfCivilString(ToCivil(ExtractDay(text, today).value));
  }

  predicate DigitsAndDashes(s: string)
  {
    forall k :: 0 <= k < |s| ==> IsDigit(s[k]) || s[k] == '-'
  }

  /** A word starting with a letter does not occur in lower-cased digits and dashes. */
  lemma NoWordInDigits(s: string, w: string)
    requires DigitsAndDashes(s) && |w| > 0 && 'a' <= w[0] <= 'z'
    ensures !Contains(Lower(s), w)
  {
    var lower := Lower(s);
    forall i: nat | i <= |lower|
      ensures !OccursAt(lower, w, i)
    {
      if i + |w| <= |lower| {
        assert lower[i..i + |w|][0] == LowerChar(s[i]);
      }
    }
  }

  /** A formatted four-digit-year date is ten characters of digits and dashes, matching the first pattern at 0. */
  lemma CivilStringShape(c: Date)
    requires ValidDate(c) && 1000 <= c.year <= 9999
    ensures var s := DateUtils.CivilString(c);
      |s| == 10 && DigitsAndDashes(s) && s[4] == '-' && MatchLen(s, 0, IsoPattern) == 10
  {
    var s := DateUtils.CivilString(c);
    var y, m, d := NatToString(c.year), Pad2(c.month), Pad2(c.day);
    FourDigits(c.year);
    Pad2Shape(c.month);
    Pad2Shape(c.day);
    assert s == y + "-" + m + "-" + d;
    assert forall k :: 0 <= k < 4 ==> s[k] == y[k];
    assert forall k :: 5 <= k < 7 ==> s[k] == m[k - 5];
    assert forall k :: 8 <= k < 10 ==> s[k] == d[k - 8];
  }

  /** The first pattern finds a formatted date at 0 and reads it back. */
  lemma IsoPatternOfCivilString(c: Date)
    requires ValidDate(c) && 1000 <= c.year <= 9999
    ensures PatternDate(DateUtils.CivilString(c), IsoPattern) == Some(c)
  {
    var s := DateUtils.CivilString(c);
    CivilStringShape(c);
    assert Search(s, IsoPattern, 0) == 0;
    assert s[0..10] == s;
    ParseMatchOfCivilString(c);
  }

  /** A formatted date has no slash, and its first dash-separated part is the four-digit year. */
  lemma ParseMatchOfCivilString(c: Date)
    requires ValidDate(c) && 1000 <= c.year <= 9999
    ensures ParseMatch(DateUtils.CivilString(c)) == Some(c)
  {
    var s := DateUtils.CivilString(c);
    CivilStringShape(c);
    NoSlash(s);
    assert '-' in s by { assert s[4] == '-'; }
    SplitCivilString(c);
    FourDigits(c.year);
    StrptimeOfCivilString(c);
  }

  lemma NoSlash(s: string)
    requires DigitsAndDashes(s)
    ensures '/' !in s
  {
    forall k | 0 <= k < |s| ensures s[k] != '/' {
      assert IsDigit(s[k]) || s[k] == '-';
    }
  }

  /** A date written YYYY-MM-DD with a four-digit year, given as the text, comes back unchanged. */
  lemma IsoTextRoundTrip(c: Date, today: int)
    requires ValidDate(c) && 1000 <= c.year <= 9999
    ensures ExtractDateFromText(DateUtils.CivilString(c), today) == Some(DateUtils.CivilString(c))
  {
    var s := DateUtils.CivilString(c);
    CivilStringShape(c);
    NoWordInDigits(s, "today");
    NoWordInDigits(s, "tomorrow");
    NoWordInDigits(s, "next week");
    NoWordInDigits(s, "next month");
    IsoPatternOfCivilString(c);
    PatternFallThrough(s, today);
    ToCivilOfDayNumber(c);
  }
}
