# Study-Mate, modelled in Dafny

Study-Mate is a study planner. A FastAPI backend runs a LangGraph agent per chat message, and a React front end holds the to-do lists, calendar, quizzes, past papers, timers and rewards.

For each turn, the agent does three things:
- routes the message to small talk or to task extraction;
- turns the language model's reply into accepted tasks, pending drafts and one pending confirmation per accepted task;
- resolves natural-language due dates to `YYYY-MM-DD`.

This project models the deterministic core of both halves and proves what that core promises.

- **Backend** (`Agent`, `TaskExtractor`, `Firestore`, `Models`).
  - The agent state is a class whose nodes update it in place.
  - The language model, `dateparser`, `json.loads`, `uuid4` and the store's success or failure are parameters, passed as oracle functions or booleans.
  - Python values from `json.loads` are the `Json` datatype, with Python truthiness, `dict.get` and iteration.
  - The store is a map from user id to a map of task records, behind a class with `AddTask`, `UpdateTask` and `DeleteTask`.
- **Front end.**
  - Dates are day numbers counted from 1970-01-01, and JavaScript's `Date` overflow is modelled by `MakeDay`.
  - "Now" and every timer tick are explicit parameters or steps.
  - Each React component whose handlers replace state is a class. Its fields are the component's state, and each handler method states its whole new state.
  - Pure selectors and filters are functions, with lemmas for order preservation, partitions, round trips and idempotence.

Shared helper modules:
- `Wrappers`: `Option` and `Outcome`.
- `Seqs`: filters and subsequences.
- `Text`: JavaScript and Python string operations.
- `CivilCalendar`: proleptic Gregorian dates.
- `Json`.
- `Ordering`: the sorted distinct lists behind the year and medium dropdowns.

## Model

| member | source | states |
|---|---|---|
| Json.AsString | ai-backend/models.py:6-10 | a `str` field accepts exactly the string values, and gives back the string it was given |
| Models.OptStrField | ai-backend/models.py:8-9 | an `Optional[str]` field accepts None and strings, and gives back exactly what it was given |
| Models.BoolField | ai-backend/models.py:11 | a `bool` field accepts booleans as given and rejects strings, None, lists and objects |
| Models.ValidateTaskData | ai-backend/models.py:5-11 | description is required; every accepted field equals the given value or its default (Personal, None, None, low, False); `completed` is the boolean coercion of the given value, False when absent |
| Models.TaskDataDefaults | ai-backend/models.py:5-11 | a task given only a description takes list Personal, no due date, no sub-tasks, priority low, not completed |
| Models.TaskDataRoundTrip | ai-backend/models.py:5-11 | building a task from its own field map gives the same task back |
| Models.ValidateChatMessage | ai-backend/models.py:13-15 | both message and userId are required strings; a message is accepted exactly when both are strings |
| Models.ValidateTasks | ai-backend/models.py:19 | an accepted task list has one task per element, each built from that element |
| Models.ValidateChatResponse | ai-backend/models.py:17-21 | response is required; a missing tasks, needsFollowUp or followUpQuestion takes [], False, None |
| Models.ChatResponseDefaults | ai-backend/models.py:17-21 | a response given only its text has no tasks, no follow-up and no question |
| Models.ValidateErrorResponse | ai-backend/models.py:23-25 | error is required and detail defaults to None |
| Firestore.ParseRole | ai-backend/firestore_service.py:66 | `UserRole(value)` succeeds exactly on the three role names and returns the role named |
| Firestore.RoleFrom | ai-backend/firestore_service.py:61-70 | a role other than STUDENT is reported only when the user document stores it; a missing user or role gives STUDENT |
| Firestore.StoredRoleReported | ai-backend/firestore_service.py:63-66 | a valid stored role is the role reported |
| Firestore.StatsFrom | ai-backend/firestore_service.py:156-177 | each stat is copied when present and 0 when absent; a missing user gives both zeros |
| Firestore.SubTaskList | ai-backend/firestore_service.py:99-105 | a list of sub-tasks becomes one `{description, completed: False}` record per element, same length and order |
| Firestore.DescriptionsOfSubTaskList | ai-backend/firestore_service.py:99-105 | reading the stored descriptions back gives the original sub-task list |
| Firestore.TaskRecord | ai-backend/firestore_service.py:88-112 | the written record copies description and dueDate, defaults priority medium, completed False, list Personal, importance False; a truthy list, a truthy string and a falsy value of subTasks are stored as a record list, a one-element list and None |
| Firestore.FirestoreService.constructor | ai-backend/firestore_service.py:20-42 | a service starts with the given connection and documents |
| Firestore.FirestoreService.GetUser | ai-backend/firestore_service.py:44-59 | the user document is returned exactly when the client exists, the read succeeds and the document exists |
| Firestore.FirestoreService.GetUserRole | ai-backend/firestore_service.py:61-70 | a non-STUDENT role comes only from a stored role field; with no client the role is STUDENT |
| Firestore.FirestoreService.GetPomodoroStats | ai-backend/firestore_service.py:156-177 | both stats are zero unless the user document is read; a stored count is returned as stored |
| Firestore.FirestoreService.AddTask | ai-backend/firestore_service.py:72-123 | returns True exactly when there is a client and the write succeeds; then exactly one record, TaskRecord of the data, is added under the new id and nothing else changes; otherwise nothing is written |
| Firestore.FirestoreService.UpdateTask | ai-backend/firestore_service.py:210-234 | succeeds exactly when there is a client, the updates name at least one field, the task exists and the write succeeds; then only that task changes, merged with the updates; an empty update is refused by the client and fails with nothing changed |
| Firestore.FirestoreService.DeleteTask | ai-backend/firestore_service.py:236-259 | on success exactly that task is removed from the user's tasks; on failure nothing changes |
| Firestore.UpdateTouchesOneTask | ai-backend/firestore_service.py:210-234 | an update leaves other users, other tasks and unnamed fields as they were, and sets each named field to its new value |
| TaskExtractor.StrptimeFields | ai-backend/task_extractor.py:172 | strptime accepts only tokens that name a real calendar date, and returns that date |
| TaskExtractor.StrptimeYmd | ai-backend/task_extractor.py:172 | a string accepted as `%Y-%m-%d` gives a valid calendar date |
| TaskExtractor.StrptimeMdy | ai-backend/task_extractor.py:237-241 | a string accepted as `%m/%d/%Y` or `%m-%d-%Y` gives a valid calendar date |
| TaskExtractor.FourDigits | ai-backend/task_extractor.py:172 | a year from 1000 to 9999 is written with four digits |
| TaskExtractor.MonthTokenOfPad2 | ai-backend/task_extractor.py:172 | a zero-padded month 1 to 12 is an accepted `%m` token |
| TaskExtractor.DayTokenOfPad2 | ai-backend/task_extractor.py:172 | a zero-padded day 1 to 31 is an accepted `%d` token |
| TaskExtractor.SplitCivilString | ai-backend/task_extractor.py:172 | a formatted date splits on '-' into its year, month and day |
| TaskExtractor.StrptimeOfCivilString | ai-backend/task_extractor.py:216-222 | strptime reads back every date strftime writes for a four-digit year |
| TaskExtractor.NormalList | ai-backend/task_extractor.py:162-163 | the list is kept when it is Personal, Work or Study, and is Personal otherwise |
| TaskExtractor.NormalPriority | ai-backend/task_extractor.py:166-167 | the priority is kept when it is low, medium or high, and is low otherwise |
| TaskExtractor.CheckedDue | ai-backend/task_extractor.py:170-174 | a due date survives only when strptime accepts it, and becomes None otherwise |
| TaskExtractor.CleanTask | ai-backend/task_extractor.py:146-180 | a candidate is kept exactly when it is an object with a truthy description whose due date, if truthy, is a string; the kept task has a stripped description, normalised list and priority, a checked due date and completed False |
| TaskExtractor.CleanTasks | ai-backend/task_extractor.py:144-182 | the loop's list of cleaned candidates, built from the back; it never holds more tasks than there are candidates |
| TaskExtractor.CleanTasksAppend | ai-backend/task_extractor.py:144-182 | cleaning a concatenation cleans each part in turn, so output order follows input order |
| TaskExtractor.CleanTasksFromCandidates | ai-backend/task_extractor.py:144-182 | there are no more kept tasks than candidates, and each comes from some candidate |
| TaskExtractor.NormalisedFields | ai-backend/task_extractor.py:152-174 | a record built from a description, normalised list and priority and a checked due date has every task key, valid enums and a due date strptime accepts |
| TaskExtractor.CheckedDueAccepted | ai-backend/task_extractor.py:170-174 | a checked due date is None or a string strptime accepts |
| TaskExtractor.CleanTaskNormalised | ai-backend/task_extractor.py:146-180 | every kept task is in normal form |
| TaskExtractor.CleanTasksNormalised | ai-backend/task_extractor.py:144-182 | every task in the output is in normal form |
| TaskExtractor.CleanTasksAllSkipped | ai-backend/task_extractor.py:144-182 | a list whose every candidate is dropped yields no tasks |
| TaskExtractor.BraceSpan | ai-backend/task_extractor.py:187-190 | the recovered span runs from the first '{' to the last '}' when both exist in that order |
| TaskExtractor.WithDefaults | ai-backend/task_extractor.py:131-141 | a missing response, tasks, needsFollowUp or followUpQuestion takes its default; other keys are kept |
| TaskExtractor.Extraction | ai-backend/task_extractor.py:104-207 | what `extract_tasks_from_message` returns for a model reply: the apology when the call failed, and for a reply that decodes, a dictionary whose "tasks" is a list |
| TaskExtractor.ExtractTasksFromMessage | ai-backend/task_extractor.py:104-207 | the method's result is the reply the extraction rules define, with the cleaned tasks of the loop |
| TaskExtractor.ExtractionOfObject | ai-backend/task_extractor.py:128-183 | an object reply with a task list gets its defaults and its cleaned tasks in order |
| TaskExtractor.ExtractionOfUndecodable | ai-backend/task_extractor.py:185-200 | an undecodable reply returns its decoded brace span without validation, and the fixed fallback with no tasks when there is no decodable span |
| TaskExtractor.ExtractionFailures | ai-backend/task_extractor.py:128-207 | a failed model call, a reply that is not an object, and a tasks value that cannot be iterated give the apology with no tasks |
| TaskExtractor.GroupLen | ai-backend/task_extractor.py:226-228 | a digit group is the longest run of digits at that position |
| TaskExtractor.MatchLen | ai-backend/task_extractor.py:226-228 | a pattern matches at a position exactly over its digit groups and separators |
| TaskExtractor.Search | ai-backend/task_extractor.py:232 | `re.search` finds the leftmost match, or none |
| TaskExtractor.ParseMatch | ai-backend/task_extractor.py:234-243 | a matched span is read as MM/DD/YYYY, YYYY-MM-DD or MM-DD-YYYY by its separator and first group, and only valid dates are returned |
| TaskExtractor.PatternDate | ai-backend/task_extractor.py:231-244 | a pattern yields a date only when it matches and the match is a valid date |
| TaskExtractor.TryPatterns | ai-backend/task_extractor.py:231-246 | no date is found exactly when no pattern yields one |
| TaskExtractor.ExtractDateFromText | ai-backend/task_extractor.py:209-246 | a found date is written YYYY-MM-DD |
| TaskExtractor.KeywordOrder | ai-backend/task_extractor.py:211-222 | "today", "tomorrow", "next week", "next month" are checked in that order, case-insensitively, giving +0, +1, +7 and +30 days |
| TaskExtractor.PatternFallThrough | ai-backend/task_extractor.py:224-246 | text with no keyword gets the first pattern's valid date, else the second's, else the third's, else None |
| TaskExtractor.ExtractedIsIsoDate | ai-backend/task_extractor.py:216-242 | every extracted date is the formatted text of a valid calendar date |
| TaskExtractor.NoWordInDigits | ai-backend/task_extractor.py:213-222 | a string of digits and dashes contains no keyword |
| TaskExtractor.CivilStringShape | ai-backend/task_extractor.py:226 | a formatted date with a four-digit year is ten characters that the first pattern matches whole |
| TaskExtractor.IsoPatternOfCivilString | ai-backend/task_extractor.py:226-239 | the first pattern finds a formatted date and reads back the same date |
| TaskExtractor.IsoTextRoundTrip | ai-backend/task_extractor.py:209-246 | a text that is a formatted date is extracted unchanged |
| Agent.ResolveDay | ai-backend/agent.py:53-89 | a non-string or empty value has no day; a first parse that succeeds is the answer; any other answer comes from exactly one retry on the text after a case-insensitive "next " prefix |
| Agent.ParseNaturalDate | ai-backend/agent.py:32-103 | the result exists exactly when a day was resolved, and is then the YYYY-MM-DD text of a day, never the phrase given |
| Agent.NextPrefixRetried | ai-backend/agent.py:77-89 | "next X" that the first parse rejects resolves to whatever the retry on X gives |
| Agent.NextPhraseStripped | ai-backend/agent.py:56 | a "next " phrase with no trailing space is unchanged by strip |
| Agent.NextPhrasePrefix | ai-backend/agent.py:78 | a phrase built on "next " passes the lower-cased prefix test |
| Agent.IsoDateUnchanged | ai-backend/agent.py:44-99 | assuming dateparser reads a YYYY-MM-DD text as that day, the same text comes back |
| Agent.WordResolved | ai-backend/agent.py:53-103 | a word the first parse reads as a day is returned as that day's formatted text |
| Agent.TodayResolved | ai-backend/agent.py:37-38 | assuming dateparser reads "today" as the reference day, it comes back as that day, formatted |
| Agent.TomorrowResolved | ai-backend/agent.py:37-39 | assuming dateparser reads "tomorrow" as the day after the reference day, it comes back as that day, formatted |
| Agent.RouterIntent | ai-backend/agent.py:161-215 | the stored intent is the model's "intent" only when its reply decodes to an object with both "intent" and "confidence"; every failure stores "small_talk" |
| Agent.RouteDecision | ai-backend/agent.py:217-219 | the decision is the intent when it is truthy and "small_talk" otherwise, so it is never empty |
| Agent.Route | ai-backend/agent.py:141-149 | "small_talk" leads to the conversationalist, "tool_use" to the task extractor, and nothing else has an edge |
| Agent.FailedClassificationTalks | ai-backend/agent.py:141-219 | a failed model call or undecodable reply always reaches the conversationalist |
| Agent.RouteDefined | ai-backend/agent.py:141-219 | the graph has an edge exactly when the intent is falsy or one of the two names |
| Agent.CutAtBar | ai-backend/agent.py:603-614 | a string containing a pipe character is cut to its stripped first segment; any other value is kept |
| Agent.ToChoice | ai-backend/agent.py:606-666 | the enum conversion succeeds exactly when the cleaned value names a member, and returns that member |
| Agent.ChoiceOr | ai-backend/agent.py:601-620 | the result is always a member: the member named, or the default when the value names none |
| Agent.FirstAlternativeChosen | ai-backend/agent.py:603-605 | a pipe-joined value such as Personal, Work and Study joined by pipes picks its first alternative |
| Agent.AcceptTask | ai-backend/agent.py:588-629 | a candidate is accepted exactly when description and dueDate are truthy and the date resolves; the task's dueDate is then the resolved day, list and priority are members with defaults Personal and medium, and subTasks and importance are copied |
| Agent.DraftPending | ai-backend/agent.py:646-687 | a truthy pending due date is replaced by its resolved day or kept raw when it does not resolve; list and priority become members or None; description, subTasks and missingFields (default []) are copied |
| Agent.Confirmations | ai-backend/agent.py:630-640 | one confirmation per accepted task, in order, each "pending" with the next fresh id |
| Agent.ScanTasks | ai-backend/agent.py:588-642 | the loop raises exactly when some element is not an object, and it accepts at most one task per element |
| Agent.ScanTasksValid | ai-backend/agent.py:588-642 | no raw phrase reaches a task: every accepted task has a truthy description, a formatted due date, and a member list and priority |
| Agent.ScanTasksStopsAtCrash | ai-backend/agent.py:588-642 | once an element raises, the elements after it change nothing |
| Agent.ScanPendingDrafts | ai-backend/agent.py:646-689 | the pending loop succeeds exactly when every element is an object, and then drafts each element in order |
| Agent.Recent | ai-backend/agent.py:259 | `history[-n:]` is the last min(n, length) messages |
| Agent.CarriedEntries | ai-backend/agent.py:749 | the client's pending tasks enter the state one entry each, unchanged |
| Agent.DraftedEntries | ai-backend/agent.py:692 | the drafts replace the pending list one entry each, in order |
| Agent.AgentState.constructor | ai-backend/agent.py:741-756 | the state dictionary starts with exactly the given fields |
| Agent.CheckHistory | ai-backend/agent.py:570-572 | reading the recent history succeeds exactly when each of its messages has a role and a content |
| Agent.RouterNode | ai-backend/agent.py:161-215 | the node changes only the intent, to the classified one |
| Agent.ConversationalistNode | ai-backend/agent.py:225-277 | the node changes only the response: the model's text, or the stock answer when the history or the call fails |
| Agent.CollectTasks | ai-backend/agent.py:588-642 | the loop's accepted tasks and raise are the ones the scan defines, with one confirmation per accepted task |
| Agent.CollectPending | ai-backend/agent.py:646-689 | the loop's drafts are the ones the pending scan defines, and it fails exactly where that scan does |
| Agent.CollectTaskItems | ai-backend/agent.py:588 | iterating a string or object with items, or a scalar, raises; a list is scanned |
| Agent.CollectPendingItems | ai-backend/agent.py:646 | iterating a string or object with items, or a scalar, raises; a list is scanned |
| Agent.ExtractorStep | ai-backend/agent.py:283-709 | the corrected extractor node as a function of the state: it raises exactly when the carried pending tasks cannot be put in the prompt, and otherwise keeps the session and the user |
| Agent.ExtractorStepAsWritten | ai-backend/agent.py:283-709 | the node as written, confirmations appended inside the loop: it raises in the same cases as the corrected node and keeps the session and the user |
| Agent.Turn | ai-backend/agent.py:128-155 | one graph run, router then the node its decision names, with the corrected extractor: a run that does not raise keeps the session and the user |
| Agent.TurnAsWritten | ai-backend/agent.py:128-155 | one graph run with the extractor node as written: a run that does not raise keeps the session and the user |
| Agent.TaskExtractorNode | ai-backend/agent.py:283-709 | with confirmations committed at the end (the corrected form of the finding on agent.py:630-707), the node raises exactly when the pending tasks cannot be described; otherwise the new state is the one the extraction rules give, with confirmations committed together with the tasks they confirm |
| Agent.ExtractorFields | ai-backend/agent.py:588-707 | with the corrected commit, after the two loops over a decoded object the state is either the outer `except` or the commit of the tasks, drafts and confirmations, as the extraction rules give |
| Agent.Fail | ai-backend/agent.py:704-707 | the outer `except` changes only the response, to the stock apology, and records the error; with the corrected commit no confirmation of the failed run is kept |
| Agent.Succeed | ai-backend/agent.py:691-695 | a completed run replaces the tasks and the pending list, appends their confirmations and copies response, needsFollowUp and followUpQuestion with their defaults |
| Agent.ProcessReply | ai-backend/agent.py:715-788 | the dictionary `process_message` returns over the corrected graph: a completed run carries the given session id, or the freshly drawn one when none was given; the apology carries the given id, or a second fresh one |
| Agent.ProcessReplyAsWritten | ai-backend/agent.py:715-788 | the same dictionary over the graph as written, with the same session ids |
| Agent.ProcessMessage | ai-backend/agent.py:715-788 | over the graph with the corrected extractor, the reply is the graph run's final state shaped into the response dictionary, or the apology with the session id when the graph raises |
| Agent.ReplyConfirmsEachTask | ai-backend/agent.py:630-772 | with confirmations committed at the end, every reply carries exactly one pending confirmation per reported task, in order |
| Agent.UnroutedIntentApologises | ai-backend/agent.py:777-788 | an intent other than the two names makes the graph raise and the reply is the apology |
| Agent.UndecodableKeepsLists | ai-backend/agent.py:699-702 | a reply that is not JSON asks for the task again, sets needs_follow_up and leaves every list as it was |
| Agent.PendingReplaced | ai-backend/agent.py:646-692 | after a successful run the pending list is exactly the drafts of the reply's pendingTasks, in order |
| Agent.PartialConfirmationsAsWritten | ai-backend/agent.py:630-707 | as written, an accepted task followed by an element that is not an object leaves a confirmation with no reported task; committing at the end leaves none |
| Agent.UnmatchedConfirmationAsWritten | ai-backend/agent.py:630-788 | end to end, a message routed to the extractor whose reply lists an accepted task and then a non-object gets, as written, a reply with no tasks and one confirmation; with the corrected commit the reply has neither |
| Agent.ConfirmTask | ai-backend/agent.py:790-822 | any role other than STUDENT gets False and nothing is written; a student gets the store's result, with the one record written on success |
| DateUtils.JsNumber | frontend/src/utils/dateUtils.js:11 | `Number` of an empty or blank part is 0, and of a digit string is its decimal value |
| DateUtils.NewDate | frontend/src/utils/dateUtils.js:12 | the Date constructor gives a valid date only from three numbers, and only inside the range of Date |
| DateUtils.DashedPartsInjective | frontend/src/utils/dateUtils.js:6 | a "y-mm-dd" string with two-character month and day determines its three parts |
| DateUtils.CivilStringInjective | frontend/src/utils/dateUtils.js:1-7 | two valid dates with the same formatted string are the same date |
| DateUtils.ParseDate | frontend/src/utils/dateUtils.js:9-13 | a string with fewer than three dash-separated parts is an Invalid Date, and every valid result is within the Date range |
| DateUtils.FormatDate | frontend/src/utils/dateUtils.js:1-7 | the text is "NaN-NaN-NaN" exactly for an Invalid Date |
| DateUtils.IsSameDay | frontend/src/utils/dateUtils.js:15-17 | every date is the same day as itself, and a valid date is never the same day as an Invalid Date |
| DateUtils.IsSameDayIff | frontend/src/utils/dateUtils.js:15-17 | two valid dates are the same day exactly when they are the same day number, so the relation is reflexive and symmetric |
| DateUtils.IsSameDayInvalid | frontend/src/utils/dateUtils.js:15-17 | a valid date is never the same day as an Invalid Date, and two Invalid Dates compare equal |
| DateUtils.IsPastDate | frontend/src/utils/dateUtils.js:25-32 | a string is past exactly when it parses to a day strictly before today |
| DateUtils.JsNumberOfDigits | frontend/src/utils/dateUtils.js:11 | `Number` of a digit string is its decimal value |
| DateUtils.SplitDashed | frontend/src/utils/dateUtils.js:11 | splitting "y-m-d" on '-' gives exactly the three parts when none contains a dash |
| DateUtils.NoDashInDigits | frontend/src/utils/dateUtils.js:11 | a digit string contains no dash |
| DateUtils.RoundTripInRange | frontend/src/utils/dateUtils.js:12 | a date from year 100 on that is not past the upper end of Date's range lies inside the whole range |
| DateUtils.NewDateOfValid | frontend/src/utils/dateUtils.js:12 | the Date constructor on such a date's fields gives its day |
| DateUtils.NumbersOfParts | frontend/src/utils/dateUtils.js:4-11 | `Number` of each part of a formatted date gives back its year, month and day |
| DateUtils.ParseCivilString | frontend/src/utils/dateUtils.js:9-13 | parseDate reads a formatted date back as the same day |
| DateUtils.FormatParseRoundTrip | frontend/src/utils/dateUtils.js:1-13 | formatDate(parseDate(s)) == s for every zero-padded date string s from year 100 on |
| DateUtils.ParseFormatRoundTrip | frontend/src/utils/dateUtils.js:1-13 | parseDate(formatDate(d)) is d again |
| DateUtils.IsPastDateOfFormatted | frontend/src/utils/dateUtils.js:25-32 | a formatted date is past exactly when its day is before today |
| DateUtils.TodayIsNotPast | frontend/src/utils/dateUtils.js:25-32 | today is never past |
| DateUtils.IsToday | frontend/src/utils/dateUtils.js:19-23 | today is today, and a string that parses to an Invalid Date is never today |
| DateUtils.IsTodayIff | frontend/src/utils/dateUtils.js:19-23 | a Date, or its formatted string, is today exactly when it is today's day |
| DateUtils.StartOfWeek | frontend/src/utils/dateUtils.js:39-62 | stepping back by the weekday lands on a Sunday |
| DateUtils.AddDays | frontend/src/utils/dateUtils.js:47-67 | `setDate(getDate() + k)` moves exactly k days, across month ends |
| DateUtils.MonthEnds | frontend/src/utils/dateUtils.js:35-37 | `new Date(y, m, 1)` is the first of the month and `new Date(y, m + 1, 0)` its last day, whose date is the month's length |
| DateUtils.FirstOfMonth | frontend/src/utils/dateUtils.js:35 | the first of a month is built from its year and month index |
| DateUtils.LastOfMonth | frontend/src/utils/dateUtils.js:36-37 | day 0 of the next month has the month's length as its date |
| DateUtils.NextMonthStart | frontend/src/utils/dateUtils.js:36 | day 0 of the next month is the last day of this one |
| DateUtils.ConsecutiveDays | frontend/src/utils/dateUtils.js:41-48 | the loop pushes count consecutive days from the start |
| DateUtils.GetMonthData | frontend/src/utils/dateUtils.js:34-58 | the grid is 42 consecutive days starting on the Sunday on or before the first, and covers the whole month; first, last and length are the month's; the first of the month sits at the grid index of its weekday, so the grid starts less than a week before it |
| DateUtils.GetWeekData | frontend/src/utils/dateUtils.js:60-72 | seven consecutive days from Sunday, the given day at its weekday's index |
| DateUtils.GetDayHours | frontend/src/utils/dateUtils.js:74-87 | 24 slots, hour i labelled with its two-digit "HH:00" |
| TaskUtils.LookupClass | frontend/src/utils/taskUtils.js:9 | `colors[key] or fallback`: a key with a non-empty class gives that class; a key neither in the table nor inherited from Object.prototype gives the fallback; an inherited prototype member is returned exactly when the key is not in the table but is a prototype key |
| TaskUtils.GetListColor | frontend/src/utils/taskUtils.js:3-10 | a list key of the table gets its own colour, any other plain key `bg-gray-500`, and an inherited Object member is returned exactly for the prototype keys |
| TaskUtils.GetListColorLight | frontend/src/utils/taskUtils.js:12-19 | a list key of the table gets its own light classes, any other plain key the light gray ones, and an inherited member exactly for the prototype keys |
| TaskUtils.GetPriorityColor | frontend/src/utils/taskUtils.js:21-28 | a priority of the table gets its own classes, any other plain key the classes of "low", and an inherited member exactly for the prototype keys |
| TaskUtils.ColourFallbacks | frontend/src/utils/taskUtils.js:3-28 | Personal, Work and Study have their own list colours; every other plain key gets the gray classes (strong and light), every priority other than high, medium and low gets the low colours, and prototype keys such as "constructor" return an inherited member instead of a class |
| TaskUtils.ViewNames | frontend/src/utils/taskUtils.js:33-49 | each filter name of the switch (all, upcoming, today, completed, important, overdue, Personal, Work, Study) selects its own case |
| TaskUtils.FilterTasks | frontend/src/utils/taskUtils.js:30-53 | the result keeps tasks in their order (a subsequence) and holds exactly the tasks the selected view shows; the 'all' view and every unknown filter return the input unchanged, and its length is the number of inputs that pass, so (by `Seqs.FilterUnique`) it is the one subsequence of passing elements that drops none: exactly `Array.prototype.filter`'s result |
| TaskUtils.TodayUpcomingDisjoint | frontend/src/utils/taskUtils.js:37-45 | no task is both due today and upcoming, and none of today, upcoming and overdue shows a completed task |
| TaskUtils.GetTasksForDate | frontend/src/utils/taskUtils.js:55-58 | the result is a subsequence of the tasks holding exactly those whose due date equals the formatted date, and its length is the number of inputs that pass, so (by `Seqs.FilterUnique`) it is the one subsequence of passing elements that drops none: exactly `Array.prototype.filter`'s result |
| TaskUtils.TasksForDateExact | frontend/src/utils/taskUtils.js:55-58 | a task due on a formatted day is selected for a date exactly when that day is the date |
| TaskUtils.GetTaskStats | frontend/src/utils/taskUtils.js:60-72 | total is the task count, completed plus pending is the total, and the today, upcoming, overdue, completed and important counts are the sizes of the lists the matching filters return |
| UseTasks.Merge | frontend/src/hooks/useTasks.js:75 | `{...task, ...updates}` keeps the id, changes nothing when no field is given, takes each present field from the updates and keeps each absent one |
| UseTasks.ApplyUpdates | frontend/src/hooks/useTasks.js:73-77 | the list keeps its length; each task with the id is merged with the updates and every other task is unchanged |
| UseTasks.WithoutId | frontend/src/hooks/useTasks.js:96 | the result is a subsequence holding exactly the tasks whose id differs, and its length is the number of inputs that pass, so (by `Seqs.FilterUnique`) it is the one subsequence of passing elements that drops none: exactly `Array.prototype.filter`'s result |
| UseTasks.FindById | frontend/src/hooks/useTasks.js:106 | None exactly when no task has the id; otherwise the first task with the id |
| UseTasks.UniqueFind | frontend/src/hooks/useTasks.js:106 | with unique ids, find returns the one task that has the id |
| UseTasks.FindAfterUpdate | frontend/src/hooks/useTasks.js:73-77 | after an update the task found under the id is the merge of the task found before (none stays none) |
| UseTasks.ToggleImportanceFlipsOne | frontend/src/hooks/useTasks.js:113-118 | with unique ids, toggling importance flips the flag of the task with the id and leaves every other task unchanged |
| UseTasks.ToggleImportanceTwice | frontend/src/hooks/useTasks.js:113-118 | with unique ids, toggling importance twice restores the list |
| UseTasks.ToggleCompletionFlipsOne | frontend/src/hooks/useTasks.js:105-110 | with unique ids, toggling completion flips the flag of the task with the id and leaves every other task unchanged |
| UseTasks.TaskHook.constructor | frontend/src/hooks/useTasks.js:6-8 | the hook starts with no tasks, loading, and no error |
| UseTasks.TaskHook.FetchTasks | frontend/src/hooks/useTasks.js:11-35 | loading ends; with no user the list is kept and the error is the no-user message; a successful read replaces the list and clears the error; a failed read keeps the list and records the message |
| UseTasks.TaskHook.AddTask | frontend/src/hooks/useTasks.js:38-60 | with no user or a failed write the error is raised and recorded and the list is kept; otherwise the new task has the stored id, the draft's fields and importance false, and is appended to the list |
| UseTasks.TaskHook.UpdateTask | frontend/src/hooks/useTasks.js:63-83 | with no user or a failed write the error is raised and recorded and the list is kept; otherwise every task with the id is merged with the updates |
| UseTasks.TaskHook.DeleteTask | frontend/src/hooks/useTasks.js:86-102 | with no user or a failed delete the error is raised and recorded and the list is kept; otherwise every task with the id is removed |
| UseTasks.TaskHook.ToggleComplete | frontend/src/hooks/useTasks.js:105-110 | an unknown id changes nothing; otherwise a successful write negates the completion flag, and a failure keeps the list and records the error |
| UseTasks.TaskHook.ToggleImportance | frontend/src/hooks/useTasks.js:113-118 | an unknown id changes nothing; otherwise a successful write negates the importance flag, and a failure keeps the list and records the error |
| ToDoPage.CompletedAt | frontend/src/pages/ToDoAfterLogin.jsx:100-105 | the list keeps its length; only the task at the given position has its completion flag negated, every other task is unchanged |
| ToDoPage.CompleteTwice | frontend/src/pages/ToDoAfterLogin.jsx:100-105 | completing the same position twice restores the list |
| ToDoPage.WithoutIndex | frontend/src/pages/ToDoAfterLogin.jsx:93-96 | a position inside the list removes exactly that task; any other position leaves the list unchanged |
| ToDoPage.ToDoList.constructor | frontend/src/pages/ToDoAfterLogin.jsx:64-75 | the page starts with no tasks, the default draft (Personal list, low priority, not completed), the lists Personal, Work and Study and an empty option input |
| ToDoPage.ToDoList.AddTask | frontend/src/pages/ToDoAfterLogin.jsx:78-90 | a draft whose trimmed description is non-empty is appended and the draft reset; a blank one changes nothing |
| ToDoPage.ToDoList.DeleteTask | frontend/src/pages/ToDoAfterLogin.jsx:93-96 | the list becomes the list without that position |
| ToDoPage.ToDoList.CompleteTask | frontend/src/pages/ToDoAfterLogin.jsx:100-105 | the list becomes the list with that position's flag negated |
| ToDoPage.ToDoList.HandleAddOption | frontend/src/pages/ToDoAfterLogin.jsx:108-113 | a non-empty option not yet listed is appended and the input cleared; otherwise nothing changes; the options stay free of duplicates |
| TaskForm.OrElse | frontend/src/components/TodoApp/TaskForm.jsx:26-30 | `s or fallback` on a string: a non-empty string is kept, the empty one gives the fallback |
| TaskForm.InitialForm | frontend/src/components/TodoApp/TaskForm.jsx:23-43 | editing a task fills each field from the task with its default for an empty field; a new task gets the blank form, with the initial date as due date when one is given |
| TaskForm.EditKeepsSetFields | frontend/src/components/TodoApp/TaskForm.jsx:24-32 | editing a task whose fields are all non-empty fills the form with exactly those fields |
| TaskForm.WithField | frontend/src/components/TodoApp/TaskForm.jsx:61-63 | setting one field changes that field and no other |
| TaskForm.TaskFormState.constructor | frontend/src/components/TodoApp/TaskForm.jsx:12-19 | the form starts blank, with nothing being edited and no initial date |
| TaskForm.TaskFormState.SetProps | frontend/src/components/TodoApp/TaskForm.jsx:23-43 | after the effect the form is the initial form for the new props |
| TaskForm.TaskFormState.HandleChange | frontend/src/components/TodoApp/TaskForm.jsx:61-63 | the form becomes the old form with the one field set |
| TaskForm.TaskFormState.HandleSubmit | frontend/src/components/TodoApp/TaskForm.jsx:45-59 | with a non-blank description the data and the edited task's id are submitted and the form reset; a blank description submits nothing and keeps the form |
| Rewards.OrZero | frontend/src/components/Rewards/RewardComponent.jsx:20-22 | `value or 0`: a present number is kept, an absent one reads as 0 |
| Rewards.LastWithId | frontend/src/components/Rewards/RewardComponent.jsx:19-23 | the document found is one of the snapshot's with that id; none is found exactly when no document has the id |
| Rewards.Tally | frontend/src/components/Rewards/RewardComponent.jsx:18-23 | each counter comes from the last document of its id, 0 when there is none; a snapshot without any of the three ids gives all zeros |
| Rewards.Badges | frontend/src/components/Rewards/RewardComponent.jsx:33-37 | Early Bird is earned exactly past 5, Night Owl exactly past 5, Focus Pearl exactly past 40 points; at most three badges, in that order |
| Rewards.Render | frontend/src/components/Rewards/RewardComponent.jsx:43-70 | the loading text exactly while loading; "No Badges Earned" exactly when no counter passes its threshold; otherwise one card per earned badge |
| Rewards.RewardPanel.constructor | frontend/src/components/Rewards/RewardComponent.jsx:8-9 | the panel starts with zero counters and loading |
| Rewards.RewardPanel.Load | frontend/src/components/Rewards/RewardComponent.jsx:11-31 | without a user nothing changes; otherwise loading ends, a read sets the tallied counters and a failed read keeps the old ones |
| Ordering.InsertDescending | frontend/src/components/PaperSelector.jsx:92-94 | adding one value to a descending list of distinct values gives a descending list of the old values and the new one |
| Ordering.DistinctDescending | frontend/src/components/PaperSelector.jsx:92-94 | `Array.from(new Set(xs)).sort((a, b) => b - a)`: a strictly descending list holding exactly the values of xs |
| Ordering.DescendingUnique | frontend/src/components/PaperSelector.jsx:92-94 | two strictly descending lists with the same values are equal, so any sort with that comparator gives the same menu |
| Ordering.DescendingDistinct | frontend/src/components/PaperSelector.jsx:92 | a strictly descending list never repeats a value, as the Set guarantees |
| Ordering.InsertAscending | frontend/src/pages/MarkingSchemes.jsx:38 | adding one string to an ascending list of distinct strings gives an ascending list of the old strings and the new one |
| Ordering.DistinctAscending | frontend/src/pages/MarkingSchemes.jsx:38 | `Array.from(new Set(xs)).sort()`: a strictly ascending list, in code-unit order, holding exactly the strings of xs |
| PaperSelector.YearsOf | frontend/src/components/PaperSelector.jsx:92 | `papers.map(p => p.year)`: one year per paper, in order |
| PaperSelector.Years | frontend/src/components/PaperSelector.jsx:92-94 | the year menu is strictly descending and holds exactly the years of the papers |
| PaperSelector.FilterPapers | frontend/src/components/PaperSelector.jsx:97-102 | the papers in order that match the chosen year and medium, where null, 0 and the empty string choose nothing; with nothing chosen, every paper, and its length is the number of inputs that pass, so (by `Seqs.FilterUnique`) it is the one subsequence of passing elements that drops none: exactly `Array.prototype.filter`'s result |
| PaperSelector.LeadingYear | frontend/src/components/PaperSelector.jsx:107-108 | a year exactly when the name starts with four digits, and then their value |
| PaperSelector.FilterEssayPdfs | frontend/src/components/PaperSelector.jsx:105-109 | all files when no year is chosen; otherwise, in order, exactly the files whose leading four digits are the chosen year, and its length is the number of inputs that pass, so (by `Seqs.FilterUnique`) it is the one subsequence of passing elements that drops none: exactly `Array.prototype.filter`'s result |
| PaperSelector.EssayYearOfName | frontend/src/components/PaperSelector.jsx:105-109 | a name with four leading digits is kept exactly when their value is the chosen year |
| PaperSelector.Titles | frontend/src/components/PaperSelector.jsx:224-230 | one card title per essay file, each the parsed file name |
| PaperSelector.Selector.constructor | frontend/src/components/PaperSelector.jsx:11-19 | the page starts loading, with no papers, no essay files, nothing chosen and the MCQ view |
| PaperSelector.Selector.FetchPapers | frontend/src/components/PaperSelector.jsx:23-41 | the papers become the store's papers, or none when the read fails; loading ends; nothing else changes |
| PaperSelector.Selector.LoadEssayPdfs | frontend/src/components/PaperSelector.jsx:44-56 | the essay files become the seven known files; nothing else changes |
| PaperSelector.Selector.SelectYear | frontend/src/components/PaperSelector.jsx:130 | the chosen year is set and nothing else changes |
| PaperSelector.Selector.SelectMedium | frontend/src/components/PaperSelector.jsx:156 | the chosen medium is set and nothing else changes |
| PaperSelector.Selector.SelectPaperType | frontend/src/components/PaperSelector.jsx:182 | the chosen paper type is set and nothing else changes |
| PaperSelector.Selector.Shown | frontend/src/components/PaperSelector.jsx:195-255 | the MCQ view lists the filtered papers; the essay view lists the filtered essay files, each with its parsed title |
| AlPaperSelector.AlSelector.constructor | frontend/src/components/AlPaperSelector.jsx:10-15 | the page starts loading, with no papers and nothing chosen |
| AlPaperSelector.AlSelector.FetchPapers | frontend/src/components/AlPaperSelector.jsx:20-37 | a read replaces the papers, a failed read keeps them; loading ends; the choices are unchanged |
| AlPaperSelector.AlSelector.SelectYear | frontend/src/components/AlPaperSelector.jsx:75 | the chosen year is set and nothing else changes |
| AlPaperSelector.AlSelector.SelectMedium | frontend/src/components/AlPaperSelector.jsx:101 | the chosen medium is set and nothing else changes |
| AlPaperSelector.AlSelector.YearMenu | frontend/src/components/AlPaperSelector.jsx:40-42 | the year menu is strictly descending and holds exactly the papers' years |
| AlPaperSelector.AlSelector.Filtered | frontend/src/components/AlPaperSelector.jsx:45-50 | the papers in order that match every chosen criterion; all of them when nothing is chosen, and its length is the number of inputs that pass, so (by `Seqs.FilterUnique`) it is the one subsequence of passing elements that drops none: exactly `Array.prototype.filter`'s result |
| AlPaperSelector.FailedFetchShowsNothing | frontend/src/components/AlPaperSelector.jsx:20-37 | opening the page with a failed read ends loading and shows no papers |
| MarkingSchemes.YearsOf | frontend/src/pages/MarkingSchemes.jsx:37 | one year per scheme, in order |
| MarkingSchemes.MediumsOf | frontend/src/pages/MarkingSchemes.jsx:38 | one medium per scheme, in order |
| MarkingSchemes.Years | frontend/src/pages/MarkingSchemes.jsx:37 | the year menu is strictly descending and holds exactly the schemes' years |
| MarkingSchemes.Mediums | frontend/src/pages/MarkingSchemes.jsx:38 | the medium menu is strictly ascending in default string order and holds exactly the schemes' mediums |
| MarkingSchemes.FilterSchemes | frontend/src/pages/MarkingSchemes.jsx:42-48 | the schemes in order that match the chosen year, medium and level; all of them when nothing is chosen, and its length is the number of inputs that pass, so (by `Seqs.FilterUnique`) it is the one subsequence of passing elements that drops none: exactly `Array.prototype.filter`'s result |
| MarkingSchemes.SchemeYears | frontend/src/pages/MarkingSchemes.jsx:17-37 | the year menu of the nine listed schemes reads 2024, 2023, 2022 |
| MarkingSchemes.Library.constructor | frontend/src/pages/MarkingSchemes.jsx:29-31 | nothing is chosen at first |
| MarkingSchemes.Library.SelectYear | frontend/src/pages/MarkingSchemes.jsx:96 | the chosen year is set and the other choices are kept |
| MarkingSchemes.Library.SelectMedium | frontend/src/pages/MarkingSchemes.jsx:122 | the chosen medium is set and the other choices are kept |
| MarkingSchemes.Library.SelectLevel | frontend/src/pages/MarkingSchemes.jsx:148 | the chosen level is set and the other choices are kept |
| MarkingSchemes.Library.Shown | frontend/src/pages/MarkingSchemes.jsx:42-48 | the cards are the listed schemes in order that match the choices; all nine until something is chosen |
| PdfList.TestPdfs | frontend/src/pages/Adminquiz/PdfListPage.jsx:25-38 | the valid files are the known files in order whose fetch answered ok; a file whose fetch fails or throws is only skipped |
| PdfList.UpperChar | frontend/src/pages/Adminquiz/PdfListPage.jsx:50 | upper-casing a character keeps it a word character or a non-word character |
| PdfList.ParsePdfName | frontend/src/pages/Adminquiz/PdfListPage.jsx:47-52 | a non-empty year part leads the title and is followed by a space; with an empty year part no underscore is left in the title |
| PdfList.TitleCaseAfter | frontend/src/pages/Adminquiz/PdfListPage.jsx:50 | `replace(/\b\w/g, toUpperCase)` keeps the length, upper-cases each character that starts a word and keeps every other character |
| PdfList.TitleCaseIdempotent | frontend/src/pages/Adminquiz/PdfListPage.jsx:50 | capitalising a capitalised title changes nothing |
| PdfList.StemRemovesFirstOnly | frontend/src/pages/Adminquiz/PdfListPage.jsx:48 | only the first ".pdf" is removed; whatever follows it, a second ".pdf" included, is kept |
| PdfList.ParseYearSubject | frontend/src/pages/Adminquiz/PdfListPage.jsx:47-52 | the title of `<year>_<subject>.pdf` is the year, a space and the capitalised subject, or the capitalised subject alone when the year is empty |
| PdfList.TitleCaseInsideWord | frontend/src/pages/Adminquiz/PdfListPage.jsx:50 | inside a word nothing further is capitalised |
| PdfList.TitleCaseWord | frontend/src/pages/Adminquiz/PdfListPage.jsx:50 | a word starting with a lower-case letter gets only that letter capitalised, so "science" becomes "Science" |
| PdfViewer.FormatTime | frontend/src/pages/Adminquiz/PdfViewerPage.jsx:38-45 | `h:mm:ss` or `mm:ss` with JavaScript's truncating remainder; its contract is stated by `FormatTimeFields` |
| PdfViewer.FormatTimeFields | frontend/src/pages/Adminquiz/PdfViewerPage.jsx:38-45 | for a non-negative count, minutes and seconds are below 60 and recombine to the count; the text is `h:mm:ss` with unpadded hours when there are any hours, else `mm:ss` |
| PdfViewer.Toggle | frontend/src/pages/Adminquiz/PdfViewerPage.jsx:47-56 | a stopped timer starts unpaused, a paused one resumes, a running one pauses; the time is kept |
| PdfViewer.Reset | frontend/src/pages/Adminquiz/PdfViewerPage.jsx:58-62 | the timer is stopped, unpaused, with the full 11400 seconds |
| PdfViewer.Start | frontend/src/pages/Adminquiz/PdfViewerPage.jsx:148-154 | the Start button acts as the toggle on a stopped timer and does nothing on a running one |
| PdfViewer.Pause | frontend/src/pages/Adminquiz/PdfViewerPage.jsx:183-188 | the Pause button acts as the toggle on a running, unpaused timer and does nothing otherwise |
| PdfViewer.PauseIsPermanent | frontend/src/pages/Adminquiz/PdfViewerPage.jsx:148-217 | once paused, neither Start nor Pause changes the timer, and the only wired button that clears the pause, Reset, loses the remaining time |
| PdfViewer.Resume | frontend/src/pages/Adminquiz/PdfViewerPage.jsx:47-154 | the corrected Start button starts a stopped timer, resumes a paused one and leaves a running one alone |
| PdfViewer.PauseThenResume | frontend/src/pages/Adminquiz/PdfViewerPage.jsx:148-188 | with the corrected Start, pausing then resuming gives back the running timer with its time |
| PdfViewer.Tick | frontend/src/pages/Adminquiz/PdfViewerPage.jsx:21-36 | a tick takes one second off a running, unpaused timer; at one second left it reaches 0 and stops; otherwise it changes nothing |
| PdfViewer.RunsOut | frontend/src/pages/Adminquiz/PdfViewerPage.jsx:21-36 | a running exam with t seconds left stops at exactly 0 after t ticks |
| PdfViewer.TicksStayInRange | frontend/src/pages/Adminquiz/PdfViewerPage.jsx:21-36 | any number of ticks keeps the count between 0 and where it started |
| PdfViewer.ExamTimer.constructor | frontend/src/pages/Adminquiz/PdfViewerPage.jsx:7-9 | the timer starts stopped, unpaused, with 11400 seconds |
| PdfViewer.ExamTimer.ToggleTimer | frontend/src/pages/Adminquiz/PdfViewerPage.jsx:47-56 | the new state is the toggle of the old |
| PdfViewer.ExamTimer.ResetTimer | frontend/src/pages/Adminquiz/PdfViewerPage.jsx:58-62 | the new state is the reset state |
| PdfViewer.ExamTimer.HandleStart | frontend/src/pages/Adminquiz/PdfViewerPage.jsx:148-154 | the new state is the corrected Start of the old |
| PdfViewer.ExamTimer.HandlePause | frontend/src/pages/Adminquiz/PdfViewerPage.jsx:183-188 | the new state is the Pause of the old |
| PdfViewer.ExamTimer.HandleTick | frontend/src/pages/Adminquiz/PdfViewerPage.jsx:24-33 | the new state is one tick of the old |
| UpdatePapers.LoadPath | frontend/src/pages/Adminquiz/UpdatePapers.jsx:37 | the paper is read from the four-segment document path ending in its id |
| UpdatePapers.SavePathAsWritten | frontend/src/pages/Adminquiz/UpdatePapers.jsx:84 | the save, as written, hands `doc()` the segments `papers`, `ol` and the selected paper id |
| UpdatePapers.SaveMissesLoadedPaper | frontend/src/pages/Adminquiz/UpdatePapers.jsx:13-84 | with the empty id the page always has, Firestore drops that segment and the save resolves to the category document `papers/ol`, which is never the reference of a loaded paper `papers/ol/papersList/{id}` |
| UpdatePapers.SavePath | frontend/src/pages/Adminquiz/UpdatePapers.jsx:37-84 | the corrected save targets exactly the document the paper was loaded from |
| UpdatePapers.PaperUpdater.constructor | frontend/src/pages/Adminquiz/UpdatePapers.jsx:13-15 | no paper is chosen or loaded and nothing is loading |
| UpdatePapers.LoadRefIff | frontend/src/pages/Adminquiz/UpdatePapers.jsx:37 | the load path names a document exactly when the id is non-empty, and then it is that four-segment path; "Choose Paper" passes the empty id, which Firestore drops, leaving three segments, so `doc()` throws |
| UpdatePapers.PaperUpdater.HandleSelectPaper | frontend/src/pages/Adminquiz/UpdatePapers.jsx:35-41 | loading starts; when `doc()` throws on the load path (the empty id) or the read is rejected, the handler stops with loading still set and the details kept; otherwise loading ends, a stored paper is shown and its save path is its load path, and a missing one keeps the old details; the chosen id is never recorded |
| UpdatePapers.PaperUpdater.HandleQuestionChange | frontend/src/pages/Adminquiz/UpdatePapers.jsx:44-48 | only the text of question index changes; every other question and the paper id are kept |
| UpdatePapers.PaperUpdater.HandleOptionChange | frontend/src/pages/Adminquiz/UpdatePapers.jsx:50-54 | only option oIndex of question qIndex changes; every other question is kept |
| UpdatePapers.PaperUpdater.ToggleCorrectAnswer | frontend/src/pages/Adminquiz/UpdatePapers.jsx:56-63 | oIndex's membership in that question's correct answers is toggled; every other question is kept |
| UpdatePapers.PaperUpdater.HandleAddQuestion | frontend/src/pages/Adminquiz/UpdatePapers.jsx:65-75 | one blank question, four empty options and no correct answers, is appended |
| UpdatePapers.PaperUpdater.HandleDeleteQuestion | frontend/src/pages/Adminquiz/UpdatePapers.jsx:77-81 | exactly the question at index is removed and the others keep their order |
| UpdatePapers.PaperUpdater.HandleSaveChangesAsWritten | frontend/src/pages/Adminquiz/UpdatePapers.jsx:83-87 | as written, the save's reference is what Firestore resolves from `papers/ol/{selectedPaperId}`; with the id never set, the category document `papers/ol` |
| UpdatePapers.PaperUpdater.HandleSaveChanges | frontend/src/pages/Adminquiz/UpdatePapers.jsx:83-87 | with the corrected target, the edited questions are written to the loaded paper's document |
| AdminQuestions.ToggleIndex | frontend/src/pages/Adminquiz/AdminAddQuestions.jsx:82-90 | the index is marked afterwards exactly when it was not marked before; every other index keeps its mark; an unmarked index is appended at the end |
| AdminQuestions.ToggleTwice | frontend/src/pages/Adminquiz/AdminAddQuestions.jsx:82-90 | toggling the same index twice restores which indices are marked |
| AdminQuestions.PaperId | frontend/src/pages/Adminquiz/AdminAddQuestions.jsx:57 | the paper id `year_subject_medium`; its contract is stated by `PaperIdParts` |
| AdminQuestions.PaperIdParts | frontend/src/pages/Adminquiz/AdminAddQuestions.jsx:57 | the paper id `year_subject_medium` splits back into its three parts when none of them holds an underscore |
| AdminQuestions.AddQuestionsPanel.constructor | frontend/src/pages/Adminquiz/AdminAddQuestions.jsx:13-29 | the panel starts with blank details in the ol category, no questions, a blank draft with four options and no chosen paper |
| AdminQuestions.AddQuestionsPanel.SetPaperDetails | frontend/src/pages/Adminquiz/AdminAddQuestions.jsx:104-153 | a details input replaces the paper details and nothing else; the category stays one of ol, al and school, the values the select offers |
| AdminQuestions.AddQuestionsPanel.HandleAddOption | frontend/src/pages/Adminquiz/AdminAddQuestions.jsx:31-38 | below five options one empty option is appended, at five nothing changes, so the draft always has four or five options |
| AdminQuestions.AddQuestionsPanel.SetQuestionText | frontend/src/pages/Adminquiz/AdminAddQuestions.jsx:166-169 | only the draft's question text changes |
| AdminQuestions.AddQuestionsPanel.SetOption | frontend/src/pages/Adminquiz/AdminAddQuestions.jsx:179-186 | only the one option of the draft changes |
| AdminQuestions.AddQuestionsPanel.HandleAddQuestion | frontend/src/pages/Adminquiz/AdminAddQuestions.jsx:40-49 | a draft with text and every option filled is appended and the draft reset to blank; otherwise nothing changes |
| AdminQuestions.AddQuestionsPanel.ToggleCorrectAnswer | frontend/src/pages/Adminquiz/AdminAddQuestions.jsx:82-90 | the draft's correct answers become the toggle of the index; nothing else changes |
| AdminQuestions.AddQuestionsPanel.HandleSavePaper | frontend/src/pages/Adminquiz/AdminAddQuestions.jsx:51-70 | without a subject or a year nothing is written and the chosen paper is kept; otherwise the chosen paper becomes the paper id and the details and questions are written under it in the paper's category |
| AdminQuestions.Resolve | frontend/src/pages/Adminquiz/AdminAddQuestions.jsx:77 | Firestore keeps the non-empty segments in order and drops the empty ones; a path without empty segments is kept whole |
| AdminQuestions.ResolveDropsEmptyLast | frontend/src/pages/Adminquiz/UpdatePapers.jsx:84 | two non-empty segments followed by an empty one resolve to the first two |
| AdminQuestions.DocRef | frontend/src/pages/Adminquiz/AdminAddQuestions.jsx:77 | Firestore's `doc()` gives a reference, the resolved path, exactly when the resolved path has an even number of segments, and throws otherwise |
| AdminQuestions.EditPathAsWritten | frontend/src/pages/Adminquiz/AdminAddQuestions.jsx:77 | the edit, as written, addresses three segments: `papers`, the category and the chosen paper id |
| AdminQuestions.EditNeverWrites | frontend/src/pages/Adminquiz/AdminAddQuestions.jsx:72-80 | as written, `doc()` throws on the edit's path for every non-empty category and chosen id, and that path is not the paper's document |
| AdminQuestions.EditPath | frontend/src/pages/Quiz/QuizAttempt.jsx:33 | for a non-empty category and id, the corrected edit target is a valid document path, `papers/{category}/papersList/{id}`, where the quiz pages read a paper |
| AdminQuestions.EditPathInjective | frontend/src/pages/Quiz/QuizAttempt.jsx:33 | two chosen ids of one category share an edit target exactly when they are equal |
| AdminQuestions.AddQuestionsPanel.HandleEditPaperAsWritten | frontend/src/pages/Adminquiz/AdminAddQuestions.jsx:72-80 | as written, the edit never writes anything: with no paper chosen it stops with an alert, and with one chosen `doc()` throws before `updateDoc` |
| AdminQuestions.AddQuestionsPanel.HandleEditPaper | frontend/src/pages/Adminquiz/AdminAddQuestions.jsx:72-80 | with the corrected target, nothing is written until a paper has been chosen; then the questions alone, and not the details, are written to that paper's document |
| Notifications.RecipientType | frontend/src/pages/Notification.jsx:44-45 | "students" exactly for the role "student"; every other role, a missing one included, gets "parents" |
| Notifications.MarkRead | frontend/src/pages/Notification.jsx:78-83 | the list keeps its length; exactly the notifications with the id become read and the others are unchanged |
| Notifications.AllRead | frontend/src/pages/Notification.jsx:90-92 | every notification becomes read, with its other fields and position kept |
| Notifications.AllReadIdempotent | frontend/src/pages/Notification.jsx:90-103 | marking all read twice is marking all read once, and afterwards the unread view is empty |
| Notifications.WithoutNotice | frontend/src/pages/Notification.jsx:85-88 | the result is a subsequence holding exactly the notifications whose id differs, and its length is the number of inputs that pass, so (by `Seqs.FilterUnique`) it is the one subsequence of passing elements that drops none: exactly `Array.prototype.filter`'s result |
| Notifications.FilteredNotifications | frontend/src/pages/Notification.jsx:94-103 | each view is a subsequence of the list, and every filter other than 'unread' and 'read' shows the whole list |
| Notifications.ReadViewsPartition | frontend/src/pages/Notification.jsx:94-103 | the unread and read views together are as long as the list, each notification is in exactly one of them, and the unread view holds exactly the unread ones |
| Notifications.TypeStyles | frontend/src/pages/Notification.jsx:105-116 | urgent is red, important is yellow, every other type is blue |
| Notifications.ForRecipient | frontend/src/pages/Notification.jsx:48-54 | the query returns exactly the stored notifications addressed to the recipient type |
| Notifications.Inbox.constructor | frontend/src/pages/Notification.jsx:13-72 | the inbox starts empty, loading, on the 'all' view, with no action menu open |
| Notifications.Inbox.FetchNotifications | frontend/src/pages/Notification.jsx:21-69 | loading ends; with a signed-in user whose document exists and a successful read, the list is the notifications for the role's recipient type; otherwise it is kept |
| Notifications.Inbox.FilterNotifications | frontend/src/pages/Notification.jsx:74-76 | the selected view becomes the filter |
| Notifications.Inbox.MarkAsRead | frontend/src/pages/Notification.jsx:78-83 | the list becomes the list with that id marked read and the action menu closes |
| Notifications.Inbox.DeleteNotification | frontend/src/pages/Notification.jsx:85-88 | the list loses every notification with that id and the action menu closes |
| Notifications.Inbox.MarkAllAsRead | frontend/src/pages/Notification.jsx:90-92 | the list becomes the list with every notification read |
| QuizAttempt.FirstCorrect | frontend/src/pages/Quiz/QuizAttempt.jsx:128 | `q.correctAnswers?.[0]` is defined exactly when the question has a correct answer |
| QuizAttempt.Chosen | frontend/src/pages/Quiz/QuizAttempt.jsx:128 | `answers[i]?.choice` is defined exactly when question i was answered |
| QuizAttempt.AnsweredCount | frontend/src/pages/Quiz/QuizAttempt.jsx:110-113 | the number of answered questions among the first n is at most n |
| QuizAttempt.CorrectAsWritten | frontend/src/pages/Quiz/QuizAttempt.jsx:126-131 | the count as written, with its strict equality of two optional values, is at most the number of questions |
| QuizAttempt.CorrectCount | frontend/src/pages/Quiz/QuizAttempt.jsx:126-131 | the corrected count is at most the number of answered questions, is all of them when every question was answered with its first correct choice and 0 when none was |
| QuizAttempt.UnansweredScoresAsWritten | frontend/src/pages/Quiz/QuizAttempt.jsx:128 | as written, an unanswered question without correct answers scores a mark, since undefined equals undefined; the corrected count gives 0 |
| QuizAttempt.CountsAgreeWithAnswerKey | frontend/src/pages/Quiz/QuizAttempt.jsx:128 | on every question that has a correct answer, the written test and the corrected one agree |
| QuizAttempt.TotalPages | frontend/src/pages/Quiz/QuizAttempt.jsx:99 | `Math.ceil(n / 5)`: the pages hold every question and the last page is not empty |
| QuizAttempt.SliceBound | frontend/src/pages/Quiz/QuizAttempt.jsx:158-161 | a slice bound never exceeds the length and an in-range bound is kept |
| QuizAttempt.JsSlice | frontend/src/pages/Quiz/QuizAttempt.jsx:158-161 | `slice` with indices in range is the plain subsequence, an empty range gives nothing, and the result is never longer than the list |
| QuizAttempt.VisibleQuestions | frontend/src/pages/Quiz/QuizAttempt.jsx:157-161 | a page shows at most five questions, none on page -1 or past the end, and its k-th question is question page * 5 + k |
| QuizAttempt.QuestionOnItsPage | frontend/src/pages/Quiz/QuizAttempt.jsx:157-177 | question i is on page i / 5, which is in range, at position i % 5 of the visible slice |
| QuizAttempt.FormatTime | frontend/src/pages/Quiz/QuizAttempt.jsx:89-93 | minutes, a colon and the seconds with JavaScript's truncating remainder; its contract is stated by `FormatTimeShape` |
| QuizAttempt.FormatTimeShape | frontend/src/pages/Quiz/QuizAttempt.jsx:89-93 | for a non-negative count the text is the minutes, a colon and the seconds padded to two digits, and the two fields give back the count |
| QuizAttempt.Attempt.constructor | frontend/src/pages/Quiz/QuizAttempt.jsx:13-38 | once the paper has loaded: nothing answered or locked, no tool, not submitted, page 0, and the time limit in seconds left |
| QuizAttempt.Attempt.SelectTool | frontend/src/pages/Quiz/QuizAttempt.jsx:228-236 | the tool becomes the one chosen |
| QuizAttempt.Attempt.HandleSelect | frontend/src/pages/Quiz/QuizAttempt.jsx:101-119 | with no tool, or on a pen-marked question, nothing changes; otherwise the answer records the choice and the tool, and the pen locks the question; a locked answer never changes again |
| QuizAttempt.Attempt.HandleSubmit | frontend/src/pages/Quiz/QuizAttempt.jsx:125-135 | the attempt is submitted with the corrected count of correct answers out of the number of questions |
| QuizAttempt.Attempt.PreviousPage | frontend/src/pages/Quiz/QuizAttempt.jsx:195-196 | disabled on page 0; otherwise one page back, never below 0; the page stays in range |
| QuizAttempt.Attempt.NextPage | frontend/src/pages/Quiz/QuizAttempt.jsx:202-203 | disabled on the last page; otherwise one page on, never past the last; the page stays in range |
| QuizAttempt.Attempt.Tick | frontend/src/pages/Quiz/QuizAttempt.jsx:43-58 | no tick without time, at 0, or after submitting; above one second it takes one off; at one second or less the time becomes 0 and the attempt is submitted and scored |
| QuizGenerator.McqCount | frontend/src/pages/QuizGenerator.jsx:106 | the number of multiple-choice questions among the first n is at most n |
| QuizGenerator.McqScore | frontend/src/pages/QuizGenerator.jsx:102-108 | only multiple-choice questions whose answer equals the correct answer score, so the score is at most the number of multiple-choice questions |
| QuizGenerator.EssayCount | frontend/src/pages/QuizGenerator.jsx:109 | the answered open questions and the multiple-choice questions together are at most the questions counted |
| QuizGenerator.FeedbackOf | frontend/src/pages/QuizGenerator.jsx:121-125 | a feedback entry names its question, and a failed grading request gives the "Could not grade" text |
| QuizGenerator.EssayFeedback | frontend/src/pages/QuizGenerator.jsx:109-126 | exactly one feedback entry per open question with a truthy answer, whether its grading succeeded or failed |
| QuizGenerator.FeedbackFromEssays | frontend/src/pages/QuizGenerator.jsx:109-126 | every feedback entry comes from an open question that got a truthy answer, with that question's grading reply |
| QuizGenerator.QuizPage.constructor | frontend/src/pages/QuizGenerator.jsx:14-26 | the page starts with no text, no quiz, no answers, not submitted, score 0, not ready and no feedback |
| QuizGenerator.QuizPage.HandleFileChange | frontend/src/pages/QuizGenerator.jsx:29-52 | a file is accepted exactly when one is chosen and it is at most 5 MB, and then its text is kept; otherwise the text is unchanged |
| QuizGenerator.QuizPage.HandleGenerate | frontend/src/pages/QuizGenerator.jsx:55-90 | without text nothing happens; a reply with questions starts a fresh attempt (no answers, not submitted, score 0, not ready); a reply without them clears the quiz; a failed request changes nothing; loading ends |
| QuizGenerator.QuizPage.TakeQuiz | frontend/src/pages/QuizGenerator.jsx:227 | the quiz becomes ready to take |
| QuizGenerator.QuizPage.HandleAnswer | frontend/src/pages/QuizGenerator.jsx:93-95 | only the answer for that question changes |
| QuizGenerator.QuizPage.HandleSubmitQuiz | frontend/src/pages/QuizGenerator.jsx:98-133 | the quiz is submitted with the multiple-choice score and one feedback entry per answered open question |
| StopWatch.FormatTime | frontend/src/components/StopWatch.jsx:73-84 | `HH : MM:SS` with whole hours, `MM : SS` otherwise; its contract is stated by `FormatTimeFields` and `FormatTimeUnderAnHour` |
| StopWatch.FormatTimeFields | frontend/src/components/StopWatch.jsx:73-77 | for a non-negative time, minutes and seconds are below 60, hours are non-negative, the three fields add up to the whole seconds, and hours are shown exactly from one hour on |
| StopWatch.FormatTimeUnderAnHour | frontend/src/components/StopWatch.jsx:79-84 | below an hour the text is the minutes and seconds, each padded to two digits |
| StopWatch.Reset | frontend/src/components/StopWatch.jsx:95-110 | the clock shows the current mode's duration and stops; nothing else changes |
| StopWatch.SelectTimer | frontend/src/components/StopWatch.jsx:144-151 | the three durations are set, the pomodoro one goes on the clock, the mode is pomodoro and the timer stops; nothing else changes |
| StopWatch.ModeClickAsWritten | frontend/src/components/StopWatch.jsx:112-134 | as written, a mode button sets the mode and stops the timer |
| StopWatch.ModeClickKeepsOldDuration | frontend/src/components/StopWatch.jsx:95-118 | as written, clicking Pomodoro while a break runs leaves the break's duration on the pomodoro clock, because the reset reads the mode from before the click |
| StopWatch.ModeClick | frontend/src/components/StopWatch.jsx:112-134 | the corrected mode buttons set the chosen mode with its own duration on the clock and stop the timer; nothing else changes |
| StopWatch.ModeClickIdempotent | frontend/src/components/StopWatch.jsx:112-134 | clicking the same mode button twice is clicking it once |
| StopWatch.TickStep | frontend/src/components/StopWatch.jsx:189-192 | while running with time left a tick takes off 1000 ms; otherwise it changes nothing |
| StopWatch.Finish | frontend/src/components/StopWatch.jsx:199-213 | finishing stops the timer, rings the alarm and shows the message; only a finished pomodoro increments the stored count, and the image depends on the mode |
| StopWatch.HalfwayCheck | frontend/src/components/StopWatch.jsx:194-198 | the halfway alert is shown exactly when it already was, or in pomodoro mode with exactly half the pomodoro duration left; nothing else changes |
| StopWatch.EffectAsWritten | frontend/src/components/StopWatch.jsx:185-217 | the effect as written counts a pomodoro whenever a pomodoro has no time left, running or not, and leaves a stopped timer with time left alone |
| StopWatch.Effect | frontend/src/components/StopWatch.jsx:185-217 | the corrected effect counts a pomodoro exactly when a running pomodoro has no time left, and does nothing while stopped |
| StopWatch.RenderAsWritten | frontend/src/components/StopWatch.jsx:185-217 | a render with unchanged dependencies changes nothing; one that sees the time at zero stops the timer and shows the finish message |
| StopWatch.RenderStep | frontend/src/components/StopWatch.jsx:217 | the effect runs only when the running flag or the time changed since it last ran |
| StopWatch.FinishCountsTwiceAsWritten | frontend/src/components/StopWatch.jsx:199-217 | as written, a pomodoro that runs out is counted twice: the stop changes a dependency, the effect runs again at time 0 and finishes again, after which the renders settle |
| StopWatch.FinishCountsOnce | frontend/src/components/StopWatch.jsx:199-217 | with the corrected effect a pomodoro that runs out is counted once, the timer stops, the message shows, and the renders settle |
| StopWatch.BreakNeverCounts | frontend/src/components/StopWatch.jsx:205-212 | a render in a break mode never counts a pomodoro or changes the mode |
| StopWatch.Watch.constructor | frontend/src/components/StopWatch.jsx:18-30 | on mount 20 minutes are on the clock, the pomodoro duration is 1 minute, the breaks 5 and 15 minutes, pomodoro mode, stopped, nothing shown |
| StopWatch.Watch.HandleStart | frontend/src/components/StopWatch.jsx:87-89 | only the running flag is set |
| StopWatch.Watch.HandleStop | frontend/src/components/StopWatch.jsx:91-93 | only the running flag is cleared |
| StopWatch.Watch.HandleReset | frontend/src/components/StopWatch.jsx:95-110 | the new state is the reset of the old |
| StopWatch.Watch.HandleModeClick | frontend/src/components/StopWatch.jsx:112-134 | the new state is the corrected mode click of the old |
| StopWatch.Watch.HandleSelectTimer | frontend/src/components/StopWatch.jsx:144-151 | the new state is the timer selection applied to the old |
| StopWatch.Watch.HandleCloseFinishMessage | frontend/src/components/StopWatch.jsx:288-291 | the message is hidden and the pomodoro duration goes back on the clock; nothing else changes |
| StopWatch.Watch.AlarmTimeout | frontend/src/components/StopWatch.jsx:202 | the alarm stops; nothing else changes |
| StopWatch.Watch.Tick | frontend/src/components/StopWatch.jsx:190-192 | the new state is one tick of the old |
| StopWatch.Watch.Render | frontend/src/components/StopWatch.jsx:185-217 | the new state is one render, with the corrected effect, of the old |
| StopWatch.Watch.RunEffect | frontend/src/components/StopWatch.jsx:185-216 | the new state is the corrected effect applied to the old |
| StopWatch.Watch.CheckHalfway | frontend/src/components/StopWatch.jsx:194-198 | the new state is the halfway check applied to the old |
| StopWatch.Watch.FinishNow | frontend/src/components/StopWatch.jsx:199-213 | the new state is the finish branch applied to the old |
| CalendarGrid.BeforeNowDays | frontend/src/components/Calendar/CalendarGrid.jsx:21-22 | a due date is before this instant exactly when it parses and is an earlier day, or is today and midnight has passed |
| CalendarGrid.DayStatusAsWritten | frontend/src/components/Calendar/CalendarGrid.jsx:19-31 | as written a day is overdue exactly when a pending task's due date is before this instant; otherwise pending with a pending task, completed with only completed tasks, none with no tasks |
| CalendarGrid.DueTodayShownOverdue | frontend/src/components/Calendar/CalendarGrid.jsx:19-31 | as written, a pending task due today shows its day as overdue after midnight, though isPastDate says it is not past |
| CalendarGrid.GetDayStatus | frontend/src/components/Calendar/CalendarGrid.jsx:19-31 | the corrected status: overdue exactly when a pending task's due date is past by isPastDate, pending, completed and none as above, the four cases exclusive |
| CalendarGrid.DueTodayNotOverdue | frontend/src/components/Calendar/CalendarGrid.jsx:19-31 | with the corrected status a task due today never makes its day overdue |
| CalendarGrid.CellContents | frontend/src/components/Calendar/CalendarGrid.jsx:115-121 | a cell shows the first three of the day's tasks in order, and a "+k more" line exactly when there are more than three |
| CalendarGrid.CellAccountsForAll | frontend/src/components/Calendar/CalendarGrid.jsx:116-120 | the shown tasks and the counted rest add up to the day's tasks, and the count in the text reads back as that rest |
| CalendarView.Moved | frontend/src/components/Calendar/Calendar.jsx:18-40 | previous and next move seven days in week view and one day in day view |
| CalendarView.ShiftMonth | frontend/src/components/Calendar/Calendar.jsx:21-33 | `setMonth(getMonth() + k)` with JavaScript's day overflow; its contract is stated by `ShiftMonthInRange` |
| CalendarView.ShiftMonthInRange | frontend/src/components/Calendar/Calendar.jsx:21-33 | setMonth lands on the same day of the month k months on whenever that date exists |
| CalendarView.MonthsOnAndBack | frontend/src/components/Calendar/Calendar.jsx:21-33 | one month on and one month back is the same calendar date |
| CalendarView.MonthNextPrevious | frontend/src/components/Calendar/Calendar.jsx:21-33 | on days 1 to 28 of a month, next month then previous month returns to the same date |
| CalendarView.NextPreviousRestores | frontend/src/components/Calendar/Calendar.jsx:18-40 | next then previous restores the date in every view (month view on days 1 to 28), and previous then next does in week and day view |
| CalendarView.Calendar.constructor | frontend/src/components/Calendar/Calendar.jsx:15-16 | the calendar opens on today in month view |
| CalendarView.Calendar.SetView | frontend/src/components/Calendar/Calendar.jsx:101 | only the view mode changes |
| CalendarView.Calendar.HandlePrevious | frontend/src/components/Calendar/Calendar.jsx:18-28 | the date moves back by the view's step |
| CalendarView.Calendar.HandleNext | frontend/src/components/Calendar/Calendar.jsx:30-40 | the date moves forward by the view's step |
| CalendarView.Calendar.HandleToday | frontend/src/components/Calendar/Calendar.jsx:42-44 | the date becomes today |
| CalendarView.HandleDateClick | frontend/src/components/Calendar/Calendar.jsx:46-48 | the clicked date is passed on with its formatted string |
| CalendarView.DateClickIdentifies | frontend/src/components/Calendar/Calendar.jsx:46-48 | the string passed on names the clicked date and no other, and parses back to it |
| DayView.Slice | frontend/src/components/Calendar/DayView.jsx:24 | slice with both ends clamped to the length takes at most to minus from elements; a start past the end gives nothing, otherwise the elements from the start up to the end or the length, whichever comes first, in order |
| DayView.TasksPerHour | frontend/src/components/Calendar/DayView.jsx:22 | the per-hour share is the ceiling of the task count over nine |
| DayView.GetTasksForHour | frontend/src/components/Calendar/DayView.jsx:16-25 | outside 9 to 17 an hour has no tasks; inside, at most its share |
| DayView.SlicesFromSuffix | frontend/src/components/Calendar/DayView.jsx:16-25 | the hours from a given one on hold exactly the tasks the earlier hours did not take |
| DayView.HoursPartitionTasks | frontend/src/components/Calendar/DayView.jsx:16-25 | the nine business hours, in order, hold every task of the day once |

## Left out

External things and language semantics:
- The language model, `dateparser`/`pytz`, `json.loads`, `uuid4`, `fetch`, Firestore and the React store calls are oracle parameters or booleans. Prompt wording is not modelled; only the key lookups that can raise are kept.
- Real time, `setInterval`/`setTimeout` and `new Date()`: "now" is a parameter and ticks are explicit steps. The time of day is kept only where a comparison depends on it (day status).
- Floating point:
  - the quiz percentage with `toFixed`;
  - the pass ratio in the quiz generator;
  - JSON floats, since Json numbers are integers.
- Locale formatting (`toLocaleDateString`, the `time12` field of the day hours), audio, speech and browser alerts.
- Time zones: local time is the only calendar.
- `strftime` output for years below 1000 is taken to be four-digit padded.
- The full JavaScript `Number()` grammar: date parts are modelled as decimal digits, or as not a number.
- Unicode: character classes such as `\d`, `isspace`, `lower()` and `trim()` are modelled on explicit ASCII and whitespace sets. String order is code-point order, not UTF-16 order.
- Dictionary key order: for a Python dict or JavaScript object, only the key set is kept.
- `repr` and `str` of lists and objects come from a parameter.

Backend:
- `Firestore`:
  - `get_user_tasks` and `get_quiz_results` are not modelled; they are ordering queries against the database.
  - Dotted field paths in `update_task` are treated as plain keys.
  - A read error is the same as a missing document.
- `Firestore.UserRole`: the enum's values are taken to be student, parent and admin. The enum's definition is not part of this model.
- `Models`: pydantic coercion is not modelled. `Models.BoolField` accepts booleans, and 0 or 1 only.
- `Agent`:
  - The `TaskData`, `PendingTask` and `TaskConfirmation` types are taken to accept what the extractor builds. Their definitions are not part of this model.
  - `str(e)` in the error replies is reduced to an error flag, and each message's timestamp field is not modelled.
  - The loop that builds the prompt from the pending tasks and history is modelled only as the `PromptReadable` and `HistoryReadable` predicates: whether it raises.
  - `confirm_task` ignores its task id argument, as the source does.
  - The HTTP layer of `main.py` is not modelled. That covers CORS, status codes, the `sessionId`/`conversationHistory` fields `ChatMessage` lacks, and the pending tasks that are never passed on.
- The data-query path (`query_tasks` and its descriptor) is not part of this model.

Front end:
- `ToDoPage`: the draft field setters are plain assignments and are not modelled one by one.
- TaskUtils.Task: a task's `dueDate` and `subTasks` are strings. The backend can store `dueDate` as None and `subTasks` as a list or None (ai-backend/firestore_service.py:88-112). Not modelled: `parseDate(null)` throws, so the overdue view and `getTaskStats` would throw on such a task.
- `UpdatePapers`:
  - The page mutates a shallow copy in place, so it also changes the old state's question objects. The model replaces values and does not capture that aliasing.
  - The fetch of the papers dropdown is not modelled.
  - `UpdatePapers.PaperUpdater.HandleQuestionChange` is modelled for the `question` field only, the one the page passes.
- `AdminQuestions`:
  - The save's Firestore path is kept only as its category and paper id. The save goes into an auto-id document of a collection named by the paper id.
  - `AdminQuestions.Resolve` drops empty segments, as Firestore does. Firestore's splitting of a segment at `/` and its refusal of `//` are not modelled: segments are taken to hold no `/`.
  - `updateDoc` on a document that does not exist rejects; the corrected edit does not model the store's contents.
- `QuizAttempt`:
  - The percentage and its `toFixed` are not modelled.
  - The write of the attempt to the store, as are distraction logging and the loading state around fetching the paper.
- `QuizGenerator`:
  - PDF text extraction and the generation request's difficulty and question count are oracles.
  - The initial `essayFeedback` of `""` is modelled as an empty list.
- `StopWatch`: not modelled are
  - the attention alerts and their 10-second timeout;
  - `handleYesClick` and `handleCloseAlert` with their presence-time writes;
  - audio, the greeting, the user name and the customise dialogs.
- `PdfViewer`: the effect that loads the PDF URL is not modelled.
- `PaperSelector`: icons and numeric year conversion are not modelled.
- `PdfList.TitleCaseWord`: capitalisation is ASCII-only.
- `Notifications`: timestamp conversion for display is not modelled.
- Not modelled at all:
  - `handleAddTask` in the calendar, which passes a date string straight on;
  - rendering, routing and CSS classes beyond the class-name lookups above;
  - `server/server.js`, `TaskSidebar`, `MarkingPdfViewer`, `CompletedQuizzes`, login, sign-up and payments.

## Findings

| source | as written | input that shows it | evidently intended | confidence | as-written member | corrected member |
|---|---|---|---|---|---|---|
| frontend/src/components/Calendar/CalendarGrid.jsx:20-23 | a task's due date, parsed as local midnight, is compared with the current instant | a pending task due today, viewed at any time after midnight, makes its day "overdue" | overdue means due on an earlier day, as `isPastDate` decides | not executed | CalendarGrid.DayStatusAsWritten, CalendarGrid.DueTodayShownOverdue | CalendarGrid.GetDayStatus, CalendarGrid.DueTodayNotOverdue |
| frontend/src/pages/Quiz/QuizAttempt.jsx:128 | an unanswered question is compared as `undefined === correctAnswers?.[0]` | one question with options a to d, no correct answers and no answer scores 1 | only an answered question whose choice is the first correct answer scores | not executed | QuizAttempt.CorrectAsWritten, QuizAttempt.UnansweredScoresAsWritten | QuizAttempt.CorrectCount, QuizAttempt.CountsAgreeWithAnswerKey |
| frontend/src/pages/Adminquiz/UpdatePapers.jsx:84 | the save writes to `papers/ol/{selectedPaperId}`, but the page reads papers from `papers/ol/papersList/{id}` and never sets `selectedPaperId` | select a paper, edit it and save: `selectedPaperId` is still `""`, Firestore drops the empty segment and `updateDoc` targets the category document `papers/ol`, not the loaded document `papers/ol/papersList/{id}` | the save rewrites the paper that was loaded | not executed | UpdatePapers.SavePathAsWritten, UpdatePapers.SaveMissesLoadedPaper, UpdatePapers.PaperUpdater.HandleSaveChangesAsWritten | UpdatePapers.SavePath, UpdatePapers.PaperUpdater.HandleSaveChanges |
| frontend/src/components/StopWatch.jsx:199-217 | the finish branch runs whenever time is 0, and stopping changes a dependency of the effect | a running pomodoro reaching 0 is counted twice | one finished pomodoro is counted once | not executed | StopWatch.RenderAsWritten, StopWatch.FinishCountsTwiceAsWritten | StopWatch.Effect, StopWatch.RenderStep, StopWatch.FinishCountsOnce |
| frontend/src/components/StopWatch.jsx:112-134 | a mode click while running calls `handleReset`, which reads the mode from before the click | during a running short break, click Pomodoro: the break's duration stays on the clock | the clicked mode's own duration is on the clock | not executed | StopWatch.ModeClickAsWritten, StopWatch.ModeClickKeepsOldDuration | StopWatch.ModeClick, StopWatch.Watch.HandleModeClick |
| frontend/src/pages/Adminquiz/PdfViewerPage.jsx:148-188 | Start acts only when the timer is not running, and a paused timer is still running | start, then pause: Start does nothing, and only Reset, which loses the time, restarts the timer | Start resumes a paused timer, as `toggleTimer` does | not executed | PdfViewer.Start, PdfViewer.PauseIsPermanent | PdfViewer.Resume, PdfViewer.PauseThenResume, PdfViewer.ExamTimer.HandleStart |
| ai-backend/agent.py:630-707 | confirmations are appended inside the loop, and a later crash leaves the extracted tasks unchanged | reply tasks `[{"description": "a", "dueDate": "tomorrow"}, 5]`: one confirmation is kept with no reported task, and the reply says it failed | a failed extraction adds no confirmation | not executed | Agent.ExtractorStepAsWritten, Agent.PartialConfirmationsAsWritten, Agent.TurnAsWritten, Agent.ProcessReplyAsWritten, Agent.UnmatchedConfirmationAsWritten | Agent.ExtractorStep, Agent.TaskExtractorNode, Agent.ExtractorFields, Agent.Turn, Agent.ProcessReply, Agent.ProcessMessage, Agent.ReplyConfirmsEachTask |
| frontend/src/pages/Adminquiz/AdminAddQuestions.jsx:77 | the edit builds its reference as `doc(db, "papers", category, selectedPaperId)`, three segments | save a paper, then press the update button: `doc()` throws on the odd number of segments, the handler rejects before `updateDoc`, and nothing is written | the chosen paper's questions are rewritten in its document `papers/{category}/papersList/{id}` | not executed | AdminQuestions.EditPathAsWritten, AdminQuestions.EditNeverWrites, AdminQuestions.AddQuestionsPanel.HandleEditPaperAsWritten | AdminQuestions.EditPath, AdminQuestions.AddQuestionsPanel.HandleEditPaper |
