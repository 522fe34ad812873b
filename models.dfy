/**
 * The request and response records of the backend (models.py): their
 * fields, their defaults, and what building one from keyword arguments
 * accepts. Building a record is modelled as validation of a field map:
 * a required field that is missing, or a field of the wrong type, is
 * reported by name; unknown fields are ignored.
 */
module Models {
  import opened Wrappers
  import opened Json

  datatype Validated<T> = Valid(value: T) | Invalid(field: string)

  datatype TaskData = TaskData(
    description: string,
    list: string,
    dueDate: Option<string>,
    subTasks: Option<string>,
    priority: string,
    completed: bool)

  datatype ChatMessage = ChatMessage(message: string, userId: string)

  datatype ChatResponse = ChatResponse(
    response: string,
    tasks: seq<TaskData>,
    needsFollowUp: bool,
    followUpQuestion: Option<string>)

  datatype ErrorResponse = ErrorResponse(error: string, detail: Option<string>)

  // Field coercions. A `str` field takes only a string (Json.AsString); an optional string
  // also takes None; a `bool` takes a boolean or the integers 0 and 1.

  function OptStrField(j: Json): (r: Option<Option<string>>)
    ensures r == Some(None) <==> j == JNull
    ensures forall s :: r == Some(Some(s)) <==> j == JStr(s)
  {
    match j
    case JNull => Some(None)
    case JStr(s) => Some(Some(s))
    case _ => None
  }

  function BoolField(j: Json): (r: Option<bool>)
    ensures forall b :: j == JBool(b) ==> r == Some(b)
    ensures j.JStr? || j.JNull? || j.JArr? || j.JObj? ==> r.None?
  {
    match j
    case JBool(b) => Some(b)
    case JNum(n) => if n == 0 then Some(false) else if n == 1 then Some(true) else None
    case _ => None
  }

  function OptToJson(o: Option<string>): Json
  {
    if o.Some? then JStr(o.value) else JNull
  }

  /** TaskData(**fields): description is required, the other fields have defaults. */
  function ValidateTaskData(f: map<string, Json>): (r: Validated<TaskData>)
    ensures "description" !in f ==> r == Invalid("description")
    ensures r.Valid? ==> "description" in f && f["description"] == JStr(r.value.description)
    ensures r.Valid? ==> Get(f, "list", JStr("Personal")) == JStr(r.value.list)
    ensures r.Valid? ==> Get(f, "dueDate", JNull) == OptToJson(r.value.dueDate)
    ensures r.Valid? ==> Get(f, "subTasks", JNull) == OptToJson(r.value.subTasks)
    ensures r.Valid? ==> Get(f, "priority", JStr("low")) == JStr(r.value.priority)
    ensures r.Valid? && "completed" !in f ==> !r.value.completed
    ensures r.Valid? ==> BoolField(Get(f, "completed", JBool(false))) == Some(r.value.completed)
  {
    if "description" !in f then Invalid("description")
    else
      var description := AsString(f["description"]);
      var list := AsString(Get(f, "list", JStr("Personal")));
      var dueDate := OptStrField(Get(f, "dueDate", JNull));
      var subTasks := OptStrField(Get(f, "subTasks", JNull));
      var priority := AsString(Get(f, "priority", JStr("low")));
      var completed := BoolField(Get(f, "completed", JBool(false)));
      if description.None? then Invalid("description")
      else if list.None? then Invalid("list")
      else if dueDate.None? then Invalid("dueDate")
      else if subTasks.None? then Invalid("subTasks")
      else if priority.None? then Invalid("priority")
      else if completed.None? then Invalid("completed")
      else Valid(TaskData(description.value, list.value, dueDate.value, subTasks.value, priority.value, completed.value))
  }

  /** `task.dict()`: the record as a field map. */
  function DumpTaskData(t: TaskData): map<string, Json>
  {
    map["description" := JStr(t.description), "list" := JStr(t.list), "dueDate" := OptToJson(t.dueDate),
        "subTasks" := OptToJson(t.subTasks), "priority" := JStr(t.priority), "completed" := JBool(t.completed)]
  }

  /** A task given only its description takes every default. */
  lemma TaskDataDefaults(d: string)
    ensures ValidateTaskData(map["description" := JStr(d)]) == Valid(TaskData(d, "Personal", None, None, "low", false))
  {
  }

  /** Dumping a record and building it again gives the same record. */
  lemma TaskDataRoundTrip(t: TaskData)
    ensures ValidateTaskData(DumpTaskData(t)) == Valid(t)
  {
    var f := DumpTaskData(t);
    assert AsString(f["description"]) == Some(t.description);
    assert OptStrField(Get(f, "dueDate", JNull)) == Some(t.dueDate);
    assert OptStrField(Get(f, "subTasks", JNull)) == Some(t.subTasks);
  }

  /** ChatMessage(**fields): both fields are required strings. */
  function ValidateChatMessage(f: map<string, Json>): (r: Validated<ChatMessage>)
    ensures "message" !in f ==> r == Invalid("message")
    ensures "message" in f && "userId" !in f ==> r.Invalid?
    ensures r.Valid? ==> "message" in f && "userId" in f && f["message"] == JStr(r.value.message) && f["userId"] == JStr(r.value.userId)
    ensures "message" in f && "userId" in f && f["message"].JStr? && f["userId"].JStr? ==> r.Valid?
  {
    if "message" !in f || !f["message"].JStr? then Invalid("message")
    else if "userId" !in f || !f["userId"].JStr? then Invalid("userId")
    else Valid(ChatMessage(f["message"].s, f["userId"].s))
  }

  /** A list of tasks, each built from an object; the first bad element is reported. */
  function ValidateTasks(items: seq<Json>): (r: Validated<seq<TaskData>>)
    ensures r.Valid? ==> |r.value| == |items|
    ensures r.Valid? ==> forall i :: 0 <= i < |items| ==> items[i].JObj? && ValidateTaskData(items[i].fields) == Valid(r.value[i])
  {
    if items == [] then Valid([])
    else if !items[0].JObj? then Invalid("tasks")
    else match ValidateTaskData(items[0].fields)
      case Invalid(field) => Invalid("tasks." + field)
      case Valid(t) =>
        match ValidateTasks(items[1..])
        case Invalid(field) => Invalid(field)
        case Valid(ts) => Valid([t] + ts)
  }

  /** ChatResponse(**fields): response is required; tasks, needsFollowUp and followUpQuestion have defaults. */
  function ValidateChatResponse(f: map<string, Json>): (r: Validated<ChatResponse>)
    ensures "response" !in f ==> r == Invalid("response")
    ensures r.Valid? ==> "response" in f && f["response"] == JStr(r.value.response)
    ensures r.Valid? && "tasks" !in f ==> r.value.tasks == []
    ensures r.Valid? && "needsFollowUp" !in f ==> !r.value.needsFollowUp
    ensures r.Valid? ==> Get(f, "followUpQuestion", JNull) == OptToJson(r.value.followUpQuestion)
  {
    if "response" !in f || !f["response"].JStr? then Invalid("response")
    else
      var tasks := Get(f, "tasks", JArr([]));
      var needs := BoolField(Get(f, "needsFollowUp", JBool(false)));
      var question := OptStrField(Get(f, "followUpQuestion", JNull));
      if !tasks.JArr? then Invalid("tasks")
      else match ValidateTasks(tasks.items)
        case Invalid(field) => Invalid(field)
        case Valid(ts) =>
          if needs.None? then Invalid("needsFollowUp")
          else if question.None? then Invalid("followUpQuestion")
          else Valid(ChatResponse(f["response"].s, ts, needs.value, question.value))
  }

  /** A response given only its text has no tasks and no follow-up. */
  lemma ChatResponseDefaults(text: string)
    ensures ValidateChatResponse(map["response" := JStr(text)]) == Valid(ChatResponse(text, [], false, None))
  {
  }

  /** ErrorResponse(**fields): error is required, detail defaults to None. */
  function ValidateErrorResponse(f: map<string, Json>): (r: Validated<ErrorResponse>)
    ensures "error" !in f ==> r == Invalid("error")
    ensures r.Valid? ==> "error" in f && f["error"] == JStr(r.value.error)
    ensures r.Valid? ==> Get(f, "detail", JNull) == OptToJson(r.value.detail)
  {
    if "error" !in f || !f["error"].JStr? then Invalid("error")
    else match OptStrField(Get(f, "detail", JNull))
      case None => Invalid("detail")
      case Some(d) => Valid(ErrorResponse(f["error"].s, d))
  }
}
