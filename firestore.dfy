/**
 * The Firestore service of the backend (firestore_service.py) over an
 * in-memory store: user documents, and under each user a collection of
 * task records keyed by document id. Whether the client initialised, and
 * whether each read or write reaches the database, are parameters.
 */
module Firestore {
  import opened Wrappers
  import opened Json

  type Record = map<string, Json>

  /** UserRole; its members are taken to be the three roles the web app stores. */
  datatype UserRole = Student | Parent | Admin

  function RoleName(r: UserRole): string
  {
    match r
    case Student => "student"
    case Parent => "parent"
    case Admin => "admin"
  }

  /** UserRole(value): None when the value names no member (the ValueError case). */
  function ParseRole(j: Json): (r: Option<UserRole>)
    ensures r.Some? ==> j == JStr(RoleName(r.value))
    ensures forall role :: j == JStr(RoleName(role)) ==> r == Some(role)
  {
    if j == JStr("student") then Some(Student)
    else if j == JStr("parent") then Some(Parent)
    else if j == JStr("admin") then Some(Admin)
    else None
  }

  /** get_user_role given what get_user returned: a stored, valid role, else STUDENT. */
  function RoleFrom(user: Option<Record>): (r: UserRole)
    ensures r != Student ==> user.Some? && "role" in user.value && user.value["role"] == JStr(RoleName(r))
    ensures user.None? || "role" !in user.value ==> r == Student
  {
    if user.Some? && user.value != map[] && "role" in user.value then
      match ParseRole(user.value["role"])
      case Some(role) => role
      case None => Student
    else Student
  }

  /** A valid stored role is the role reported. */
  lemma StoredRoleReported(user: Record, role: UserRole)
    requires "role" in user && user["role"] == JStr(RoleName(role))
    ensures RoleFrom(Some(user)) == role
  {
  }

  /** The two fields get_pomodoro_stats reports. */
  datatype PomodoroStats = PomodoroStats(completedPomodoros: Json, presentTime: Json)

  const NoStats := PomodoroStats(JNum(0), JNum(0))

  /** get_pomodoro_stats given what get_user returned: each field read with a default of 0. */
  function StatsFrom(user: Option<Record>): (r: PomodoroStats)
    ensures user.None? ==> r == NoStats
    ensures user.Some? && "completedPomodoros" in user.value ==> r.completedPomodoros == user.value["completedPomodoros"]
    ensures user.Some? && "presentTime" in user.value ==> r.presentTime == user.value["presentTime"]
    ensures user.Some? && "completedPomodoros" !in user.value ==> r.completedPomodoros == JNum(0)
    ensures user.Some? && "presentTime" !in user.value ==> r.presentTime == JNum(0)
  {
    if user.Some? && user.value != map[] then
      PomodoroStats(Get(user.value, "completedPomodoros", JNum(0)), Get(user.value, "presentTime", JNum(0)))
    else
      NoStats
  }

  /** One stored sub-task: {"description": st, "completed": False}. */
  function SubTask(st: Json): Json
  {
    JObj(map["description" := st, "completed" := JBool(false)])
  }

  /** A list of sub-tasks as stored: one entry per element, in order. */
  function SubTaskList(xs: seq<Json>): (r: seq<Json>)
    ensures |r| == |xs|
    ensures forall i :: 0 <= i < |xs| ==> r[i] == SubTask(xs[i])
  {
    if xs == [] then [] else [SubTask(xs[0])] + SubTaskList(xs[1..])
  }

  /** The descriptions of stored sub-tasks, read back. */
  function Descriptions(ys: seq<Json>): seq<Json>
  {
    if ys == [] then []
    else [if ys[0].JObj? then Lookup(ys[0].fields, "description") else JNull] + Descriptions(ys[1..])
  }

  /** Reading the descriptions back gives the sub-task list that was stored. */
  lemma {:induction false} DescriptionsOfSubTaskList(xs: seq<Json>)
    ensures Descriptions(SubTaskList(xs)) == xs
  {
    if xs != [] {
      DescriptionsOfSubTaskList(xs[1..]);
      assert SubTaskList(xs)[1..] == SubTaskList(xs[1..]);
    }
  }

  /**
   * The record add_task writes. A truthy list of sub-tasks is normalised
   * element by element, a truthy string becomes a one-element list, any
   * other truthy value leaves the key out, and a falsy one is stored as None.
   */
  function TaskRecord(data: Record, createdDate: string): (r: Record)
    ensures {"description", "dueDate", "priority", "completed", "list", "importance", "createdDate"} <= r.Keys
    ensures r["description"] == Lookup(data, "description") && r["dueDate"] == Lookup(data, "dueDate")
    ensures r["priority"] == Get(data, "priority", JStr("medium"))
    ensures r["completed"] == Get(data, "completed", JBool(false))
    ensures r["list"] == Get(data, "list", JStr("Personal"))
    ensures r["importance"] == Get(data, "importance", JBool(false))
    ensures r["createdDate"] == JStr(createdDate)
    ensures !Truthy(Lookup(data, "subTasks")) ==> "subTasks" in r && r["subTasks"] == JNull
    ensures forall xs :: Lookup(data, "subTasks") == JArr(xs) && xs != [] ==> "subTasks" in r && r["subTasks"] == JArr(SubTaskList(xs))
    ensures forall s :: Lookup(data, "subTasks") == JStr(s) && s != "" ==> "subTasks" in r && r["subTasks"] == JArr([SubTask(JStr(s))])
    ensures "subTasks" !in r <==> Truthy(Lookup(data, "subTasks")) && !Lookup(data, "subTasks").JArr? && !Lookup(data, "subTasks").JStr?
  {
    var base := map[
      "description" := Lookup(data, "description"),
      "dueDate" := Lookup(data, "dueDate"),
      "priority" := Get(data, "priority", JStr("medium")),
      "completed" := Get(data, "completed", JBool(false)),
      "list" := Get(data, "list", JStr("Personal")),
      "importance" := Get(data, "importance", JBool(false)),
      "createdDate" := JStr(createdDate)];
    var st := Lookup(data, "subTasks");
    if Truthy(st) then
      match st
      case JArr(xs) => base["subTasks" := JArr(SubTaskList(xs))]
      case JStr(s) => base["subTasks" := JArr([SubTask(st)])]
      case _ => base
    else base["subTasks" := JNull]
  }

  class FirestoreService {
    /** Whether the client initialised (`self.db` is set). */
    var connected: bool
    /** users/{uid} documents. */
    var users: map<string, Record>
    /** users/{uid}/tasks/{id} documents. */
    var tasks: map<string, map<string, Record>>

    constructor(connected: bool, users: map<string, Record>, tasks: map<string, map<string, Record>>)
      ensures this.connected == connected && this.users == users && this.tasks == tasks
    {
      this.connected := connected;
      this.users := users;
      this.tasks := tasks;
    }

    /** A user's tasks collection; a user without one has an empty collection. */
    function TasksOf(uid: string): map<string, Record>
      reads this
    {
      if uid in tasks then tasks[uid] else map[]
    }

    /** get_user: the document, or None when it is missing or the read fails. */
    function GetUser(uid: string, readOk: bool): (r: Option<Record>)
      reads this
      ensures r.Some? <==> connected && readOk && uid in users
      ensures r.Some? ==> r.value == users[uid]
    {
      if connected && readOk && uid in users then Some(users[uid]) else None
    }

    /** get_user_role. */
    function GetUserRole(uid: string, readOk: bool): (r: UserRole)
      reads this
      ensures r != Student ==> connected && readOk && uid in users && "role" in users[uid] && users[uid]["role"] == JStr(RoleName(r))
      ensures !connected ==> r == Student
    {
      RoleFrom(GetUser(uid, readOk))
    }

    /** get_pomodoro_stats. */
    function GetPomodoroStats(uid: string, readOk: bool): (r: PomodoroStats)
      reads this
      ensures !(connected && readOk && uid in users) ==> r == NoStats
      ensures connected && readOk && uid in users && "completedPomodoros" in users[uid] ==> r.completedPomodoros == users[uid]["completedPomodoros"]
    {
      StatsFrom(GetUser(uid, readOk))
    }

    /**
     * add_task: writes TaskRecord(data) as document newId of the user's
     * tasks and returns True; with no client or a failed write it returns
     * False and writes nothing.
     */
    method AddTask(uid: string, data: Record, newId: string, createdDate: string, writeOk: bool) returns (r: bool)
      modifies this
      ensures r == (connected && writeOk)
      ensures connected == old(connected) && users == old(users)
      ensures r ==> tasks == old(tasks)[uid := old(TasksOf(uid))[newId := TaskRecord(data, createdDate)]]
      ensures !r ==> tasks == old(tasks)
      ensures r && newId !in old(TasksOf(uid)) ==> |TasksOf(uid)| == |old(TasksOf(uid))| + 1
    {
      if !connected || !writeOk {
        return false;
      }
      tasks := tasks[uid := TasksOf(uid)[newId := TaskRecord(data, createdDate)]];
      r := true;
    }

    /**
     * update_task: merges the given fields into one existing task. Updating
     * a missing document fails, as does a failed write, and so does an empty
     * set of fields, which the client refuses before writing; nothing changes then.
     */
    method UpdateTask(uid: string, taskId: string, updates: Record, writeOk: bool) returns (r: bool)
      modifies this
      ensures r == (connected && writeOk && updates != map[] && taskId in old(TasksOf(uid)))
      ensures connected == old(connected) && users == old(users)
      ensures r ==> tasks == old(tasks)[uid := old(TasksOf(uid))[taskId := old(TasksOf(uid))[taskId] + updates]]
      ensures !r ==> tasks == old(tasks)
    {
      if !connected || !writeOk || updates == map[] || taskId !in TasksOf(uid) {
        return false;
      }
      var collection := TasksOf(uid);
      tasks := tasks[uid := collection[taskId := collection[taskId] + updates]];
      r := true;
    }

    /** delete_task: removes one task; deleting a missing document succeeds. */
    method DeleteTask(uid: string, taskId: string, writeOk: bool) returns (r: bool)
      modifies this
      ensures r == (connected && writeOk)
      ensures connected == old(connected) && users == old(users)
      ensures r ==> tasks == old(tasks)[uid := old(TasksOf(uid)) - {taskId}]
      ensures !r ==> tasks == old(tasks)
    {
      if !connected || !writeOk {
        return false;
      }
      tasks := tasks[uid := TasksOf(uid) - {taskId}];
      r := true;
    }
  }

  /** An update changes only the named fields of the one task, and no other user's tasks. */
  lemma UpdateTouchesOneTask(before: map<string, map<string, Record>>, uid: string, taskId: string, updates: Record, field: string)
    requires uid in before && taskId in before[uid]
    ensures var after := before[uid := before[uid][taskId := before[uid][taskId] + updates]];
      (forall u :: u in before && u != uid ==> after[u] == before[u]) &&
      (forall id :: id in before[uid] && id != taskId ==> after[uid][id] == before[uid][id]) &&
      (field !in updates && field in before[uid][taskId] ==> after[uid][taskId][field] == before[uid][taskId][field]) &&
      (field in updates ==> after[uid][taskId][field] == updates[field])
  {
  }
}
