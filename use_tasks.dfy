/**
 * The useTasks hook (frontend/src/hooks/useTasks.js): the signed-in user's
 * task list and its add/update/delete/toggle operations.  Each operation first
 * writes to the store; the store's answer and the signed-in user are inputs.
 */
module UseTasks {
  import opened Wrappers
  import opened Seqs
  import opened TaskUtils

  const NoUserMessage: string := "No user is logged in"

  /** A task as submitted by the form: everything but its id and importance. */
  datatype TaskDraft = TaskDraft(
    description: string, list: string, dueDate: string, subTasks: string, priority: string, completed: bool)

  /** A partial task for `{...task, ...updates}`: present fields override. */
  datatype TaskUpdates = TaskUpdates(
    description: Option<string>, list: Option<string>, dueDate: Option<string>, subTasks: Option<string>,
    priority: Option<string>, completed: Option<bool>, importance: Option<bool>)

  const NoUpdates := TaskUpdates(None, None, None, None, None, None, None)

  function Pick<T>(update: Option<T>, current: T): T { if update.Some? then update.value else current }

  /** {...task, ...updates}. */
  function Merge(t: Task, u: TaskUpdates): (r: Task)
    ensures r.id == t.id
    ensures u == NoUpdates ==> r == t
    ensures u.completed.Some? ==> r.completed == u.completed.value
    ensures u.completed.None? ==> r.completed == t.completed
    ensures u.importance.Some? ==> r.importance == u.importance.value
    ensures u.importance.None? ==> r.importance == t.importance
  {
    Task(t.id, Pick(u.description, t.description), Pick(u.list, t.list), Pick(u.dueDate, t.dueDate),
         Pick(u.subTasks, t.subTasks), Pick(u.priority, t.priority), Pick(u.completed, t.completed),
         Pick(u.importance, t.importance))
  }

  /** prev.map(task => task.id === id ? {...task, ...updates} : task). */
  function ApplyUpdates(tasks: seq<Task>, id: string, u: TaskUpdates): (r: seq<Task>)
    ensures |r| == |tasks|
    ensures forall i :: 0 <= i < |tasks| ==> r[i] == if tasks[i].id == id then Merge(tasks[i], u) else tasks[i]
  {
    if tasks == [] then []
    else [if tasks[0].id == id then Merge(tasks[0], u) else tasks[0]] + ApplyUpdates(tasks[1..], id, u)
  }

  function OtherId(id: string): Task -> bool { (t: Task) => t.id != id }

  /** prev.filter(task => task.id !== id). */
  function WithoutId(tasks: seq<Task>, id: string): (r: seq<Task>)
    ensures IsSubseq(r, tasks)
    ensures forall t :: t in r <==> t in tasks && t.id != id
    ensures |r| == Count(tasks, OtherId(id))
  {
    var p := OtherId(id);
    FilterIsSubseq(tasks, p);
    FilterLength(tasks, p);
    assert forall t :: t in Filter(tasks, p) <==> t in tasks && p(t) by {
      forall t ensures t in Filter(tasks, p) <==> t in tasks && p(t) { FilterMember(tasks, p, t); }
    }
    Filter(tasks, p)
  }

  /** tasks.find(t => t.id === id). */
  function FindById(tasks: seq<Task>, id: string): (r: Option<Task>)
    ensures r.None? <==> forall i :: 0 <= i < |tasks| ==> tasks[i].id != id
    ensures r.Some? ==> exists i :: (0 <= i < |tasks| && tasks[i] == r.value && r.value.id == id
        && forall j :: 0 <= j < i ==> tasks[j].id != id)
  {
    if tasks == [] then None
    else if tasks[0].id == id then Some(tasks[0])
    else
      var r := FindById(tasks[1..], id);
      assert r.Some? ==> exists i :: (1 <= i < |tasks| && tasks[i] == r.value && r.value.id == id
        && forall j :: 0 <= j < i ==> tasks[j].id != id) by {
        if r.Some? {
          var i :| 0 <= i < |tasks[1..]| && tasks[1..][i] == r.value && r.value.id == id
            && forall j :: 0 <= j < i ==> tasks[1..][j].id != id;
          assert tasks[i + 1] == r.value;
          assert forall j :: 0 <= j < i + 1 ==> tasks[j].id != id by {
            forall j | 0 <= j < i + 1 ensures tasks[j].id != id {
              if j > 0 { assert tasks[j] == tasks[1..][j - 1]; }
            }
          }
        }
      }
      r
  }

  predicate UniqueIds(tasks: seq<Task>)
  {
    forall i, j :: 0 <= i < j < |tasks| ==> tasks[i].id != tasks[j].id
  }

  /** The task list toggleImportance produces: every task with the id gets the negation of the first one's flag. */
  function ToggledImportance(tasks: seq<Task>, id: string): seq<Task>
  {
    var found := FindById(tasks, id);
    if found.None? then tasks
    else ApplyUpdates(tasks, id, NoUpdates.(importance := Some(!found.value.importance)))
  }

  function ToggledCompletion(tasks: seq<Task>, id: string): seq<Task>
  {
    var found := FindById(tasks, id);
    if found.None? then tasks
    else ApplyUpdates(tasks, id, NoUpdates.(completed := Some(!found.value.completed)))
  }

  /** With unique ids, the first task with the id is the only one. */
  lemma UniqueFind(tasks: seq<Task>, id: string, i: int)
    requires UniqueIds(tasks) && 0 <= i < |tasks| && tasks[i].id == id
    ensures FindById(tasks, id) == Some(tasks[i])
  {
    var found := FindById(tasks, id);
    var k :| 0 <= k < |tasks| && tasks[k] == found.value && found.value.id == id
      && forall j :: 0 <= j < k ==> tasks[j].id != id;
    assert k == i;
  }

  /** Updating the tasks with an id updates the first of them as well. */
  lemma {:induction false} FindAfterUpdate(tasks: seq<Task>, id: string, u: TaskUpdates)
    ensures FindById(ApplyUpdates(tasks, id, u), id) ==
      (if FindById(tasks, id).None? then None else Some(Merge(FindById(tasks, id).value, u)))
  {
    if tasks != [] {
      assert ApplyUpdates(tasks, id, u)[1..] == ApplyUpdates(tasks[1..], id, u);
      FindAfterUpdate(tasks[1..], id, u);
    }
  }

  /** With unique ids, toggleImportance flips exactly one flag. */
  lemma ToggleImportanceFlipsOne(tasks: seq<Task>, id: string)
    requires UniqueIds(tasks)
    ensures forall i :: 0 <= i < |tasks| ==>
      ToggledImportance(tasks, id)[i] == (if tasks[i].id == id then tasks[i].(importance := !tasks[i].importance) else tasks[i])
  {
    forall i | 0 <= i < |tasks| && tasks[i].id == id
      ensures ToggledImportance(tasks, id)[i] == tasks[i].(importance := !tasks[i].importance)
    {
      UniqueFind(tasks, id, i);
    }
  }

  /** With unique ids, toggling importance twice restores the list. */
  lemma ToggleImportanceTwice(tasks: seq<Task>, id: string)
    requires UniqueIds(tasks)
    ensures ToggledImportance(ToggledImportance(tasks, id), id) == tasks
  {
    var found := FindById(tasks, id);
    if found.Some? {
      var t := found.value;
      SecondToggle(tasks, id, t);
      TwiceRestores(tasks, id, t);
    }
  }

  lemma TwiceRestores(tasks: seq<Task>, id: string, t: Task)
    requires UniqueIds(tasks) && FindById(tasks, id) == Some(t)
    ensures ApplyUpdates(ApplyUpdates(tasks, id, SetImportance(!t.importance)), id, SetImportance(t.importance)) == tasks
  {
    var twice := ApplyUpdates(ApplyUpdates(tasks, id, SetImportance(!t.importance)), id, SetImportance(t.importance));
    forall i | 0 <= i < |tasks| ensures twice[i] == tasks[i] {
      TwiceAt(tasks, id, t, i);
    }
  }

  function SetImportance(b: bool): TaskUpdates
  {
    NoUpdates.(importance := Some(b))
  }

  /** After the first toggle the first task with the id carries the flipped flag, so the second sets it back. */
  lemma SecondToggle(tasks: seq<Task>, id: string, t: Task)
    requires FindById(tasks, id) == Some(t)
    ensures ToggledImportance(tasks, id) == ApplyUpdates(tasks, id, SetImportance(!t.importance))
    ensures ToggledImportance(ApplyUpdates(tasks, id, SetImportance(!t.importance)), id) ==
      ApplyUpdates(ApplyUpdates(tasks, id, SetImportance(!t.importance)), id, SetImportance(t.importance))
  {
    FindAfterUpdate(tasks, id, SetImportance(!t.importance));
  }

  /** With unique ids, flipping and then restoring the flag gives back each task. */
  lemma TwiceAt(tasks: seq<Task>, id: string, t: Task, i: int)
    requires UniqueIds(tasks) && FindById(tasks, id) == Some(t) && 0 <= i < |tasks|
    ensures ApplyUpdates(ApplyUpdates(tasks, id, SetImportance(!t.importance)), id, SetImportance(t.importance))[i] == tasks[i]
  {
    if tasks[i].id == id {
      UniqueFind(tasks, id, i);
    }
  }

  /** With unique ids, toggleComplete flips exactly the task with that id. */
  lemma ToggleCompletionFlipsOne(tasks: seq<Task>, id: string)
    requires UniqueIds(tasks)
    ensures forall i :: 0 <= i < |tasks| ==>
      ToggledCompletion(tasks, id)[i] == (if tasks[i].id == id then tasks[i].(completed := !tasks[i].completed) else tasks[i])
  {
    forall i | 0 <= i < |tasks| && tasks[i].id == id
      ensures ToggledCompletion(tasks, id)[i] == tasks[i].(completed := !tasks[i].completed)
    {
      UniqueFind(tasks, id, i);
    }
  }

  class TaskHook {
    var tasks: seq<Task>
    var loading: bool
    var error: Option<string>

    constructor ()
      ensures tasks == [] && loading && error == None
    {
      tasks := [];
      loading := true;
      error := None;
    }

    /** fetchTasks: replace the list with the user's stored tasks. */
    method FetchTasks(user: Option<string>, stored: Outcome<seq<Task>>)
      modifies this
      ensures !loading
      ensures user.None? ==> tasks == old(tasks) && error == Some(NoUserMessage)
      ensures user.Some? && stored.Resolved? ==> tasks == stored.value && error == None
      ensures user.Some? && stored.Rejected? ==> tasks == old(tasks) && error == Some(stored.message)
    {
      loading := true;
      if user.None? {
        error := Some(NoUserMessage);
      } else if stored.Rejected? {
        error := Some(stored.message);
      } else {
        tasks := stored.value;
        error := None;
      }
      loading := false;
    }

    /** addTask: append the stored task under its new id, with importance false. */
    method AddTask(user: Option<string>, draft: TaskDraft, newId: Outcome<string>) returns (r: Outcome<Task>)
      modifies this`tasks, this`error
      ensures user.None? ==> r == Rejected(NoUserMessage)
      ensures user.Some? && newId.Rejected? ==> r == Rejected(newId.message)
      ensures r.Rejected? ==> tasks == old(tasks) && error == Some(r.message)
      ensures r.Resolved? ==> user.Some? && newId.Resolved? && error == old(error)
      ensures r.Resolved? ==> r.value == Task(newId.value, draft.description, draft.list, draft.dueDate,
          draft.subTasks, draft.priority, draft.completed, false)
      ensures r.Resolved? ==> tasks == old(tasks) + [r.value]
    {
      if user.None? {
        r := Rejected(NoUserMessage);
      } else if newId.Rejected? {
        r := Rejected(newId.message);
      } else {
        var t := Task(newId.value, draft.description, draft.list, draft.dueDate, draft.subTasks,
                      draft.priority, draft.completed, false);
        tasks := tasks + [t];
        return Resolved(t);
      }
      error := Some(r.message);
    }

    /** updateTask: merge the updates into every task with the id. */
    method UpdateTask(user: Option<string>, id: string, updates: TaskUpdates, written: Outcome<()>)
      returns (r: Outcome<()>)
      modifies this`tasks, this`error
      ensures user.None? ==> r == Rejected(NoUserMessage)
      ensures user.Some? ==> r == written
      ensures r.Rejected? ==> tasks == old(tasks) && error == Some(r.message)
      ensures r.Resolved? ==> tasks == ApplyUpdates(old(tasks), id, updates) && error == old(error)
    {
      if user.None? {
        r := Rejected(NoUserMessage);
      } else {
        r := written;
      }
      if r.Rejected? {
        error := Some(r.message);
      } else {
        tasks := ApplyUpdates(tasks, id, updates);
      }
    }

    /** deleteTask: drop every task with the id. */
    method DeleteTask(user: Option<string>, id: string, deleted: Outcome<()>) returns (r: Outcome<()>)
      modifies this`tasks, this`error
      ensures user.None? ==> r == Rejected(NoUserMessage)
      ensures user.Some? ==> r == deleted
      ensures r.Rejected? ==> tasks == old(tasks) && error == Some(r.message)
      ensures r.Resolved? ==> tasks == WithoutId(old(tasks), id) && error == old(error)
    {
      if user.None? {
        r := Rejected(NoUserMessage);
      } else {
        r := deleted;
      }
      if r.Rejected? {
        error := Some(r.message);
      } else {
        tasks := WithoutId(tasks, id);
      }
    }

    /** toggleComplete: unknown ids do nothing; otherwise updateTask with the negated flag. */
    method ToggleComplete(user: Option<string>, id: string, written: Outcome<()>) returns (r: Outcome<()>)
      modifies this`tasks, this`error
      ensures FindById(old(tasks), id).None? ==> r == Resolved(()) && tasks == old(tasks) && error == old(error)
      ensures FindById(old(tasks), id).Some? && r.Resolved? ==> tasks == ToggledCompletion(old(tasks), id)
      ensures r.Rejected? ==> tasks == old(tasks) && error == Some(r.message)
    {
      var found := FindById(tasks, id);
      if found.None? {
        return Resolved(());
      }
      r := UpdateTask(user, id, NoUpdates.(completed := Some(!found.value.completed)), written);
    }

    /** toggleImportance: as toggleComplete, for the importance flag. */
    method ToggleImportance(user: Option<string>, id: string, written: Outcome<()>) returns (r: Outcome<()>)
      modifies this`tasks, this`error
      ensures FindById(old(tasks), id).None? ==> r == Resolved(()) && tasks == old(tasks) && error == old(error)
      ensures FindById(old(tasks), id).Some? && r.Resolved? ==> tasks == ToggledImportance(old(tasks), id)
      ensures r.Rejected? ==> tasks == old(tasks) && error == Some(r.message)
    {
      var found := FindById(tasks, id);
      if found.None? {
        return Resolved(());
      }
      r := UpdateTask(user, id, NoUpdates.(importance := Some(!found.value.importance)), written);
    }
  }
}
