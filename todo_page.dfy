/**
 * The stand-alone to-do page (frontend/src/pages/ToDoAfterLogin.jsx): an
 * in-memory list of tasks addressed by position, a draft task and the list
 * names a task may be filed under.
 */
module ToDoPage {
  import opened Text
  import opened Seqs
  import opened UseTasks

  /** The draft the page starts with and returns to after each add. */
  const EmptyDraft := TaskDraft("", "Personal", "", "", "low", false)

  const DefaultListOptions: seq<string> := ["Personal", "Work", "Study"]

  predicate Distinct(s: seq<string>)
  {
    forall i, j :: 0 <= i < j < |s| ==> s[i] != s[j]
  }

  /** tasks.map((task, i) => i === index ? {...task, completed: !task.completed} : task). */
  function CompletedAt(tasks: seq<TaskDraft>, index: int): (r: seq<TaskDraft>)
    ensures |r| == |tasks|
    ensures forall i :: 0 <= i < |tasks| ==>
      r[i] == (if i == index then tasks[i].(completed := !tasks[i].completed) else tasks[i])
  {
    if 0 <= index < |tasks| then tasks[index := tasks[index].(completed := !tasks[index].completed)]
    else tasks
  }

  /** Completing the same position twice restores the list. */
  lemma CompleteTwice(tasks: seq<TaskDraft>, index: int)
    ensures CompletedAt(CompletedAt(tasks, index), index) == tasks
  {
    var twice := CompletedAt(CompletedAt(tasks, index), index);
    assert forall i :: 0 <= i < |tasks| ==> twice[i] == tasks[i];
  }

  /** tasks.filter((_, i) => i !== index). */
  function WithoutIndex(tasks: seq<TaskDraft>, index: int): (r: seq<TaskDraft>)
    ensures 0 <= index < |tasks| ==> r == RemoveAt(tasks, index)
    ensures !(0 <= index < |tasks|) ==> r == tasks
  {
    if 0 <= index < |tasks| then RemoveAt(tasks, index) else tasks
  }

  class ToDoList {
    var tasks: seq<TaskDraft>
    var newTask: TaskDraft
    var listOptions: seq<string>
    var newOption: string

    ghost predicate Valid()
      reads this
    {
      Distinct(listOptions)
    }

    constructor ()
      ensures Valid()
      ensures tasks == [] && newTask == EmptyDraft && listOptions == DefaultListOptions && newOption == ""
    {
      tasks := [];
      newTask := EmptyDraft;
      listOptions := DefaultListOptions;
      newOption := "";
    }

    /** addTask: append the draft when its trimmed description is non-empty, then clear the draft. */
    method AddTask()
      modifies this`tasks, this`newTask
      ensures JsTrim(old(newTask).description) != "" ==> tasks == old(tasks) + [old(newTask)] && newTask == EmptyDraft
      ensures JsTrim(old(newTask).description) == "" ==> tasks == old(tasks) && newTask == old(newTask)
    {
      if JsTrim(newTask.description) != "" {
        tasks := tasks + [newTask];
        newTask := EmptyDraft;
      }
    }

    /** deleteTask: remove the task at the position; other positions are a no-op. */
    method DeleteTask(index: int)
      modifies this`tasks
      ensures tasks == WithoutIndex(old(tasks), index)
    {
      tasks := WithoutIndex(tasks, index);
    }

    /** completeTask: flip the completion flag at the position only. */
    method CompleteTask(index: int)
      modifies this`tasks
      ensures tasks == CompletedAt(old(tasks), index)
    {
      tasks := CompletedAt(tasks, index);
    }

    /** handleAddOption: add a non-empty option that is not listed yet, then clear the input. */
    method HandleAddOption()
      requires Valid()
      modifies this`listOptions, this`newOption
      ensures Valid()
      ensures old(newOption) != "" && old(newOption) !in old(listOptions) ==>
        listOptions == old(listOptions) + [old(newOption)] && newOption == ""
      ensures !(old(newOption) != "" && old(newOption) !in old(listOptions)) ==>
        listOptions == old(listOptions) && newOption == old(newOption)
    {
      if newOption != "" && newOption !in listOptions {
        listOptions := listOptions + [newOption];
        newOption := "";
      }
    }
  }
}
