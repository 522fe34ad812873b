/**
 * The task editor dialog (frontend/src/components/TodoApp/TaskForm.jsx): its
 * form state, filled from the task being edited or from defaults, and the
 * submission it hands to its caller.
 */
module TaskForm {
  import opened Wrappers
  import opened Text
  import opened TaskUtils
  import opened UseTasks

  const BlankForm := TaskDraft("", "Personal", "", "", "low", false)

  /** JavaScript `s || fallback` on a string. */
  function OrElse(s: string, fallback: string): (r: string)
    ensures s != "" ==> r == s
    ensures s == "" ==> r == fallback
  {
    if s != "" then s else fallback
  }

  /** The form the effect sets for the task being edited, or for a new task on the given date. */
  function InitialForm(editing: Option<Task>, initialDate: Option<string>): (r: TaskDraft)
    ensures editing.Some? ==> r == TaskDraft(
      OrElse(editing.value.description, ""), OrElse(editing.value.list, "Personal"),
      OrElse(editing.value.dueDate, ""), OrElse(editing.value.subTasks, ""),
      OrElse(editing.value.priority, "low"), editing.value.completed)
    ensures editing.None? && initialDate.Some? ==> r == BlankForm.(dueDate := initialDate.value)
    ensures editing.None? && initialDate.None? ==> r == BlankForm
  {
    match editing
    case Some(t) =>
      TaskDraft(OrElse(t.description, ""), OrElse(t.list, "Personal"), OrElse(t.dueDate, ""),
                OrElse(t.subTasks, ""), OrElse(t.priority, "low"), t.completed)
    case None =>
      BlankForm.(dueDate := if initialDate.Some? then OrElse(initialDate.value, "") else "")
  }

  /** Editing a task whose fields are all set fills the form with exactly those fields. */
  lemma EditKeepsSetFields(t: Task, initialDate: Option<string>)
    requires t.description != "" && t.list != "" && t.dueDate != "" && t.subTasks != "" && t.priority != ""
    ensures InitialForm(Some(t), initialDate) ==
      TaskDraft(t.description, t.list, t.dueDate, t.subTasks, t.priority, t.completed)
  {
  }

  /** The fields with an input in the form. */
  datatype Field = Description | List | DueDate | SubTasks | Priority

  /** {...prev, [field]: value}. */
  function WithField(f: TaskDraft, field: Field, value: string): (r: TaskDraft)
    ensures field == Description ==> r == f.(description := value)
    ensures field == List ==> r == f.(list := value)
    ensures field == DueDate ==> r == f.(dueDate := value)
    ensures field == SubTasks ==> r == f.(subTasks := value)
    ensures field == Priority ==> r == f.(priority := value)
  {
    match field
    case Description => f.(description := value)
    case List => f.(list := value)
    case DueDate => f.(dueDate := value)
    case SubTasks => f.(subTasks := value)
    case Priority => f.(priority := value)
  }

  /** What the form hands to onSubmit: its data and the edited task's id, if any. */
  datatype Submission = Submission(data: TaskDraft, id: Option<string>)

  class TaskFormState {
    var formData: TaskDraft
    var editingTask: Option<Task>
    var initialDate: Option<string>

    constructor ()
      ensures formData == BlankForm && editingTask == None && initialDate == None
    {
      formData := BlankForm;
      editingTask := None;
      initialDate := None;
    }

    /** The effect that runs when editingTask or initialDate change. */
    method SetProps(editing: Option<Task>, date: Option<string>)
      modifies this
      ensures editingTask == editing && initialDate == date
      ensures formData == InitialForm(editing, date)
    {
      editingTask := editing;
      initialDate := date;
      formData := InitialForm(editing, date);
    }

    /** handleChange: set one field. */
    method HandleChange(field: Field, value: string)
      modifies this`formData
      ensures formData == WithField(old(formData), field, value)
    {
      formData := WithField(formData, field, value);
    }

    /**
     * handleSubmit: with a non-blank description, submit the data and the
     * edited task's id, reset the form and ask to close; otherwise nothing.
     */
    method HandleSubmit() returns (r: Option<Submission>)
      modifies this`formData
      ensures JsTrim(old(formData).description) != "" ==>
        r == Some(Submission(old(formData), if editingTask.Some? then Some(editingTask.value.id) else None))
        && formData == BlankForm
      ensures JsTrim(old(formData).description) == "" ==> r == None && formData == old(formData)
    {
      if JsTrim(formData.description) != "" {
        r := Some(Submission(formData, if editingTask.Some? then Some(editingTask.value.id) else None));
        formData := BlankForm;
      } else {
        r := None;
      }
    }
  }
}
