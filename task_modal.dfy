/** The modal that creates or edits a task: its form fields, the task data
    it hands to `onSave`, and the open, loading and error state around a
    save. Due dates are kept as the ISO string the backend stores; turning
    that string into a `Date` and back is taken to be the identity. */
module TaskModal {
  import opened Base

  const TitleRequiredError := "Le titre est obligatoire."
  const SaveFailedError := "Une erreur est survenue lors de l'enregistrement."

  datatype Status = Backlog | ToDo | InProgress | Done
  datatype Priority = Low | Medium | High | Urgent

  datatype Task = Task(id: string, title: string, description: string, status: Status,
                       priority: Priority, dueDate: Option<string>, assignedTo: Option<string>)

  /** What `saveTask` hands to `onSave`: a task plus the workspace it belongs to. */
  datatype TaskData = TaskData(id: string, title: string, description: string, status: Status,
                               priority: Priority, dueDate: Option<string>, assignedTo: Option<string>,
                               workspaceId: string)

  /** The editable fields; an unassigned task has the empty `assignedTo`. */
  datatype TaskForm = TaskForm(title: string, description: string, date: Option<string>,
                               assignedTo: string, status: Status, priority: Priority)

  /** The fields for a new task. */
  function EmptyForm(initialStatus: Status): (f: TaskForm)
    ensures f.title == "" && f.description == "" && f.date == None && f.assignedTo == ""
    ensures f.status == initialStatus && f.priority == Low
  {
    TaskForm("", "", None, "", initialStatus, Low)
  }

  /** The populate effect: a selected task's fields are copied (no due date
      and an empty one both give no date, no assignee gives ""); without a
      selection the fields are those of a new task. */
  function FormFor(selected: Option<Task>, initialStatus: Status): (f: TaskForm)
    ensures selected.None? ==> f == EmptyForm(initialStatus)
    ensures selected.Some? ==>
      var t := selected.value;
      f.title == t.title && f.description == t.description && f.status == t.status && f.priority == t.priority &&
      (f.date.Some? <==> t.dueDate.Some? && t.dueDate.value != "") && (f.date.Some? ==> f.date == t.dueDate) &&
      (t.assignedTo.None? ==> f.assignedTo == "") && (t.assignedTo.Some? ==> f.assignedTo == t.assignedTo.value)
  {
    match selected
    case None => EmptyForm(initialStatus)
    case Some(t) =>
      TaskForm(t.title, t.description, if Present(t.dueDate) then t.dueDate else None,
               if t.assignedTo.Some? then t.assignedTo.value else "", t.status, t.priority)
  }

  /** The task data built from the form: the selected task's id or "", the
      title as typed (not trimmed), no due date without a date, and no
      assignee for the empty `assignedTo`. */
  function BuildTaskData(f: TaskForm, selected: Option<Task>, workspaceId: string): (d: TaskData)
    ensures d.id == (if selected.Some? then selected.value.id else "")
    ensures d.title == f.title && d.description == f.description && d.status == f.status && d.priority == f.priority
    ensures d.dueDate == f.date && d.workspaceId == workspaceId
    ensures d.assignedTo.None? <==> f.assignedTo == ""
    ensures d.assignedTo.Some? ==> d.assignedTo.value == f.assignedTo
  {
    TaskData(if selected.Some? && selected.value.id != "" then selected.value.id else "",
             f.title, f.description, f.status, f.priority, f.date,
             if f.assignedTo != "" then Some(f.assignedTo) else None, workspaceId)
  }

  /** Opening a task and saving it untouched hands back that task: nothing
      is lost between the stored task and the form, provided an empty due
      date or assignee is stored as none. The due date comes back unchanged
      only because the trip through `new Date(...).toISOString()` is taken
      to be the identity, which holds for strings already in that form: a
      stored "2025-03-01" would be saved as "2025-03-01T00:00:00.000Z", and
      one `Date` cannot parse makes the save throw before `onSave`. */
  lemma EditRoundTrip(t: Task, initialStatus: Status, workspaceId: string)
    requires t.dueDate != Some("") && t.assignedTo != Some("")
    ensures BuildTaskData(FormFor(Some(t), initialStatus), Some(t), workspaceId)
      == TaskData(t.id, t.title, t.description, t.status, t.priority, t.dueDate, t.assignedTo, workspaceId)
  {
  }

  /** In the other direction: the data saved from a form populates the
      same form again. */
  lemma SaveRoundTrip(f: TaskForm, selected: Option<Task>, workspaceId: string, initialStatus: Status)
    requires f.date != Some("")
    ensures var d := BuildTaskData(f, selected, workspaceId);
      FormFor(Some(Task(d.id, d.title, d.description, d.status, d.priority, d.dueDate, d.assignedTo)), initialStatus) == f
  {
  }

  class TaskModal {
    var title: string
    var description: string
    var date: Option<string>
    var assignedTo: string
    var status: Status
    var priority: Priority
    var loading: bool
    var error: string
    /** The parent's `modalOpen`, set through `setModalOpen`. */
    var open: bool
    /** The props the populate effect depends on. */
    var selectedTask: Option<Task>
    var initialStatus: Status
    const workspaceId: string

    function Form(): TaskForm
      reads this
    {
      TaskForm(title, description, date, assignedTo, status, priority)
    }

    /** Mounting: the fields start from their defaults and the populate
        effect runs at once. */
    constructor (open: bool, selectedTask: Option<Task>, initialStatus: Status, workspaceId: string)
      ensures Form() == FormFor(selectedTask, initialStatus)
      ensures this.open == open && this.selectedTask == selectedTask && this.initialStatus == initialStatus
      ensures this.workspaceId == workspaceId && !loading && error == ""
    {
      title, description, date, assignedTo := "", "", None, "";
      status, priority := Backlog, Low;
      loading, error := false, "";
      this.open, this.workspaceId := open, workspaceId;
      this.selectedTask, this.initialStatus := selectedTask, initialStatus;
      new;
      Populate(selectedTask, initialStatus);
    }

    /** The populate effect, run whenever the selected task or the initial
        status changes. */
    method Populate(task: Option<Task>, initial: Status)
      modifies this`title, this`description, this`date, this`assignedTo, this`status, this`priority,
               this`selectedTask, this`initialStatus
      ensures Form() == FormFor(task, initial)
      ensures selectedTask == task && initialStatus == initial
    {
      selectedTask, initialStatus := task, initial;
      if task.Some? {
        var t := task.value;
        title := t.title;
        description := t.description;
        date := if Present(t.dueDate) then t.dueDate else None;
        status := t.status;
        priority := t.priority;
        assignedTo := if t.assignedTo.Some? then t.assignedTo.value else "";
      } else {
        title := "";
        description := "";
        date := None;
        assignedTo := "";
        status := initial;
        priority := Low;
      }
    }

    /** `saveTask` up to the call of `onSave`: a title that is blank once
        trimmed sets the error and nothing is saved; otherwise the built
        task data is handed back for `onSave`, loading starts and the error
        is cleared. The form fields are not touched. */
    method SaveTask() returns (saved: Option<TaskData>)
      modifies this`loading, this`error
      ensures IsBlank(title) ==> saved == None && error == TitleRequiredError && loading == old(loading)
      ensures !IsBlank(title) ==> saved == Some(BuildTaskData(Form(), selectedTask, workspaceId)) && loading && error == ""
    {
      TrimEmptyIffBlank(title);
      if Trim(title) == "" {
        error := TitleRequiredError;
        return None;
      }
      var id := if selectedTask.Some? && selectedTask.value.id != "" then selectedTask.value.id else "";
      var assignee := if assignedTo != "" then Some(assignedTo) else None;
      var data := TaskData(id, title, description, status, priority, date, assignee, workspaceId);
      assert data == BuildTaskData(Form(), selectedTask, workspaceId);
      loading := true;
      error := "";
      saved := Some(data);
    }

    /** The end of `saveTask`: when `onSave` resolves the modal closes, when
        it rejects the error is shown and the modal stays open; loading
        stops either way. */
    method SaveSettled(succeeded: bool)
      modifies this`open, this`error, this`loading
      ensures succeeded ==> !open && error == old(error)
      ensures !succeeded ==> open == old(open) && error == SaveFailedError
      ensures !loading
    {
      if succeeded {
        open := false;
      } else {
        error := SaveFailedError;
      }
      loading := false;
    }

    /** Closing resets every field to those of a new task with the current
        initial status, whatever task was selected. */
    method CloseModal()
      modifies this`open, this`title, this`description, this`date, this`assignedTo, this`status, this`priority
      ensures !open
      ensures Form() == EmptyForm(initialStatus)
    {
      open := false;
      title := "";
      description := "";
      date := None;
      assignedTo := "";
      status := initialStatus;
      priority := Low;
    }
  }
}
