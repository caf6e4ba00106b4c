/** The task dialog: its form state, the mapping from the form to the
    `Partial<Task>` it hands to the board, and the save and delete guards. */
module TaskModal {
  import opened Collections
  import opened Text
  import opened KanbanBoard

  /** The dialog's `formData`; empty strings stand for unset fields. */
  datatype FormData = FormData(
    title: string,
    description: string,
    status: Status,
    assigneeId: string,
    dueDate: string,
    priority: Priority)

  /** `x || ""` on an optional string. */
  function OrEmpty(o: Option<string>): string
  {
    if o.Some? then o.value else ""
  }

  /** The `useState` initialiser: the task's values, or the defaults. */
  function InitialForm(task: Option<Task>): (f: FormData)
    ensures task.None? ==> f == FormData("", "", Todo, "", "", Medium)
    ensures task.Some? ==> f.title == task.value.title && f.status == task.value.status
    ensures task.Some? ==> f.description == OrEmpty(task.value.description) &&
                           f.dueDate == OrEmpty(task.value.dueDate)
    ensures task.Some? && task.value.assignee.Some? ==> f.assigneeId == task.value.assignee.value.id
    ensures task.Some? && task.value.assignee.None? ==> f.assigneeId == ""
    ensures task.Some? && task.value.priority.Some? ==> f.priority == task.value.priority.value
    ensures task.Some? && task.value.priority.None? ==> f.priority == Medium
  {
    match task
    case None => FormData("", "", Todo, "", "", Medium)
    case Some(t) =>
      FormData(t.title, OrEmpty(t.description), t.status,
               if t.assignee.Some? then t.assignee.value.id else "",
               OrEmpty(t.dueDate),
               if t.priority.Some? then t.priority.value else Medium)
  }

  /** The team members the assignee select offers. */
  const TeamMembers: seq<Assignee> := [
    Assignee("1", "John Doe", "john@example.com", Some("")),
    Assignee("2", "Jane Smith", "jane@example.com", Some("")),
    Assignee("3", "Mike Chen", "mike@example.com", Some("")),
    Assignee("4", "Sarah Wilson", "sarah@example.com", Some(""))
  ]

  function HasMemberId(id: string): Assignee -> bool { (a: Assignee) => a.id == id }

  /** `teamMembers.find(member => member.id === formData.assigneeId)`. */
  function LookupAssignee(id: string): (r: Option<Assignee>)
    ensures r.None? <==> forall i :: 0 <= i < |TeamMembers| ==> TeamMembers[i].id != id
    ensures r.Some? ==> r.value in TeamMembers && r.value.id == id
  {
    Find(TeamMembers, HasMemberId(id))
  }

  /** The empty assignee id selects nobody; each team member's id selects
      that member. */
  lemma LookupAssigneeCases(i: nat)
    requires i < |TeamMembers|
    ensures LookupAssignee("") == None
    ensures LookupAssignee(TeamMembers[i].id) == Some(TeamMembers[i])
  {
    assert FindIndex(TeamMembers, HasMemberId(TeamMembers[i].id)) == i;
  }

  /** `task?.id || freshId`: an existing task keeps its id (unless it is the
      empty string, which is falsy). */
  function TaskDataId(task: Option<Task>, freshId: string): (id: string)
    ensures task.Some? && task.value.id != "" ==> id == task.value.id
    ensures (task.None? || task.value.id == "") ==> id == freshId
  {
    if task.Some? && task.value.id != "" then task.value.id else freshId
  }

  /** What `handleSave` passes to `onSave`, or `None` when the trimmed title
      is empty and it returns early. */
  function BuildTaskData(form: FormData, task: Option<Task>, freshId: string): (r: Option<TaskPatch>)
    ensures r.None? <==> Trim(form.title) == []
    ensures r.Some? ==> r.value.id == Some(TaskDataId(task, freshId))
    ensures r.Some? ==> r.value.title == Some(form.title) && r.value.status == Some(form.status)
    ensures r.Some? ==> r.value.description == Some(Some(form.description)) &&
                        r.value.dueDate == Some(Some(form.dueDate)) &&
                        r.value.priority == Some(Some(form.priority))
    ensures r.Some? ==> r.value.assignee == Some(LookupAssignee(form.assigneeId))
  {
    if Trim(form.title) == [] then None
    else Some(TaskPatch(Some(TaskDataId(task, freshId)), Some(form.title), Some(Some(form.description)),
                        Some(form.status), Some(LookupAssignee(form.assigneeId)),
                        Some(Some(form.dueDate)), Some(Some(form.priority))))
  }

  /** The Save button is enabled exactly when a click saves. */
  predicate SaveEnabled(form: FormData, isLoading: bool)
  {
    !isLoading && Trim(form.title) != []
  }

  lemma SaveEnabledIffSaves(form: FormData, task: Option<Task>, freshId: string)
    ensures SaveEnabled(form, false) <==> BuildTaskData(form, task, freshId).Some?
    ensures !SaveEnabled(form, true)
  {
  }

  /** The data the dialog saves always meets the board's create demands, and
      a create started from a column lands in that column whatever the form's
      status select says. */
  lemma SavedDataCreates(form: FormData, task: Option<Task>, freshId: string, tasks: seq<Task>, column: Status)
    requires BuildTaskData(form, task, freshId).Some?
    ensures var modal := TaskModalState(true, Create, None, Some(column));
            var patch := BuildTaskData(form, task, freshId).value;
            patch.id.Some? && patch.title.Some? && patch.status.Some? &&
            SaveTask(tasks, modal, patch) == tasks + [NewTask(patch, Some(column))] &&
            NewTask(patch, Some(column)).status == column &&
            NewTask(patch, Some(column)).title == form.title &&
            NewTask(patch, Some(column)).assignee == LookupAssignee(form.assigneeId)
  {
  }

  /** `handleDelete` deletes the dialog's task when it has a non-empty id and
      the dialog was given `onDelete`. */
  function DeleteTarget(task: Option<Task>, hasOnDelete: bool): (r: Option<string>)
    ensures r.Some? <==> task.Some? && task.value.id != "" && hasOnDelete
    ensures r.Some? ==> r.value == task.value.id
  {
    if task.None? || task.value.id == "" || !hasOnDelete then None else Some(task.value.id)
  }

  /** Reopening the dialog without resetting the form, the first mount's
      default form edits a seeded task: its title is not shown, and a save
      after typing a title clears the task's assignee and description. */
  lemma StaleFormOverwritesTask()
    ensures var t := InitialTasks[0];
            var form := InitialForm(None).(title := "Homepage");
            var patch := BuildTaskData(form, Some(t), "task-0").value;
            InitialForm(None).title != t.title &&
            Merge(t, patch).id == t.id &&
            Merge(t, patch).assignee == None && t.assignee != None &&
            Merge(t, patch).description == Some("") && t.description != Some("")
  {
    var t := InitialTasks[0];
    var form := InitialForm(None).(title := "Homepage");
    assert form.title[0] == 'H';
    assert !IsSpace(form.title[0]);
    assert TrimStart(form.title) == form.title;
    assert LookupAssignee("") == None by { LookupAssigneeCases(0); }
  }

  /** A dialog whose form is reset from the task when it opens shows the
      task, and saving it unedited keeps the task's id, title and status. */
  lemma FreshFormKeepsTask(t: Task, freshId: string)
    requires t.id != "" && Trim(t.title) != []
    ensures var patch := BuildTaskData(InitialForm(Some(t)), Some(t), freshId);
            patch.Some? &&
            Merge(t, patch.value).id == t.id &&
            Merge(t, patch.value).title == t.title &&
            Merge(t, patch.value).status == t.status &&
            Merge(t, patch.value).description == Some(OrEmpty(t.description)) &&
            (t.priority.Some? ==> Merge(t, patch.value).priority == t.priority)
  {
  }

  /** The dialog component: its props, its form and its loading flag. */
  class Dialog {
    var task: Option<Task>
    var mode: Mode
    var formData: FormData
    var isLoading: bool

    /** The first render: the form is initialised from the task prop. */
    constructor (task: Option<Task>, mode: Mode)
      ensures this.task == task && this.mode == mode
      ensures formData == InitialForm(task) && !isLoading
    {
      this.task := task;
      this.mode := mode;
      formData := InitialForm(task);
      isLoading := false;
    }

    /** A later render with new props: `useState` keeps the form it has. */
    method ReceiveProps(task: Option<Task>, mode: Mode)
      modifies this
      ensures this.task == task && this.mode == mode
      ensures formData == old(formData) && isLoading == old(isLoading)
    {
      this.task := task;
      this.mode := mode;
    }

    /** Opening the dialog for a task with the form reset from it. */
    method Open(task: Option<Task>, mode: Mode)
      modifies this
      ensures this.task == task && this.mode == mode
      ensures formData == InitialForm(task) && isLoading == old(isLoading)
    {
      this.task := task;
      this.mode := mode;
      formData := InitialForm(task);
    }

    method SetTitle(v: string)
      modifies this
      ensures formData == old(formData).(title := v)
      ensures task == old(task) && mode == old(mode) && isLoading == old(isLoading)
    {
      formData := formData.(title := v);
    }

    method SetDescription(v: string)
      modifies this
      ensures formData == old(formData).(description := v)
      ensures task == old(task) && mode == old(mode) && isLoading == old(isLoading)
    {
      formData := formData.(description := v);
    }

    method SetStatus(v: Status)
      modifies this
      ensures formData == old(formData).(status := v)
      ensures task == old(task) && mode == old(mode) && isLoading == old(isLoading)
    {
      formData := formData.(status := v);
    }

    method SetAssigneeId(v: string)
      modifies this
      ensures formData == old(formData).(assigneeId := v)
      ensures task == old(task) && mode == old(mode) && isLoading == old(isLoading)
    {
      formData := formData.(assigneeId := v);
    }

    method SetDueDate(v: string)
      modifies this
      ensures formData == old(formData).(dueDate := v)
      ensures task == old(task) && mode == old(mode) && isLoading == old(isLoading)
    {
      formData := formData.(dueDate := v);
    }

    method SetPriority(v: Priority)
      modifies this
      ensures formData == old(formData).(priority := v)
      ensures task == old(task) && mode == old(mode) && isLoading == old(isLoading)
    {
      formData := formData.(priority := v);
    }

    /** `handleSave`, with the fake latency left out: the data handed to
      `onSave`, if any; the loading flag ends cleared after a save. */
    method HandleSave(freshId: string) returns (saved: Option<TaskPatch>)
      modifies this
      ensures formData == old(formData) && task == old(task) && mode == old(mode)
      ensures saved == BuildTaskData(formData, task, freshId)
      ensures isLoading == if saved.None? then old(isLoading) else false
    {
      var form, current := formData, task;
      if Trim(form.title) == [] {
        return None;
      }
      var assignee := LookupAssignee(form.assigneeId);
      var taskData := TaskPatch(Some(TaskDataId(current, freshId)), Some(form.title),
                                Some(Some(form.description)), Some(form.status), Some(assignee),
                                Some(Some(form.dueDate)), Some(Some(form.priority)));
      assert Some(taskData) == BuildTaskData(form, current, freshId);
      isLoading := true;
      saved := Some(taskData);
      isLoading := false;
    }

    /** `handleDelete`: the id handed to `onDelete`, if any. */
    method HandleDelete(hasOnDelete: bool) returns (deleted: Option<string>)
      modifies this
      ensures deleted == DeleteTarget(task, hasOnDelete)
      ensures formData == old(formData) && task == old(task) && mode == old(mode)
      ensures isLoading == if deleted.None? then old(isLoading) else false
    {
      if task.None? || task.value.id == "" || !hasOnDelete {
        return None;
      }
      isLoading := true;
      deleted := Some(task.value.id);
      isLoading := false;
    }
  }
}
