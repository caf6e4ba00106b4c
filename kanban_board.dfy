/** The Kanban task board: the task list of one project, its three status
    columns as filtered views, the drag-end state machine that moves a task to
    another column or reorders it within its column, and the create, edit and
    delete callbacks of the task dialog. */
module KanbanBoard {
  import opened Collections

  datatype Status = Todo | InProgress | Done
  datatype Priority = Low | Medium | High

  datatype Assignee = Assignee(id: string, name: string, email: string, avatar: Option<string>)

  datatype Task = Task(
    id: string,
    title: string,
    description: Option<string>,
    status: Status,
    assignee: Option<Assignee>,
    dueDate: Option<string>,
    priority: Option<Priority>)

  /** A `Partial<Task>`: an outer `None` is a key that is absent; for the
      optional fields an inner `None` is a key present with value undefined. */
  datatype TaskPatch = TaskPatch(
    id: Option<string>,
    title: Option<string>,
    description: Option<Option<string>>,
    status: Option<Status>,
    assignee: Option<Option<Assignee>>,
    dueDate: Option<Option<string>>,
    priority: Option<Option<Priority>>)

  /** The droppable column ids, which are also the status strings. */
  function StatusName(s: Status): string
  {
    match s
    case Todo => "todo"
    case InProgress => "in_progress"
    case Done => "done"
  }

  /** The status a drop target id names when it is a column id. */
  function ColumnOf(id: string): Option<Status>
  {
    if id == "todo" then Some(Todo)
    else if id == "in_progress" then Some(InProgress)
    else if id == "done" then Some(Done)
    else None
  }

  lemma ColumnOfStatusName(s: Status, id: string)
    ensures ColumnOf(StatusName(s)) == Some(s)
    ensures ColumnOf(id) == Some(s) <==> id == StatusName(s)
  {
  }

  function HasStatus(s: Status): Task -> bool { (t: Task) => t.status == s }
  function LacksStatus(s: Status): Task -> bool { (t: Task) => t.status != s }
  function HasId(id: string): Task -> bool { (t: Task) => t.id == id }
  function LacksId(id: string): Task -> bool { (t: Task) => t.id != id }

  ghost predicate UniqueIds(tasks: seq<Task>)
  {
    forall i, j :: 0 <= i < j < |tasks| ==> tasks[i].id != tasks[j].id
  }

  // ---------------------------------------------------------------- columns

  /** `getTasksByStatus`: one column of the board. */
  function TasksByStatus(tasks: seq<Task>, s: Status): seq<Task>
  {
    Filter(tasks, HasStatus(s))
  }

  /** A column holds exactly the board's tasks of that status, each as often
      as the board does, in board order. */
  lemma ColumnContents(tasks: seq<Task>, s: Status, t: Task)
    ensures forall i :: 0 <= i < |TasksByStatus(tasks, s)| ==> TasksByStatus(tasks, s)[i].status == s
    ensures multiset(TasksByStatus(tasks, s))[t] == if t.status == s then multiset(tasks)[t] else 0
    ensures IsSubsequence(TasksByStatus(tasks, s), tasks)
  {
    FilterMultiplicity(tasks, HasStatus(s), t);
    FilterIsSubsequence(tasks, HasStatus(s));
  }

  /** The three columns partition the board: no task is lost or shown twice. */
  lemma ColumnsPartition(tasks: seq<Task>)
    ensures multiset(TasksByStatus(tasks, Todo)) + multiset(TasksByStatus(tasks, InProgress)) +
            multiset(TasksByStatus(tasks, Done)) == multiset(tasks)
    ensures |TasksByStatus(tasks, Todo)| + |TasksByStatus(tasks, InProgress)| +
            |TasksByStatus(tasks, Done)| == |tasks|
  {
    var rest := Filter(tasks, LacksStatus(Todo));
    FilterSplit(tasks, HasStatus(Todo), LacksStatus(Todo));
    FilterSplit(rest, HasStatus(InProgress), HasStatus(Done));
    FilterFilter(tasks, LacksStatus(Todo), HasStatus(InProgress));
    FilterFilter(tasks, LacksStatus(Todo), HasStatus(Done));
  }

  // ------------------------------------------------------------- array move

  /** Where dnd-kit's `arrayMove(array, from, to)` re-inserts the element: the
      start index `to < 0 ? length + to : to` is computed on the original
      length and then clamped by `splice` on the shortened array. */
  function MoveTarget(n: nat, to: int): (p: nat)
    requires n >= 1
    ensures p <= n - 1
    ensures 0 <= to < n ==> p == to
    ensures to == -1 ==> p == n - 1
  {
    var start := if to < 0 then n + to else to;
    if start < 0 then (if n - 1 + start < 0 then 0 else n - 1 + start)
    else if start > n - 1 then n - 1
    else start
  }

  /** `arrayMove(s, from, to)`: the element at `from` is removed and inserted
      again at the move target. */
  function ArrayMove<T>(s: seq<T>, from: nat, to: int): seq<T>
    requires from < |s|
  {
    InsertAt(RemoveAt(s, from), MoveTarget(|s|, to), s[from])
  }

  /** The moved element ends at the target and every other element keeps its
      relative order; nothing is lost or duplicated. */
  lemma ArrayMoveSpec<T>(s: seq<T>, from: nat, to: int)
    requires from < |s|
    ensures |ArrayMove(s, from, to)| == |s|
    ensures multiset(ArrayMove(s, from, to)) == multiset(s)
    ensures ArrayMove(s, from, to)[MoveTarget(|s|, to)] == s[from]
    ensures RemoveAt(ArrayMove(s, from, to), MoveTarget(|s|, to)) == RemoveAt(s, from)
  {
    var p := MoveTarget(|s|, to);
    RemoveAtMultiset(s, from);
    InsertAtMultiset(RemoveAt(s, from), p, s[from]);
    RemoveInserted(RemoveAt(s, from), p, s[from]);
  }

  /** Moving an element onto its own index changes nothing. */
  lemma ArrayMoveSameIndex<T>(s: seq<T>, i: nat)
    requires i < |s|
    ensures ArrayMove(s, i, i) == s
  {
    assert s == s[..i] + [s[i]] + s[i + 1..];
    assert RemoveAt(s, i)[..i] == s[..i];
    assert RemoveAt(s, i)[i..] == s[i + 1..];
  }

  // --------------------------------------------------------------- drag end

  /** What `onDragEnd` receives: the dragged id and the id under the pointer,
      if any. */
  datatype DragEndEvent = DragEndEvent(activeId: string, overId: Option<string>)

  /** The status a drop chooses: the column dropped on, else the status of the
      task dropped on, else the dragged task's own status. */
  function TargetStatus(tasks: seq<Task>, active: Task, overId: string): (s: Status)
    ensures ColumnOf(overId).Some? ==> s == ColumnOf(overId).value
    ensures ColumnOf(overId).None? && (forall i :: 0 <= i < |tasks| ==> tasks[i].id != overId) ==>
              s == active.status
    ensures forall i ::
              (0 <= i < |tasks| && tasks[i].id == overId && ColumnOf(overId).None? &&
               (forall j :: 0 <= j < i ==> tasks[j].id != overId)) ==> s == tasks[i].status
  {
    match ColumnOf(overId)
    case Some(c) => c
    case None =>
      var k := FindIndex(tasks, HasId(overId));
      if k == -1 then active.status else tasks[k].status
  }

  function SetStatusOf(id: string, s: Status): Task -> Task
  {
    (t: Task) => if t.id == id then t.(status := s) else t
  }

  /** The branch for a drop that keeps the status: the column is reordered
      with `arrayMove` and placed after the tasks of the other statuses. */
  function Reorder(tasks: seq<Task>, s: Status, activeId: string, overId: string): seq<Task>
    requires exists i :: 0 <= i < |tasks| && tasks[i].id == activeId && tasks[i].status == s
  {
    var col := TasksByStatus(tasks, s);
    var i :| 0 <= i < |tasks| && tasks[i].id == activeId && tasks[i].status == s;
    assert tasks[i] in col;
    var activeIndex := FindIndex(col, HasId(activeId));
    var overIndex := FindIndex(col, HasId(overId));
    if activeIndex == overIndex then tasks
    else Filter(tasks, LacksStatus(s)) + ArrayMove(col, activeIndex, overIndex)
  }

  /** The board after `handleDragEnd`. */
  function DragEnd(tasks: seq<Task>, ev: DragEndEvent): seq<Task>
  {
    if ev.overId.None? then tasks
    else
      var a := FindIndex(tasks, HasId(ev.activeId));
      if a == -1 then tasks
      else
        var newStatus := TargetStatus(tasks, tasks[a], ev.overId.value);
        if newStatus != tasks[a].status then Map(tasks, SetStatusOf(ev.activeId, newStatus))
        else Reorder(tasks, newStatus, ev.activeId, ev.overId.value)
  }

  /** A drop outside every target, or of an id that is not on the board,
      leaves the board as it was. */
  lemma DragEndWithoutEffect(tasks: seq<Task>, ev: DragEndEvent)
    requires ev.overId.None? || forall i :: 0 <= i < |tasks| ==> tasks[i].id != ev.activeId
    ensures DragEnd(tasks, ev) == tasks
  {
  }

  /** A drop that changes the status changes only the status of the dragged
      task: same length, same order, every other field and task unchanged. */
  lemma DragEndAcrossColumns(tasks: seq<Task>, ev: DragEndEvent, a: nat)
    requires a < |tasks| && tasks[a].id == ev.activeId
    requires forall j :: 0 <= j < a ==> tasks[j].id != ev.activeId
    requires ev.overId.Some?
    requires TargetStatus(tasks, tasks[a], ev.overId.value) != tasks[a].status
    ensures |DragEnd(tasks, ev)| == |tasks|
    ensures forall i :: 0 <= i < |tasks| ==>
              DragEnd(tasks, ev)[i] ==
                if tasks[i].id == ev.activeId
                then tasks[i].(status := TargetStatus(tasks, tasks[a], ev.overId.value))
                else tasks[i]
    ensures UniqueIds(tasks) ==>
              DragEnd(tasks, ev) ==
                tasks[a := tasks[a].(status := TargetStatus(tasks, tasks[a], ev.overId.value))]
  {
    assert FindIndex(tasks, HasId(ev.activeId)) == a;
  }

  /** What a same-column drop does to the board: the tasks of other statuses
      in their original order, then a permutation of the column; the board
      as a whole is a permutation of the old one and no other column moves. */
  lemma {:induction false} DragEndWithinColumn(tasks: seq<Task>, ev: DragEndEvent, a: nat)
    requires a < |tasks| && tasks[a].id == ev.activeId
    requires forall j :: 0 <= j < a ==> tasks[j].id != ev.activeId
    requires ev.overId.Some?
    requires TargetStatus(tasks, tasks[a], ev.overId.value) == tasks[a].status
    ensures multiset(DragEnd(tasks, ev)) == multiset(tasks)
    ensures |DragEnd(tasks, ev)| == |tasks|
    ensures forall s :: s != tasks[a].status ==>
              TasksByStatus(DragEnd(tasks, ev), s) == TasksByStatus(tasks, s)
    ensures multiset(TasksByStatus(DragEnd(tasks, ev), tasks[a].status)) ==
            multiset(TasksByStatus(tasks, tasks[a].status))
    ensures DragEnd(tasks, ev) == tasks ||
            DragEnd(tasks, ev) == Filter(tasks, LacksStatus(tasks[a].status)) +
                                  TasksByStatus(DragEnd(tasks, ev), tasks[a].status)
  {
    var s := tasks[a].status;
    var col := TasksByStatus(tasks, s);
    var others := Filter(tasks, LacksStatus(s));
    assert FindIndex(tasks, HasId(ev.activeId)) == a;
    assert tasks[a] in col;
    var ai := FindIndex(col, HasId(ev.activeId));
    var oi := FindIndex(col, HasId(ev.overId.value));
    var r := DragEnd(tasks, ev);
    assert r == Reorder(tasks, s, ev.activeId, ev.overId.value);
    if ai != oi {
      var moved := ArrayMove(col, ai, oi);
      assert r == others + moved;
      ArrayMoveSpec(col, ai, oi);
      ReorderedPermutation(tasks, s, moved);
      ReorderedColumns(tasks, s, moved);
    }
  }

  /** "Other-status tasks, then a permutation of the column of `s`" is a
      permutation of the board. */
  lemma ReorderedPermutation(tasks: seq<Task>, s: Status, moved: seq<Task>)
    requires multiset(moved) == multiset(TasksByStatus(tasks, s))
    ensures multiset(Filter(tasks, LacksStatus(s)) + moved) == multiset(tasks)
    ensures |Filter(tasks, LacksStatus(s)) + moved| == |tasks|
  {
    FilterSplit(tasks, HasStatus(s), LacksStatus(s));
    assert |moved| == |multiset(moved)|;
  }

  /** The column views of "other-status tasks, then a permutation of the
      column of `s`". */
  lemma ReorderedColumns(tasks: seq<Task>, s: Status, moved: seq<Task>)
    requires multiset(moved) == multiset(TasksByStatus(tasks, s))
    ensures forall s' :: s' != s ==>
              TasksByStatus(Filter(tasks, LacksStatus(s)) + moved, s') == TasksByStatus(tasks, s')
    ensures TasksByStatus(Filter(tasks, LacksStatus(s)) + moved, s) == moved
  {
    var col := TasksByStatus(tasks, s);
    var others := Filter(tasks, LacksStatus(s));
    forall i | 0 <= i < |moved| ensures moved[i].status == s {
      assert moved[i] in multiset(col);
      assert moved[i] in col;
    }
    forall s' | s' != s
      ensures TasksByStatus(others + moved, s') == TasksByStatus(tasks, s')
    {
      FilterConcat(others, moved, HasStatus(s'));
      FilterKeepsNone(moved, HasStatus(s'));
      FilterFilter(tasks, LacksStatus(s), HasStatus(s'));
    }
    FilterConcat(others, moved, HasStatus(s));
    FilterKeepsNone(others, HasStatus(s));
    FilterKeepsAll(moved, HasStatus(s));
  }

  /** In a same-column drop on a task of that column, the dragged task lands
      at the index of the task it was dropped on and the rest of the column
      keeps its order; a drop on its own column's id moves it to the end. */
  lemma DragEndReorderPosition(tasks: seq<Task>, ev: DragEndEvent, a: nat)
    requires a < |tasks| && tasks[a].id == ev.activeId
    requires forall j :: 0 <= j < a ==> tasks[j].id != ev.activeId
    requires ev.overId.Some?
    requires TargetStatus(tasks, tasks[a], ev.overId.value) == tasks[a].status
    ensures var col := TasksByStatus(tasks, tasks[a].status);
            var newCol := TasksByStatus(DragEnd(tasks, ev), tasks[a].status);
            var ai := FindIndex(col, HasId(ev.activeId));
            var oi := FindIndex(col, HasId(ev.overId.value));
            0 <= ai && |newCol| == |col| &&
            (0 <= oi ==> newCol[oi] == col[ai] && newCol[oi].id == ev.activeId &&
                         RemoveAt(newCol, oi) == RemoveAt(col, ai)) &&
            (oi == -1 ==> newCol[|col| - 1] == col[ai] &&
                          RemoveAt(newCol, |col| - 1) == RemoveAt(col, ai))
  {
    var s := tasks[a].status;
    var col := TasksByStatus(tasks, s);
    assert FindIndex(tasks, HasId(ev.activeId)) == a;
    assert tasks[a] in col;
    var ai := FindIndex(col, HasId(ev.activeId));
    var oi := FindIndex(col, HasId(ev.overId.value));
    var r := DragEnd(tasks, ev);
    assert r == Reorder(tasks, s, ev.activeId, ev.overId.value);
    if ai != oi {
      var moved := ArrayMove(col, ai, oi);
      ArrayMoveSpec(col, ai, oi);
      ReorderedColumns(tasks, s, moved);
    } else {
      ArrayMoveSameIndex(col, ai);
    }
  }

  /** A task dropped onto itself stays where it was. */
  lemma DragEndOntoItself(tasks: seq<Task>, id: string)
    requires ColumnOf(id).None?
    ensures DragEnd(tasks, DragEndEvent(id, Some(id))) == tasks
  {
    var a := FindIndex(tasks, HasId(id));
    if a != -1 {
      var s := tasks[a].status;
      assert TargetStatus(tasks, tasks[a], id) == s;
      var col := TasksByStatus(tasks, s);
      assert tasks[a] in col;
    }
  }

  // ------------------------------------------------------ save and delete

  datatype Mode = Create | Edit

  /** The `taskModal` state of the board: whether the dialog is open, its
      mode, the task being edited and the column a create started from. */
  datatype TaskModalState = TaskModalState(isOpen: bool, mode: Mode, task: Option<Task>, status: Option<Status>)

  /** A patch key that is absent reads as undefined. */
  function Present<T>(o: Option<Option<T>>): Option<T>
  {
    match o
    case Some(v) => v
    case None => None
  }

  /** The task a create builds from the dialog's data; `taskData.id!`,
      `taskData.title!` and `taskData.status!` are the caller's promise. */
  function NewTask(patch: TaskPatch, modalStatus: Option<Status>): (t: Task)
    requires patch.id.Some? && patch.title.Some?
    requires modalStatus.Some? || patch.status.Some?
    ensures t.id == patch.id.value && t.title == patch.title.value
    ensures t.status == if modalStatus.Some? then modalStatus.value else patch.status.value
    ensures t.description == Present(patch.description) && t.assignee == Present(patch.assignee)
    ensures t.dueDate == Present(patch.dueDate) && t.priority == Present(patch.priority)
  {
    Task(patch.id.value, patch.title.value, Present(patch.description),
         if modalStatus.Some? then modalStatus.value else patch.status.value,
         Present(patch.assignee), Present(patch.dueDate), Present(patch.priority))
  }

  /** `{ ...task, ...patch }`: every key present in the patch overrides. */
  function Merge(t: Task, p: TaskPatch): Task
  {
    Task(if p.id.Some? then p.id.value else t.id,
         if p.title.Some? then p.title.value else t.title,
         if p.description.Some? then p.description.value else t.description,
         if p.status.Some? then p.status.value else t.status,
         if p.assignee.Some? then p.assignee.value else t.assignee,
         if p.dueDate.Some? then p.dueDate.value else t.dueDate,
         if p.priority.Some? then p.priority.value else t.priority)
  }

  const EmptyPatch := TaskPatch(None, None, None, None, None, None, None)

  /** Merging is a right-biased update: a key present in the patch replaces
      the task's value and an absent key keeps it, so the empty patch changes
      nothing and merging twice is merging once. */
  lemma MergeLaws(t: Task, p: TaskPatch)
    ensures p.id.Some? ==> Merge(t, p).id == p.id.value
    ensures p.id.None? ==> Merge(t, p).id == t.id
    ensures p.title.Some? ==> Merge(t, p).title == p.title.value
    ensures p.title.None? ==> Merge(t, p).title == t.title
    ensures p.description.Some? ==> Merge(t, p).description == p.description.value
    ensures p.description.None? ==> Merge(t, p).description == t.description
    ensures p.status.Some? ==> Merge(t, p).status == p.status.value
    ensures p.status.None? ==> Merge(t, p).status == t.status
    ensures p.assignee.Some? ==> Merge(t, p).assignee == p.assignee.value
    ensures p.assignee.None? ==> Merge(t, p).assignee == t.assignee
    ensures p.dueDate.Some? ==> Merge(t, p).dueDate == p.dueDate.value
    ensures p.dueDate.None? ==> Merge(t, p).dueDate == t.dueDate
    ensures p.priority.Some? ==> Merge(t, p).priority == p.priority.value
    ensures p.priority.None? ==> Merge(t, p).priority == t.priority
    ensures Merge(t, EmptyPatch) == t
    ensures Merge(Merge(t, p), p) == Merge(t, p)
  {
  }

  /** Two spreads in a row, `{ ...p, ...q }` as one patch: each key from `q`
      when it has it, else from `p`. */
  function Overlay(p: TaskPatch, q: TaskPatch): TaskPatch
  {
    TaskPatch(if q.id.Some? then q.id else p.id,
               if q.title.Some? then q.title else p.title,
               if q.description.Some? then q.description else p.description,
               if q.status.Some? then q.status else p.status,
               if q.assignee.Some? then q.assignee else p.assignee,
               if q.dueDate.Some? then q.dueDate else p.dueDate,
               if q.priority.Some? then q.priority else p.priority)
  }

  /** Merging `p` and then `q` is merging their overlay, where the later
      patch wins; the empty patch is neutral on either side. */
  lemma MergeOverlay(t: Task, p: TaskPatch, q: TaskPatch)
    ensures Merge(Merge(t, p), q) == Merge(t, Overlay(p, q))
    ensures Overlay(EmptyPatch, q) == q && Overlay(p, EmptyPatch) == p
  {
  }

  function EditWith(p: TaskPatch): Task -> Task
  {
    (t: Task) => if p.id.Some? && t.id == p.id.value then Merge(t, p) else t
  }

  /** `handleSaveTask`: create appends a task, edit merges the patch into the
      tasks whose id matches. */
  function SaveTask(tasks: seq<Task>, modal: TaskModalState, patch: TaskPatch): seq<Task>
    requires modal.mode == Create ==> patch.id.Some? && patch.title.Some? &&
                                      (modal.status.Some? || patch.status.Some?)
  {
    if modal.mode == Create then tasks + [NewTask(patch, modal.status)]
    else Map(tasks, EditWith(patch))
  }

  /** A create appends exactly one task, at the end of its column. */
  lemma SaveTaskCreate(tasks: seq<Task>, modal: TaskModalState, patch: TaskPatch)
    requires modal.mode == Create && patch.id.Some? && patch.title.Some?
    requires modal.status.Some? || patch.status.Some?
    ensures var t := NewTask(patch, modal.status);
            SaveTask(tasks, modal, patch)[..|tasks|] == tasks &&
            |SaveTask(tasks, modal, patch)| == |tasks| + 1 &&
            TasksByStatus(SaveTask(tasks, modal, patch), t.status) == TasksByStatus(tasks, t.status) + [t] &&
            (forall s :: s != t.status ==>
               TasksByStatus(SaveTask(tasks, modal, patch), s) == TasksByStatus(tasks, s))
  {
    var t := NewTask(patch, modal.status);
    forall s {
      FilterAppend(tasks, t, HasStatus(s));
    }
  }

  /** A create with an id not yet on the board keeps the ids unique. */
  lemma SaveTaskCreateFresh(tasks: seq<Task>, modal: TaskModalState, patch: TaskPatch)
    requires modal.mode == Create && patch.id.Some? && patch.title.Some?
    requires modal.status.Some? || patch.status.Some?
    requires UniqueIds(tasks)
    requires forall i :: 0 <= i < |tasks| ==> tasks[i].id != patch.id.value
    ensures UniqueIds(SaveTask(tasks, modal, patch))
  {
  }

  /** An edit merges the patch into the task with the patch's id and leaves
      every other task, the length and the order alone. */
  lemma SaveTaskEdit(tasks: seq<Task>, modal: TaskModalState, patch: TaskPatch)
    requires modal.mode == Edit
    ensures |SaveTask(tasks, modal, patch)| == |tasks|
    ensures forall i :: 0 <= i < |tasks| ==>
              SaveTask(tasks, modal, patch)[i] ==
                if patch.id.Some? && tasks[i].id == patch.id.value then Merge(tasks[i], patch) else tasks[i]
    ensures patch.id.None? ==> SaveTask(tasks, modal, patch) == tasks
  {
    if patch.id.None? {
      assert SaveTask(tasks, modal, patch) == tasks;
    }
  }

  /** `handleDeleteTask`. */
  function DeleteTask(tasks: seq<Task>, id: string): seq<Task>
  {
    Filter(tasks, LacksId(id))
  }

  /** A delete removes every task with the id, keeps all the others in their
      order and as often as before, and inside each column does the same. */
  lemma DeleteTaskSpec(tasks: seq<Task>, id: string, s: Status)
    ensures forall i :: 0 <= i < |DeleteTask(tasks, id)| ==> DeleteTask(tasks, id)[i].id != id
    ensures forall i :: 0 <= i < |tasks| && tasks[i].id != id ==> tasks[i] in DeleteTask(tasks, id)
    ensures IsSubsequence(DeleteTask(tasks, id), tasks)
    ensures TasksByStatus(DeleteTask(tasks, id), s) == DeleteTask(TasksByStatus(tasks, s), id)
    ensures (forall i :: 0 <= i < |tasks| ==> tasks[i].id != id) ==> DeleteTask(tasks, id) == tasks
    ensures forall t: Task :: multiset(DeleteTask(tasks, id))[t] == if t.id == id then 0 else multiset(tasks)[t]
  {
    forall t: Task ensures multiset(DeleteTask(tasks, id))[t] == if t.id == id then 0 else multiset(tasks)[t] {
      FilterMultiplicity(tasks, LacksId(id), t);
    }
    FilterIsSubsequence(tasks, LacksId(id));
    FilterCommute(tasks, LacksId(id), HasStatus(s));
    if forall i :: 0 <= i < |tasks| ==> tasks[i].id != id {
      FilterKeepsAll(tasks, LacksId(id));
    }
  }

  // -------------------------------------------------------------- the board

  const InitialTasks: seq<Task> := [
    Task("1", "Design new homepage layout", Some("Create wireframes and mockups for the new homepage design"),
         Todo, Some(Assignee("1", "John Doe", "john@company.com", None)), Some("2025-01-30"), Some(High)),
    Task("2", "Implement user authentication", Some("Set up login and registration functionality"),
         InProgress, Some(Assignee("2", "Jane Smith", "jane@company.com", None)), Some("2025-02-05"), Some(Medium)),
    Task("3", "Setup database schema", Some("Design and implement the database structure"),
         Done, Some(Assignee("3", "Mike Chen", "mike@company.com", None)), None, Some(Low)),
    Task("4", "Create project documentation", Some("Write comprehensive documentation for the project"),
         Todo, Some(Assignee("4", "Sarah Wilson", "sarah@company.com", None)), Some("2025-02-10"), Some(Medium)),
    Task("5", "Implement API endpoints", Some("Create REST API endpoints for user management"),
         InProgress, Some(Assignee("1", "John Doe", "john@company.com", None)), Some("2025-02-08"), Some(High))
  ]

  lemma InitialTasksUnique()
    ensures UniqueIds(InitialTasks)
  {
  }

  /** The `KanbanBoard` component's state. */
  class Board {
    var tasks: seq<Task>
    var activeId: Option<string>
    var taskModal: TaskModalState

    constructor ()
      ensures tasks == InitialTasks && activeId == None
      ensures taskModal == TaskModalState(false, Create, None, None)
    {
      tasks := InitialTasks;
      activeId := None;
      taskModal := TaskModalState(false, Create, None, None);
    }

    method HandleDragStart(id: string)
      modifies this
      ensures activeId == Some(id)
      ensures tasks == old(tasks) && taskModal == old(taskModal)
    {
      activeId := Some(id);
    }

    method HandleDragEnd(ev: DragEndEvent)
      modifies this
      ensures tasks == DragEnd(old(tasks), ev)
      ensures activeId == None && taskModal == old(taskModal)
    {
      activeId := None;
      if ev.overId.None? {
        return;
      }
      var overId := ev.overId.value;
      var a := FindIndex(tasks, HasId(ev.activeId));
      if a == -1 {
        return;
      }
      var activeTask := tasks[a];
      var newStatus := activeTask.status;
      if ColumnOf(overId).Some? {
        newStatus := ColumnOf(overId).value;
      } else {
        var o := FindIndex(tasks, HasId(overId));
        if o != -1 {
          newStatus := tasks[o].status;
        }
      }
      if newStatus != activeTask.status {
        tasks := Map(tasks, SetStatusOf(ev.activeId, newStatus));
      } else {
        var columnTasks := TasksByStatus(tasks, newStatus);
        assert activeTask in columnTasks;
        var activeIndex := FindIndex(columnTasks, HasId(ev.activeId));
        var overIndex := FindIndex(columnTasks, HasId(overId));
        if activeIndex != overIndex {
          var newOrder := ArrayMove(columnTasks, activeIndex, overIndex);
          var otherTasks := Filter(tasks, LacksStatus(newStatus));
          tasks := otherTasks + newOrder;
        }
      }
    }

    method HandleCreateTask(status: Status)
      modifies this
      ensures taskModal == TaskModalState(true, Create, None, Some(status))
      ensures tasks == old(tasks) && activeId == old(activeId)
    {
      taskModal := TaskModalState(true, Create, None, Some(status));
    }

    method HandleEditTask(task: Task)
      modifies this
      ensures taskModal == TaskModalState(true, Edit, Some(task), None)
      ensures tasks == old(tasks) && activeId == old(activeId)
    {
      taskModal := TaskModalState(true, Edit, Some(task), None);
    }

    method CloseTaskModal()
      modifies this
      ensures taskModal == TaskModalState(false, Create, None, None)
      ensures tasks == old(tasks) && activeId == old(activeId)
    {
      taskModal := TaskModalState(false, Create, None, None);
    }

    method HandleSaveTask(patch: TaskPatch)
      requires taskModal.mode == Create ==> patch.id.Some? && patch.title.Some? &&
                                            (taskModal.status.Some? || patch.status.Some?)
      modifies this
      ensures taskModal == old(taskModal) && activeId == old(activeId)
      ensures tasks == SaveTask(old(tasks), taskModal, patch)
    {
      if taskModal.mode == Create {
        var newTask := NewTask(patch, taskModal.status);
        tasks := tasks + [newTask];
      } else {
        tasks := Map(tasks, EditWith(patch));
      }
    }

    method HandleDeleteTask(taskId: string)
      modifies this
      ensures tasks == DeleteTask(old(tasks), taskId)
      ensures taskModal == old(taskModal) && activeId == old(activeId)
    {
      tasks := Filter(tasks, LacksId(taskId));
    }
  }
}
