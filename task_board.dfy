/**
 * The kanban board of one project: three status columns, the rule that
 * turns a drag-and-drop event into a status change, and the board's own
 * state (its copy of the tasks and the form it opens).
 */
module TaskBoard {
  import opened Options
  import opened Types
  import Seqs
  import Storage
  import TaskForm

  /** `COLUMNS`, in display order. */
  const Columns: seq<TaskStatus> := [Todo, InProgress, Done]

  /** The string a status is stored as; it is also the droppable id of its column. */
  function StatusName(s: TaskStatus): (r: string)
    ensures r == "todo" || r == "in_progress" || r == "done"
  {
    match s
    case Todo => "todo"
    case InProgress => "in_progress"
    case Done => "done"
  }

  /** `COLUMNS.includes(id) ? id : null`: the column a droppable id names, if any. */
  function ColumnFor(id: string): (r: Option<TaskStatus>)
    ensures r.Some? ==> StatusName(r.value) == id
    ensures r.None? <==> forall s :: StatusName(s) != id
  {
    if id == "todo" then Some(Todo)
    else if id == "in_progress" then Some(InProgress)
    else if id == "done" then Some(Done)
    else None
  }

  /** Every column is reached by its own id, and only by it. */
  lemma ColumnForName(s: TaskStatus)
    ensures ColumnFor(StatusName(s)) == Some(s)
    ensures forall t :: StatusName(t) == StatusName(s) ==> t == s
  {
  }

  /**
   * The status a drop target stands for: a column's own status, else the
   * status of the first task with that id, else none.
   */
  function TargetStatus(tasks: seq<Task>, overId: string): (r: Option<TaskStatus>)
    ensures ColumnFor(overId).Some? ==> r == ColumnFor(overId)
    ensures ColumnFor(overId).None? ==> (r.None? <==> forall t :: t in tasks ==> t.id != overId)
    ensures ColumnFor(overId).None? && r.Some? ==>
      exists i: nat :: Seqs.IsFirst(tasks, TaskId, overId, i) && tasks[i].status == r.value
  {
    match ColumnFor(overId)
    case Some(s) => Some(s)
    case None =>
      match Seqs.Find(tasks, TaskId, overId)
      case None => None
      case Some(t) => Some(t.status)
  }

  /** A status change to write: `updateTask(taskId, { status })`. */
  datatype Move = Move(taskId: string, status: TaskStatus)

  /**
   * The rule shared by `handleDragOver` and `handleDragEnd`: with a drop
   * target, a dragged task found on the board and a target status that
   * differs from its status, move it there; otherwise do nothing.
   */
  function DropMove(tasks: seq<Task>, activeId: string, over: Option<string>): (r: Option<Move>)
    ensures r.Some? ==> over.Some? && r.value.taskId == activeId
    ensures r.Some? ==> TargetStatus(tasks, over.value) == Some(r.value.status)
    ensures r.Some? ==> exists i: nat :: Seqs.IsFirst(tasks, TaskId, activeId, i) && tasks[i].status != r.value.status
    ensures r.None? <==>
      || over.None?
      || TargetStatus(tasks, over.value).None?
      || forall i: nat :: Seqs.IsFirst(tasks, TaskId, activeId, i) ==> tasks[i].status == TargetStatus(tasks, over.value).value
  {
    if over.None? then None
    else
      match Seqs.FindIndex(tasks, TaskId, activeId)
      case None => None
      case Some(a) =>
        match TargetStatus(tasks, over.value)
        case None => None
        case Some(s) =>
          assert forall i: nat :: Seqs.IsFirst(tasks, TaskId, activeId, i) ==> i == a;
          if tasks[a].status != s then Some(Move(tasks[a].id, s)) else None
  }

  /** Board tasks after the drop rule's write, if it makes one. */
  function ApplyDrop(tasks: seq<Task>, activeId: string, over: Option<string>): (r: seq<Task>)
    ensures |r| == |tasks|
    ensures DropMove(tasks, activeId, over).None? ==> r == tasks
    ensures DropMove(tasks, activeId, over).Some? ==> exists i: nat ::
      Seqs.IsFirst(tasks, TaskId, activeId, i) &&
      r == tasks[i := tasks[i].(status := DropMove(tasks, activeId, over).value.status)]
  {
    match DropMove(tasks, activeId, over)
    case None => tasks
    case Some(m) =>
      var i: nat :| Seqs.IsFirst(tasks, TaskId, activeId, i);
      Storage.PatchTaskStatus(tasks[i], m.status);
      assert Storage.UpdatedTasks(tasks, m.taskId, Storage.StatusPatch(m.status))
        == tasks[i := tasks[i].(status := m.status)];
      Storage.UpdatedTasks(tasks, m.taskId, Storage.StatusPatch(m.status))
  }

  /** A drop only ever rewrites the status of the dragged task; every other field and task stays. */
  lemma DropChangesOnlyStatus(tasks: seq<Task>, activeId: string, over: Option<string>)
    ensures forall i :: 0 <= i < |tasks| ==>
      ApplyDrop(tasks, activeId, over)[i] == tasks[i].(status := ApplyDrop(tasks, activeId, over)[i].status)
    ensures forall i :: 0 <= i < |tasks| && tasks[i].id != activeId ==> ApplyDrop(tasks, activeId, over)[i] == tasks[i]
  {
    var m := DropMove(tasks, activeId, over);
    if m.Some? {
      var i: nat :| Seqs.IsFirst(tasks, TaskId, activeId, i);
      Storage.PatchTaskStatus(tasks[i], m.value.status);
    }
  }

  /** Dropping a card on itself (an id that is not a column) changes nothing. */
  lemma DropOntoItself(tasks: seq<Task>, activeId: string)
    requires ColumnFor(activeId).None?
    ensures DropMove(tasks, activeId, Some(activeId)).None?
  {
  }

  /**
   * Once the drop rule has written its move, the same event finds nothing
   * left to do: `handleDragEnd` after `handleDragOver` writes at most once.
   */
  lemma {:induction false} DropIsIdempotent(tasks: seq<Task>, activeId: string, over: Option<string>)
    ensures DropMove(ApplyDrop(tasks, activeId, over), activeId, over).None?
  {
    var m := DropMove(tasks, activeId, over);
    if m.Some? {
      var s := m.value.status;
      var r := ApplyDrop(tasks, activeId, over);
      var a: nat :| Seqs.IsFirst(tasks, TaskId, activeId, a);
      Storage.PatchTaskStatus(tasks[a], s);
      assert r == tasks[a := tasks[a].(status := s)];
      Seqs.FindIndexAfterUpdate(tasks, a, r[a], TaskId, activeId);
      Seqs.FindIndexAfterUpdate(tasks, a, r[a], TaskId, over.value);
      assert Seqs.IsFirst(r, TaskId, activeId, a);
      if ColumnFor(over.value).None? {
        var o: nat :| Seqs.IsFirst(tasks, TaskId, over.value, o) && tasks[o].status == s;
        assert o != a;
        assert Seqs.IsFirst(r, TaskId, over.value, o);
        assert TargetStatus(r, over.value) == Some(s);
      }
    }
  }

  /** `getTasksByStatus(status)`: one column's tasks, in board order. */
  function TasksByStatus(tasks: seq<Task>, s: TaskStatus): (r: seq<Task>)
    ensures forall t :: t in r <==> t in tasks && t.status == s
  {
    Seqs.Only(tasks, TaskStatusOf, s)
  }

  /** The three columns together show every task of the board exactly once. */
  lemma {:induction false} ColumnsPartition(tasks: seq<Task>)
    ensures multiset(TasksByStatus(tasks, Todo)) + multiset(TasksByStatus(tasks, InProgress))
      + multiset(TasksByStatus(tasks, Done)) == multiset(tasks)
    ensures forall t, s :: t in tasks ==> (t in TasksByStatus(tasks, s) <==> s == t.status)
  {
    if |tasks| > 0 {
      ColumnsPartition(tasks[1..]);
      assert tasks == [tasks[0]] + tasks[1..];
    }
  }

  /** The board renders one column per entry of `COLUMNS`; every task lands in the column of its status. */
  lemma RenderedColumns(tasks: seq<Task>)
    ensures |Columns| == 3 && forall t :: t in tasks ==> t.status in Columns
    ensures multiset(TasksByStatus(tasks, Columns[0])) + multiset(TasksByStatus(tasks, Columns[1]))
      + multiset(TasksByStatus(tasks, Columns[2])) == multiset(tasks)
  {
    ColumnsPartition(tasks);
  }

  /** The data `handleSaveTask` passes to `updateTask`: exactly the form's four keys. */
  function EditPatch(data: TaskForm.TaskData): (p: TaskPatch)
    ensures p.projectId.Keep? && p.checklist.Keep? && p.startedAt.Keep? && p.completedAt.Keep?
  {
    TaskPatch(Keep, Put(data.title), Put(data.description), Put(data.status), Put(data.priority), Keep, Keep, Keep)
  }

  /** `{ ...data, projectId }`: the draft `handleSaveTask` passes to `saveTask`. */
  function NewTaskDraft(data: TaskForm.TaskData, projectId: string): (d: TaskDraft)
    ensures d.projectId == projectId && d.checklist.None? && d.startedAt.None? && d.completedAt.None?
  {
    TaskDraft(projectId, data.title, data.description, data.status, data.priority, None, None, None)
  }

  /**
   * Editing a task writes the form's four fields (an empty description
   * clears the stored one) and keeps its id, project, checklist, timestamps
   * and creation time.
   */
  lemma EditWritesFormFields(t: Task, data: TaskForm.TaskData)
    ensures TaskForm.DataOf(Storage.PatchTask(t, EditPatch(data))) == data
    ensures Storage.PatchTask(t, EditPatch(data)) ==
      t.(title := data.title, description := data.description, status := data.status, priority := data.priority)
  {
  }

  /** A task created from the form carries the form's data and the board's project. */
  lemma CreatedTaskCarriesForm(data: TaskForm.TaskData, projectId: string, id: string, createdAt: string)
    ensures TaskForm.DataOf(Storage.NewTask(NewTaskDraft(data, projectId), id, createdAt)) == data
    ensures Storage.NewTask(NewTaskDraft(data, projectId), id, createdAt).projectId == projectId
  {
  }

  /**
   * With unique task ids, writing a status into the whole store and then
   * taking one project's tasks gives the same list as taking the project's
   * tasks first and writing the status there.
   */
  lemma {:induction false} OnlyAfterStatusWrite(all: seq<Task>, projectId: string, id: string, s: TaskStatus)
    requires Seqs.DistinctKeys(all, TaskId)
    ensures Seqs.Only(Storage.UpdatedTasks(all, id, Storage.StatusPatch(s)), TaskProject, projectId) ==
      Storage.UpdatedTasks(Seqs.Only(all, TaskProject, projectId), id, Storage.StatusPatch(s))
  {
    if |all| > 0 {
      var p := Storage.StatusPatch(s);
      var head, rest := all[0], all[1..];
      assert all == [head] + rest;
      Storage.UpdatedTasksCons(all, id, p);
      Seqs.SelectCons(head, rest, TaskProject, projectId, true);
      if head.id == id {
        StatusWriteOnHead(head, rest, projectId, s);
      } else {
        OnlyAfterStatusWrite(rest, projectId, id, s);
        Seqs.SelectCons(head, Storage.UpdatedTasks(rest, id, p), TaskProject, projectId, true);
        if head.projectId == projectId {
          Storage.UpdatedTasksCons(Seqs.Only(all, TaskProject, projectId), id, p);
        }
      }
    }
  }

  /** The case of `OnlyAfterStatusWrite` where the first task is the one written. */
  lemma StatusWriteOnHead(head: Task, rest: seq<Task>, projectId: string, s: TaskStatus)
    requires forall u :: u in rest ==> u.id != head.id
    ensures Seqs.Only([Storage.PatchTask(head, Storage.StatusPatch(s))] + rest, TaskProject, projectId) ==
      Storage.UpdatedTasks(Seqs.Only([head] + rest, TaskProject, projectId), head.id, Storage.StatusPatch(s))
  {
    var p := Storage.StatusPatch(s);
    var board := Seqs.Only([head] + rest, TaskProject, projectId);
    Storage.PatchTaskStatus(head, s);
    Seqs.SelectCons(head, rest, TaskProject, projectId, true);
    Seqs.SelectCons(Storage.PatchTask(head, p), rest, TaskProject, projectId, true);
    if head.projectId == projectId {
      Storage.UpdatedTasksCons(board, head.id, p);
    } else {
      assert forall u :: u in board ==> u.id != head.id;
    }
  }

  /** The board's state: its copy of the tasks and the form it shows. */
  class Board {
    const projectId: string
    const repo: Storage.Repository
    var tasks: seq<Task>
    var showForm: bool
    var editing: Option<Task>
    var defaultStatus: TaskStatus

    /** The board's copy is what `getTasks(projectId)` returns now. */
    ghost predicate Synced()
      reads this, repo
    {
      tasks == repo.GetTasks(Some(projectId))
    }

    /** A board as it mounts: its project's tasks, no form open, new tasks go to "todo". */
    constructor (projectId: string, repo: Storage.Repository)
      ensures this.projectId == projectId && this.repo == repo
      ensures Synced() && !showForm && editing.None? && defaultStatus == Todo
      ensures forall t :: t in tasks ==> projectId == "" || t.projectId == projectId
    {
      this.projectId := projectId;
      this.repo := repo;
      tasks := repo.GetTasks(Some(projectId));
      showForm := false;
      editing := None;
      defaultStatus := Todo;
    }

    /** `refreshTasks`: reloads the board's copy; it then shows only its project's tasks. */
    method Refresh()
      modifies this`tasks
      ensures Synced()
      ensures forall t :: t in tasks ==> projectId == "" || t.projectId == projectId
    {
      tasks := repo.GetTasks(Some(projectId));
    }

    /** `handleAddTask(status)`: opens an empty form preset to the column's status. */
    method HandleAddTask(status: TaskStatus)
      modifies this`showForm, this`editing, this`defaultStatus
      ensures showForm && editing.None? && defaultStatus == status
    {
      defaultStatus := status;
      editing := None;
      showForm := true;
    }

    /** `handleEditTask(task)`: opens the form on an existing task. */
    method HandleEditTask(task: Task)
      modifies this`showForm, this`editing, this`defaultStatus
      ensures showForm && editing == Some(task) && defaultStatus == task.status
    {
      editing := Some(task);
      defaultStatus := task.status;
      showForm := true;
    }

    /** The form's close button. */
    method CloseForm()
      modifies this`showForm, this`editing
      ensures !showForm && editing.None?
    {
      showForm := false;
      editing := None;
    }

    /** `handleDeleteTask(taskId)`: deletes that task from the store and reloads. */
    method HandleDeleteTask(taskId: string)
      modifies this`tasks, repo
      ensures repo.tasks == Seqs.Without(old(repo.tasks), TaskId, taskId) && repo.projects == old(repo.projects)
      ensures Synced() && forall t :: t in tasks ==> t.id != taskId
      ensures old(repo.UniqueIds()) ==> repo.UniqueIds()
    {
      repo.DeleteTask(taskId);
      Refresh();
    }

    /**
     * `handleSaveTask(data)`: updates whichever task is being edited with the form's
     * data, or creates a task of this project; then reloads and closes the
     * form. `freshId` and `now` are the id and time a new task receives.
     */
    method HandleSaveTask(data: TaskForm.TaskData, freshId: string, now: string)
      requires editing.None? ==> forall u :: u in repo.tasks ==> u.id != freshId
      modifies this`tasks, this`showForm, this`editing, repo
      ensures repo.projects == old(repo.projects)
      ensures old(editing).Some? ==>
        repo.tasks == Storage.UpdatedTasks(old(repo.tasks), old(editing).value.id, EditPatch(data))
      ensures old(editing).None? ==>
        repo.tasks == old(repo.tasks) + [Storage.NewTask(NewTaskDraft(data, projectId), freshId, now)]
      ensures old(editing).None? ==>
        repo.GetTask(freshId) == Some(Storage.NewTask(NewTaskDraft(data, projectId), freshId, now))
        && Storage.NewTask(NewTaskDraft(data, projectId), freshId, now) in tasks
      ensures Synced() && !showForm && editing.None?
    {
      if editing.Some? {
        var _ := repo.UpdateTask(editing.value.id, EditPatch(data));
      } else {
        ghost var before := repo.tasks;
        var t := repo.SaveTask(NewTaskDraft(data, projectId), freshId, now);
        Storage.SavedTaskIsFound(before, NewTaskDraft(data, projectId), freshId, now);
      }
      Refresh();
      showForm := false;
      editing := None;
    }

    /**
     * `handleDragOver` and `handleDragEnd`, which share one body: applies
     * the drop rule to the board's copy, writes the move to the store and
     * reloads. When the board was in step with a store of unique ids, the
     * write is exactly the drop rule applied to the board, and the same
     * event handled again finds nothing to do.
     */
    method HandleDrag(activeId: string, over: Option<string>)
      modifies this`tasks, repo
      ensures repo.projects == old(repo.projects)
      ensures DropMove(old(tasks), activeId, over).None? ==> tasks == old(tasks) && repo.tasks == old(repo.tasks)
      ensures DropMove(old(tasks), activeId, over).Some? ==>
        && Synced()
        && repo.tasks == Storage.UpdatedTasks(old(repo.tasks), activeId,
                                              Storage.StatusPatch(DropMove(old(tasks), activeId, over).value.status))
      ensures old(Synced() && repo.UniqueIds()) ==>
        tasks == ApplyDrop(old(tasks), activeId, over) && DropMove(tasks, activeId, over).None?
      ensures old(repo.UniqueIds()) ==> repo.UniqueIds()
    {
      var move := DropMove(tasks, activeId, over);
      if move.None? {
        return;
      }
      ghost var board, all := tasks, repo.tasks;
      var _ := repo.UpdateTask(move.value.taskId, Storage.StatusPatch(move.value.status));
      Refresh();
      if old(Synced() && repo.UniqueIds()) {
        if projectId != "" {
          OnlyAfterStatusWrite(all, projectId, activeId, move.value.status);
        }
        assert tasks == ApplyDrop(board, activeId, over);
        DropIsIdempotent(board, activeId, over);
      }
    }
  }
}
