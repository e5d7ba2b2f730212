/**
 * The entity repository: two stored collections, projects and tasks, with
 * list, get-by-id, create, update (shallow merge) and delete (with the
 * project-to-task cascade), and the demo-data loader.
 *
 * The collections the store holds under its two keys are the fields of
 * `Repository`; reading and writing the store is reading and writing them.
 * The id generator and the clock are parameters of the creating methods.
 */
module Storage {
  import opened Options
  import opened Types
  import Seqs

  /** One key of `{ ...record, ...data }`: a key present in `data` wins. */
  function Overlay<T>(v: T, f: Patch<T>): (r: T)
    ensures f.Keep? ==> r == v
    ensures f.Put? ==> r == f.value
  {
    if f.Put? then f.value else v
  }

  /** `{ ...project, id, createdAt }` as built by `saveProject`. */
  function NewProject(d: ProjectDraft, id: string, createdAt: string): (p: Project)
    ensures ProjectDraftOf(p) == d && p.id == id && p.createdAt == createdAt
  {
    Project(id, d.name, d.description, d.url, d.githubUrl, d.status, d.color, d.groupId, createdAt)
  }

  /** The fields of a project other than `id` and `createdAt`. */
  function ProjectDraftOf(p: Project): ProjectDraft
  {
    ProjectDraft(p.name, p.description, p.url, p.githubUrl, p.status, p.color, p.groupId)
  }

  /** `{ ...task, id, createdAt }` as built by `saveTask`. */
  function NewTask(d: TaskDraft, id: string, createdAt: string): (t: Task)
    ensures TaskDraftOf(t) == d && t.id == id && t.createdAt == createdAt
  {
    Task(id, d.projectId, d.title, d.description, d.status, d.priority, d.checklist,
         d.startedAt, d.completedAt, createdAt)
  }

  /** The fields of a task other than `id` and `createdAt`. */
  function TaskDraftOf(t: Task): TaskDraft
  {
    TaskDraft(t.projectId, t.title, t.description, t.status, t.priority, t.checklist,
              t.startedAt, t.completedAt)
  }

  /** `{ ...project, ...data }`: the patch cannot reach `id` or `createdAt`. */
  function PatchProject(p: Project, data: ProjectPatch): (r: Project)
    ensures r.id == p.id && r.createdAt == p.createdAt
  {
    Project(p.id, Overlay(p.name, data.name), Overlay(p.description, data.description),
            Overlay(p.url, data.url), Overlay(p.githubUrl, data.githubUrl),
            Overlay(p.status, data.status), Overlay(p.color, data.color),
            Overlay(p.groupId, data.groupId), p.createdAt)
  }

  /** `{ ...task, ...data }`: the patch cannot reach `id` or `createdAt`. */
  function PatchTask(t: Task, data: TaskPatch): (r: Task)
    ensures r.id == t.id && r.createdAt == t.createdAt
  {
    Task(t.id, Overlay(t.projectId, data.projectId), Overlay(t.title, data.title),
         Overlay(t.description, data.description), Overlay(t.status, data.status),
         Overlay(t.priority, data.priority), Overlay(t.checklist, data.checklist),
         Overlay(t.startedAt, data.startedAt), Overlay(t.completedAt, data.completedAt),
         t.createdAt)
  }

  /** A draft passed whole as `data`: every key is present, optional ones possibly as `undefined`. */
  function FullProjectPatch(d: ProjectDraft): ProjectPatch
  {
    ProjectPatch(Put(d.name), Put(d.description), Put(d.url), Put(d.githubUrl),
                 Put(d.status), Put(d.color), Put(d.groupId))
  }

  /** `{}` */
  const EmptyProjectPatch := ProjectPatch(Keep, Keep, Keep, Keep, Keep, Keep, Keep)
  const EmptyTaskPatch := TaskPatch(Keep, Keep, Keep, Keep, Keep, Keep, Keep, Keep)

  /** `{ status }`, the only field the board's drop handlers write. */
  function StatusPatch(s: TaskStatus): (d: TaskPatch)
    ensures d == EmptyTaskPatch.(status := Put(s))
  {
    TaskPatch(Keep, Keep, Keep, Put(s), Keep, Keep, Keep, Keep)
  }

  /** An empty patch leaves a project as it is. */
  lemma PatchProjectEmpty(p: Project)
    ensures PatchProject(p, EmptyProjectPatch) == p
  {
  }

  /** Applying the same patch a second time changes nothing more. */
  lemma PatchProjectTwice(p: Project, data: ProjectPatch)
    ensures PatchProject(PatchProject(p, data), data) == PatchProject(p, data)
  {
  }

  /**
   * Updating with a whole draft makes the stored fields exactly the draft's,
   * including clearing the optional fields the draft leaves `undefined`.
   */
  lemma PatchProjectFull(p: Project, d: ProjectDraft)
    ensures PatchProject(p, FullProjectPatch(d)) == NewProject(d, p.id, p.createdAt)
  {
  }

  /** Writing only `status` changes only the status. */
  lemma PatchTaskStatus(t: Task, s: TaskStatus)
    ensures PatchTask(t, StatusPatch(s)) == t.(status := s)
  {
  }

  /** A key holding an explicit `undefined` clears that field and changes nothing else. */
  lemma PatchClearsGroup(p: Project)
    ensures PatchProject(p, EmptyProjectPatch.(groupId := Put(None))) == p.(groupId := None)
  {
  }

  /**
   * The collection after `updateProject(id, data)`: the first project with
   * that id is merged with `data`; every other entry, and the length, stay.
   */
  function UpdatedProjects(ps: seq<Project>, id: string, data: ProjectPatch): (r: seq<Project>)
    ensures |r| == |ps|
    ensures Seqs.FindIndex(ps, ProjectId, id).None? ==> r == ps
    ensures forall i: nat :: Seqs.IsFirst(ps, ProjectId, id, i) ==>
      r[i] == PatchProject(ps[i], data) && forall j :: 0 <= j < |ps| && j != i ==> r[j] == ps[j]
  {
    match Seqs.FindIndex(ps, ProjectId, id)
    case None => ps
    case Some(i) => ps[i := PatchProject(ps[i], data)]
  }

  /**
   * The collection after `updateTask(id, data)`: the first task with that
   * id is merged with `data`; every other entry, and the length, stay.
   */
  function UpdatedTasks(ts: seq<Task>, id: string, data: TaskPatch): (r: seq<Task>)
    ensures |r| == |ts|
    ensures Seqs.FindIndex(ts, TaskId, id).None? ==> r == ts
    ensures forall i: nat :: Seqs.IsFirst(ts, TaskId, id, i) ==>
      r[i] == PatchTask(ts[i], data) && forall j :: 0 <= j < |ts| && j != i ==> r[j] == ts[j]
  {
    match Seqs.FindIndex(ts, TaskId, id)
    case None => ts
    case Some(i) => ts[i := PatchTask(ts[i], data)]
  }

  /** A project saved under a fresh id is what `getProject` then returns for that id. */
  lemma SavedProjectIsFound(ps: seq<Project>, d: ProjectDraft, id: string, createdAt: string)
    requires forall q :: q in ps ==> q.id != id
    ensures Seqs.Find(ps + [NewProject(d, id, createdAt)], ProjectId, id) == Some(NewProject(d, id, createdAt))
  {
    Seqs.FindAppend(ps, NewProject(d, id, createdAt), ProjectId, id);
  }

  /** A task saved under a fresh id is what `getTask` then returns for that id. */
  lemma SavedTaskIsFound(ts: seq<Task>, d: TaskDraft, id: string, createdAt: string)
    requires forall u :: u in ts ==> u.id != id
    ensures Seqs.Find(ts + [NewTask(d, id, createdAt)], TaskId, id) == Some(NewTask(d, id, createdAt))
  {
    Seqs.FindAppend(ts, NewTask(d, id, createdAt), TaskId, id);
  }

  /** `updateTask` as a step over the head of the list: the head is patched or the search goes on. */
  lemma UpdatedTasksCons(ts: seq<Task>, id: string, data: TaskPatch)
    requires |ts| > 0
    ensures UpdatedTasks(ts, id, data) ==
      if ts[0].id == id then [PatchTask(ts[0], data)] + ts[1..]
      else [ts[0]] + UpdatedTasks(ts[1..], id, data)
  {
    if ts[0].id != id {
      var rest := Seqs.FindIndex(ts[1..], TaskId, id);
      if rest.Some? {
        assert ts[rest.value + 1 := PatchTask(ts[rest.value + 1], data)] ==
          [ts[0]] + ts[1..][rest.value := PatchTask(ts[1..][rest.value], data)];
      }
    }
  }

  // ============ seed data ============

  const SeedProject1 := ProjectDraft(
    "Inner Game Landing",
    "Landing page dla Inner Game — coaching i rozwój osobisty",
    Some("https://inner-game-landing.vercel.app"),
    Some("https://github.com/arkusautomation-droid/inner-game-landing"),
    Active, "#6366f1", None)

  const SeedProject2 := ProjectDraft(
    "SEO Agencja Medialna",
    "Landing page dla agencji SEO — usługi marketingowe",
    Some("https://seo-agencja-landing.vercel.app"),
    Some("https://github.com/arkusautomation-droid/seo-agencja-landing"),
    Active, "#8b5cf6", None)

  /** A demo task: only project, title, status and priority are given. */
  function SeedTask(projectId: string, title: string, status: TaskStatus, priority: TaskPriority): TaskDraft
  {
    TaskDraft(projectId, title, None, status, priority, None, None, None)
  }

  /** The six demo tasks, three for each demo project, in the order they are saved. */
  function SeedTaskDrafts(p1: string, p2: string): (r: seq<TaskDraft>)
    ensures |r| == 6
    ensures forall i :: 0 <= i < 3 ==> r[i].projectId == p1
    ensures forall i :: 3 <= i < 6 ==> r[i].projectId == p2
    ensures forall i :: 0 <= i < 6 ==>
      r[i].description.None? && r[i].checklist.None? && r[i].startedAt.None? && r[i].completedAt.None?
  {
    [ SeedTask(p1, "Dodać sekcję testimoniali", Todo, Medium),
      SeedTask(p1, "Poprawić responsywność mobile", InProgress, High),
      SeedTask(p1, "Skonfigurować domenę", Done, High),
      SeedTask(p2, "Dodać formularz kontaktowy", Todo, High),
      SeedTask(p2, "Zoptymalizować SEO meta tagi", InProgress, Medium),
      SeedTask(p2, "Deploy na Vercel", Done, High) ]
  }

  /** The demo projects as stored, with the ids and times handed out for them. */
  function SeedProjects(ids: seq<string>, times: seq<string>): (r: seq<Project>)
    requires |ids| == 8 && |times| == 8
    ensures |r| == 2 && r[0].id == ids[0] && r[1].id == ids[1]
    ensures r[0].createdAt == times[0] && r[1].createdAt == times[1]
    ensures forall p :: p in r ==> p.status == Active && p.groupId.None? && p.url.Some? && p.githubUrl.Some?
  {
    [NewProject(SeedProject1, ids[0], times[0]), NewProject(SeedProject2, ids[1], times[1])]
  }

  /** The demo tasks as stored: ids and times 2..7 go to the six tasks in order. */
  function SeedTasks(ids: seq<string>, times: seq<string>): seq<Task>
    requires |ids| == 8 && |times| == 8
  {
    SavedInOrder(SeedTaskDrafts(ids[0], ids[1]), ids, times)
  }

  /** Six drafts saved one after the other, receiving `ids[2..]` and `times[2..]`. */
  function SavedInOrder(d: seq<TaskDraft>, ids: seq<string>, times: seq<string>): seq<Task>
    requires |d| == 6 && |ids| == 8 && |times| == 8
  {
    SeedTriple(d[..3], ids[2..5], times[2..5]) + SeedTriple(d[3..], ids[5..], times[5..])
  }

  /** Three tasks saved one after the other, stamped with consecutive ids and times. */
  function SeedTriple(d: seq<TaskDraft>, ids: seq<string>, times: seq<string>): seq<Task>
    requires |d| == 3 && |ids| == 3 && |times| == 3
  {
    [NewTask(d[0], ids[0], times[0]), NewTask(d[1], ids[1], times[1]), NewTask(d[2], ids[2], times[2])]
  }

  /** No two entries of `ids` are equal. */
  predicate Distinct(ids: seq<string>)
  {
    forall i, j :: 0 <= i < j < |ids| ==> ids[i] != ids[j]
  }

  /** The loader adds three tasks for each of its two projects and no other task. */
  lemma SeedShape(ids: seq<string>, times: seq<string>)
    requires |ids| == 8 && |times| == 8 && ids[0] != ids[1]
    ensures |SeedProjects(ids, times)| == 2 && |SeedTasks(ids, times)| == 6
    ensures |Seqs.Only(SeedTasks(ids, times), TaskProject, ids[0])| == 3
    ensures |Seqs.Only(SeedTasks(ids, times), TaskProject, ids[1])| == 3
    ensures forall t :: t in SeedTasks(ids, times) ==> t.projectId == ids[0] || t.projectId == ids[1]
  {
    var d := SeedTaskDrafts(ids[0], ids[1]);
    assert forall i :: 0 <= i < 3 ==> d[i].projectId == ids[0];
    assert forall i :: 3 <= i < 6 ==> d[i].projectId == ids[1];
    SavedInOrderShape(d, ids, times, ids[0], ids[1]);
  }

  /** Three drafts of one project followed by three of another give three tasks to each. */
  lemma SavedInOrderShape(d: seq<TaskDraft>, ids: seq<string>, times: seq<string>, p1: string, p2: string)
    requires |d| == 6 && |ids| == 8 && |times| == 8 && p1 != p2
    requires forall i :: 0 <= i < 3 ==> d[i].projectId == p1
    requires forall i :: 3 <= i < 6 ==> d[i].projectId == p2
    ensures |SavedInOrder(d, ids, times)| == 6
    ensures |Seqs.Only(SavedInOrder(d, ids, times), TaskProject, p1)| == 3
    ensures |Seqs.Only(SavedInOrder(d, ids, times), TaskProject, p2)| == 3
    ensures forall t :: t in SavedInOrder(d, ids, times) ==> t.projectId == p1 || t.projectId == p2
  {
    var first := SeedTriple(d[..3], ids[2..5], times[2..5]);
    var second := SeedTriple(d[3..], ids[5..], times[5..]);
    assert forall t :: t in first ==> t.projectId == p1;
    assert forall t :: t in second ==> t.projectId == p2;
    Seqs.SelectAppend(first, second, TaskProject, p1, true);
    Seqs.SelectAppend(first, second, TaskProject, p2, true);
    Seqs.SelectAll(first, TaskProject, p1, true);
    Seqs.SelectAll(second, TaskProject, p2, true);
    Seqs.SelectNone(second, TaskProject, p1, true);
    Seqs.SelectNone(first, TaskProject, p2, true);
  }

  /** Demo records stamped with distinct unused ids keep the ids of each collection unique. */
  lemma SeedKeepsDistinct(before: seq<Task>, ids: seq<string>, times: seq<string>)
    requires |ids| == 8 && |times| == 8 && Distinct(ids)
    requires Seqs.DistinctKeys(before, TaskId) && forall u :: u in before ==> u.id !in ids
    ensures Seqs.DistinctKeys(SeedProjects(ids, times), ProjectId)
    ensures Seqs.DistinctKeys(before + SeedTasks(ids, times), TaskId)
  {
    var all := before + SeedTasks(ids, times);
    forall i, j | 0 <= i < j < |all| ensures all[i].id != all[j].id {
      if j >= |before| {
        assert all[j].id == ids[j - |before| + 2];
        if i >= |before| {
          assert all[i].id == ids[i - |before| + 2];
        } else {
          assert all[i] in before;
        }
      }
    }
  }

  /**
   * The browser store as the repository sees it. Every method reads the
   * whole collection, changes it, and writes it back before returning.
   */
  class Repository {
    var projects: seq<Project>
    var tasks: seq<Task>

    /** Ids are unique within each collection. */
    ghost predicate UniqueIds()
      reads this
    {
      Seqs.DistinctKeys(projects, ProjectId) && Seqs.DistinctKeys(tasks, TaskId)
    }

    /** A store in which neither key has been written: both collections read as empty. */
    constructor ()
      ensures projects == [] && tasks == []
      ensures GetTasks(None) == [] && UniqueIds()
    {
      projects := [];
      tasks := [];
    }

    // ============ projects ============

    /** `getProject(id)`: the first project with that id, if any. */
    function GetProject(id: string): (r: Option<Project>)
      reads this
      ensures r.None? <==> forall p :: p in projects ==> p.id != id
      ensures r.Some? ==> exists i: nat :: Seqs.IsFirst(projects, ProjectId, id, i) && projects[i] == r.value
    {
      Seqs.Find(projects, ProjectId, id)
    }

    /** `saveProject(project)`: appends the draft stamped with a fresh id and time. */
    method SaveProject(d: ProjectDraft, id: string, createdAt: string) returns (p: Project)
      requires forall q :: q in projects ==> q.id != id
      modifies this
      ensures p == NewProject(d, id, createdAt)
      ensures projects == old(projects) + [p] && tasks == old(tasks)
    {
      p := NewProject(d, id, createdAt);
      projects := projects + [p];
    }

    /** `updateProject(id, data)`: merges `data` into the first project with that id. */
    method UpdateProject(id: string, data: ProjectPatch) returns (r: Option<Project>)
      modifies this
      ensures projects == UpdatedProjects(old(projects), id, data) && tasks == old(tasks)
      ensures r.None? <==> forall p :: p in old(projects) ==> p.id != id
      ensures r.Some? ==> r == GetProject(id) && r.value == PatchProject(old(GetProject(id)).value, data)
      ensures old(UniqueIds()) ==> UniqueIds()
    {
      var index := Seqs.FindIndex(projects, ProjectId, id);
      if index.None? {
        return None;
      }
      var i := index.value;
      Seqs.FindIndexAfterUpdate(projects, i, PatchProject(projects[i], data), ProjectId, id);
      if UniqueIds() {
        Seqs.UpdateDistinct(projects, i, PatchProject(projects[i], data), ProjectId);
      }
      projects := projects[i := PatchProject(projects[i], data)];
      r := Some(projects[i]);
    }

    /** `deleteProject(id)`: removes the projects with that id and every task of theirs. */
    method DeleteProject(id: string)
      modifies this
      ensures projects == Seqs.Without(old(projects), ProjectId, id)
      ensures tasks == Seqs.Without(old(tasks), TaskProject, id)
      ensures GetProject(id).None?
      ensures forall t :: t in tasks ==> t.projectId != id
      ensures id != "" ==> GetTasks(Some(id)) == []
      ensures old(UniqueIds()) ==> UniqueIds()
    {
      if UniqueIds() {
        Seqs.SelectDistinct(projects, ProjectId, ProjectId, id, false);
        Seqs.SelectDistinct(tasks, TaskId, TaskProject, id, false);
      }
      projects := Seqs.Without(projects, ProjectId, id);
      tasks := Seqs.Without(tasks, TaskProject, id);
      Seqs.SelectNone(tasks, TaskProject, id, true);
    }

    // ============ tasks ============

    /**
     * `getTasks(projectId)`: a non-empty `projectId` selects that project's
     * tasks in stored order; an absent or empty one selects all tasks.
     */
    function GetTasks(projectId: Option<string>): (r: seq<Task>)
      reads this
      ensures projectId.None? || projectId.value == "" ==> r == tasks
      ensures projectId.Some? && projectId.value != "" ==>
        forall t :: t in r <==> t in tasks && t.projectId == projectId.value
      ensures projectId.Some? && projectId.value != "" ==> r == Seqs.Only(tasks, TaskProject, projectId.value)
    {
      if projectId.Some? && projectId.value != "" then Seqs.Only(tasks, TaskProject, projectId.value)
      else tasks
    }

    /** `getTask(id)`: the first task with that id, if any. */
    function GetTask(id: string): (r: Option<Task>)
      reads this
      ensures r.None? <==> forall t :: t in tasks ==> t.id != id
      ensures r.Some? ==> exists i: nat :: Seqs.IsFirst(tasks, TaskId, id, i) && tasks[i] == r.value
    {
      Seqs.Find(tasks, TaskId, id)
    }

    /** `saveTask(task)`: appends the draft stamped with a fresh id and time. */
    method SaveTask(d: TaskDraft, id: string, createdAt: string) returns (t: Task)
      requires forall u :: u in tasks ==> u.id != id
      modifies this
      ensures t == NewTask(d, id, createdAt)
      ensures tasks == old(tasks) + [t] && projects == old(projects)
    {
      t := NewTask(d, id, createdAt);
      tasks := tasks + [t];
    }

    /** `updateTask(id, data)`: merges `data` into the first task with that id. */
    method UpdateTask(id: string, data: TaskPatch) returns (r: Option<Task>)
      modifies this
      ensures tasks == UpdatedTasks(old(tasks), id, data) && projects == old(projects)
      ensures r.None? <==> forall t :: t in old(tasks) ==> t.id != id
      ensures r.Some? ==> r == GetTask(id) && r.value == PatchTask(old(GetTask(id)).value, data)
      ensures old(UniqueIds()) ==> UniqueIds()
    {
      var index := Seqs.FindIndex(tasks, TaskId, id);
      if index.None? {
        return None;
      }
      var i := index.value;
      Seqs.FindIndexAfterUpdate(tasks, i, PatchTask(tasks[i], data), TaskId, id);
      if UniqueIds() {
        Seqs.UpdateDistinct(tasks, i, PatchTask(tasks[i], data), TaskId);
      }
      tasks := tasks[i := PatchTask(tasks[i], data)];
      r := Some(tasks[i]);
    }

    /** `deleteTask(id)`: removes every task with that id; projects are untouched. */
    method DeleteTask(id: string)
      modifies this
      ensures tasks == Seqs.Without(old(tasks), TaskId, id) && projects == old(projects)
      ensures GetTask(id).None?
      ensures old(UniqueIds()) ==> UniqueIds()
    {
      if UniqueIds() {
        Seqs.SelectDistinct(tasks, TaskId, TaskId, id, false);
      }
      tasks := Seqs.Without(tasks, TaskId, id);
    }

    // ============ seed data ============

    /**
     * Three consecutive `saveTask` calls of the demo loader. No stored id
     * is in `later` before or after, when none of the three new ids is.
     */
    method SaveDemoTasks(d: seq<TaskDraft>, ids: seq<string>, times: seq<string>, ghost later: seq<string>)
      requires |d| == 3 && |ids| == 3 && |times| == 3 && Distinct(ids)
      requires forall u :: u in tasks ==> u.id !in ids && u.id !in later
      requires forall i :: 0 <= i < 3 ==> ids[i] !in later
      modifies this
      ensures projects == old(projects)
      ensures tasks == old(tasks) + SeedTriple(d, ids, times)
      ensures forall u :: u in tasks ==> u.id !in later
    {
      var t0 := SaveTask(d[0], ids[0], times[0]);
      var t1 := SaveTask(d[1], ids[1], times[1]);
      var t2 := SaveTask(d[2], ids[2], times[2]);
    }

    /** The two `saveProject` calls of the demo loader, on an empty project list. */
    method SaveSeedProjects(ids: seq<string>, times: seq<string>)
      requires |ids| == 8 && |times| == 8 && ids[0] != ids[1] && projects == []
      modifies this
      ensures projects == SeedProjects(ids, times) && tasks == old(tasks)
    {
      var p1 := SaveProject(SeedProject1, ids[0], times[0]);
      var p2 := SaveProject(SeedProject2, ids[1], times[1]);
      assert projects == [p1, p2];
    }

    /** The six `saveTask` calls of the demo loader: three tasks for each demo project. */
    method SaveSeedTasks(d: seq<TaskDraft>, ids: seq<string>, times: seq<string>)
      requires |d| == 6 && |ids| == 8 && |times| == 8 && Distinct(ids)
      requires forall u :: u in tasks ==> u.id !in ids
      modifies this
      ensures projects == old(projects) && tasks == old(tasks) + SavedInOrder(d, ids, times)
    {
      assert forall i :: 0 <= i < 3 ==> ids[2..5][i] == ids[i + 2] && ids[i + 2] !in ids[5..];
      SaveDemoTasks(d[..3], ids[2..5], times[2..5], ids[5..]);
      SaveDemoTasks(d[3..], ids[5..], times[5..], []);
    }

    /**
     * `seedDataIfEmpty()`: when no project is stored, saves the two demo
     * projects and then their six tasks; otherwise does nothing. `ids` and
     * `times` are what the id generator and the clock return, call by call.
     */
    method SeedDataIfEmpty(ids: seq<string>, times: seq<string>)
      requires |ids| == 8 && |times| == 8
      requires projects == [] ==> Distinct(ids) && forall t :: t in tasks ==> t.id !in ids
      modifies this
      ensures old(projects) != [] ==> projects == old(projects) && tasks == old(tasks)
      ensures old(projects) == [] ==>
        projects == SeedProjects(ids, times) && tasks == old(tasks) + SeedTasks(ids, times)
      ensures old(UniqueIds()) ==> UniqueIds()
    {
      if |projects| > 0 {
        return;
      }
      SaveSeedProjects(ids, times);
      SaveSeedTasks(SeedTaskDrafts(ids[0], ids[1]), ids, times);
      if old(UniqueIds()) {
        SeedKeepsDistinct(old(tasks), ids, times);
      }
    }
  }
}
