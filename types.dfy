/**
 * The records of the tracker: projects, groups, tasks and checklist items,
 * with the string unions as enumerations. An optional (`?:`) field is an
 * `Option`; `None` is a field that reads back as absent.
 */
module Types {
  import opened Options

  datatype ProjectStatus = Active | Planned | Paused

  datatype TaskStatus = Todo | InProgress | Done

  datatype TaskPriority = Low | Medium | High

  datatype Project = Project(
    id: string,
    name: string,
    description: string,
    url: Option<string>,
    githubUrl: Option<string>,
    status: ProjectStatus,
    color: string,
    groupId: Option<string>,
    createdAt: string)

  datatype Group = Group(id: string, name: string, color: string, createdAt: string)

  datatype ChecklistItem = ChecklistItem(id: string, text: string, done: bool)

  datatype Task = Task(
    id: string,
    projectId: string,
    title: string,
    description: Option<string>,
    status: TaskStatus,
    priority: TaskPriority,
    checklist: Option<seq<ChecklistItem>>,
    startedAt: Option<string>,
    completedAt: Option<string>,
    createdAt: string)

  /** `Omit<Project, "id" | "createdAt">`: what a caller hands to `saveProject`. */
  datatype ProjectDraft = ProjectDraft(
    name: string,
    description: string,
    url: Option<string>,
    githubUrl: Option<string>,
    status: ProjectStatus,
    color: string,
    groupId: Option<string>)

  /** `Omit<Task, "id" | "createdAt">`: what a caller hands to `saveTask`. */
  datatype TaskDraft = TaskDraft(
    projectId: string,
    title: string,
    description: Option<string>,
    status: TaskStatus,
    priority: TaskPriority,
    checklist: Option<seq<ChecklistItem>>,
    startedAt: Option<string>,
    completedAt: Option<string>)

  /** `Omit<Group, "id" | "createdAt">`: what the group form hands to its `onSave`. */
  datatype GroupDraft = GroupDraft(name: string, color: string)

  /**
   * One field of a `Partial<...>` argument: `Keep` is a key that is not in
   * the object, `Put(v)` a key that is. For an optional field, `Put(None)`
   * is a key holding an explicit `undefined`.
   */
  datatype Patch<T> = Keep | Put(value: T)

  /** `Partial<Omit<Project, "id" | "createdAt">>` */
  datatype ProjectPatch = ProjectPatch(
    name: Patch<string>,
    description: Patch<string>,
    url: Patch<Option<string>>,
    githubUrl: Patch<Option<string>>,
    status: Patch<ProjectStatus>,
    color: Patch<string>,
    groupId: Patch<Option<string>>)

  /** `Partial<Omit<Task, "id" | "createdAt">>` */
  datatype TaskPatch = TaskPatch(
    projectId: Patch<string>,
    title: Patch<string>,
    description: Patch<Option<string>>,
    status: Patch<TaskStatus>,
    priority: Patch<TaskPriority>,
    checklist: Patch<Option<seq<ChecklistItem>>>,
    startedAt: Patch<Option<string>>,
    completedAt: Patch<Option<string>>)

  // Key functions for the repository's lookups and filters.
  function ProjectId(p: Project): string { p.id }
  function TaskId(t: Task): string { t.id }
  function TaskProject(t: Task): string { t.projectId }
  function TaskStatusOf(t: Task): TaskStatus { t.status }
}
