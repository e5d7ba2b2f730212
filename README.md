# projekty-panel, modelled in Dafny

projekty-panel is a browser dashboard for tracking projects and their
tasks. This project models the logic behind it:

- the **repository** (`src/lib/storage.ts`). It keeps two ordered
  collections, projects and tasks, in the browser's local storage. It offers
  list, get-by-id, create, shallow-merge update and delete over them. Deleting
  a project also deletes its tasks. A demo loader runs whenever no project
  is stored: it saves two demo projects and appends six demo tasks to the
  tasks already stored.
- the **task board** (`src/components/TaskBoard.tsx`). It shows one
  project's tasks in three status columns. It turns a drag-and-drop event
  into at most one status change, and it creates or edits tasks through the
  task form.
- the **procedure editor** (`src/components/ProcedureModal.tsx`). It is an
  editable, never-empty list of step strings. Saving keeps the non-blank
  steps, trimmed.
- the **project, task and group forms** (`ProjectForm.tsx`, `TaskForm.tsx`,
  `GroupForm.tsx`). Each `handleSubmit` validates the form state and
  normalises it into the record handed to `onSave`.

Layout, one module per source file:

| file | module | models |
|---|---|---|
| `options.dfy` | `Options` | `Option`, standing for `undefined` |
| `types.dfy` | `Types` | the records of `src/types/index.ts` and the `Partial<...>` update arguments |
| `seqs.dfy` | `Seqs` | `find`, `findIndex` and `filter` on a key, with their lemmas |
| `text.dfy` | `Text` | `String.prototype.trim`, `s \|\| undefined` and `o \|\| ""` |
| `storage.dfy` | `Storage` | the repository: class `Repository` with `projects` and `tasks` fields |
| `task_board.dfy` | `TaskBoard` | the drop rule, the columns, and class `Board` |
| `procedure.dfy` | `Procedure` | the step list and class `StepEditor` |
| `project_form.dfy`, `task_form.dfy`, `group_form.dfy` | `ProjectForm`, `TaskForm`, `GroupForm` | the submit normalisers and the `Editor` classes holding form state |

Modelling choices:

- A stored array is a `seq` field of `Repository`. Reading the store and
  writing it back become plain field reads and assignments.
- An optional field is an `Option`. A `Partial<...>` argument is a record
  of `Patch` values. `Keep` is a key that is not in the object. `Put(v)` is
  a key that is, and `Put(None)` is a key holding an explicit `undefined`.
  The spread `{ ...old, ...data }` is `PatchProject`/`PatchTask`.
- `generateId()` and `new Date().toISOString()` become parameters (`id`,
  `createdAt`, `freshId`, `now`, and `ids`/`times` for the demo loader).
  A precondition asks that a new id is not already stored. The source does
  not guarantee this; it relies on the id being random.
- React state hooks are class fields. An effect or handler that sets them
  is a method with a `modifies` clause. `onSave`/`onSkip` calls become
  return values.
- A drop event is given by the dragged task's id and the `over` id that
  the drag-and-drop library resolved (`None` when there is no drop target).
  A column's droppable id is its status string.

## Model

| member | source | states |
|---|---|---|
| Seqs.FindIndex | src/lib/storage.ts:36 | `findIndex` on a key: `None` (for -1) exactly when no element has the key; otherwise the first index with that key |
| Seqs.Find | src/lib/storage.ts:19 | `find` on a key: `None` exactly when no element has the key; otherwise the element at the first index with that key |
| Seqs.Only | src/lib/storage.ts:57 | `filter(x => key(x) === k)`: keeps exactly the elements with that key and adds none |
| Seqs.Without | src/lib/storage.ts:44 | `filter(x => key(x) !== k)`: keeps exactly the elements with another key and adds none |
| Seqs.Select | src/lib/storage.ts:57 | `filter` on a key comparison: keeps exactly the elements that pass the test and adds nothing |
| Seqs.SelectAppend | src/lib/storage.ts:44 | filtering keeps order: the filter of a concatenation is the concatenation of the filters |
| Seqs.SelectAll | src/lib/storage.ts:87 | a filter that every element passes returns the list unchanged |
| Seqs.SelectNone | src/lib/storage.ts:47 | a filter that no element passes returns the empty list |
| Seqs.SelectIdempotent | src/lib/storage.ts:86-89 | filtering twice is filtering once, so a second `deleteTask`/`deleteProject` with the same id changes nothing |
| Seqs.SelectPartition | src/lib/storage.ts:43-49 | the kept and the removed elements together are the original multiset, and their lengths add up |
| Seqs.SelectDistinct | src/lib/storage.ts:44 | filtering keeps ids unique |
| Seqs.AppendDistinct | src/lib/storage.ts:29 | appending a record with a new id keeps ids unique |
| Seqs.FindIndexAfterUpdate | src/lib/storage.ts:81 | replacing a record by one with the same key moves no first match |
| Seqs.FindIndexAppend | src/lib/storage.ts:72 | appending keeps existing first matches, and an absent key is then found at the new last index |
| Seqs.FindAppend | src/lib/storage.ts:72 | after an append, `find` returns the old first match, or the appended record when the key was absent |
| Seqs.SelectCons | src/lib/storage.ts:57 | the filter of a list with a known head |
| Seqs.UpdateDistinct | src/lib/storage.ts:81 | replacing a record by one with the same id keeps ids unique |
| Text.IsSpace | src/components/ProjectForm.tsx:44 | the white-space set `trim` strips; see `Text.SpaceClasses` for what it contains |
| Text.SpaceClasses | src/components/ProjectForm.tsx:44 | space, tab and the line breaks are stripped; letters and digits never are |
| Text.TrimStart | src/components/ProjectForm.tsx:44 | drops only leading white space: the result is a suffix that starts with a non-space |
| Text.TrimEnd | src/components/ProjectForm.tsx:44 | drops only trailing white space: the result is a prefix that ends with a non-space |
| Text.Trim | src/components/ProjectForm.tsx:42-47 | `trim()` returns the input with only a blank prefix and a blank suffix removed; the result is trimmed, and it is empty exactly when the input is all white space |
| Text.TrimOfTrimmed | src/components/ProjectForm.tsx:44 | trimming a trimmed string returns it unchanged |
| Text.TrimIdempotent | src/components/ProjectForm.tsx:44 | trimming twice is trimming once |
| Text.OrUndefined | src/components/ProjectForm.tsx:46 | `s \|\| undefined` is `undefined` exactly for the empty string and `s` otherwise |
| Text.OrEmpty | src/components/ProjectForm.tsx:32 | `o \|\| ""` is empty exactly when `o` is missing or empty, and `o` otherwise |
| Text.OrUndefinedOrEmpty | src/components/ProjectForm.tsx:32 | `\|\| undefined` undoes `\|\| ""` on every value except the empty string |
| Storage.Overlay | src/lib/storage.ts:38 | one key of a spread: a key present in `data` wins, an absent one keeps the old value |
| Storage.NewProject | src/lib/storage.ts:24-28 | the created project carries every given field, plus the fresh id and creation time |
| Storage.NewTask | src/lib/storage.ts:67-71 | the created task carries every given field, plus the fresh id and creation time |
| Storage.PatchProject | src/lib/storage.ts:38 | a shallow merge never changes `id` or `createdAt` |
| Storage.PatchTask | src/lib/storage.ts:81 | a shallow merge never changes `id` or `createdAt` |
| Storage.StatusPatch | src/components/TaskBoard.tsx:82 | `{ status }` holds only the `status` key |
| Storage.PatchProjectEmpty | src/lib/storage.ts:38 | merging an empty object changes nothing |
| Storage.PatchProjectTwice | src/lib/storage.ts:38 | merging the same data twice is merging it once |
| Storage.PatchProjectFull | src/lib/storage.ts:38 | merging a complete set of fields gives the record `saveProject` would create from them, with the old id and creation time |
| Storage.PatchTaskStatus | src/lib/storage.ts:81 | merging `{ status }` changes only the status |
| Storage.PatchClearsGroup | src/lib/storage.ts:38 | a key holding an explicit `undefined` clears that field, here `groupId`, and changes nothing else |
| Storage.UpdatedProjects | src/lib/storage.ts:36-38 | an absent id leaves the list as it was; otherwise only the first project with the id is merged, and length and order stay |
| Storage.UpdatedTasks | src/lib/storage.ts:79-81 | an absent id leaves the list as it was; otherwise only the first task with the id is merged, and length and order stay |
| Storage.SavedProjectIsFound | src/lib/storage.ts:18-31 | a project saved under a fresh id is what `getProject` then returns for that id |
| Storage.SavedTaskIsFound | src/lib/storage.ts:61-74 | a task saved under a fresh id is what `getTask` then returns for that id |
| Storage.UpdatedTasksCons | src/lib/storage.ts:79-81 | `updateTask` on a list either merges its head, when the head has the id, or leaves the head and updates the rest |
| Storage.SeedProjects | src/lib/storage.ts:97-113 | the two demo projects: the first two generated ids and times, status "active", both links set, no group |
| Storage.SeedTaskDrafts | src/lib/storage.ts:116-123 | six demo tasks, the first three for the first project and the last three for the second, with no description, checklist or timestamps |
| Storage.SeedShape | src/lib/storage.ts:97-123 | the demo data is 2 projects and 6 tasks, with 3 tasks for each project and none for any other |
| Storage.SavedInOrderShape | src/lib/storage.ts:115-123 | three drafts of one project then three of another give each project exactly three tasks |
| Storage.SeedKeepsDistinct | src/lib/storage.ts:97-123 | with fresh, distinct ids the demo data keeps project ids and task ids unique |
| Storage.Repository.constructor | src/lib/storage.ts:12-16 | a store with no saved keys reads as two empty collections, and `getTasks()` returns no task |
| Storage.Repository.GetProject | src/lib/storage.ts:18-20 | `undefined` exactly when no project has the id; otherwise the first project with that id |
| Storage.Repository.SaveProject | src/lib/storage.ts:22-32 | appends exactly one project built from the draft, and returns it; earlier projects and all tasks are unchanged |
| Storage.Repository.UpdateProject | src/lib/storage.ts:34-41 | an absent id returns `undefined` and changes nothing; otherwise the stored list is the merged one, and the result is the stored, merged record; tasks and id uniqueness are kept |
| Storage.Repository.DeleteProject | src/lib/storage.ts:43-49 | removes every project with the id and every task of that project, keeping the order of the rest; afterwards neither can be found |
| Storage.Repository.GetTasks | src/lib/storage.ts:53-59 | a non-empty project id selects exactly that project's tasks, in stored order and with repeats kept (the filter `Seqs.Only`); an absent or empty one selects all tasks |
| Storage.Repository.GetTask | src/lib/storage.ts:61-63 | `undefined` exactly when no task has the id; otherwise the first task with that id |
| Storage.Repository.SaveTask | src/lib/storage.ts:65-75 | appends exactly one task built from the draft, and returns it; earlier tasks and all projects are unchanged |
| Storage.Repository.UpdateTask | src/lib/storage.ts:77-84 | an absent id returns `undefined` and changes nothing; otherwise the stored list is the merged one, and the result is the stored, merged record; projects and id uniqueness are kept |
| Storage.Repository.DeleteTask | src/lib/storage.ts:86-89 | removes every task with the id, keeping order; projects are untouched |
| Storage.Repository.SaveDemoTasks | src/lib/storage.ts:116-118 | three `saveTask` calls append three tasks in call order |
| Storage.Repository.SaveSeedProjects | src/lib/storage.ts:97-113 | the two demo projects are appended to an empty project list |
| Storage.Repository.SaveSeedTasks | src/lib/storage.ts:115-123 | the six demo tasks are appended in call order |
| Storage.Repository.SeedDataIfEmpty | src/lib/storage.ts:93-124 | with a project stored it changes nothing; otherwise the projects become the two demo projects and the six demo tasks are appended, keeping ids unique |
| TaskBoard.StatusName | src/components/TaskBoard.tsx:19 | each status is stored as one of the three column ids "todo", "in_progress", "done" |
| TaskBoard.ColumnFor | src/components/TaskBoard.tsx:76 | an id names a column exactly when it is one of the three status strings |
| TaskBoard.ColumnForName | src/components/TaskBoard.tsx:19 | each column is reached by its own id and by no other column's |
| TaskBoard.TargetStatus | src/components/TaskBoard.tsx:76-79 | a column id wins; otherwise the status of the first task with that id; otherwise no target |
| TaskBoard.DropMove | src/components/TaskBoard.tsx:68-85 | a move happens exactly when there is a target, the dragged task is on the board and the target differs from its status; the move is for the dragged task, to the target |
| TaskBoard.ApplyDrop | src/components/TaskBoard.tsx:81-83 | without a move the list is unchanged; with one, the first board task with the dragged id takes the target status and nothing else changes |
| TaskBoard.DropChangesOnlyStatus | src/components/TaskBoard.tsx:82 | a drop writes only the `status` field, and only of the dragged task |
| TaskBoard.DropOntoItself | src/components/TaskBoard.tsx:72-81 | dropping a card on itself changes nothing |
| TaskBoard.DropIsIdempotent | src/components/TaskBoard.tsx:68-102 | once the move is written, the same event yields no further move |
| TaskBoard.TasksByStatus | src/components/TaskBoard.tsx:104 | a column holds exactly the board's tasks with that status |
| TaskBoard.ColumnsPartition | src/components/TaskBoard.tsx:115-119 | the three columns together hold every task of the board exactly once, and each task is in the column of its status only |
| TaskBoard.RenderedColumns | src/components/TaskBoard.tsx:115-119 | rendering one column per entry of `COLUMNS` shows every task exactly once |
| TaskBoard.EditPatch | src/components/TaskBoard.tsx:59 | editing never writes the project, the checklist or the timestamps |
| TaskBoard.NewTaskDraft | src/components/TaskBoard.tsx:61 | a new task gets the board's project and no checklist or timestamps |
| TaskBoard.EditWritesFormFields | src/components/TaskBoard.tsx:57-59 | editing stores exactly the form's four fields; an absent description clears the stored one |
| TaskBoard.CreatedTaskCarriesForm | src/components/TaskBoard.tsx:61 | a created task carries the form's data and the board's project |
| TaskBoard.OnlyAfterStatusWrite | src/components/TaskBoard.tsx:82-83 | with unique ids, reloading the board after a status write gives the board's list with the same write applied |
| TaskBoard.StatusWriteOnHead | src/components/TaskBoard.tsx:82-83 | the same, when the written task heads the list |
| TaskBoard.Board.constructor | src/components/TaskBoard.tsx:25-29 | the board starts with its project's tasks, no form, and "todo" as default status |
| TaskBoard.Board.Refresh | src/components/TaskBoard.tsx:36-38 | the board holds `getTasks(projectId)`, and so only tasks of its project |
| TaskBoard.Board.HandleAddTask | src/components/TaskBoard.tsx:40-44 | opens an empty form preset to the column's status |
| TaskBoard.Board.HandleEditTask | src/components/TaskBoard.tsx:46-50 | opens the form on that task, preset to its status |
| TaskBoard.Board.CloseForm | src/components/TaskBoard.tsx:134 | closes the form and forgets the edited task |
| TaskBoard.Board.HandleDeleteTask | src/components/TaskBoard.tsx:52-55 | deletes that task from the store and reloads; the board no longer shows it |
| TaskBoard.Board.HandleSaveTask | src/components/TaskBoard.tsx:57-66 | when editing, updates the edited id with the form's fields; otherwise saves a new task of this project, which is then found by id and shown on the board; then reloads and closes the form |
| TaskBoard.Board.HandleDrag | src/components/TaskBoard.tsx:68-102 | without a move nothing changes; with one, the store gets exactly that status write and the board reloads; on a board in step with a store of unique ids the result is the drop rule applied to the board, and handling the event again does nothing |
| Procedure.CleanSteps | src/components/ProcedureModal.tsx:29 | `map(trim).filter(Boolean)` never adds a step; its content is stated by the lemmas below |
| Procedure.CleanStepsNormalised | src/components/ProcedureModal.tsx:29 | every saved step is non-empty and trimmed, and none is added |
| Procedure.CleanStepsKeeps | src/components/ProcedureModal.tsx:29-31 | nothing is kept exactly when every step is blank; every non-blank step is kept, trimmed |
| Procedure.CleanStepsAppend | src/components/ProcedureModal.tsx:29 | steps are cleaned in place and keep their order |
| Procedure.CleanStepsIdempotent | src/components/ProcedureModal.tsx:29 | cleaning a cleaned list changes nothing |
| Procedure.CleanBlankStep | src/components/ProcedureModal.tsx:29 | a blank step keeps nothing |
| Procedure.BlankStepIgnored | src/components/ProcedureModal.tsx:29 | a blank step anywhere in the list never changes what is saved |
| Procedure.RemoveAt | src/components/ProcedureModal.tsx:25 | drops exactly the entry at the index and keeps the others in order; an index outside the list changes nothing |
| Procedure.RemoveAddedStep | src/components/ProcedureModal.tsx:15-25 | removing the step just added gives the list back |
| Procedure.StepEditor.constructor | src/components/ProcedureModal.tsx:13 | the list starts as one empty step |
| Procedure.StepEditor.AddStep | src/components/ProcedureModal.tsx:15 | appends one empty step and leaves the others |
| Procedure.StepEditor.UpdateStep | src/components/ProcedureModal.tsx:17-21 | replaces only the given index; length and other entries stay |
| Procedure.StepEditor.RemoveStep | src/components/ProcedureModal.tsx:23-26 | a one-step list is left alone; otherwise exactly that entry goes; the list never becomes empty |
| Procedure.StepEditor.HandleKeyDown | src/components/ProcedureModal.tsx:34-37 | Enter on the last step appends a step; any other key or index leaves the list |
| Procedure.StepEditor.HandleSave | src/components/ProcedureModal.tsx:28-32 | skips exactly when every step is blank; otherwise saves the cleaned list, whose steps are non-empty and trimmed |
| ProjectForm.Prefill | src/components/ProjectForm.tsx:28-37 | copies the project; a missing link or group becomes "", a present one is copied |
| ProjectForm.Submit | src/components/ProjectForm.tsx:40-52 | blocked exactly when the name is blank; otherwise name and description trimmed, a blank link becomes `undefined` and others are trimmed, "" group becomes `undefined` and others pass, status and colour pass |
| ProjectForm.SubmitNormalises | src/components/ProjectForm.tsx:43-51 | every saved string is trimmed and no saved optional is empty |
| ProjectForm.LinkRoundTrip | src/components/ProjectForm.tsx:32-46 | a normalised link survives being shown in the form and submitted |
| ProjectForm.PrefillSubmitRoundTrip | src/components/ProjectForm.tsx:28-51 | for a normalised project, prefill then submit reproduces its fields |
| ProjectForm.SubmitIsStable | src/components/ProjectForm.tsx:28-51 | saving what the form produced and resubmitting it through the form gives the same record |
| ProjectForm.Editor.constructor | src/components/ProjectForm.tsx:20-26 | defaults: empty strings, status "planned", the first palette colour, no group |
| ProjectForm.Editor.OnProjectChange | src/components/ProjectForm.tsx:28-38 | with a project the state becomes its prefill; without one it stays |
| ProjectForm.Editor.HandleSubmit | src/components/ProjectForm.tsx:40-52 | returns the submit result of the current state; nothing when the name is blank |
| TaskForm.Defaults | src/components/TaskForm.tsx:14-18 | empty strings, the given default status or "todo", priority "medium" |
| TaskForm.Prefill | src/components/TaskForm.tsx:20-27 | copies that task; a missing description becomes "", a present one is copied |
| TaskForm.Submit | src/components/TaskForm.tsx:29-38 | blocked exactly when the title is blank; otherwise title trimmed, a blank description becomes `undefined` and others are trimmed, status and priority pass |
| TaskForm.SubmitNormalises | src/components/TaskForm.tsx:32-37 | every submission has a non-empty trimmed title and no empty description |
| TaskForm.PrefillSubmitRoundTrip | src/components/TaskForm.tsx:20-37 | for a normalised task, prefill then submit reproduces title, description, status and priority |
| TaskForm.SubmitIsStable | src/components/TaskForm.tsx:20-37 | reopening a task saved from the form and submitting again gives the same data |
| TaskForm.Editor.constructor | src/components/TaskForm.tsx:14-18 | the form mounts with the defaults for its `defaultStatus` |
| TaskForm.Editor.OnTaskChange | src/components/TaskForm.tsx:20-27 | with a task the state becomes its prefill; without one it stays |
| TaskForm.Editor.HandleSubmit | src/components/TaskForm.tsx:29-38 | returns the submit result of the current state; nothing when the title is blank |
| GroupForm.Prefill | src/components/GroupForm.tsx:23-28 | copies the group's name and colour |
| GroupForm.Submit | src/components/GroupForm.tsx:30-34 | blocked exactly when the name is blank; otherwise the name is trimmed and the colour passes |
| GroupForm.PrefillSubmitRoundTrip | src/components/GroupForm.tsx:23-33 | for a group with a non-blank trimmed name, prefill then submit reproduces name and colour |
| GroupForm.SubmitIsStable | src/components/GroupForm.tsx:30-34 | resubmitting the saved name gives the same draft |
| GroupForm.DeleteButton | src/components/GroupForm.tsx:78-81 | present exactly for an existing group with an `onDelete` handler; it calls `onDelete(group.id)`, then `onClose` |
| GroupForm.Editor.constructor | src/components/GroupForm.tsx:20-21 | defaults: no name and the first palette colour |
| GroupForm.Editor.OnGroupChange | src/components/GroupForm.tsx:23-28 | with a group the state becomes its prefill; without one it stays |
| GroupForm.Editor.PickColor | src/components/GroupForm.tsx:68 | a swatch sets the colour and keeps the name |
| GroupForm.Editor.HandleSubmit | src/components/GroupForm.tsx:30-34 | returns the submit result of the current state; nothing when the name is blank |

## Left out

- Local storage and JSON (`getItem`/`setItem`, `JSON.parse`/`stringify`) are not modelled. The store is the two fields of `Repository`. Malformed stored data has no counterpart. An explicit `undefined` stored by a merge is modelled as `None`, which is how it reads back after `JSON.stringify` drops it.
- `getProjects()` has no member of its own. It is the read of the `projects` field.
- The `typeof window === "undefined"` branch of `getProjects`/`getTasks` is environment plumbing and is not modelled.
- `generateId` and the clock are not modelled. Their results are parameters, and freshness is a precondition.
- The drag-and-drop library is not modelled: sensors, `closestCorners` collision geometry and within-column ordering. The resolved `over` id is an input.
- React plumbing is not modelled: re-rendering, the `showForm`-driven mounting of the form, and the `setTimeout` focus move in the step editor.
- Procedure.StepEditor.UpdateStep: requires an index inside the list. In JavaScript, an index past the end would grow the array with holes, which a `seq<string>` cannot hold. The inputs only ever pass their own index.
- Storage.Repository.SaveProject, Storage.Repository.SaveTask: the ensures do not state that ids stay unique. That follows from the freshness precondition by `Seqs.AppendDistinct`.
- TaskBoard.DropOntoItself: requires that the card's id is not a column name. A task whose id were "todo" would be moved to the "todo" column. Generated ids are never one of the three status strings.
- Nothing in the code creates, updates or deletes groups, checklist items, `startedAt` or `completedAt`; they are only declared in `src/types/index.ts`. So the model has no group operations, no checklist operations and no timestamp writes.
- Facts about the code that the model follows:
  - `seedDataIfEmpty` checks only the project list. Stored tasks do not stop it, and it appends to them.
  - `getTasks("")` returns all tasks, because the empty string is falsy.
  - A status change writes only `status`.
  - Dropping a card on itself is a no-op because its resolved status equals its own. The code has no id comparison.
- `ProjectCard`, `TaskCard`, `TaskColumn`, `Header`, `Sidebar` and the pages are presentation only. `src/app/page.tsx`, which calls `seedDataIfEmpty` and renders the project form, is not part of this model. No file in the source renders `GroupForm`.
