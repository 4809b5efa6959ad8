# Task tracker web client — verified model of its state and data handling

This project models, in Dafny, the logic of a small task-tracker web client. The client is organised into projects. Each project holds tasks, and each task has a status of TODO, IN_PROGRESS or DONE, an assignee and a due date. Users can also be invited to projects. The model covers:

- **The in-memory data service** (`apps/web/lib/api.ts`). It holds a task table and an invitation table, both keyed by project id.
  - The reads are functions over table values: the profile with its invitees, all tasks tagged with their project name, one project's tasks, and one task. Collecting all tasks is a loop, proved equal to its function.
  - The writes are the methods of the `MockApi` class: create, update, delete and invite. Each write is specified by a function that returns the call's result together with the table it leaves behind.
- **The UI selection store and the theme store** (`apps/web/lib/stores.ts`). These are classes whose actions overwrite fixed sets of fields. The store keeps the invariant that a task is only ever being edited while the task modal is open.
- **The kanban board** (`apps/web/components/KanbanBoard.tsx`).
  - The board splits tasks into status columns.
  - The drag-to-status mutation runs as explicit steps over a query cache: the optimistic step, the data-service call, the rollback on failure, and the settle step.
  - A drop target decides whether a mutation is issued at all.
- **The task modal** (`apps/web/components/TaskModal.tsx`).
  - The form schema includes the due-date rule.
  - Once the edited task loads, the form is reset from it.
  - Submit routes to update or create.
  - Delete requires confirmation.
  - A successful mutation invalidates the task list and closes the modal. A failed one leaves both as they were.
- **Three pure views**:
  - the status filter and its select mapping on the all-tasks page (`apps/web/app/tasks/page.tsx`);
  - the decision order and joined-projects list on the profile page (`apps/web/app/profile/page.tsx`);
  - the avatar initials (`apps/web/components/Avatar.tsx`).

JavaScript truthiness is modelled explicitly by `Model.Present`: a `string | null` tests false both when it is null and when it is "". This governs `!projectId` in the data service and the board, the `editingTaskId` routing in the modal, and the status filter. An array is always truthy, so `mockTasks[id]` tests whether the key is present.

The modules follow the source files:

| file | module | source |
|---|---|---|
| `model.dfy` | `Model` | entities, status names, lookups shared by all files |
| `api.dfy` | `Api` | `apps/web/lib/api.ts` |
| `stores.dfy` | `Stores` | `apps/web/lib/stores.ts` |
| `cache.dfy` | `Cache` | the `["tasks", projectId]` entries of the query cache |
| `kanban_board.dfy` | `Kanban` | `apps/web/components/KanbanBoard.tsx` |
| `task_modal.dfy` | `TaskModal` | `apps/web/components/TaskModal.tsx` |
| `tasks_page.dfy` | `TasksPage` | `apps/web/app/tasks/page.tsx` |
| `profile_page.dfy` | `ProfilePage` | `apps/web/app/profile/page.tsx` |
| `avatar.dfy` | `Avatar` | `apps/web/components/Avatar.tsx` |

Some behaviour one might expect of such a client is absent from the code. The model follows the code:

- **Success of the drag mutation.** One might expect the task the data service returns to be merged into the cached list. The code only shows a toast, so the optimistic list stays in place until the refetch.
- **Rollback.** The code always rolls back on failure. The snapshot is `getQueryData(...) || []`, which is always an array. So an entry that was absent before the drag is restored as the empty list, not removed.
- **Request generations.** One might expect a generation counter per cache key, so that a response arriving after a newer request is discarded. The code has no such counter, and nothing in it discards a late response.
- **Validation.** One might expect the data service to reject an empty title or a past due date. Only the form checks the title, assignee and due date; `createTask` itself checks only the project id and whether the assignee is known.

## Model

| member | source | states |
|---|---|---|
| Model.ParseStatus | apps/web/components/KanbanBoard.tsx:94-95 | a string is accepted exactly when it is the wire name of a status, and then names that status |
| Model.IndexOf | apps/web/lib/api.ts:134 | `findIndex`: -1 exactly when the value is absent, otherwise the position of its first occurrence |
| Model.FindTask | apps/web/lib/api.ts:155-156 | `find` by id: none exactly when no task has the id, otherwise a task of the list with that id, preceded by no other task with that id |
| Model.FindAssignee | apps/web/lib/api.ts:109-110 | `find` by id: none exactly when no assignee has the id, otherwise a listed assignee with that id, preceded by no other assignee with that id |
| Model.JoinedProjects | apps/web/app/profile/page.tsx:33 | the projects kept are exactly the listed projects whose id is among the joined ids |
| Model.JoinedProjectsAppend | apps/web/lib/api.ts:61-62 | the joined-projects filter keeps the order of the project list: it distributes over concatenation |
| Api.ResolveUsers | apps/web/lib/api.ts:66-68 | invitee ids resolve to known assignees that were listed; when all ids are known, one assignee per id in the same order |
| Api.ResolveUsersAppend | apps/web/lib/api.ts:66-68 | resolving keeps the order of the invitation list: it distributes over concatenation |
| Api.ResolveUsersCount | apps/web/lib/api.ts:66-68 | a known id yields its assignee once per occurrence in the invitation list, so unknown ids are dropped and nothing else is |
| Api.FetchUserProfile | apps/web/lib/api.ts:54-73 | the profile's fields are copied; there is one invitee entry per joined project, in project-list order, with that project's id and name, and with exactly the known assignees of that project's invitation list, in its order; every listed invitee is a known assignee invited to that project |
| Api.JoinedProjectEntry | apps/web/lib/api.ts:61-69 | a listed project the profile has joined has an invitee entry, and every entry for it lists exactly the resolved invitation list |
| Api.Tagged | apps/web/lib/api.ts:86-88 | one tagged element per task of the project, in order, carrying that task and the project's name |
| Api.AllTasks | apps/web/lib/api.ts:84-89 | every element is tagged with the name of a listed project; the contents and order are stated by the two lemmas below |
| Api.AllTasksAppend | apps/web/lib/api.ts:84-89 | the all-tasks list is the concatenation, in project order, of each project's tagged tasks |
| Api.AllTasksMember | apps/web/lib/api.ts:84-89 | a tagged task is listed exactly when some project of the list has a task list containing it and the tag is that project's name; projects without a list contribute nothing |
| Api.FetchAllTasks | apps/web/lib/api.ts:82-91 | the loop over projects and their tasks builds exactly the concatenation of each project's tagged tasks |
| Api.FetchTasks | apps/web/lib/api.ts:93-101 | fails with "No projectId provided" for a null or empty id; succeeds exactly when the project has a task list, and then returns that list |
| Api.FetchTask | apps/web/lib/api.ts:153-158 | "Project not found" without a list, "Task not found" without the id; otherwise returns the first task with that id |
| Api.CreateTaskSpec | apps/web/lib/api.ts:103-125 | fails, with the table unchanged, on a missing project id or an unknown assignee; otherwise appends exactly one task at the end of the project's list (creating the list), with the given fields, description "" when none is given, and the looked-up assignee name |
| Api.CreateThenFetchTasks | apps/web/lib/api.ts:121-122 | after a create, `fetchTasks` returns the earlier list followed by the new task |
| Api.CreateThenFetchTask | apps/web/lib/api.ts:112-124 | after a create with an unused id, `fetchTask` returns the created task |
| Api.MergeUpdates | apps/web/lib/api.ts:137-147 | every given field replaces the stored one and the id is kept; the assignee changes only when a non-empty, known assignee id is given |
| Api.StatusOnlyUpdate | apps/web/lib/api.ts:143-147 | a status-only update changes the status and nothing else |
| Api.UpdateTaskSpec | apps/web/lib/api.ts:127-151 | fails, with no change, for an unknown project or task id; otherwise only the element at the found index is replaced by the merged task, so the length, the other positions and the other projects are unchanged and the id is kept |
| Api.UpdateThenFetchTask | apps/web/lib/api.ts:149 | after an update, `fetchTask` returns the merged task |
| Api.RemoveById | apps/web/lib/api.ts:166 | keeps exactly the tasks whose id differs; an absent id leaves the list as it was |
| Api.RemoveByIdAppend | apps/web/lib/api.ts:166 | the delete filter keeps the original order: it distributes over concatenation |
| Api.RemoveByIdCount | apps/web/lib/api.ts:166 | every task with the id is removed, and every other task remains as often as it occurred |
| Api.RemovedIdAbsent | apps/web/lib/api.ts:166 | no task with the deleted id remains |
| Api.DeleteTaskSpec | apps/web/lib/api.ts:164-168 | "Project not found" with no change for an unknown project; otherwise the project's list becomes the filtered list, and an absent id changes nothing |
| Api.DeleteTwice | apps/web/lib/api.ts:164-168 | deleting twice has the same result and effect as deleting once |
| Api.DeleteThenFetchTask | apps/web/lib/api.ts:164-168 | after a delete, fetching that task fails with "Task not found" |
| Api.RemoveAppended | apps/web/lib/api.ts:122 | removing a freshly appended task restores the list it was appended to |
| Api.CreateThenDelete | apps/web/lib/api.ts:103-168 | deleting a just-created task with an unused id restores the project's previous list |
| Api.NotYetInvited | apps/web/lib/api.ts:178 | keeps exactly the requested ids that are not yet present |
| Api.NotYetInvitedAppend | apps/web/lib/api.ts:178 | the filter keeps the requested ids in the order given: it distributes over concatenation |
| Api.NotYetInvitedCount | apps/web/lib/api.ts:178 | ids already present are dropped; every other occurrence, duplicates included, is kept |
| Api.NothingLeftToInvite | apps/web/lib/api.ts:178 | when every requested id is present, nothing is pushed |
| Api.InviteSpec | apps/web/lib/api.ts:170-181 | "Project not found" or "One or more users not found" with no change; otherwise the old list stays as a prefix, the not-yet-present ids are appended, and every requested id is present afterwards |
| Api.InviteCount | apps/web/lib/api.ts:176-178 | an id already present is never added again; a new id appears as often as it is requested, because the filter runs before the push |
| Api.InviteTwice | apps/web/lib/api.ts:170-181 | repeating a successful invitation succeeds and changes nothing |
| Api.InvitedTwiceListedOnce | apps/web/lib/api.ts:61-69 | a user not yet invited and invited twice to a project the profile has joined appears once in the invitation list; the profile has an invitee entry for the project, and the user appears exactly once among its users |
| Api.MockApi.constructor | apps/web/lib/api.ts:4-50 | the projects, assignees and profile are the given constants; the task and invitation tables start as given |
| Api.MockApi.CreateTask | apps/web/lib/api.ts:103-125 | result and new task table are those of the create specification; invitations unchanged |
| Api.MockApi.UpdateTask | apps/web/lib/api.ts:127-151 | result and new task table are those of the update specification; invitations unchanged |
| Api.MockApi.DeleteTask | apps/web/lib/api.ts:164-168 | result and new task table are those of the delete specification; invitations unchanged |
| Api.MockApi.InviteUsersToProject | apps/web/lib/api.ts:170-181 | result and new invitation table are those of the invite specification; tasks unchanged |
| Stores.UIStore.constructor | apps/web/lib/stores.ts:21-25 | no active project, both modals closed, board view, nothing edited; the invariant holds |
| Stores.UIStore.SetActiveProjectId | apps/web/lib/stores.ts:26 | sets the active project only; the invariant is kept |
| Stores.UIStore.OpenModal | apps/web/lib/stores.ts:27 | opens the modal with the given editing id, or none (create mode); other fields unchanged; establishes the invariant |
| Stores.UIStore.CloseModal | apps/web/lib/stores.ts:28 | closes the modal and clears the editing id from any state; other fields unchanged; establishes the invariant |
| Stores.UIStore.OpenInviteModal | apps/web/lib/stores.ts:29 | opens the invite modal only, independently of the task modal |
| Stores.UIStore.CloseInviteModal | apps/web/lib/stores.ts:30 | closes the invite modal only, independently of the task modal |
| Stores.UIStore.SetViewMode | apps/web/lib/stores.ts:31 | sets the view mode only |
| Stores.Toggled | apps/web/lib/stores.ts:44 | the toggled theme always differs from the current one |
| Stores.ToggleTwice | apps/web/lib/stores.ts:44 | two toggles restore the original theme |
| Stores.ThemeStore.constructor | apps/web/lib/stores.ts:43 | the theme starts light |
| Stores.ThemeStore.ToggleTheme | apps/web/lib/stores.ts:44 | the new theme is the toggle of the previous one |
| Cache.QueryClient.constructor | apps/web/app/providers.tsx:9 | the cache starts with no task lists and nothing invalidated |
| Cache.QueryClient.GetTasks | apps/web/components/KanbanBoard.tsx:58 | the cached list of a key when there is one, none exactly when the key has no entry |
| Cache.QueryClient.SetTasks | apps/web/components/KanbanBoard.tsx:59-64 | replaces one key's cached list; invalidations unchanged |
| Cache.QueryClient.Invalidate | apps/web/components/KanbanBoard.tsx:77 | marks one key invalidated; cached lists unchanged |
| Kanban.Column | apps/web/components/KanbanBoard.tsx:110 | a column is no longer than the task list; its contents and order are stated by the lemmas below |
| Kanban.ColumnCons | apps/web/components/KanbanBoard.tsx:110 | a list's first task heads its column exactly when it has the column's status |
| Kanban.ColumnCount | apps/web/components/KanbanBoard.tsx:110 | a column holds each task of its status exactly as often as the list does, and no task of another status |
| Kanban.ColumnAppend | apps/web/components/KanbanBoard.tsx:110 | a column keeps the relative order of its tasks |
| Kanban.TasksByStatus | apps/web/components/KanbanBoard.tsx:108-114 | one column for each of the three statuses |
| Kanban.ColumnsPartition | apps/web/components/KanbanBoard.tsx:108-114 | the columns partition the tasks: together they hold every task exactly as often as it occurs, and their sizes add up to the number of tasks |
| Kanban.WithStatus | apps/web/components/KanbanBoard.tsx:61-63 | same length and order; only tasks with the dragged id differ, and only in their status, which becomes the new one; without such a task the list is unchanged |
| Kanban.OptimisticMatchesServer | apps/web/components/KanbanBoard.tsx:55-63 | with unique ids and the task present, the optimistic list equals the list `updateTask` stores for a status-only update |
| Kanban.KanbanBoard.constructor | apps/web/components/KanbanBoard.tsx:25-35 | the board keeps its project id, cache and data service, and starts with no task being dragged |
| Kanban.KanbanBoard.Tasks | apps/web/components/KanbanBoard.tsx:37-38 | the cached list of the board's key, or [] when the cache has no entry |
| Kanban.KanbanBoard.HandleDragStart | apps/web/components/KanbanBoard.tsx:82-85 | the marker is the first task with the dragged id, or none exactly when no task has it |
| Kanban.KanbanBoard.OnMutate | apps/web/components/KanbanBoard.tsx:56-66 | the snapshot is the cached list, or [] when absent, and the entry becomes the optimistic list |
| Kanban.KanbanBoard.OnError | apps/web/components/KanbanBoard.tsx:70-75 | the entry is restored to the snapshot |
| Kanban.KanbanBoard.OnSettled | apps/web/components/KanbanBoard.tsx:76-79 | the entry is invalidated and the drag marker cleared |
| Kanban.KanbanBoard.MoveTask | apps/web/components/KanbanBoard.tsx:48-80 | the data service performs the status-only update; the entry ends as the optimistic list on success and as the snapshot on failure; it is invalidated and the marker cleared either way |
| Kanban.KanbanBoard.HandleDragEnd | apps/web/components/KanbanBoard.tsx:87-100 | a mutation is issued exactly when there is a target, a project, and the target is a status; otherwise nothing but the marker changes |
| TaskModal.Failing | apps/web/components/TaskModal.tsx:29-43 | exactly the fields whose rule the form breaks |
| TaskModal.Validate | apps/web/components/TaskModal.tsx:29-43 | accepted exactly when the title and assignee are non-empty, the status is one of the three and the due date is a valid day not before today; the accepted data carries the form's values; a rejection names exactly the failing fields |
| TaskModal.DefaultForm | apps/web/components/TaskModal.tsx:65-71 | empty title, description and assignee, status TODO and today's date |
| TaskModal.DefaultFormRejected | apps/web/components/TaskModal.tsx:65-71 | the create form as it opens is rejected for its title and assignee but not its status |
| TaskModal.FormOf | apps/web/components/TaskModal.tsx:77-83 | the reset form's status parses back to the task's status |
| TaskModal.UpdatesOf | apps/web/components/TaskModal.tsx:100 | the update passes title, status, assignee and due date |
| TaskModal.UntouchedEditKeepsTask | apps/web/components/TaskModal.tsx:74-109 | submitting the loaded form unchanged stores the same task, with a missing description turned into "", and leaves the table as it was when the task had a description |
| TaskModal.PastDueTaskRejected | apps/web/components/TaskModal.tsx:36-42 | a task whose due date has passed cannot be saved unchanged: the form fails on the due date alone |
| TaskModal.Modal.constructor | apps/web/components/TaskModal.tsx:63-72 | the form starts with the default values |
| TaskModal.Modal.Edit | apps/web/components/TaskModal.tsx:156-222 | the form holds the values the user entered |
| TaskModal.Modal.ResetFromTask | apps/web/components/TaskModal.tsx:74-85 | once the edited task has loaded, the form holds its values; while loading or without a task, the form is unchanged |
| TaskModal.Modal.Settle | apps/web/components/TaskModal.tsx:87-121 | success invalidates the project's list and closes the modal; failure changes neither |
| TaskModal.Modal.OnSubmit | apps/web/components/TaskModal.tsx:123-129 | updates the edited task when an editing id is set, creates a task otherwise, then settles by the outcome |
| TaskModal.Modal.HandleSubmit | apps/web/components/TaskModal.tsx:154 | only accepted form data reaches submit; a rejected form changes nothing: not the tables, the cached lists, the invalidations or any field of the store |
| TaskModal.Modal.HandleDelete | apps/web/components/TaskModal.tsx:131-135 | a delete is issued exactly when an editing id is set and the user confirms, and then settles by the outcome; otherwise nothing changes: not the tables, the cached lists, the invalidations or any field of the store |
| TasksPage.WithStatusName | apps/web/app/tasks/page.tsx:23 | keeps exactly the tasks whose status has the given name |
| TasksPage.WithStatusNameAppend | apps/web/app/tasks/page.tsx:23 | the filter keeps the original order |
| TasksPage.FilterIsColumn | apps/web/app/tasks/page.tsx:23 | filtering one project's tasks by a status is that project's board column for the status |
| TasksPage.TaggedAppend | apps/web/lib/api.ts:87-88 | tagging distributes over concatenation |
| TasksPage.FilteredTasks | apps/web/app/tasks/page.tsx:22-24 | without a filter, all tasks; with one, exactly the tasks of that status |
| TasksPage.UnknownStatusMatchesNothing | apps/web/app/tasks/page.tsx:22-24 | a non-empty filter that names no status matches nothing; an empty filter is falsy and keeps everything |
| TasksPage.FilterOf | apps/web/app/tasks/page.tsx:46 | "all" and only "all" clears the filter |
| TasksPage.SelectValue | apps/web/app/tasks/page.tsx:45 | the select shows "all" exactly when there is no filter or the filter is "all" |
| TasksPage.SelectRoundTrip | apps/web/app/tasks/page.tsx:45-46 | choosing an option and reading the select back gives that option |
| TasksPage.FilterRoundTrip | apps/web/app/tasks/page.tsx:45-46 | a filter the select can set is recovered from the value it shows |
| TasksPage.SelectOptions | apps/web/app/tasks/page.tsx:51-56 | "all" shows every task and a status option shows the tasks of that status |
| TasksPage.TasksPageView | apps/web/app/tasks/page.tsx:26-60 | loading first, then the error message, then "No tasks found" exactly when the filtered list is empty, otherwise its rows |
| ProfilePage.ProfilePageView | apps/web/app/profile/page.tsx:22-33 | either query loading wins; then an error, with the profile's message before the projects'; then "No profile found"; otherwise the profile with exactly its joined projects |
| ProfilePage.NoProjectsJoined | apps/web/app/profile/page.tsx:62-63 | "No projects joined" is shown exactly when no listed project is among the profile's |
| ProfilePage.ShownMatchesInvitees | apps/web/app/profile/page.tsx:33 | the page lists the same projects, in the same order, as the profile's invitee entries |
| Avatar.Split | apps/web/components/Avatar.tsx:15 | at least one segment, none containing a space |
| Avatar.JoinSplit | apps/web/components/Avatar.tsx:15 | joining the segments with spaces gives the name back |
| Avatar.FirstCharsAreWordStarts | apps/web/components/Avatar.tsx:15-17 | the first characters of the segments are exactly the characters that start a word |
| Avatar.Head | apps/web/components/Avatar.tsx:16-17 | a segment's first character, or nothing for an empty segment, whose `undefined` joins as "" |
| Avatar.FirstChars | apps/web/components/Avatar.tsx:16-17 | at most one character per segment; with FirstCharsAreWordStarts, exactly the word starts |
| Avatar.ToUpper | apps/web/components/Avatar.tsx:19 | lower-case ASCII letters are shifted to upper case, everything else is kept |
| Avatar.Upper | apps/web/components/Avatar.tsx:19 | the same length, each character upper-cased |
| Avatar.TakeTwo | apps/web/components/Avatar.tsx:18 | the first two characters, or all when there are fewer |
| Avatar.Initials | apps/web/components/Avatar.tsx:14-19 | at most two characters, none a lower-case letter or a space |
| Avatar.InitialsAreWordStarts | apps/web/components/Avatar.tsx:14-19 | the initials are the first two word starts, upper-cased |
| Avatar.NoWordsNoInitials | apps/web/components/Avatar.tsx:15-17 | a name of spaces only, or an empty one, has no initials |
| Avatar.WordThenRest | apps/web/components/Avatar.tsx:15-16 | a word contributes exactly its first character |
| Avatar.TwoWords | apps/web/components/Avatar.tsx:14-19 | the first two words give the initials; later words do not count |
| Avatar.AliceBobCarol | apps/web/components/Avatar.tsx:14-19 | "alice bob carol" gives "AB" |

## Left out

- Latency and promises. Every data-service call is a synchronous result or error. The model ignores that `createTask` resolves at once, while `updateTask` and `deleteTask` change the tables before their delay.
- Id generation. The `task-${Date.now()}` id of `createTask` is the parameter `freshId`. Lemmas that need it unused say so in their preconditions.
- Api.MergeUpdates: does not model the stray `assigneeId` field that the untyped spread of `updateTask` leaves on the stored task, because the task entity has no such field.
- Aliasing. `fetchTasks` resolves the live array of the table; the model returns a value.
- The query cache is reduced to the task-list entries and a set of invalidated keys. Cancellation, refetching, retries and the `initialData` of the board's query are not modelled, and neither is the profile, project or all-tasks queries' cache; the views take those queries' state as a value.
- Overlapping mutations. Each drag mutation runs to settlement before the next starts. The code keeps no per-request generation, so there is no such counter to model.
- Dates. A date string's day is given by the parameter `dayOf` (none for an invalid date), and today by `today`. The reset form's date string is given by the parameter `isoDay`. JavaScript date parsing, time zones and the range error `toISOString` raises for an invalid stored date are not modelled.
- Persistence and side effects: the local-storage persistence of the UI store, the theme class on the document, toasts and the `confirm` dialog. The dialog's answer is the parameter `confirmed`.
- Rendering: layout, styling, drag sensors, collision detection and the drag overlay. The board's own loading, error, "no project" and "no tasks" banners are display-only and not modelled. The same goes for the sidebar, columns, cards, view toggle, providers, invite modal, table components and home page, including the optional auto-selection of the first project.
- The read-only calls `fetchProjects` and `fetchAssignees` return constant tables. They are the constant fields `projects` and `assignees` of `MockApi`.
- Table keys are plain strings. Keys inherited from the object prototype are not modelled.
- A form description that is present but `undefined` is not modelled; the textarea always yields a string.
- Avatar.ToUpper: upper-cases ASCII letters only, not the full Unicode case mapping of `toUpperCase`.
- Avatar.Initials: works on whole characters, whereas `n[0]` and `.slice(0, 2)` work on UTF-16 code units. For a word starting with a character outside the Basic Multilingual Plane, the source takes half a surrogate pair and the model the whole character.
- The dicebear image URL of the avatar is not modelled.
- Both modals' rendering guards (`if (!isModalOpen) return null` and the skeleton while the edited task loads) are display-only.
