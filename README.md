# TaskFlow board logic in Dafny

A model of the decision logic in the React client of TaskFlow, a single-board
task tracker. A task has a title, an optional description, a priority
(low / medium / high) and a status (todo / in-progress / done). The board shows
one column per status, and a drag from one column to another changes the
task's status. The model covers four components:

- **The board page** (`client/src/pages/home.tsx`, module `HomePage`). The task list is split into three
  order-preserving status columns, and the page shows four counts. The
  `draggedTask` state slot is set on drag start and cleared on drag end. A drop
  sends a status update only when a task is being dragged and its recorded
  status differs from the target column.
- **A task card** (`client/src/components/task-card.tsx`, module `Cards`). Inline editing with
  `isEditing`, `editTitle` and `editDescription`. Save is refused for a blank
  title. The update body holds the trimmed title, and the description is
  trimmed or sent as `null` when nothing is left. Cancel restores the fields.
  Delete waits for a confirmation. The card also has the priority class and
  label, and the "time ago" caption.
- **The add-task dialog** (`client/src/components/add-task-modal.tsx`, module `AddTask`). Create is refused for a
  blank title. The create body holds the trimmed title and status todo. An empty
  description is left out of the body altogether. The priority defaults to
  medium. The form resets on close and after a successful create.
- **A column** (`client/src/components/kanban-column.tsx`, module `Columns`). The drop-zone flag `isDragOver`
  has enter, leave and drop transitions. A drop forwards the column's own
  status. The module also models the badge, empty-state and add-button
  conditions.

Each component's `useState` slots are fields of a class (`Home`, `TaskCard`,
`AddTaskModal`, `KanbanColumn`), and its handlers are methods. A handler does
not call the store, toasts or callbacks. It appends what it asks for to the
component's `log` (module `Tasks`): the request it hands to a mutation, the
toast it shows, or the call of `onClose`. `Requests(log)` picks out the
requests. A request body is a `NewTask` or `TaskUpdate`. Every field of a
`TaskUpdate`, and the `description` of a `NewTask`, is a `Field`, which is `Absent`, `Null` or `Present(v)`, so a field left out of the
JSON body stays distinct from a field sent as `null`.

The handlers take their external inputs as parameters:

- the store's answer to a mutation: `Outcome`, `Succeeded` or `Failed`, which
  selects `onSuccess` or `onError`;
- the answer to `confirm()`;
- whether the pointer moved to an element inside the drop zone;
- the current time in milliseconds.

`String.prototype.trim` is `Text.Trim`. It strips ECMAScript's WhiteSpace and
LineTerminator characters from both ends. It is proved equal to an independent
definition (`TrimmedFrom`: the unique slice with only white space around it
and no white space at its ends).

## Model

| member | source | states |
|---|---|---|
| `HomePage.WithStatus` | client/src/pages/home.tsx:18-20 | a column holds exactly the tasks of the list whose status is the column's status, and no more tasks than the list |
| `HomePage.WithStatusAppend` | client/src/pages/home.tsx:18-20 | filtering distributes over concatenation, so every column keeps its tasks in list order |
| `HomePage.WithStatusPartition` | client/src/pages/home.tsx:18-20 | the three columns together hold each task exactly as many times as the list does |
| `HomePage.Project` | client/src/pages/home.tsx:140-196 | the total shown (`tasks.length`) equals the sum of the three column counts; the columns partition the list by status |
| `HomePage.ColumnsDisjoint` | client/src/pages/home.tsx:18-20 | no task appears in two columns |
| `HomePage.BoardColumns` | client/src/pages/home.tsx:106-137 | the three badges add up to the total; a column shows its empty state exactly when no task has its status; only the Todo column shows the add button |
| `HomePage.ColumnFor` | client/src/pages/home.tsx:107-136 | the column for a status gets that status, its title and exactly the tasks with that status (one of the three columns of `Project`), and gets `onAddTask` exactly when it is the Todo column |
| `HomePage.MoveTo` | client/src/pages/home.tsx:43-47 | a drop's update body carries the new status and no other field |
| `HomePage.MovedMessage` | client/src/pages/home.tsx:49-54 | the success toast reads "Task moved to todo", "in progress" or "done" |
| `HomePage.DropEffects` | client/src/pages/home.tsx:36-64 | nothing happens when no task is dragged or the target equals the dragged task's recorded status; otherwise exactly one update request for the dragged task's id with body `{status}` |
| `HomePage.Home.constructor` | client/src/pages/home.tsx:11-12 | the dialog starts closed and no task is being dragged |
| `HomePage.Home.DragStart` | client/src/pages/home.tsx:22-25 | the dragged task becomes the given task |
| `HomePage.Home.DragEnd` | client/src/pages/home.tsx:27-30 | the dragged task is cleared whatever it was |
| `HomePage.Home.Drop` | client/src/pages/home.tsx:36-64 | appends `DropEffects` to the log, leaves `draggedTask` as it is, and adds the drop's requests to the request log |
| `HomePage.Home.DropOnColumn` | client/src/components/kanban-column.tsx:69-73 | a drop on a column clears the column's highlight and is a drop with that column's status |
| `HomePage.Home.OpenAddModal` | client/src/pages/home.tsx:115 | the Todo column's add button opens the dialog |
| `HomePage.Home.CloseAddModal` | client/src/pages/home.tsx:202 | the dialog's `onClose` closes it |
| `Cards.PriorityColor` | client/src/components/task-card.tsx:88-99 | high, medium and low map to `priority-<name>`, and any other name to `priority-medium` |
| `Cards.PriorityColorOf` | client/src/components/task-card.tsx:88-99 | every priority the store holds gets its own class |
| `Cards.PriorityLabel` | client/src/components/task-card.tsx:162 | the badge reads "Low Priority", "Medium Priority" or "High Priority" |
| `Cards.ElapsedSince` | client/src/components/task-card.tsx:101-111 | the bucket is just now below one hour (a future time included), whole hours below a day, whole days below a week, and whole weeks after that; the count in each bucket is the elapsed time divided by the bucket's unit, rounded down |
| `Cards.CountAgo` | client/src/components/task-card.tsx:106-112 | "N unit ago" is the decimal digits of N, a space, the unit, one more character (the plural "s") exactly when N > 1, then " ago" |
| `Cards.Describe` | client/src/components/task-card.tsx:105-112 | the text is "Just now" exactly for the just-now bucket; the hours, days and weeks buckets read "N hour(s) ago", "N day(s) ago" and "N week(s) ago" with their own count |
| `Cards.CountAgoReadsBack` | client/src/components/task-card.tsx:106-112 | "N unit ago" begins with the decimal digits of N, which read back as N, and the unit takes the plural "s" exactly when N > 1 |
| `Cards.FormatTimeAgo` | client/src/components/task-card.tsx:101-113 | the text is "Just now" exactly when less than an hour has passed (a future time included); otherwise it is "N hour(s) ago", "N day(s) ago" or "N week(s) ago", whichever unit fits below the next, with N the elapsed time divided by that unit and rounded down |
| `Cards.TimeCaption` | client/src/components/task-card.tsx:159 | the caption is "Completed " for a done task and "Created " otherwise, followed by the `FormatTimeAgo` text |
| `Cards.DescriptionText` | client/src/components/task-card.tsx:19 | the edit box starts with the description when there is one, and with the empty text otherwise |
| `Cards.EditPayload` | client/src/components/task-card.tsx:37-41 | the update body sends the trimmed title, which is non-empty for a non-blank title; the description is never left out and never `""`: it is `null` exactly when the description is blank, otherwise its trimmed text; status and priority are left out |
| `Cards.SaveEffects` | client/src/components/task-card.tsx:25-60 | a blank title only raises the "cannot be empty" toast; otherwise exactly one update request for the card's task with `EditPayload` |
| `Cards.EditingAfterSave` | client/src/components/task-card.tsx:44-57 | editing ends only after an accepted update; a blank title or a failed update leaves the mode as it was |
| `Cards.DeleteEffects` | client/src/components/task-card.tsx:62-80 | a delete request for the card's task is issued if and only if the user confirmed |
| `Cards.TaskCard.constructor` | client/src/components/task-card.tsx:17-19 | the card starts out of edit mode with the task's title and description (or `""`) in the edit fields |
| `Cards.TaskCard.Receive` | client/src/components/task-card.tsx:16-19 | a refreshed task with the same key replaces the task but leaves the edit state |
| `Cards.TaskCard.Draggable` | client/src/components/task-card.tsx:118 | a card can be dragged exactly when it is not being edited |
| `Cards.TaskCard.BeginEdit` | client/src/components/task-card.tsx:174 | the edit button enters edit mode, and the card stops being draggable |
| `Cards.TaskCard.SetEditTitle` | client/src/components/task-card.tsx:128 | typing replaces the edit title |
| `Cards.TaskCard.SetEditDescription` | client/src/components/task-card.tsx:134 | typing replaces the edit description |
| `Cards.TaskCard.Save` | client/src/components/task-card.tsx:25-60 | appends `SaveEffects` to the log and sets the edit mode to `EditingAfterSave` |
| `Cards.TaskCard.Delete` | client/src/components/task-card.tsx:62-80 | appends `DeleteEffects`; the requests grow by one delete of the card's task when confirmed, and by none otherwise |
| `Cards.TaskCard.Cancel` | client/src/components/task-card.tsx:82-86 | the card returns to its initial state: edit fields from the task and not editing, hence draggable |
| `AddTask.CreatePayload` | client/src/components/add-task-modal.tsx:36-42 | the create body has status todo and the chosen priority; the title is trimmed and non-empty for a non-blank title; the description is never `null` or `""`: it is left out exactly when blank, and otherwise trimmed |
| `AddTask.SubmitEffects` | client/src/components/add-task-modal.tsx:24-60 | a blank title only raises the "title is required" toast; otherwise exactly one create request with `CreatePayload` |
| `AddTask.ResetsAfterSubmit` | client/src/components/add-task-modal.tsx:44-57 | the form is emptied only when the title is not blank and the store accepted the create |
| `AddTask.AddTaskModal.constructor` | client/src/components/add-task-modal.tsx:17-19 | the form starts empty with medium priority |
| `AddTask.AddTaskModal.SetTitle` | client/src/components/add-task-modal.tsx:90 | typing replaces the title |
| `AddTask.AddTaskModal.SetDescription` | client/src/components/add-task-modal.tsx:104 | typing replaces the description |
| `AddTask.AddTaskModal.SetPriority` | client/src/components/add-task-modal.tsx:115 | choosing a priority replaces it |
| `AddTask.AddTaskModal.Close` | client/src/components/add-task-modal.tsx:62-67 | the form is reset to empty and medium priority and `onClose` is called; closing an empty form leaves it as it was |
| `AddTask.AddTaskModal.Submit` | client/src/components/add-task-modal.tsx:24-60 | appends `SubmitEffects` and, after an accepted create, the `onClose` call; the requests grow by exactly the create of `SubmitEffects` and nothing else; the form is reset exactly after an accepted create, otherwise it keeps what was typed |
| `AddTask.CloseAddsNoRequest` | client/src/components/add-task-modal.tsx:44-50 | the `onClose` call that follows an accepted create adds no request to the log |
| `AddTask.AddTaskModal.OpenChange` | client/src/components/add-task-modal.tsx:70 | closing the dialog runs the reset; opening it changes nothing |
| `Columns.CountBadge` | client/src/components/kanban-column.tsx:83-85 | the badge counts the column's cards and is zero exactly when the empty state shows |
| `Columns.ShowsEmptyState` | client/src/components/kanban-column.tsx:117 | the empty state shows exactly when no task is in the column |
| `Columns.ShowsAddButton` | client/src/components/kanban-column.tsx:89 | the add button shows exactly in the Todo column when it was given `onAddTask` |
| `Columns.EmptyMessage` | client/src/components/kanban-column.tsx:117-121 | the empty-state text is "No tasks in " followed by the title in lower case |
| `Columns.CountColor` | client/src/components/kanban-column.tsx:41-50 | each status gets its own badge colour pair |
| `Columns.KanbanColumn.constructor` | client/src/components/kanban-column.tsx:28 | a column starts without the drag highlight |
| `Columns.KanbanColumn.Receive` | client/src/components/kanban-column.tsx:17-28 | new properties from the page (a refreshed task list) replace the old ones while the drag highlight is kept |
| `Columns.KanbanColumn.DragEnter` | client/src/components/kanban-column.tsx:52-55 | entering sets the highlight |
| `Columns.KanbanColumn.DragLeave` | client/src/components/kanban-column.tsx:57-62 | leaving for an element outside the zone clears the highlight; leaving for one inside keeps it |
| `Columns.KanbanColumn.Drop` | client/src/components/kanban-column.tsx:69-73 | a drop clears the highlight and forwards exactly the column's own status |
| `Text.Trim` | client/src/components/add-task-modal.tsx:27 | the trimmed text is empty exactly when the input is all white space, and otherwise starts and ends with a non-white-space character |
| `Text.TrimIsTrimmed` | client/src/components/add-task-modal.tsx:38 | `Trim` meets the reference definition of trimming |
| `Text.TrimUnique` | client/src/components/add-task-modal.tsx:38 | any string that meets the reference definition is `Trim`'s result, so the definition characterises `trim` exactly |
| `Text.TrimIdempotent` | client/src/components/task-card.tsx:39 | trimming a trimmed title changes nothing |
| `Text.TrimKeeps` | client/src/components/add-task-modal.tsx:27 | text that neither starts nor ends with white space is left as it is, and is blank only when empty |
| `Text.NatToString` | client/src/components/task-card.tsx:106 | the rendering of a count is a non-empty string of decimal digits without a leading zero |
| `Text.NatToStringRoundTrip` | client/src/components/task-card.tsx:106 | reading the rendered digits back gives the count |
| `Text.Capitalize` | client/src/components/task-card.tsx:162 | only the first character is upper-cased and the rest is kept |
| `Text.ToLower` | client/src/components/kanban-column.tsx:119 | every character is lower-cased and the length is kept |
| `Text.ReplaceFirst` | client/src/pages/home.tsx:52 | only the first occurrence of the pattern is replaced, and the length is kept |

## Left out

- `client/src/hooks/use-tasks.ts`: the mutations, the network round trip, JSON decoding and cache invalidation and refetch are library code. A handler only records the request it hands over. The store's answer is an `Outcome` parameter.
- The cache, and the order in which refetches resolve: there is no sequence or version guard in the code, so none is modelled.
- Time between a request and its answer: each handler applies the `onSuccess` or `onError` callback in the same step. User input arriving between a request and its answer is not modelled.
- HomePage.Home.Drop: the drag is not cleared by the drop; clearing it is left to `handleDragEnd`.
- `isPending`: the disabled state of the Save, Create and Delete buttons while a request is in flight.
- Rendering and styling: JSX, the `dragging` and `drag-over` classes, `getIcon`, the loading spinner, the line-through on done tasks, showing the description only when it is non-empty, and how toasts look. Toasts are log entries.
- `handleDragOver` in both components: it only calls `preventDefault`.
- DOM event details: `preventDefault` is left out. `contains(relatedTarget)` and `confirm()` are boolean parameters.
- The `required` attribute on the title input: the browser's own check of the form before submit.
- Cards.ElapsedSince: works on whole milliseconds with exact integer division. The source divides IEEE doubles. The two agree for any elapsed time that fits in a double's 53-bit integer range.
- Text.NatToString: JavaScript's exponent notation for numbers of 1e21 and above is not modelled. No week count comes close.
- Text.Capitalize, Text.ToLower: only ASCII letters change case. Priority names and column titles are ASCII.
- Status and priority are enumerations. A store value outside the three statuses cannot be written down. The "any other priority" branch of `getPriorityColor` is kept by giving `PriorityColor` the raw name.
- The link from the dialog's `onClose` to `Home.CloseAddModal` is not composed. The dialog records the call as a `CloseCalled` log entry.
