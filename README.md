# Task Tracker, modelled in Dafny

Task Tracker keeps one list of task records, each with an id, a title, a
description, a status (`todo`, `in-progress` or `done`) and a creation time.
The list is used in two places:

- **The agent tool server** (`mcp-server/src/index.ts`). It exposes five tools:
  `list_tasks`, `create_task`, `update_task_status`, `delete_task` and
  `get_task_statistics`. A tool first checks its arguments, then reads the whole
  `tasks.json` file. The three changing tools change the array they read and write
  it back; `list_tasks` and `get_task_statistics` only read, and an unknown tool
  name reads nothing.
  Failures come back as MCP errors with one of three codes:
  - `InvalidParams` for a bad argument or an unknown id;
  - `MethodNotFound` for an unknown tool;
  - `InternalError` for anything else thrown, which in practice is a failed write.
- **The kanban page** (`src/pages/MainPage/MainPage.tsx`). It keeps the list in
  React state and in local storage, and shows it as three status columns.
  - Cards can be toggled done, deleted after a confirmation, edited and created
    through a modal form (`src/components/AddTaskModal/AddTaskModal.tsx`), and
    dragged onto a column or onto another card.
  - Interface texts come from a Russian/English table
    (`src/contexts/LanguageContext.tsx`).

The modules follow that structure:

| module | file | models |
|---|---|---|
| `Wrappers` | `wrappers.dfy` | `Option` and `Result` |
| `Seqs` | `seqs.dfy` | `filter`, `findIndex`, `find`, `splice` and the sortable library's `arrayMove` on sequences, with their algebra |
| `Text` | `text.dfy` | JavaScript `trim` and the decimal `toString` of a clock reading |
| `TaskServer` | `server.dfy` | the server's task record, argument values, the store file, and class `Server`, with one method per tool plus the dispatching call handler |
| `Kanban` | `kanban.dfy` | the page's pure list computations: columns, toggle, delete, edit, create, and the two kinds of drop |
| `MainPage` | `main_page.dfy` | class `Board`: the page's state fields and storage slot, with one method per handler and effect |
| `AddTaskModal` | `add_task_modal.dfy` | the submit rule, and class `TaskForm` with the three form fields |
| `Language` | `language.dfy` | the translation table, `t`, and class `LanguageProvider` with the saved language |

Conventions used throughout:

- The server and the page each declare their own `Task`, and the model keeps the two apart.
  - The server's `Task` stores `description` and `status` as arbitrary JavaScript values. `title`, `taskId` and the `status` of `update_task_status` are checked with `typeof`, but `create_task` never checks the type of `description` or `status`, so it stores whatever truthy value it was given.
  - The page's `Task` has a three-valued `Status`.
- Clock readings (`Date.now()`) become parameters.
  - Both copies call the clock twice per creation, once for the id and once for `createdAt`. So both readings are parameters, and the id is the decimal text of the first.
- Whether a file write succeeds becomes a boolean parameter.
- The user's answer to `confirm()` becomes a boolean parameter.

Three behaviours of the code worth knowing:

- **Reorder.** Dropping a card onto a card of the same status does not put the
  reordered group back into the group's old positions. The page builds a new list:
  first every task of another status, in its old order, then the reordered group
  (`MainPage.tsx:121-128`). `Kanban.DropRegroups` shows this on three tasks:
  dragging todo task 1 onto todo task 2 in `[1, 2, 3(done)]` gives `[3, 2, 1]`, not
  `[2, 1, 3]`. Column by column nothing is lost: the dragged column becomes the
  moved group and every other column is unchanged, which `Kanban.ReorderColumns` proves.
- **Title on create.** The server accepts any non-empty string title, including one
  made only of blanks, and stores it untrimmed. Only the page's form trims.
- **Matching by id.** The server's update and delete touch only the first task with
  the id. The page's toggle, edit and delete touch every task with it.

## Model

| member | source | states |
|---|---|---|
| Seqs.Filter | mcp-server/src/index.ts:184-186 | `filter` returns no more elements than it is given, each satisfying the predicate; `FilterCount` says which ones |
| Seqs.FilterAppend | src/pages/MainPage/MainPage.tsx:62 | filtering a concatenation is concatenating the filters, so a filter keeps relative order |
| Seqs.FilterCount | src/pages/MainPage/MainPage.tsx:62 | a filter keeps every passing element as many times as it occurs and drops every other element |
| Seqs.FilterComplement | src/pages/MainPage/MainPage.tsx:123-125 | a filter and its negation split the input between them, by multiset and by length |
| Seqs.FilterKeepsAll | src/pages/MainPage/MainPage.tsx:123-125 | a filter that every element passes returns its input |
| Seqs.FilterKeepsNone | src/pages/MainPage/MainPage.tsx:123-125 | a filter that no element passes returns the empty sequence |
| Seqs.FilterPartition3 | mcp-server/src/index.ts:331-335 | three exclusive and exhaustive filters partition the input, by length and by multiset |
| Seqs.PartitionMultiset | mcp-server/src/index.ts:331-335 | the multiset half of that partition |
| Seqs.FirstIndex | mcp-server/src/index.ts:261-263 | `findIndex` is -1 exactly when no element matches; otherwise it is the first matching position |
| Seqs.Find | src/pages/MainPage/MainPage.tsx:100-101 | `find` is absent exactly when no element matches; otherwise it is the element at the `findIndex` position |
| Seqs.RemoveAt | mcp-server/src/index.ts:310 | `splice(i, 1)` shortens the sequence by one, keeps the elements before `i`, shifts those after `i` down, and removes exactly the element at `i` |
| Seqs.InsertAt | src/pages/MainPage/MainPage.tsx:114-118 | insertion at `i` puts the element at `i`, keeps the elements before it, shifts the rest up, and adds exactly that element |
| Seqs.ArrayMove | src/pages/MainPage/MainPage.tsx:114-118 | `arrayMove` keeps the length and the multiset, and the moved element ends up at the target index |
| Seqs.ArrayMoveAt | src/pages/MainPage/MainPage.tsx:114-118 | where each element ends up after `arrayMove`: the ones between the two indices shift by one, the rest stay |
| Seqs.ArrayMoveInPlace | src/pages/MainPage/MainPage.tsx:114-118 | moving an element onto its own index changes nothing |
| Text.TrimStart | src/components/AddTaskModal/AddTaskModal.tsx:38-39 | the leading part of `trim`: a suffix of the input, everything cut off being white space, starting with a non-space |
| Text.TrimEnd | src/components/AddTaskModal/AddTaskModal.tsx:38-39 | the trailing part of `trim`: a prefix of the input, everything cut off being white space, ending with a non-space |
| Text.Trim | src/components/AddTaskModal/AddTaskModal.tsx:38-39 | `trim` never lengthens its input and never leaves white space at the end |
| Text.TrimIsInnerPiece | src/components/AddTaskModal/AddTaskModal.tsx:38-39 | `trim` returns a contiguous piece of its input with white space at neither end, everything outside it being white space |
| Text.TrimEndsTrimmed | src/components/AddTaskModal/AddTaskModal.tsx:39 | neither end of a trimmed string is white space |
| Text.TrimBounds | src/components/AddTaskModal/AddTaskModal.tsx:39 | the two cut points of `trim`, with everything outside them white space |
| Text.TrimTrimmed | src/components/AddTaskModal/AddTaskModal.tsx:39 | trimming a string with white space at neither end returns it unchanged |
| Text.TrimIdempotent | src/components/AddTaskModal/AddTaskModal.tsx:39 | trimming twice is trimming once |
| Text.TrimEmptyIff | src/components/AddTaskModal/AddTaskModal.tsx:38 | a trimmed string is empty exactly when every character of the input is white space |
| Text.Decimal | mcp-server/src/index.ts:209 | `toString` of a clock reading is a non-empty string of decimal digits with no leading zero |
| Text.DecimalRoundTrip | mcp-server/src/index.ts:209 | reading back the digits of a clock reading's id gives the reading |
| Text.DecimalInjective | src/pages/MainPage/MainPage.tsx:154 | two ids are equal exactly when the two clock readings are equal |
| TaskServer.Truthy | mcp-server/src/index.ts:200 | a value is truthy exactly when it is none of `undefined`, `null`, `false`, `0` and `''` |
| TaskServer.StrictEquals | mcp-server/src/index.ts:185 | `===` holds only between equal values that are not objects, and always between equal strings, numbers or booleans |
| TaskServer.Or | mcp-server/src/index.ts:180 | the or-operator's value is one of its operands, is `a` when `a` is truthy, and is truthy exactly when either operand is |
| TaskServer.CountStatistics | mcp-server/src/index.ts:329-336 | `total` is the number of tasks, and no per-status count exceeds it |
| TaskServer.ReadTasks | mcp-server/src/index.ts:39-51 | `readTasks` never fails: a parsed file gives its tasks, and a missing or unreadable file gives `[]` |
| TaskServer.Wrap | mcp-server/src/index.ts:354-363 | the catch block rethrows an `McpError` with its code and turns any other error into `InternalError` |
| TaskServer.NewTask | mcp-server/src/index.ts:208-214 | the created record: id from the first clock reading, the title verbatim, a truthy description or status kept as given, `''` and `'todo'` otherwise |
| TaskServer.ListStep | mcp-server/src/index.ts:178-197 | `list_tasks` always succeeds with a task list, never writes and leaves the file as it was |
| TaskServer.CreateStep | mcp-server/src/index.ts:199-217 | `create_task` writes exactly when the title is a non-empty string, succeeds exactly when that write succeeds, and then stores the read tasks with the returned record appended; a failure leaves the file, an `McpError` is `InvalidParams` before any write, and any other error is the write's |
| TaskServer.UpdateStep | mcp-server/src/index.ts:233-273 | `update_task_status` writes exactly when its arguments are valid and the id is found, succeeds exactly when that write succeeds, and then returns a task with the new status; the same error discipline |
| TaskServer.DeleteStep | mcp-server/src/index.ts:289-311 | `delete_task` writes exactly when the id is a non-empty string that is found, succeeds exactly when that write succeeds, returns a task with that id and stores one task fewer; the same error discipline |
| TaskServer.StatisticsStep | mcp-server/src/index.ts:327-346 | `get_task_statistics` always succeeds with counts whose `total` is the number of stored tasks, never writes and leaves the file as it was |
| TaskServer.Caught | mcp-server/src/index.ts:354-363 | a tool's success passes through the catch block unchanged, and its error leaves as the wrapped code |
| TaskServer.StatisticsSum | mcp-server/src/index.ts:329-336 | when every stored status is valid, the three per-status counts add up to `total` |
| TaskServer.StatisticsCount | mcp-server/src/index.ts:331-335 | each per-status count takes exactly the tasks whose status is that string |
| TaskServer.UnknownFilterListsNothing | mcp-server/src/index.ts:183-186 | a filter value that names no valid status lists nothing when every stored status is valid |
| TaskServer.Server.constructor | mcp-server/src/index.ts:24-28 | a server over the storage file as it is found, with no writes yet |
| TaskServer.Server.WriteTasks | mcp-server/src/index.ts:53-61 | one write attempt: on success the file holds the array, on failure the file is unchanged and the error is rethrown |
| TaskServer.Server.ListTasks | mcp-server/src/index.ts:178-197 | a falsy or `'all'` filter lists the stored sequence unchanged; any other value lists exactly the tasks whose status is strictly equal to it, in stored order; the call never fails; result, file and write count are exactly those `ListStep` gives |
| TaskServer.Server.CreateTask | mcp-server/src/index.ts:199-217 | a missing, empty or non-string title gives InvalidParams with no read and no write; otherwise one write of the stored tasks with the new record appended at the end, and the record is returned; result, file and write count are exactly those `CreateStep` gives |
| TaskServer.Server.UpdateTaskStatus | mcp-server/src/index.ts:233-273 | a bad id, a bad status or an unknown id gives InvalidParams with no write; otherwise only the status of the first task with the id changes, and that task is returned; result, file and write count are exactly those `UpdateStep` gives |
| TaskServer.Server.DeleteTask | mcp-server/src/index.ts:289-311 | a bad id or an unknown id gives InvalidParams with no write; otherwise the first task with the id is spliced out and returned; result, file and write count are exactly those `DeleteStep` gives |
| TaskServer.Server.GetTaskStatistics | mcp-server/src/index.ts:327-346 | read-only; `total` is the number of stored tasks, the counts are the per-status filter lengths, and they sum to `total` when every status is valid; result, file and write count are exactly those `StatisticsStep` gives |
| TaskServer.Server.CallTool | mcp-server/src/index.ts:173-364 | an unknown name gives MethodNotFound and touches nothing, and a known name never does; each known name's result is the catch block applied to that tool's own outcome, with the file and the write count that outcome gives; the read-only tools always succeed and never write; InternalError comes only from a failed write of a changing tool |
| TaskServer.CallToolOutcomes | mcp-server/src/index.ts:199-363 | on any file, a create without a title gives InvalidParams, a delete never gives MethodNotFound, and a valid create whose write fails gives InternalError and leaves the file as it was |
| Kanban.ColumnOf | src/pages/MainPage/MainPage.tsx:82-83 | a drop target is a column exactly when its id is one of the three status names, and the column's status has that name |
| Kanban.TasksByStatus | src/pages/MainPage/MainPage.tsx:61-63 | a column is no longer than the list and holds only tasks of its status |
| Kanban.ColumnsPartition | src/pages/MainPage/MainPage.tsx:216-236 | the three columns together hold every task exactly once |
| Kanban.ColumnContents | src/pages/MainPage/MainPage.tsx:61-63 | a column holds each task of its status as often as the list does, and no other task |
| Kanban.Toggled | src/pages/MainPage/MainPage.tsx:174 | a toggle never leads to in progress, and leads to todo exactly from done |
| Kanban.ToggleDone | src/pages/MainPage/MainPage.tsx:170-178 | each task with the id goes from done to todo and from any other status to done; positions and all other fields stay |
| Kanban.ToggleTwice | src/pages/MainPage/MainPage.tsx:170-178 | toggling twice restores the list, except that a task that was in progress ends in todo |
| Kanban.DeleteTask | src/pages/MainPage/MainPage.tsx:166 | no task with the id remains, and every other task keeps its multiplicity |
| Kanban.FilterCountsAll | src/pages/MainPage/MainPage.tsx:166 | deleting by id keeps every task with another id exactly as often as it occurs |
| Kanban.DeleteKeepsOrder | src/pages/MainPage/MainPage.tsx:166 | deleting distributes over concatenation, so the remaining tasks keep their relative order |
| Kanban.Merge | src/pages/MainPage/MainPage.tsx:148 | `{ ...task, ...taskData }` keeps the task's id and `createdAt` and takes all three form fields |
| Kanban.EditTask | src/pages/MainPage/MainPage.tsx:144-150 | each task with the edited id takes the form's title, description and status and keeps its id and `createdAt`; other tasks and the length stay |
| Kanban.NewTask | src/pages/MainPage/MainPage.tsx:153-157 | the created task has the form's fields, the first clock reading as its decimal id, and the second as `createdAt` |
| Kanban.MoveToColumn | src/pages/MainPage/MainPage.tsx:91-95 | each task with the dragged id gets the column's status and nothing else changes |
| Kanban.Reorder | src/pages/MainPage/MainPage.tsx:106-128 | a reorder keeps the length, and a task in the result has the dragged status exactly when it sits in the last column-length positions |
| Kanban.DragEnd | src/pages/MainPage/MainPage.tsx:72-131 | a drop with no target computes nothing, and any list a drop computes has the length of the old one |
| Kanban.DropNowhere | src/pages/MainPage/MainPage.tsx:76 | a drop with no target leaves the list alone |
| Kanban.DropOnColumn | src/pages/MainPage/MainPage.tsx:82-97 | a column drop does nothing when the dragged task already has that status, and otherwise moves it to the column |
| Kanban.DropOnTaskNoOp | src/pages/MainPage/MainPage.tsx:100-106 | a drop on a card does nothing when either task is missing or the statuses differ |
| Kanban.FoundInColumn | src/pages/MainPage/MainPage.tsx:108-112 | a task found in the list with status `s` is also found in the column of `s`, as the same task |
| Kanban.MovedColumnStatus | src/pages/MainPage/MainPage.tsx:108-118 | every task of a moved column still has the column's status |
| Kanban.DropOnSameStatus | src/pages/MainPage/MainPage.tsx:106-128 | a drop on a card of the same status always reorders, because the index check never fails |
| Kanban.ReorderIsPermutation | src/pages/MainPage/MainPage.tsx:106-128 | a reorder keeps the length and the multiset: the tasks of other statuses come first in their order, then the moved column with the dragged task at the target's index |
| Kanban.ReorderShape | src/pages/MainPage/MainPage.tsx:108-127 | a successful reorder uses the first indices of the two ids in the column, both in range, and builds the other tasks followed by the moved column |
| Kanban.ConcatPermutation | src/pages/MainPage/MainPage.tsx:127 | putting the other tasks before a permutation of the group gives a permutation of the whole list, with the parts at the expected positions |
| Kanban.FilterOthers | src/pages/MainPage/MainPage.tsx:123-125 | removing one status's tasks leaves every other column as it was |
| Kanban.OthersOutsideColumn | src/pages/MainPage/MainPage.tsx:123-125 | after one status's tasks are removed, that column is empty |
| Kanban.ReorderColumns | src/pages/MainPage/MainPage.tsx:106-128 | after a reorder, the dragged task's column is the moved group and every other column is unchanged |
| Kanban.DropRegroups | src/pages/MainPage/MainPage.tsx:121-128 | on `[1(todo), 2(todo), 3(done)]`, dragging 1 onto 2 gives `[3, 2, 1]` |
| Kanban.RegroupReorder | src/pages/MainPage/MainPage.tsx:106-128 | the reorder step of that example |
| Kanban.RegroupColumns | src/pages/MainPage/MainPage.tsx:108-110 | the column split and the indices of that example |
| MainPage.Board.constructor | src/pages/MainPage/MainPage.tsx:25-38 | the first render: no tasks, modal closed, no task being edited, nothing loaded |
| MainPage.Board.SetTasks | src/pages/MainPage/MainPage.tsx:55-59 | a new list is stored only once the load has run |
| MainPage.Board.LoadEffect | src/pages/MainPage/MainPage.tsx:41-59 | a parsed stored list replaces the list and anything else is ignored; afterwards the page is loaded and the storage holds the list |
| MainPage.Board.GetTasksByStatus | src/pages/MainPage/MainPage.tsx:61-63 | the column of the page's list is no longer than the list and holds only tasks of its status |
| MainPage.Board.HandleAddTask | src/pages/MainPage/MainPage.tsx:133-136 | the modal opens with no task being edited |
| MainPage.Board.HandleEditTask | src/pages/MainPage/MainPage.tsx:138-141 | the modal opens on the given task |
| MainPage.Board.HandleCloseModal | src/pages/MainPage/MainPage.tsx:257-260 | the modal closes and no task is being edited |
| MainPage.Board.HandleSaveTask | src/pages/MainPage/MainPage.tsx:143-162 | the edit branch merges the form data into every task with the edited id, and the create branch appends one new task; the modal closes either way; storage stays in step with the list |
| MainPage.Board.HandleDeleteTask | src/pages/MainPage/MainPage.tsx:164-168 | a confirmed delete removes every task with the id, and an unconfirmed one changes nothing |
| MainPage.Board.HandleToggleDone | src/pages/MainPage/MainPage.tsx:170-178 | the list becomes its toggled version; storage stays in step with the list |
| MainPage.Board.HandleDragEnd | src/pages/MainPage/MainPage.tsx:72-131 | the list becomes what the drop computes, or stays when the handler returns early |
| MainPage.Reload | src/pages/MainPage/MainPage.tsx:41-59 | a page that loads what a loaded page stored starts with that page's list |
| AddTaskModal.SubmitPayload | src/components/AddTaskModal/AddTaskModal.tsx:36-42 | nothing is saved exactly when the title is all white space; otherwise the saved title is the trimmed title, which is non-empty, along with the trimmed description and the chosen status |
| AddTaskModal.ResubmitUnchanged | src/components/AddTaskModal/AddTaskModal.tsx:38-39 | submitting the saved data again gives the same data |
| AddTaskModal.SubmitUnchangedTask | src/components/AddTaskModal/AddTaskModal.tsx:24-42 | opening the form on a task with trimmed fields and a non-blank title, then submitting, leaves the task unchanged when merged |
| AddTaskModal.TaskForm.constructor | src/components/AddTaskModal/AddTaskModal.tsx:20-22 | the fields start as `''`, `''` and todo |
| AddTaskModal.TaskForm.Sync | src/components/AddTaskModal/AddTaskModal.tsx:24-34 | the fields take the edited task's title, description and status, or reset to `''`, `''` and todo |
| AddTaskModal.TaskForm.SetTitle | src/components/AddTaskModal/AddTaskModal.tsx:68 | typing sets the title |
| AddTaskModal.TaskForm.SetDescription | src/components/AddTaskModal/AddTaskModal.tsx:81 | typing sets the description |
| AddTaskModal.TaskForm.SetStatus | src/components/AddTaskModal/AddTaskModal.tsx:93 | choosing sets the status |
| AddTaskModal.TaskForm.HandleSubmit | src/components/AddTaskModal/AddTaskModal.tsx:36-42 | the data passed to `onSave` is the submit payload of the fields, and `onClose` is called exactly when something is saved |
| Language.EntriesNonEmpty | src/contexts/LanguageContext.tsx:12-101 | every text in the table is non-empty in both languages |
| Language.Translate | src/contexts/LanguageContext.tsx:126-128 | a key in the table gives its text in the current language, and any other key gives the key itself |
| Language.LanguageProvider.T | src/contexts/LanguageContext.tsx:126-128 | the provider's `t` gives a key's text in its current language, or the key itself, and never renders a non-empty key as the empty string |
| Language.SavedLanguage | src/contexts/LanguageContext.tsx:115-116 | a saved value is accepted exactly when it is `'ru'` or `'en'`, and then names that language |
| Language.SavedLanguageRoundTrip | src/contexts/LanguageContext.tsx:116-123 | the stored code of a language is read back as that language |
| Language.LanguageProvider.constructor | src/contexts/LanguageContext.tsx:112 | the initial language is Russian |
| Language.LanguageProvider.LoadSaved | src/contexts/LanguageContext.tsx:114-119 | an accepted saved value becomes the language, and anything else leaves it |
| Language.LanguageProvider.SetLanguage | src/contexts/LanguageContext.tsx:121-124 | the language and the stored value become the chosen language |
| Language.ChooseThenReload | src/contexts/LanguageContext.tsx:112-124 | a chosen language is the one the next page load starts in, whatever was stored before |
| Language.UseLanguage | src/contexts/LanguageContext.tsx:137-143 | the hook fails, with its message, exactly when no provider is present, and otherwise returns the provider |

## Left out

- The MCP SDK plumbing is not modelled: the server construction, the tool descriptions, the stdio transport and `run`. These are library calls and transport.
- File and storage mechanics are abstracted: directory creation, `readFile`/`writeFile`, `JSON.parse`/`stringify` and `localStorage`.
  - The store is a value that holds tasks, is missing, or is unreadable.
  - A write either succeeds or fails. A partially written file is not modelled.
- Parsing to a value that is not an array is not modelled. Neither the server nor the page checks for it.
- Numbers are integers. NaN and fractions are not modelled, and neither are clock readings of 10^21 and above, whose `toString` switches to exponent notation.
- Text.Decimal: no claim about id uniqueness, because two creations in the same millisecond get the same id in both copies.
- The text of the error messages and of the JSON responses is not modelled. A response is kept as the value it renders.
- Rendering is not modelled: React hooks scheduling, dnd-kit sensors, `handleDragStart`, the `DragOverlay`, and the `activeTask` display state.
  - `handleDragEnd` computes its new list from the rendered `tasks` while `setTasks` receives an updater on the previous list. The model takes one sequential list, so the two are the same.
- The save effect is modelled as running right after each change of the list.
- TaskServer.Server.CallTool: calls are modelled one at a time. The handler is `async` and awaits both the file read and the write, and nothing serialises two calls. So two overlapping `create_task` calls can read the same array, and the later write then loses the earlier task. The model does not capture such interleaved calls.
- Text.Trim: strings are sequences of Unicode scalar values, while JavaScript strings are UTF-16 code units. Every character `trim` removes is in the Basic Multilingual Plane, so the two differ only on strings with lone surrogates, which the model cannot represent.
- The components that only render, or only glue to the DOM, are not part of this model: `TaskCard`, `TaskColumn`, `ThemeToggle`, `LanguageToggle` and `App`.
- Language.Translate: a key that names a property of `Object.prototype`, such as `constructor`, also falls back to the key in the code. Dafny maps have no prototype, so the model does not show that path.
- The browser's `required` check on the title input is not modelled. It only blocks an empty title, which the submit rule already refuses.
