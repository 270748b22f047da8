# MarTasks client core in Dafny

This project models the client-side logic of MarTasks, a task tracker that runs as a Telegram Mini App (Next.js and React). The model covers these parts:

- The application store's reducer.
- The API value classes: users, tasks, task statistics and paginated responses.
- The Kanban board's column grouping and its drag-and-drop decision.
- The task list page's filter, search, counts and toggle.
- The project creation page and the task creation form.
- The three feedback utilities:
  - `vibrate` and its wrappers;
  - the `HapticFeedback` class;
  - the `TelegramWebAppManager` class.

Pure code becomes datatypes, functions and lemmas. Component state that handlers update becomes a class whose methods state the new state:

- `Kanban.Board`
- `TaskList.TasksPage`
- `ProjectForm.CreateProjectPage`
- `TaskForm.CreateTaskForm`
- `Haptic.HapticFeedback`
- `Bridge.TelegramWebAppManager`

Each module follows one source file:

| module | source file |
|---|---|
| `Js` | JavaScript values the code relies on: `null`/`undefined`, truthiness, `||` defaults, `trim`, `toLowerCase`, `includes`, string `<` |
| `Seqs` | `Array.prototype.filter`, `map` and `find`, with order and membership lemmas |
| `Domain` | `src/app/types/api.js` |
| `Store` | `src/app/contexts/AppContext.js` |
| `Kanban` | `src/app/components/TasksTable.js` |
| `TaskList` | `src/app/projects/tasks/page.js` |
| `ProjectForm` | `src/app/projects/create/page.js` |
| `TaskForm` | `src/app/components/CreateTaskForm.js` |
| `Host` | the browser `window`, `navigator` and `window.Telegram.WebApp`, as a record of what is present |
| `Haptic` | `src/app/utils/hapticFeedback.js` |
| `Vibration` | `src/app/utils/vibration.js` |
| `Bridge` | `src/app/utils/telegramWebApp.js` |

JavaScript details are made explicit:

- `None` stands for `null` or `undefined` in values the code reads. For a parameter with a default value, `None` stands for an omitted argument, to which the default applies.
- `||` falls back on `''`, `0`, `null` and `undefined`.
- `typeof f === 'function'` is `IsFunction`.
- A host function is `Absent`, or `Callable(throws)`, which records whether calling it throws.
- The clock, the outcome of network calls and the end of polling are inputs.

The Kanban column id `in-progress` differs from the API status `in_progress`. The model keeps this mismatch as written. `Kanban.InProgressColumnMismatch` shows that an `in_progress` task dropped on its own column emits `in-progress`, a status no column collects.

## Model

| member | source | states |
|---|---|---|
| Js.Or | src/app/types/api.js:46 | `a || b` on an optional string: `a` when it is a non-empty string, otherwise `b` |
| Js.OrNat | src/app/types/api.js:153-157 | `a || fallback` on a count: `0`, `null` and `undefined` fall back |
| Js.TrimStart | src/app/projects/create/page.js:70 | removes exactly the leading whitespace: the result is a suffix, everything cut off is whitespace, and the result does not start with whitespace |
| Js.TrimEnd | src/app/projects/create/page.js:70 | removes exactly the trailing whitespace: the result is a prefix, everything cut off is whitespace, and the result does not end with whitespace |
| Js.Trim | src/app/projects/create/page.js:70 | `trim()` yields a string with no whitespace at either end, no longer than its input |
| Js.TrimIsInfix | src/app/projects/create/page.js:70 | what `trim()` keeps is an infix of its input with only whitespace outside it, so it is the longest infix without whitespace at either end |
| Js.TrimIdempotent | src/app/components/CreateTaskForm.js:58 | trimming twice is trimming once |
| Js.IncludesAt | src/app/projects/tasks/page.js:77-78 | `includes` holds exactly when the query occurs at some index |
| Js.StrLessIrreflexive | src/app/projects/create/page.js:93 | string `<` is irreflexive, so equal dates never compare as before |
| Seqs.FindIsFirst | src/app/components/TasksTable.js:256 | `find` returns the first element that satisfies the callback, or nothing when none does |
| Seqs.FilterIsSubsequence | src/app/projects/tasks/page.js:68 | `filter` keeps exactly the elements the callback accepts, in their original order |
| Seqs.FilterIdempotent | src/app/contexts/AppContext.js:109 | filtering twice with the same callback is filtering once |
| Seqs.FilterAppend | src/app/contexts/AppContext.js:93 | filtering a concatenation is concatenating the filtered parts |
| Seqs.FilterDistinct | src/app/projects/create/page.js:82 | filtering a duplicate-free list leaves it duplicate-free |
| Seqs.FilterOutOne | src/app/projects/create/page.js:82 | removing a value that occurs once shortens the list by exactly one |
| Domain.FullName | src/app/types/api.js:41-43 | the non-empty first and last names joined by one space, else `username`, else `Пользователь`; never empty |
| Domain.DisplayName | src/app/types/api.js:45-47 | `firstName || username || 'Пользователь'`; never empty |
| Domain.DisplayNameStartsFullName | src/app/types/api.js:41-47 | with a first name set, the display name is a prefix of the full name |
| Domain.IsCompleted | src/app/types/api.js:98-100 | `isCompleted`: the status is `done` |
| Domain.IsOverdue | src/app/types/api.js:102-105 | `isOverdue` at the moment `now`: an open task whose due date has passed; `NeverOverdue` and `OverdueIsMonotonic` state its properties |
| Domain.NeverOverdue | src/app/types/api.js:102-105 | a completed task, or one without a due date, is never overdue |
| Domain.OverdueIsMonotonic | src/app/types/api.js:102-105 | once overdue, a task stays overdue as the clock advances |
| Domain.StatusText | src/app/types/api.js:107-115 | the Russian label of a known status, otherwise the raw status |
| Domain.PriorityText | src/app/types/api.js:117-126 | the Russian label of a known priority, otherwise the raw priority |
| Domain.PriorityColor | src/app/types/api.js:128-137 | the colour class of a known priority, otherwise `text-gray-500` |
| Domain.StatusColor | src/app/types/api.js:139-147 | the colour class of a known status, otherwise `text-gray-500` |
| Domain.BadgeStatusColor | src/app/types/api.js:203-211 | badge classes of a known status, otherwise `bg-gray-100 text-gray-600` |
| Domain.BadgePriorityColor | src/app/types/api.js:214-223 | badge classes of a known priority, otherwise `bg-gray-100 text-gray-600` |
| Domain.KnownValuesAreLabelled | src/app/types/api.js:107-147 | the four statuses and the five priorities each have a label and a colour |
| Domain.NewStatistics | src/app/types/api.js:151-158 | every missing or zero count becomes 0, and every other count is kept |
| Domain.ProgressPercentage | src/app/types/api.js:160-163 | 0 with no tasks; otherwise the integer nearest to `done / total * 100` |
| Domain.ProgressWithinBounds | src/app/types/api.js:160-163 | with no more done tasks than tasks, the percentage lies in 0..100 |
| Domain.NewPage | src/app/types/api.js:167-173 | items converted one by one, in order; `total` defaults to 0, `page` to 1 and `perPage` to 10, so `perPage` is never 0 |
| Domain.CeilDiv | src/app/types/api.js:175-177 | `Math.ceil(n / d)`: the least `r` with `n <= r * d` |
| Domain.TotalPages | src/app/types/api.js:175-177 | `totalPages`: the least page count whose pages hold `total` items |
| Domain.HasNextPage | src/app/types/api.js:179-181 | `hasNextPage`: `page < totalPages`, characterised by `HasNextPageIff` |
| Domain.HasPreviousPage | src/app/types/api.js:183-185 | `hasPreviousPage`: `page > 1` |
| Domain.NoPagesIffEmpty | src/app/types/api.js:175-177 | there are no pages exactly when `total` is 0 |
| Domain.HasNextPageIff | src/app/types/api.js:179-181 | a next page exists exactly when `page * perPage < total` |
| Domain.LastPageHasNoNext | src/app/types/api.js:179-185 | the last page has no next page; with more than one page, it has a previous one |
| Store.Reduce | src/app/contexts/AppContext.js:36-122 | `appReducer`: only SET_USER and LOGOUT touch the user and the authentication flag, and every action that changes data ends loading |
| Store.SetLoadingOnly | src/app/contexts/AppContext.js:38-39 | SET_LOADING changes only `loading` |
| Store.SetErrorStopsLoading | src/app/contexts/AppContext.js:41-42 | SET_ERROR records the error, forces `loading` to false, and changes nothing else |
| Store.SetUserAuthenticates | src/app/contexts/AppContext.js:44-50 | SET_USER stores the user, authenticates exactly when a user is given, and clears the error |
| Store.SetCurrentProjectOnly | src/app/contexts/AppContext.js:58-59 | SET_CURRENT_PROJECT changes only `currentProject` |
| Store.AuthConsistentPreserved | src/app/contexts/AppContext.js:36-122 | "authenticated exactly when a user is stored" holds initially and after every action |
| Store.AddProjectAppends | src/app/contexts/AppContext.js:61-66 | ADD_PROJECT yields `projects ++ [project]` with `loading` false; nothing else changes |
| Store.UpdateProjectReplaces | src/app/contexts/AppContext.js:68-78 | UPDATE_PROJECT keeps length and order and replaces exactly the projects with the payload's id; the current project is replaced only when its id matches; loading ends and nothing else changes |
| Store.DeleteProjectRemoves | src/app/contexts/AppContext.js:80-88 | DELETE_PROJECT keeps exactly the projects with another id, in order; the current project is cleared only when its id matches; loading ends and nothing else changes |
| Store.DeleteProjectClearsDangling | src/app/contexts/AppContext.js:80-88 | after DELETE_PROJECT the current project never has the deleted id |
| Store.AddTaskAppends | src/app/contexts/AppContext.js:90-95 | ADD_TASK yields `tasks ++ [task]` with `loading` false; nothing else changes |
| Store.UpdateTaskReplaces | src/app/contexts/AppContext.js:97-104 | UPDATE_TASK keeps length and order, replaces each task with the payload's id, and leaves every other task and field alone |
| Store.DeleteTaskRemoves | src/app/contexts/AppContext.js:106-111 | DELETE_TASK leaves no task with the id, keeps every other task in order, and changes no other field |
| Store.DeleteTaskIdempotent | src/app/contexts/AppContext.js:106-111 | applying DELETE_TASK twice equals applying it once |
| Store.DeleteUndoesAdd | src/app/contexts/AppContext.js:90-111 | deleting a task just added under a fresh id restores the task list |
| Store.DeleteAfterUpdate | src/app/contexts/AppContext.js:97-111 | on the task list, update-then-delete by an id equals delete |
| Store.DeleteAfterUpdateTask | src/app/contexts/AppContext.js:97-111 | on the whole state, UPDATE_TASK followed by DELETE_TASK of that id equals DELETE_TASK |
| Store.LogoutResets | src/app/contexts/AppContext.js:113-120 | LOGOUT returns the initial state from any state; an unknown action changes nothing |
| Kanban.StatusColumns | src/app/components/TasksTable.js:232-244 | four columns `backlog`, `todo`, `in-progress`, `done` with their titles, in that order; each holds exactly the tasks its status filter accepts |
| Kanban.ColumnsPreserveOrder | src/app/components/TasksTable.js:232-237 | each column keeps the relative order of `tasks` |
| Kanban.ColumnsDisjoint | src/app/components/TasksTable.js:232-237 | no task is in two columns |
| Kanban.CollectedOnce | src/app/components/TasksTable.js:232-237 | no status is collected by two columns |
| Kanban.ColumnOfStatus | src/app/components/TasksTable.js:232-237 | a status lands in some column exactly when it is one of backlog, todo, pending, in_progress, done, completed |
| Kanban.ColumnSizes | src/app/components/TasksTable.js:232-237 | the column sizes add up to the number of tasks whose status is on the board |
| Kanban.TaskWithId | src/app/components/TasksTable.js:256 | the found task is in `tasks` and has the id; nothing is found exactly when no task has the id |
| Kanban.CandidateStatus | src/app/components/TasksTable.js:260-272 | a column id verbatim, else the status of the task dropped on, else the dragged task's own status |
| Kanban.DropChange | src/app/components/TasksTable.js:250-278 | no change without a target or a dragged task; otherwise a change exactly when the candidate differs from the task's status, carrying the active id |
| Kanban.DropChangeOrigin | src/app/components/TasksTable.js:260-277 | an emitted status is a column id or some task's status, and never the dragged task's own status |
| Kanban.DropOnSameStatus | src/app/components/TasksTable.js:266-277 | dropping on a task with the same status emits nothing |
| Kanban.DropOnOwnColumn | src/app/components/TasksTable.js:263-277 | a backlog, todo or done task dropped on its own column emits nothing |
| Kanban.InProgressColumnMismatch | src/app/components/TasksTable.js:263-277 | an `in_progress` task dropped on its own column emits `in-progress`, which no column collects |
| Kanban.Board.constructor | src/app/components/TasksTable.js:222 | `activeId` starts as null |
| Kanban.Board.DragStart | src/app/components/TasksTable.js:246-248 | records the dragged id |
| Kanban.Board.DragEnd | src/app/components/TasksTable.js:250-278 | always clears `activeId`, and returns the status change `DropChange` decides |
| Kanban.Board.ActiveTask | src/app/components/TasksTable.js:280 | the task with the truthy active id, or nothing |
| TaskList.ToggledStatus | src/app/projects/tasks/page.js:29-32 | `todo` exactly when `currentStatus` is the string `done`; `done` for every other value, `undefined` included |
| TaskList.ButtonToggle | src/app/projects/tasks/page.js:205 | as written, the check button sends `done` for every task, because the wrapper passes `handleTaskToggle` only the id |
| TaskList.WrappedToggleAlwaysDone | src/app/projects/tasks/page.js:38 | for a done task the button as written sends `done` again, where the intended toggle sends `todo` |
| TaskList.IntendedToggle | src/app/projects/tasks/page.js:31 | with the task's own status passed on, `done` becomes `todo` and every other status becomes `done` |
| TaskList.ToggleTwice | src/app/projects/tasks/page.js:31 | with the intended toggle, toggling twice restores `todo` and `done`, and turns any other status into `todo` |
| TaskList.FilteredTasks | src/app/projects/tasks/page.js:68-81 | exactly the tasks that pass the status filter and the search, in store order |
| TaskList.ShowAll | src/app/projects/tasks/page.js:68-81 | with an empty query, `all` or any unknown filter key shows every task |
| TaskList.SearchMatchesAt | src/app/projects/tasks/page.js:76-78 | a non-empty query matches when its lower-cased form occurs in the lower-cased title or description |
| TaskList.ToLowerIdempotent | src/app/projects/tasks/page.js:77 | lower-casing twice is lower-casing once |
| TaskList.SearchIgnoresQueryCase | src/app/projects/tasks/page.js:76-78 | a query and its lower-cased form show the same tasks |
| TaskList.FilterOptions | src/app/projects/tasks/page.js:154-158 | four buttons `all`, `pending`, `completed`, `overdue`; the `all` count is the number of tasks and no count exceeds it |
| TaskList.CountsMatchFilter | src/app/projects/tasks/page.js:154-158 | each button's count is the number of tasks its filter shows with an empty search |
| TaskList.TasksPage.constructor | src/app/projects/tasks/page.js:20-23 | filter `all`, empty query, form closed, no project selected |
| TaskList.TasksPage.ChangeFilter | src/app/projects/tasks/page.js:39 | sets the filter and nothing else |
| TaskList.TasksPage.ChangeSearchQuery | src/app/projects/tasks/page.js:146 | sets the query and nothing else |
| TaskList.TasksPage.ShowCreateTaskForm | src/app/projects/tasks/page.js:52-61 | with no project, alerts and leaves the form closed; with exactly one, preselects it; otherwise opens the form |
| TaskList.TasksPage.CloseCreateTaskForm | src/app/projects/tasks/page.js:63-66 | closes the form and clears the selected project |
| TaskList.TasksPage.Shown | src/app/projects/tasks/page.js:68-81 | the rendered list is `filteredTasks` for the page's filter and query: exactly the tasks passing both, in store order, and every task when neither applies |
| ProjectForm.WithField | src/app/projects/create/page.js:62 | the named field takes the value; every other field and the tags are unchanged |
| ProjectForm.TeamSizeInput | src/app/projects/create/page.js:282 | `parseInt(value) || 1`: never 0, and NaN or 0 becomes 1 |
| ProjectForm.ClearError | src/app/projects/create/page.js:64-66 | a set error under the field's key is blanked; every other error is unchanged |
| ProjectForm.WithTag | src/app/projects/create/page.js:69-77 | appends the trimmed tag exactly when it is non-empty and not yet present |
| ProjectForm.WithoutTag | src/app/projects/create/page.js:79-84 | removes exactly that value; the other tags keep their order |
| ProjectForm.WithTagWellFormed | src/app/projects/create/page.js:69-77 | adding keeps the tags duplicate-free, non-empty and trimmed |
| ProjectForm.WithoutTagWellFormed | src/app/projects/create/page.js:79-84 | removing keeps the tags well formed and drops exactly one tag when it is present |
| ProjectForm.RemoveUndoesAdd | src/app/projects/create/page.js:69-84 | removing a tag just added restores the tag list |
| ProjectForm.ProjectErrors | src/app/projects/create/page.js:86-99 | a name error exactly when the trimmed name is empty; an end-date error exactly when both dates are set and the start sorts after the end; the messages as written |
| ProjectForm.IsValidIff | src/app/projects/create/page.js:86-99 | the form is valid exactly when the name is not blank and the dates are not reversed |
| ProjectForm.SameDayIsValid | src/app/projects/create/page.js:93-95 | a named project that starts and ends on the same day is valid |
| ProjectForm.InitialFormInvalid | src/app/projects/create/page.js:22-32 | the initial form cannot be submitted, and its tags are well formed |
| ProjectForm.CreateProjectPage.constructor | src/app/projects/create/page.js:22-36 | the initial form, an empty tag input and no errors |
| ProjectForm.CreateProjectPage.InputChange | src/app/projects/create/page.js:61-67 | sets the field and clears its error, keeping the tag invariant |
| ProjectForm.CreateProjectPage.SetNewTag | src/app/projects/create/page.js:299 | sets the tag input and nothing else |
| ProjectForm.CreateProjectPage.AddTag | src/app/projects/create/page.js:69-77 | adds the tag and clears the input only when the tag is accepted; keeps the tag invariant |
| ProjectForm.CreateProjectPage.RemoveTag | src/app/projects/create/page.js:79-84 | removes the tag, keeping the tag invariant |
| ProjectForm.CreateProjectPage.ValidateForm | src/app/projects/create/page.js:86-99 | replaces `errors` with the fresh error object and returns whether it is empty |
| ProjectForm.CreateProjectPage.Submit | src/app/projects/create/page.js:101-115 | an invalid form is never sent; a valid one is sent and ends in navigation to `/projects` or in the submit error |
| TaskForm.WithField | src/app/components/CreateTaskForm.js:27 | the named field takes the value; every other field is unchanged |
| TaskForm.ClearError | src/app/components/CreateTaskForm.js:29-31 | a set error under the field's key becomes null; every other error is unchanged |
| TaskForm.TaskErrors | src/app/components/CreateTaskForm.js:34-47 | a title error exactly when the trimmed title is empty; a due-date error exactly when a due date is set and lies in the past |
| TaskForm.IsValidIff | src/app/components/CreateTaskForm.js:34-47 | the form is valid exactly when the title is not blank and no set due date lies in the past |
| TaskForm.Payload | src/app/components/CreateTaskForm.js:57-62 | trimmed title; description trimmed, or null when blank; due date, or null when empty; priority unchanged |
| TaskForm.ValidPayloadHasTitle | src/app/components/CreateTaskForm.js:52-62 | a valid form sends a non-empty title |
| TaskForm.PayloadIdempotent | src/app/components/CreateTaskForm.js:57-62 | a payload put back into the form normalises to itself |
| TaskForm.CreateTaskForm.constructor | src/app/components/CreateTaskForm.js:17-24 | the default form (priority medium) and no errors |
| TaskForm.CreateTaskForm.InputChange | src/app/components/CreateTaskForm.js:26-32 | sets the field and nulls its error if one was set |
| TaskForm.CreateTaskForm.ValidateForm | src/app/components/CreateTaskForm.js:34-47 | replaces `errors` with the fresh error object and returns whether it is empty |
| TaskForm.CreateTaskForm.Submit | src/app/components/CreateTaskForm.js:49-78 | an invalid form sends nothing; a valid one sends the payload, and only on success resets the form and errors and closes |
| TaskForm.CreateTaskForm.Close | src/app/components/CreateTaskForm.js:80-89 | resets to the defaults, clears the errors and always closes |
| Host.TelegramWebApp | src/app/utils/hapticFeedback.js:12 | the Telegram object is seen only when `window` exists |
| Haptic.CheckSupport | src/app/utils/hapticFeedback.js:20-35 | `checkSupport`: a window, a Telegram object with `HapticFeedback`, and a platform other than `unknown` and `desktop` |
| Haptic.Through | src/app/utils/hapticFeedback.js:46-51 | a call through a missing host function is skipped; otherwise it is made, and a throw is swallowed |
| Haptic.HapticFeedback.constructor | src/app/utils/hapticFeedback.js:11-35 | `webApp` and `isSupported` are fixed once; support requires a window, `HapticFeedback`, and a platform other than `unknown` or `desktop` |
| Haptic.HapticFeedback.ImpactOccurred | src/app/utils/hapticFeedback.js:41-52 | no call when unsupported; otherwise the style (default `medium`) forwarded unchanged when the host function exists |
| Haptic.HapticFeedback.NotificationOccurred | src/app/utils/hapticFeedback.js:58-69 | no call when unsupported; otherwise the type (default `success`) forwarded unchanged when the host function exists |
| Haptic.HapticFeedback.SelectionChanged | src/app/utils/hapticFeedback.js:74-85 | no call when unsupported; otherwise one selection call when the host function exists |
| Haptic.HapticFeedback.Perform | src/app/utils/hapticFeedback.js:41-85 | each kind of request goes to its own method; `HapticTypesDispatch` and `PresetsAgreeWithTypes` state what the dispatch means |
| Haptic.HapticFeedback.GetSupportInfo | src/app/utils/hapticFeedback.js:91-99 | presence flags mirror the object; platform and version fall back to `unknown` and are never empty |
| Haptic.Classify | src/app/utils/vibration.js:72-87 | light, medium, heavy, rigid and soft are impacts; success, error and warning notifications; selection a selection; anything else is unrecognised |
| Haptic.WrapperRequest | src/app/utils/hapticFeedback.js:135-158 | a recognised type gives its own request; an omitted or unrecognised type gives a light impact |
| Haptic.WithHapticFeedback | src/app/utils/hapticFeedback.js:135-163 | feedback for the request, then `onClick` exactly once when given; `WrapperAlwaysRequests` states the fallback |
| Haptic.WrapperAlwaysRequests | src/app/utils/hapticFeedback.js:155-158 | an unrecognised type gives the same feedback as a light impact |
| Haptic.PresetRequest | src/app/utils/hapticFeedback.js:112-127 | the request each named helper makes |
| Haptic.PresetsAgreeWithTypes | src/app/utils/hapticFeedback.js:112-127 | each helper makes the request its type name stands for: button tap light, toggle selection, navigation medium, confirm heavy |
| Vibration.IsVibrationSupported | src/app/utils/vibration.js:16-29 | false without a window; otherwise the standard API, or a Telegram object on a device that is not iOS |
| Vibration.PatternsArePositive | src/app/utils/vibration.js:32-59 | every pattern is non-empty, and every duration is positive and at most 200 ms |
| Vibration.Pattern | src/app/utils/vibration.js:32-59 | `VIBRATION_PATTERNS`: the nine fixed patterns; `PatternsArePositive` bounds them |
| Vibration.Vibrate | src/app/utils/vibration.js:68-126 | haptics exactly when the type is recognised and `HapticFeedback` is live; otherwise `navigator.vibrate(pattern)` exactly when supported or forced, not vetoed by Telegram, and the API exists |
| Vibration.HapticTypesDispatch | src/app/utils/vibration.js:70-88 | with `HapticFeedback` present, each recognised type becomes exactly one call of its kind |
| Vibration.UnrecognisedTypeFallsThrough | src/app/utils/vibration.js:70-92 | a null, empty or unrecognised type behaves as no type |
| Vibration.UnsupportedIsSilent | src/app/utils/vibration.js:95-98 | unsupported and unforced means no vibration |
| Vibration.TelegramSuppresses | src/app/utils/vibration.js:101-114 | a desktop or unknown platform, or `isExpanded === false`, silences even a forced call; an undefined `isExpanded` does not |
| Vibration.ForceIsMonotonic | src/app/utils/vibration.js:95-125 | whatever vibrates unforced vibrates the same way when forced |
| Vibration.WithVibration | src/app/utils/vibration.js:134-141 | one unforced `vibrate` with type default `light`, then, when `onClick` is given, exactly one call of it whose only argument is the wrapper's first; `WrappedHandlersPreferHaptics` states the resulting feedback |
| Vibration.WrapperForwardsFirstArgument | src/app/utils/vibration.js:135-139 | `onClick` sees `undefined` from its second parameter on, and argument lists that agree on their first element give the same click |
| Vibration.WrappedHandlersPreferHaptics | src/app/utils/vibration.js:134-141 | a handler wrapped with only a pattern gives a light impact whenever `HapticFeedback` is present |
| Vibration.PresetArgs | src/app/utils/vibration.js:146-197 | the (pattern, haptic type) pair each `vibrateX` helper passes |
| Vibration.VibratePreset | src/app/utils/vibration.js:146-197 | each helper is an unforced `vibrate` with its pair; what that does is stated by `PresetsUseHapticsFirst` |
| Vibration.PresetsUseHapticsFirst | src/app/utils/vibration.js:146-197 | every helper's type is recognised, so with `HapticFeedback` present a helper never reaches `navigator.vibrate` |
| Bridge.GuardedCalls | src/app/utils/telegramWebApp.js:108-112 | a guarded action calls the host exactly when the property is a function |
| Bridge.ThemeCalls | src/app/utils/telegramWebApp.js:189-216 | the header setter is called when present; the background setter is called when present and the header call did not throw |
| Bridge.EventCalls | src/app/utils/telegramWebApp.js:242-269 | both subscriptions when `onEvent` works, the first only when it throws, none when it is missing |
| Bridge.SetupCalls | src/app/utils/telegramWebApp.js:71-100 | the calls `setupWebApp` makes, step by step in source order; `SetupOnFullClient` and `SetupCallsAreGuarded` state its properties |
| Bridge.SetupOnFullClient | src/app/utils/telegramWebApp.js:71-100 | on a complete client, setup makes expand, fullscreen, closing confirmation, header, background, ready and both subscriptions, in that order |
| Bridge.SetupCallsAreGuarded | src/app/utils/telegramWebApp.js:71-100 | setup calls only functions the object offers, never disables closing confirmation, and makes at most eight calls |
| Bridge.TelegramWebAppManager.constructor | src/app/utils/telegramWebApp.js:10-14 | `webApp` null, not initialised, no promise |
| Bridge.TelegramWebAppManager.Adopt | src/app/utils/telegramWebApp.js:31-43 | stores the object, runs setup, marks it initialised and resolves true |
| Bridge.TelegramWebAppManager.Init | src/app/utils/telegramWebApp.js:20-66 | memoised: a later call changes nothing; without a window resolves false; with the object present adopts it; otherwise stays pending |
| Bridge.TelegramWebAppManager.FinishPolling | src/app/utils/telegramWebApp.js:50-61 | only a pending promise is affected: the found object is adopted, and the timeout resolves false with nothing initialised |
| Bridge.TelegramWebAppManager.Guarded | src/app/utils/telegramWebApp.js:105-121 | true exactly when the host function exists and returned |
| Bridge.TelegramWebAppManager.ExpandApp | src/app/utils/telegramWebApp.js:105-121 | false without the object; otherwise true exactly when `expand` exists and did not throw |
| Bridge.TelegramWebAppManager.RequestFullscreenMode | src/app/utils/telegramWebApp.js:126-142 | the same for `requestFullscreen` |
| Bridge.TelegramWebAppManager.EnableConfirmation | src/app/utils/telegramWebApp.js:147-163 | the same for `enableClosingConfirmation` |
| Bridge.TelegramWebAppManager.DisableConfirmation | src/app/utils/telegramWebApp.js:168-184 | the same for `disableClosingConfirmation` |
| Bridge.TelegramWebAppManager.ReadyApp | src/app/utils/telegramWebApp.js:221-237 | the same for `ready` |
| Bridge.TelegramWebAppManager.SetThemeColors | src/app/utils/telegramWebApp.js:189-216 | false without the object; otherwise true exactly when both setters exist and neither threw; defaults `#7370fd` and `#ffffff` |
| Bridge.TelegramWebAppManager.SetupEventListeners | src/app/utils/telegramWebApp.js:242-269 | no call without the object; otherwise the subscriptions `EventCalls` describes |
| Bridge.TelegramWebAppManager.SetupWebApp | src/app/utils/telegramWebApp.js:71-100 | no call without the object; otherwise the setup steps in source order |
| Bridge.TelegramWebAppManager.IsReady | src/app/utils/telegramWebApp.js:335-337 | ready exactly when initialised and holding the object |
| Bridge.TelegramWebAppManager.GetSupportInfo | src/app/utils/telegramWebApp.js:294-323 | unavailable exactly without the object; otherwise each feature flag is the matching presence check |
| Bridge.ReadyIffResolvedTrue | src/app/utils/telegramWebApp.js:335-337 | in every reachable state, ready exactly when `init` resolved true |

## Left out

- `src/app/utils/api.js` (the REST client) is not part of this model. It does network I/O, `localStorage` access and URL encoding.
- The `AppProvider` action creators in `AppContext.js` are left out. This covers `loadProjects`, `createTask`, `checkAuth` and `logout`. They await network calls and then dispatch actions; only the reducer is modelled.
- Clock reads are inputs:
  - `Domain.IsOverdue` takes `now`.
  - `TaskForm.TaskErrors` takes `dueInPast`, the result of `new Date(due_date) < new Date()`.
- Network and callback outcomes are inputs:
  - `createSucceeds` stands for `createProject` resolving.
  - `submitSucceeds` stands for `onSubmit` resolving.
  - `Submit` returns the data sent; React re-rendering and routing are not modelled.
- Domain.ProgressPercentage: rounds the exact quotient half up. It does not model floating-point division followed by `Math.round`; the two can differ only by the float's rounding error.
- Js.Trim: the whitespace set is ECMAScript's, applied to characters; surrogate pairs are not modelled.
- Js.LowerChar: lower-cases Basic Latin and basic Cyrillic (`А`–`Я`, `Ё` and `Ѐ`–`Џ`) only. Other scripts are left unchanged rather than following the full Unicode case mapping.
- Date fields compare as strings (`StrLess`), as the source's `startDate > endDate` does. Date parsing and formatting (`formatDate`, `formatDateTime`) are left out.
- JavaScript objects used as maps are Dafny maps. Prototype keys such as `constructor`, which `statusMap[status]` would also find, are not modelled.
- The constructors of `User`, `Project`, `ProjectMember` and `Task`, and the `ProjectRole` constants, only copy and rename fields. The datatypes stand for them.
- dnd-kit internals are left out: sensors, collision detection and `DragOverlay`. `over` and `active` are inputs.
- Every `console` call is left out, together with `logInfo` (telegramWebApp.js:274-289) and `checkVibrationSupport` (vibration.js:202-215), which only log.
- Bridge.TelegramWebAppManager.Init: `setInterval` and `setTimeout` are not modelled. The end of polling is the separate step `FinishPolling`, whose input says whether the object was found before the five-second timeout.
- Bridge.TelegramWebAppManager.GetSupportInfo: the `state` part (viewport sizes, colour scheme) is not modelled.
- Bridge.TelegramWebAppManager.IsReady: returns a boolean, where the source returns `this.webApp` when initialised.
- `getWebApp` returns the stored object; the field `webApp` stands for it.
- The singleton instances and the one-line exported wrappers around them are modelled by calling the class members directly. This covers `initTelegramWebApp`, `expandTelegramWebApp`, `impactOccurred` and the others.
- Defaulted parameters receive `None` only when the argument is omitted. An explicit `null` is not modelled: JavaScript would pass it on instead of applying the default. This affects `setThemeColors`, `impactOccurred`, `notificationOccurred`, `vibrate` and `withVibration`, where a `null` type turns haptics off. No caller in the modelled code passes `null`.
- Haptic.HapticFeedback.constructor: the `WebApp` object is captured as an immutable value. Later changes to the live object are not seen.
- Vibration.Vibrate: the catch around the haptic dispatch is not modelled, because the `HapticFeedback` methods swallow every host error before it could run.
- Vibration.Vibrate: an exception from `navigator.vibrate` is swallowed and gives the same outcome as a call that returned. The model records the attempted call.
- Vibration.IsVibrationSupported: without `window` there is no `navigator` check. The user agent's iOS test is the input `isIOS`.
- The `withVibration` wrappers around the page handlers are modelled by `Vibration.WithVibration`, which passes `onClick` only the wrapper's first argument. The page methods model only the wrapped handler's own state change. Of the wrapped handlers, only the task toggle is called with more than one argument. Its call path is `TaskList.ButtonToggle` (see Findings).
- Rendering (JSX, framer-motion, icons) is left out, along with the pages that only render or copy input. These are the settings, profile, font demo and layout pages, `TaskModal`, `CustomButton`, `PageTransition`, `ClientProviders` and `VibrationTest`.

## Findings

| source | as written | input that shows it | evidently intended | confidence | as-written member | corrected member |
|---|---|---|---|---|---|---|
| src/app/projects/tasks/page.js:205 | the check button calls `handleTaskToggleWithVibration(task.id, task.status)`, but `withVibration` (`src/app/utils/vibration.js:135-139`) passes `handleTaskToggle` only its first argument, so `currentStatus` is `undefined` and every click sends `done` | a task with status `done`: the click sends `done`, and the task cannot be reopened from the list | `handleTaskToggle` receives the task's status, so a done task is sent `todo` | high, not executed | TaskList.ButtonToggle | TaskList.IntendedToggle |
