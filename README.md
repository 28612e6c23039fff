# PilotPad checklist rules in Dafny

PilotPad is a React and TypeScript web application for pilots. It has two
kinds of checklist:

- a personal to-do list with tasks, priorities and categories, where
  `sequential` categories lock a task until the ones before it are done;
- the shared FAA checklists (Taxi Approval, Takeoff Approval, Landing
  Approval, ...), which must be worked through in order, category by category
  and task by task. The progress on them gives the user's flight status.

This project models the rules behind both and proves properties of them:

- the sequencing and lock rules of the personal and FAA category sections and
  of the work page;
- the sorting and filtering that decide what a section shows;
- the flight-status aggregation;
- the merge of fetched FAA tasks with the user's progress records, and the
  progress upsert;
- the admin guard on FAA task edits;
- the click and confirmation gates of the two task cards and of the
  dashboard's delete-category dialog;
- the list updates the `useTasks` and `useCategories` hooks make after each
  database call;
- the payloads the two task forms build;
- the screen the application shell chooses.

The hosted database is not modelled. Each call's reply (`{ data, error }`) is
an input of the method that makes the call. The method returns the request it
sends, so "no write was made" can be stated. Clocks (`new Date()`) are inputs
too. Components become functions, and their `useState` fields become classes
whose methods are the handlers.

Files, one module each (the first holds two small modules):

- `lists.dfy`: `Wrappers` (Option) and `Lists`, which holds filter, find,
  replace and remove by key, and a stable insertion sort. The sort is used
  for JavaScript's `Array.prototype.sort`, which is stable.
- `rows.dfy`: the database rows, replies, callback calls and payloads.
- `category_section.dfy`: the personal category section.
- `faa_category_section.dfy`: the FAA category section.
- `work_page.dfy`: the FAA work page.
- `faa_categories.dfy`: the `useFAACategories` hook.
- `faa_task_card.dfy`: the FAA task card and its confirmation dialog.
- `task_card.dfy`: the personal task card.
- `dashboard.dfy`: the dashboard.
- `use_tasks.dfy` and `use_categories.dfy`: the list hooks.
- `form_fields.dfy`, `task_form.dfy` and `faa_task_form.dfy`: the forms.
- `app.dfy`: the application shell.

Completing an already completed FAA task writes a fresh `completed_at`
(src/hooks/useFAACategories.ts:76, 90-93), so repeated completions are not
idempotent; `FaaCategories.RestampsOnRepeatedComplete` states this.

## Model

| member | source | states |
|---|---|---|
| CategorySection.Rank | src/components/CategorySection.tsx:39 | High 3, Medium 2, Low 1; the order it induces is stated by Displayed |
| CategorySection.FilterByTab | src/components/CategorySection.tsx:34-36 | the tab filter; stated by Displayed and CompletedCount |
| CategorySection.OrderKey | src/components/CategorySection.tsx:52-53 | a missing order_in_category and the order 0 both become 999, any other order is kept; the key is never 0 |
| CategorySection.Displayed | src/components/CategorySection.tsx:34-55 | the displayed list is a permutation of the tab's tasks; a task is shown iff it is in the list and its `completed` matches the tab; ranks are non-increasing for `priority_desc` and non-decreasing for `priority_asc`; equal priorities come in non-decreasing order key |
| CategorySection.DisplayOrderMeaning | src/components/CategorySection.tsx:38-55 | sortedness under the comparator means the rank order of the sort direction, then order key within a rank |
| CategorySection.CanonicalOrder | src/components/CategorySection.tsx:62-66 | `allTasksInOrder` is a permutation of the full, unfiltered task list, in non-decreasing order key |
| CategorySection.TiesKeepInputOrder | src/components/CategorySection.tsx:62-66 | tasks with the same order key keep their input order, because the sort is stable |
| CategorySection.IndexOfId | src/components/CategorySection.tsx:70 | `findIndex` gives the first position holding the id, or -1 when there is none |
| CategorySection.TaskLocked | src/components/CategorySection.tsx:58-79 | the lock rule; GetTaskLockStatus computes it, LockedIffSmallerOrderIncomplete and LockIsMonotone state what it means |
| CategorySection.GetTaskLockStatus | src/components/CategorySection.tsx:58-79 | the card at `taskIndex` of the displayed list is locked iff the category is sequential and some task before its first id match in canonical order is incomplete; never locked in a non-sequential category |
| CategorySection.FirstInCanonicalOrderUnlocked | src/components/CategorySection.tsx:73-78 | the task first in canonical order is never locked |
| CategorySection.DisplayedTaskIsCanonical | src/components/CategorySection.tsx:69-70 | every displayed task is found in the canonical order, so the lock ignores the tab and the sort order |
| CategorySection.SameIdOrOrderIsSameTask | src/components/CategorySection.tsx:62-70 | with distinct ids and order keys, one id or one order key names one task |
| CategorySection.LockedIffSmallerOrderIncomplete | src/components/CategorySection.tsx:59-78 | with distinct ids and order keys, a task is locked iff the category is sequential and some task with a smaller order key is incomplete |
| CategorySection.IncompleteBeforeIffSmallerOrder | src/components/CategorySection.tsx:73-77 | in a list sorted by order key, an incomplete task before position k exists iff some task has a smaller key than the task at k and is incomplete |
| CategorySection.LockIsMonotone | src/components/CategorySection.tsx:58-79 | a locked task locks every task with a larger order key |
| CategorySection.CompletedCount | src/components/CategorySection.tsx:82-83 | the count is taken over the full list: at most the total, the to-do count makes up the rest, and it equals the total iff every task is completed |
| CategorySection.StepNumber | src/components/CategorySection.tsx:180 | the step shown is the order key when the task has an order other than 0, otherwise index + 1; never 0 |
| CategorySection.SectionState.constructor | src/components/CategorySection.tsx:30-31 | a section starts expanded and sorted `priority_desc` |
| CategorySection.SectionState.ToggleExpanded | src/components/CategorySection.tsx:92 | the expand button flips `isExpanded` and keeps the sort order |
| CategorySection.SectionState.SetSortOrder | src/components/CategorySection.tsx:126 | the sort select sets the order and keeps `isExpanded` |
| FaaCategorySection.CompletedCount | src/components/FAACategorySection.tsx:21-23 | the completed count is at most the total, and equals it iff every task has a completed progress record, which holds for an empty category |
| FaaCategorySection.IsComplete | src/components/FAACategorySection.tsx:23 | `completedCount === totalCount`; CompletedCount states it holds iff every task is completed |
| FaaCategorySection.TaskLocked | src/components/FAACategorySection.tsx:26-36 | the lock rule; GetTaskLockStatus computes it, LockIsMonotone and OnlyFirstIncompleteIsOpen state what it means |
| FaaCategorySection.GetTaskLockStatus | src/components/FAACategorySection.tsx:26-36 | task i is locked iff the category is locked or some task before i has no completed progress record |
| FaaCategorySection.LockIsMonotone | src/components/FAACategorySection.tsx:26-36 | a locked task locks every later task |
| FaaCategorySection.OnlyFirstIncompleteIsOpen | src/components/FAACategorySection.tsx:29-35 | in an unlocked category an incomplete task is unlocked iff it is the first incomplete task |
| FaaCategorySection.TaskCards | src/components/FAACategorySection.tsx:125-138 | one card per task, in order; each card's lock is the lock rule, and `canComplete` is `!isLocked` of the category; a locked category locks every card, and in an unlocked one the first card is open |
| FaaCategorySection.SectionState.constructor | src/components/FAACategorySection.tsx:19 | the section starts with `initialExpanded` |
| FaaCategorySection.SectionState.ToggleExpanded | src/components/FAACategorySection.tsx:19 | toggling flips `isExpanded` |
| WorkPage.IncompleteCategories | src/components/WorkPage.tsx:14-16 | the categories not fully complete; stated by CategoriesPartition |
| WorkPage.CompletedCategories | src/components/WorkPage.tsx:18-20 | the fully complete categories; stated by CategoriesPartition |
| WorkPage.CategoriesPartition | src/components/WorkPage.tsx:14-20 | the incomplete and completed lists partition the categories, each in the original order, with no category in both |
| WorkPage.CategoryLocked | src/components/WorkPage.tsx:51-63 | the category lock rule; GetCategoryLockStatus computes it, FirstIncompleteIsOnlyOpen and ActiveLockPattern state what it means |
| WorkPage.GetCategoryLockStatus | src/components/WorkPage.tsx:51-63 | category k is locked iff some category before k is not fully complete; index 0 (and the -1 of a missing id) is never locked |
| WorkPage.FirstIncompleteIsOnlyOpen | src/components/WorkPage.tsx:51-63 | among incomplete categories, only the first one is unlocked; empty categories count as complete and lock nothing |
| WorkPage.OriginalIndex | src/components/WorkPage.tsx:204 | `findIndex` by category id: the first position with that id, or -1 |
| WorkPage.ActiveLockPattern | src/components/WorkPage.tsx:203-205 | with distinct ids, the first active checklist is unlocked and every later one is locked |
| WorkPage.ActiveSections | src/components/WorkPage.tsx:203-215 | one expanded section per incomplete category, locked by the lock of its original index |
| WorkPage.CompletedSections | src/components/WorkPage.tsx:235-243 | one collapsed, unlocked section per completed category |
| WorkPage.Overview | src/components/WorkPage.tsx:140-144 | one overview card per category, in order, whose completed count is the number of completed tasks and at most the total; complete iff the two counts are equal, which is iff every task is completed; locked by the lock rule; the first card is unlocked |
| FaaCategories.SortTasks | src/hooks/useFAACategories.ts:57-58 | the fetched tasks of a category are a permutation sorted by ascending `order_in_category` |
| FaaCategories.SortTasksIsStable | src/hooks/useFAACategories.ts:57-58 | tasks with equal order keep their fetched order |
| FaaCategories.FindProgress | src/hooks/useFAACategories.ts:61 | a task's `user_progress` is the first progress record with its id, or absent when there is none or the progress fetch failed |
| FaaCategories.MergeCategory | src/hooks/useFAACategories.ts:55-63 | a merged category keeps its row, and its tasks are the sorted fetched tasks, each with its first matching progress record |
| FaaCategories.MergeCategories | src/hooks/useFAACategories.ts:55-63 | the category list keeps its fetched order, one merged category per fetched one |
| FaaCategories.NoProgressMeansNothingCompleted | src/hooks/useFAACategories.ts:50-61 | after a progress-fetch error no task is completed, so exactly the non-empty categories are incomplete |
| FaaCategories.FetchOutcome | src/hooks/useFAACategories.ts:24-67 | no user: nothing changes; a categories error: the list stays and loading ends; rows without error: the merged list and loading ends; no rows and no error: the list stays and loading stays on |
| FaaCategories.FaaCategoriesHook.constructor | src/hooks/useFAACategories.ts:20-21 | the hook starts with no categories and loading |
| FaaCategories.FaaCategoriesHook.FetchFaaCategories | src/hooks/useFAACategories.ts:24-67 | the new state is the fetch outcome of the replies |
| FaaCategories.CompletedAt | src/hooks/useFAACategories.ts:76 | `completed_at` is set, to the current time, iff `completed` |
| FaaCategories.ExistingProgress | src/hooks/useFAACategories.ts:79-84 | `maybeSingle` yields a record iff the lookup returned exactly one row, and then that row |
| FaaCategories.ProgressWriteFor | src/hooks/useFAACategories.ts:86-115 | an existing record is updated by its id, otherwise a record for the user and task is inserted; either way with the new `completed` and a `completed_at` set iff completed |
| FaaCategories.RestampsOnRepeatedComplete | src/hooks/useFAACategories.ts:76 | completing an already completed task at another time writes a different `completed_at` |
| FaaCategories.UpdateRows | src/hooks/useFAACategories.ts:88-94 | an update by id changes the rows with that id and keeps the length |
| FaaCategories.UpdateCommutesWithLookup | src/hooks/useFAACategories.ts:88-94 | an update by record id moves no row into or out of anybody's progress |
| FaaCategories.UpsertKeepsOneRecord | src/hooks/useFAACategories.ts:79-115 | when at most one record exists, after the upsert exactly one record of the user and task exists, and it has the new state |
| FaaCategories.FaaCategoriesHook.ToggleFaaTaskComplete | src/hooks/useFAACategories.ts:73-116 | no user: an error and no write; otherwise the upsert write; the data is refetched only when the write succeeds |
| FaaCategories.IsAdmin | src/hooks/useFAACategories.ts:120-122 | `user && profile?.role === 'admin'`; the guard stated by CreateFaaTask, UpdateFaaTaskRow and DeleteFaaTaskRow |
| FaaCategories.FaaCategoriesHook.CreateFaaTask | src/hooks/useFAACategories.ts:119-135 | without a signed-in admin: an error, no write, no change; otherwise an insert, refetched only on success |
| FaaCategories.FaaCategoriesHook.UpdateFaaTaskRow | src/hooks/useFAACategories.ts:137-154 | without a signed-in admin: an error, no write, no change; otherwise an update, refetched only on success |
| FaaCategories.FaaCategoriesHook.DeleteFaaTaskRow | src/hooks/useFAACategories.ts:156-171 | without a signed-in admin: an error, no write, no change; otherwise a delete, refetched only on success |
| FaaCategories.GetFlightStatus | src/hooks/useFAACategories.ts:174-193 | the four-way fold; its meaning, the furthest stage reached, is stated by FlightStatusIsFurthestStage |
| FaaCategories.FindByName | src/hooks/useFAACategories.ts:175-177 | `find` by exact name; stated through FindByNameReached |
| FaaCategories.IsCategoryComplete | src/hooks/useFAACategories.ts:179-182 | an absent category is not complete, an empty one is; stated through FindByNameReached |
| FaaCategories.FindByNameReached | src/hooks/useFAACategories.ts:175-182 | the first category with a stage's exact name is complete iff the stage is reached; an absent category is never complete |
| FaaCategories.FlightStatusIsFurthestStage | src/hooks/useFAACategories.ts:174-193 | the flight status is a reached stage and no later stage is reached: Landed over Airborne over Taxiing over Pre-Flight, whatever the earlier stages |
| FaaTaskCard.Step | src/components/FAATaskCard.tsx:52-68 | a click on a completable, unlocked, incomplete task opens the dialog with no call; on a completed one it calls `(id, false)` at once; otherwise it does nothing; confirm calls `(id, true)` and closes; cancel closes with no call |
| FaaTaskCard.LockedCardNeverToggles | src/components/FAATaskCard.tsx:52-59 | a locked or non-completable card never opens the dialog and never calls, whatever the events |
| FaaTaskCard.CompletionNeedsConfirm | src/components/FAATaskCard.tsx:52-64 | without a confirm, no event sequence makes a `completed = true` call |
| FaaTaskCard.ConfirmCompletesOnce | src/components/FAATaskCard.tsx:61-64 | click, confirm, confirm completes the task exactly once and leaves the dialog closed |
| FaaTaskCard.Card.constructor | src/components/FAATaskCard.tsx:24 | the dialog starts closed |
| FaaTaskCard.Card.HandleToggleClick | src/components/FAATaskCard.tsx:52-59 | the click handler makes the step's calls and state change |
| FaaTaskCard.Card.HandleConfirmComplete | src/components/FAATaskCard.tsx:61-64 | confirm calls `(id, true)` once and closes the dialog |
| FaaTaskCard.Card.HandleCancelComplete | src/components/FAATaskCard.tsx:66-68 | cancel closes the dialog |
| FaaTaskCard.Card.Dispatch | src/components/ConfirmationDialog.tsx:24 | the dialog's buttons act only while it is open, so every event on the card is the step |
| TaskCard.Press | src/components/TaskCard.tsx:88-135 | while locked only delete reacts; unlocked, the checkbox calls `onToggleComplete(id, !completed)` and edit calls `onEdit(task)`; delete always calls `onDelete(id)` |
| TaskCard.CheckboxIcon | src/components/TaskCard.tsx:96-102 | the lock icon iff locked, the check iff unlocked and completed, the circle iff unlocked and incomplete |
| Dashboard.FilterTasksByCategory | src/components/Dashboard.tsx:37-41 | `all` keeps the list; `uncategorized` keeps exactly the tasks with no category; any other value keeps exactly the tasks of that category; always an order-preserving subsequence |
| Dashboard.TodoTasks | src/components/Dashboard.tsx:43 | the filtered incomplete tasks; stated by TodoAndCompletedSplit |
| Dashboard.CompletedTasks | src/components/Dashboard.tsx:44 | the filtered completed tasks; stated by TodoAndCompletedSplit |
| Dashboard.TodoAndCompletedSplit | src/components/Dashboard.tsx:43-44 | to-do tasks are all incomplete and completed tasks all completed; under `all` they partition the tasks |
| Dashboard.CategoryTasks | src/components/Dashboard.tsx:377 | a section receives exactly the unfiltered tasks of its category, in order |
| Dashboard.CategorySections | src/components/Dashboard.tsx:376-378 | the sections follow the categories' order: section i is the i-th category that is not skipped, with exactly its tasks; every category that is not skipped gets a section |
| Dashboard.SectionShownUnlessEmpty | src/components/Dashboard.tsx:438-439 | a category with tasks, or under the `all` filter or its own filter, gets its section |
| Dashboard.DialogStep | src/components/Dashboard.tsx:81-97 | a request records the id and opens the dialog; an open confirm closes it and deletes the pending id iff it is non-empty, then clears it, and otherwise keeps the pending id; an open cancel clears and closes; a closed dialog ignores its buttons |
| Dashboard.OnlyRequestedCategoriesDeleted | src/components/Dashboard.tsx:81-92 | every deleted id was pending at the start or requested by an event |
| Dashboard.CancelledRequestDeletesNothing | src/components/Dashboard.tsx:94-97 | request, cancel, confirm deletes nothing |
| Dashboard.ConfirmedRequestDeletesOnce | src/components/Dashboard.tsx:81-92 | request, confirm, confirm deletes the requested category exactly once when the second confirm follows the first delete's reply |
| Dashboard.DashboardState.constructor | src/components/Dashboard.tsx:27-35 | the forms start closed, nothing is being edited, the filter is `all`, the dialog is closed |
| Dashboard.DashboardState.HandleTaskSubmit | src/components/Dashboard.tsx:47-55 | when editing, the task is updated (a successful reply replaces it by id) and editing stops; otherwise it is created (a successful reply is prepended; no user, nothing is sent or changed); an error leaves the list unchanged; the task form closes; the category form, the category being edited, the filter, the dialog and the hook's `loading` are unchanged |
| Dashboard.DashboardState.HandleCategorySubmit | src/components/Dashboard.tsx:57-65 | when editing, the category is updated (a successful reply replaces it by id) and editing stops; otherwise it is created (a successful reply is appended; no user, nothing changes); an error leaves the list unchanged; the category form closes; the task form, the task being edited, the filter, the dialog and the hook's `loading` are unchanged |
| Dashboard.DashboardState.HandleEdit | src/components/Dashboard.tsx:66-69 | the task form opens on the task; the category form, the category being edited, the filter and the dialog are unchanged |
| Dashboard.DashboardState.HandleEditCategory | src/components/Dashboard.tsx:71-74 | the category form opens on the category; the task form, the task being edited, the filter and the dialog are unchanged |
| Dashboard.DashboardState.HandleDelete | src/components/Dashboard.tsx:75-79 | a task is deleted only after the prompt is confirmed; a confirmed delete removes the id on success and changes nothing on error; the hook's `loading` and the dashboard's own state are unchanged |
| Dashboard.DashboardState.HandleDeleteCategory | src/components/Dashboard.tsx:81-84 | the dialog step of a request; the forms, the items being edited and the filter are unchanged |
| Dashboard.DashboardState.HandleConfirmDeleteCategory | src/components/Dashboard.tsx:86-92 | the dialog step of a confirm; the category list loses the deleted id when the delete succeeds, and is unchanged when the delete fails or nothing is deleted; the forms, the items being edited, the filter and the hook's `loading` are unchanged |
| Dashboard.DashboardState.HandleCancelDeleteCategory | src/components/Dashboard.tsx:94-97 | the dialog step of a cancel; the forms, the items being edited and the filter are unchanged |
| UseTasks.DeleteUndoesCreate | src/hooks/useTasks.ts:48-50 | deleting a freshly created task gives back the earlier list |
| UseTasks.DeleteAfterUpdate | src/hooks/useTasks.ts:63-65 | deleting after updating equals deleting |
| UseTasks.DeleteIsIdempotent | src/hooks/useTasks.ts:76-78 | a second delete of the same id changes nothing |
| UseTasks.UpdateKeepsIdsUnique | src/hooks/useTasks.ts:63-65 | replacing by id with a row of that id keeps ids unique |
| UseTasks.TasksHook.constructor | src/hooks/useTasks.ts:10-11 | no tasks, loading |
| UseTasks.TasksHook.FetchTasks | src/hooks/useTasks.ts:14-33 | no user: nothing changes; an error keeps the list; success sets it to the rows or empty; loading ends |
| UseTasks.TasksHook.CreateTask | src/hooks/useTasks.ts:39-53 | no user: an error and no insert; a successful insert prepends the row and keeps the rest in order; otherwise nothing changes |
| UseTasks.TasksHook.UpdateTask | src/hooks/useTasks.ts:55-68 | success replaces exactly the tasks with that id; an error changes nothing |
| UseTasks.TasksHook.DeleteTask | src/hooks/useTasks.ts:70-81 | success removes every task with that id and keeps the rest in order; an error changes nothing |
| UseTasks.TasksHook.ToggleComplete | src/hooks/useTasks.ts:83-85 | exactly `updateTask(id, { completed })` |
| UseCategories.DeleteUndoesCreate | src/hooks/useCategories.ts:45-47 | deleting a freshly created category gives back the earlier list |
| UseCategories.DeleteAfterUpdate | src/hooks/useCategories.ts:60-62 | deleting after updating equals deleting |
| UseCategories.CategoriesHook.constructor | src/hooks/useCategories.ts:10-11 | no categories, loading |
| UseCategories.CategoriesHook.FetchCategories | src/hooks/useCategories.ts:14-30 | no user: nothing changes; an error keeps the list; success sets it to the rows or empty; loading ends |
| UseCategories.CategoriesHook.CreateCategory | src/hooks/useCategories.ts:36-50 | no user: an error and no insert; a successful insert appends the row; otherwise nothing changes |
| UseCategories.CategoriesHook.UpdateCategory | src/hooks/useCategories.ts:52-65 | success replaces exactly the categories with that id; an error changes nothing |
| UseCategories.CategoriesHook.DeleteCategory | src/hooks/useCategories.ts:67-78 | success removes the id and keeps the rest in order; an error changes nothing |
| FormFields.NullIfEmpty | src/components/TaskForm.tsx:38 | null iff the input is empty, otherwise the input |
| FormFields.EmptyIfNull | src/components/TaskForm.tsx:26 | empty iff the column is null or empty, otherwise the column |
| TaskForm.PrefilledFields | src/components/TaskForm.tsx:23-31 | editing pre-fills title and priority, and description and category with null as '' |
| TaskForm.SubmittedPayload | src/components/TaskForm.tsx:36-47 | empty description and category become null; the order is 1 iff a category is chosen, else null; the id is present iff a task is edited |
| TaskForm.UnchangedEditKeepsTask | src/components/TaskForm.tsx:23-47 | submitting an edit unchanged sends back the task's values, with empty strings as null |
| TaskForm.TaskFormState.constructor | src/components/TaskForm.tsx:17-21 | empty inputs, priority Medium |
| TaskForm.TaskFormState.PrefillEffect | src/components/TaskForm.tsx:23-31 | only an edited task sets the inputs, to its pre-fill |
| TaskForm.TaskFormState.HandleSubmit | src/components/TaskForm.tsx:33-51 | calls `onSubmit` with the payload, then `onClose` |
| FaaTaskForm.ParseInt | src/components/FAATaskForm.tsx:140 | `parseInt` on a number input: NaN iff no digit follows the optional sign; ParseIntReadsDecimal states that it reads numbers back |
| FaaTaskForm.ParseIntReadsDecimal | src/components/FAATaskForm.tsx:140 | `parseInt` reads back the decimal text of a number, with or without a minus sign |
| FaaTaskForm.OrderFromInput | src/components/FAATaskForm.tsx:140 | the order is the parsed number, or 1 for NaN and for 0; never 0 |
| FaaTaskForm.OrderInputReadsNumber | src/components/FAATaskForm.tsx:140 | typing n other than 0 sets order n; an empty input or 0 sets 1 |
| FaaTaskForm.InitialFields | src/components/FAATaskForm.tsx:18-22 | priority High, order 1, the selected category or '' |
| FaaTaskForm.PrefilledFields | src/components/FAATaskForm.tsx:25-30 | editing pre-fills title, priority, category, order, and description with null as '' |
| FaaTaskForm.NextOrder | src/components/FAATaskForm.tsx:33-35 | the default order is one more than the task count of the first category with the selected id; none when no category has it |
| FaaTaskForm.NewTaskFollowsLastOfCategory | src/components/FAATaskForm.tsx:31-36 | a new task in a category holding n tasks starts at order n + 1 |
| FaaTaskForm.SubmittedPayload | src/components/FAATaskForm.tsx:43-49 | an empty description becomes null; category, title, priority and order are sent as they are |
| FaaTaskForm.UnchangedEditKeepsTask | src/components/FAATaskForm.tsx:25-49 | submitting an edit unchanged sends back the task's values |
| FaaTaskForm.FaaTaskFormState.constructor | src/components/FAATaskForm.tsx:18-22 | the inputs start at their defaults |
| FaaTaskForm.FaaTaskFormState.Effect | src/components/FAATaskForm.tsx:24-38 | an edited task fills every input; otherwise a selected existing category sets only the order to its next number |
| FaaTaskForm.FaaTaskFormState.OnOrderInput | src/components/FAATaskForm.tsx:140 | the order input sets only the order |
| FaaTaskForm.FaaTaskFormState.HandleSubmit | src/components/FAATaskForm.tsx:40-53 | calls `onSubmit` with the payload, then `onClose` |
| App.DashboardRole | src/App.tsx:31 | the profile's role, or `pilot` when there is no profile or the role is empty |
| App.SelectView | src/App.tsx:15-47 | loading shows the loading screen; a signed-in user sees the admin panel iff on page `admin` with role `admin`, the work page on page `work`, otherwise the dashboard with the role; without a user, `showAuth` chooses the sign-in form over the landing page |
| App.AppState.constructor | src/App.tsx:12-13 | `showAuth` off, page `dashboard` |
| App.AppState.Navigate | src/App.tsx:31 | the dashboard's `onNavigate` sets the page |
| App.AppState.NavigateBack | src/App.tsx:27-29 | back from the admin panel or work page sets the page to `dashboard` |
| App.AppState.GetStarted | src/App.tsx:46 | the landing page turns `showAuth` on |
| App.AppState.BackToLanding | src/App.tsx:40 | the sign-in form turns `showAuth` off |
| App.BackShowsDashboard | src/App.tsx:26-31 | after going back, a signed-in user sees the dashboard |
| App.OnlyAdminsSeeAdminPanel | src/App.tsx:26 | a user without role `admin` never sees the admin panel |

## Left out

- Percentages and the overall progress figure use floating-point division,
  `Math.round` and the `|| 0` fallback for NaN. Only the integer counts
  behind them are modelled.
- Dates are opaque. `new Date().toISOString()` for `completed_at` is a
  timestamp input. The `toISOString` and `slice(0, 16)` conversions of
  `scheduled_for` in the task form pass the text through unchanged.
- Rendering, colours, icons other than the task-card checkbox, CSS classes
  and the landing and sign-in pages are not modelled.
- The authentication hook (`useAuth`, with its session subscription and
  timeout) is not part of this model. The user, the profile and the loading
  flag are inputs.
- Server-side ordering (`.order('order')` on FAA categories) is trusted. The
  fetched category list is taken in the order the database returns it.
- The browser's `confirm` prompt in `handleDelete` is a boolean input.
- The dashboard renders the delete-category dialog twice
  (src/components/Dashboard.tsx:494-517), with the same handlers. The model
  has one dialog: both copies show the same state and only the top one
  receives clicks.
- FaaCategories.FaaCategoriesHook.UpdateFaaTaskRow: the partial
  `FAATaskUpdate` is modelled as a full FAA task payload, the only shape the
  application sends.
- FaaTaskForm.ParseIntReadsDecimal: `parseInt` is modelled for the text a
  number input yields. It covers an optional sign, then digits, with the rest
  ignored. Leading whitespace and the `0x` prefix are not modelled, because
  such a value never contains them.
- CategorySection.LockedIffSmallerOrderIncomplete,
  CategorySection.LockIsMonotone and WorkPage.ActiveLockPattern assume
  distinct ids (and, for the first two, distinct order keys). With duplicates,
  `findIndex` resolves every copy to the first match. That case is stated only
  by CategorySection.GetTaskLockStatus and WorkPage.GetCategoryLockStatus,
  which hold for all inputs.
- The hooks' `loading` flag while a request is in flight is not modelled
  between the awaits. Each method gives the state after the replies.
- Dashboard.DashboardState.HandleConfirmDeleteCategory and
  Dashboard.ConfirmedRequestDeletesOnce treat the confirm handler as one
  atomic step. In the application the dialog stays open while
  `deleteCategory` is awaited, so a second "Yes, Delete" in that window calls
  the handler again with the same id and sends a second delete request. The
  model does not capture that interleaving.
- The admin panel and the category form only copy fields. They are not
  modelled.
