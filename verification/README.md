# To-do app task store, filter and theme — a Dafny model

This project models the logic of a small React Native to-do app: the
dashboard's task list (search/category/status filter, status toggle, delete,
the press that opens a task's details, load on mount), the add-task screen
(form validation, building a pending task, appending it to the stored list and
handing that list to the dashboard, loading categories) and the light/dark
theme provider.

Tasks are immutable `Task(id, name, deadline, category, status)` records held
in sequences. The application state `AppState(tasks, stored)` pairs the
dashboard's in-memory list with the `"tasks"` storage entry, which is
`None` before anything was written. Serialising to JSON and parsing back is
taken as the identity. Storage failures, the category fetch's outcome and
the system colour scheme are parameters.

Modules: `Wrappers` (Option), `Text` (ASCII lower-casing, substring search),
`Tasks` (the record, the order-preserving filter `Keep`, the shared state),
`TaskFilter`, `Dashboard`, `AddTask`, `Theme`, and `Session` (runs of
operations across both screens).

## Model

| member | source | states |
|---|---|---|
| Text.Lower | screens/DashboardScreen.js:27 | lower-casing keeps the length, leaves no ASCII capital, and changes a character only into the lower-case partner of the capital in its place (`Text.LowerChar` adds 32 to the code of `A`..`Z`); so lower-casing twice equals once |
| Text.ContainsIff | screens/DashboardScreen.js:27 | the `includes` scan `Text.Contains` succeeds exactly when the needle occurs at some position of the string |
| Text.ContainsIgnoringCase | screens/DashboardScreen.js:27 | an occurrence is still found after both strings are lower-cased |
| Tasks.Keep | screens/DashboardScreen.js:26-29 | `filter` returns a subsequence of its input holding every element that meets the predicate and none that does not |
| Tasks.KeepCount | screens/DashboardScreen.js:26-29 | the filtered list holds each element meeting the predicate exactly as often as the input does, and no other element |
| Tasks.KeepKeep | screens/DashboardScreen.js:26-29 | two successive filters equal one filter with the conjoined predicate |
| Tasks.KeepAll | screens/DashboardScreen.js:26-29 | a filter whose predicate every element meets returns the input unchanged |
| Tasks.KeepKeepsDistinctIds | screens/DashboardScreen.js:49 | filtering a list with distinct ids leaves the ids distinct |
| TaskFilter.FilteredTasks | screens/DashboardScreen.js:26-29 | the shown list contains exactly the tasks meeting all three criteria (`TaskFilter.Visible`, the conjunction of `MatchesSearch`, `MatchesCategory` and `MatchesStatus`, the tests of lines 27, 28 and 29), with their multiplicities and in their original order; an empty criterion admits every task |
| TaskFilter.FilterIsOnePass | screens/DashboardScreen.js:26-29 | the three chained filters select the same list as one filter on the conjunction of the criteria |
| TaskFilter.NoCriteriaShowsAll | screens/DashboardScreen.js:27-29 | with empty search, category and status the whole list is shown in order |
| TaskFilter.LiteralMatchIsFound | screens/DashboardScreen.js:26-29 | a listed task whose name contains the search text as typed, whatever the case, and which passes the category and status filters, is shown |
| TaskFilter.CategoryScenario | screens/DashboardScreen.js:28 | filtering by "Work" keeps the Work task and drops the Personal one |
| Dashboard.Flipped | screens/DashboardScreen.js:40 | a toggled status is always "Pending" or "Completed", and "Completed" exactly when the old one was not |
| Dashboard.FlippedTwice | screens/DashboardScreen.js:40 | flipping twice restores a status if and only if it was "Pending" or "Completed" |
| Dashboard.ToggleStatusById | screens/DashboardScreen.js:38-42 | toggling keeps length, order and ids; tasks with another id are untouched; a matching task changes only its status, which becomes completed exactly when it was not |
| Dashboard.ToggleTwiceRestores | screens/DashboardScreen.js:38-42 | toggling one id twice gives back the list if and only if every task with that id is "Pending" or "Completed" |
| Dashboard.ToggleTwiceLosesUnknownStatus | screens/DashboardScreen.js:40 | in any list, every task with the id whose status is neither "Pending" nor "Completed" comes back from two toggles as itself with status "Pending" |
| Dashboard.ToggleKeepsDistinctIds | screens/DashboardScreen.js:38-42 | toggling does not create a repeated id |
| Dashboard.RemoveById | screens/DashboardScreen.js:49 | deletion leaves no task with the id, keeps every other task with its multiplicity and in order, and changes nothing when the id is absent |
| Dashboard.RemoveKeepsDistinctIds | screens/DashboardScreen.js:49 | deletion does not create a repeated id |
| Dashboard.RemoveAbsentScenario | screens/DashboardScreen.js:49 | deleting an absent id from three tasks keeps all three in order |
| Dashboard.PressTask | screens/DashboardScreen.js:32-34 | pressing the selected task (same id) clears the selection; any other press selects the pressed task |
| Dashboard.PressFlipsDetails | screens/DashboardScreen.js:33 | after a press, an item's details are open (`Dashboard.ShowsDetails`, the `selectedTask?.id === item.id` test of screens/DashboardScreen.js line 126) exactly when it has the pressed id and the pressed task's details were closed before |
| Dashboard.PressTwiceClears | screens/DashboardScreen.js:33 | two presses on one task from no selection end with no selection |
| Dashboard.Mount | screens/DashboardScreen.js:9-23 | on mount the list is the stored list when the read succeeds and finds one, and stays empty otherwise; after a successful read it matches storage |
| Dashboard.ToggleTaskStatus | screens/DashboardScreen.js:37-45 | the in-memory list becomes the toggled list; after a successful write storage holds that list, after a failed one storage is unchanged |
| Dashboard.DeleteTask | screens/DashboardScreen.js:48-52 | the in-memory list loses the id's tasks; after a successful write storage holds that list, after a failed one storage is unchanged |
| AddTask.LoadCategories | screens/AddTaskScreen.js:18-33 | the categories are replaced only by a fetched array; otherwise they are kept and an alert is raised, the error alert exactly when the fetch threw |
| AddTask.FailedFetchLeavesNoCategories | screens/AddTaskScreen.js:15-26 | a fetch that yields no array leaves the initial empty category list |
| AddTask.PickerValues | screens/AddTaskScreen.js:93-106 | the category picker offers every fetched category, and holds nothing but "" and those categories |
| AddTask.NewTask | screens/AddTaskScreen.js:54-62 | a task is built exactly when name, deadline and category are all non-empty; it carries them, the given id and status "Pending" |
| AddTask.SaveTask | screens/AddTaskScreen.js:36-51 | a successful save stores the old stored list (`Tasks.StoredList`: the parsed entry, or empty when absent, as on line 39) with the task appended, one longer with the prefix unchanged, and hands exactly that list to the dashboard; a failed read or write changes nothing |
| AddTask.HandleAddTask | screens/AddTaskScreen.js:54-72 | a validation error happens exactly when a field is empty and writes nothing; the task is added exactly when the form is valid and storage works; a storage error leaves everything as it was; without a setter the dashboard's list is left alone |
| AddTask.AddExtendsSyncedList | screens/AddTaskScreen.js:38-45 | when the dashboard matched storage, a successful add extends its list by the new task at the end and it still matches |
| AddTask.AddFreshIdKeepsDistinctIds | screens/AddTaskScreen.js:38-40 | appending a task whose id is not stored yet keeps the stored ids distinct |
| AddTask.NoCategoriesBlocksAdding | screens/AddTaskScreen.js:93-106 | with no categories loaded, every picker value fails validation, so no task can be added |
| AddTask.AddedCategoryWasFetched | screens/AddTaskScreen.js:93-106 | a task added from a picker value carries one of the fetched categories |
| AddTask.EssayScenario | screens/AddTaskScreen.js:38-40 | adding "Essay" to empty storage stores exactly one pending task and hands it to the dashboard |
| Theme.PaletteFor | context/ThemeContext.js:23 | the scheme "dark" selects the dark palette, anything else (including none) the light one |
| Theme.InitialTheme | context/ThemeContext.js:21-24 | the first palette is dark if and only if the system scheme is "dark", light otherwise |
| Theme.ToggleTheme | context/ThemeContext.js:34-38 | toggling yields one of the two palettes, dark exactly when it was light |
| Theme.ToggleTwice | context/ThemeContext.js:34-38 | toggling twice returns to the starting palette |
| Theme.OnAppearanceChange | context/ThemeContext.js:26-32 | a system change makes the palette dark if and only if the new scheme is "dark", whatever it was |
| Theme.SwitchMeansDark | screens/DashboardScreen.js:60 | on the provider's palettes the dark-mode switch (`Theme.DarkModeSwitchOn`, background `#000000`) is on exactly for the dark palette |
| Theme.ToggleFlipsSwitch | screens/DashboardScreen.js:59-61 | each toggle flips the dark-mode switch |
| Theme.AlwaysATheme | context/ThemeContext.js:21-38 | after any run of toggles and system changes the palette is one of the two, and the switch reads dark exactly for the dark one |
| Session.ApplyKeepsSync | screens/DashboardScreen.js:37-52 | a successful toggle or delete (these lines) or add (screens/AddTaskScreen.js lines 36-72) leaves storage equal to the in-memory list |
| Session.RunKeepsSync | screens/DashboardScreen.js:37-52 | any run of successful toggles, deletes (these lines) and adds (screens/AddTaskScreen.js lines 36-72) from a synchronised state stays synchronised |
| Session.ReloadRoundTrip | screens/DashboardScreen.js:17-23 | after load and any run of successful operations, mounting again from storage gives the list in memory |

## Behaviour as coded

- A toggle turns "Completed" into "Pending" and every other status, not only "Pending", into "Completed"; a task with any other status is therefore not restored by two toggles (`Dashboard.ToggleTwiceLosesUnknownStatus`).
- Toggle and delete update the in-memory list before writing storage, and a failed write is not caught: the list changes, storage does not.
- Saving a new task appends it to the list read from storage, not to the dashboard's in-memory list, and the dashboard then shows that list. The two agree whenever the load on mount and every earlier write succeeded (`AddTask.AddExtendsSyncedList`, `Session.RunKeepsSync`).
- A failed storage read on mount is not caught; the list stays empty.
- Task ids come from the clock and are not checked for uniqueness; deletion removes every task carrying the id.
- With no categories loaded, the category picker offers only the empty value, so no task can pass validation (`AddTask.NoCategoriesBlocksAdding`).

## Left out

- Rendering, styles, `FlatList`/`Picker`/`Switch` wiring and navigation (`navigation.goBack`, passing `setTasks` through route parameters); `App.js`, `components/TaskList.js` and `components/SearchBar.js` are presentation only.
- `components/TaskForm.js` packs form fields into an object without validation and is not used by the app.
- AsyncStorage and JSON: storage is a value that writes assign; `JSON.stringify`/`JSON.parse` are taken as the identity, so a stored entry that does not parse is not modelled.
- `fetchCategories` and its transport: its result is an input that is an array, some other value, or a thrown error.
- `Date.now()`: the new task's id is a parameter. The code does not make ids unique, so uniqueness is only proved under the assumption that the new id is not already stored.
- Alert and console texts: only which alert is raised is modelled.
- Asynchronous interleavings (a save racing the navigation back, rapid double taps) are concurrency, not modelled; each operation is one atomic step.
- The theme context's subscriber notification and listener removal on unmount are React mechanics and are not modelled.
- Text.Lower: lower-cases ASCII letters only, because Unicode case mapping is not modelled; non-ASCII names may compare differently than in JavaScript.
