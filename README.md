# Task viewer: cache-first loading, filtering and completion toggle

A model of the logic inside a small React Native todo viewer. The Home
screen loads the task list cache first: a stored snapshot is shown as it is,
and only when nothing is stored is the remote list fetched, shown and written
back. The screen then shows the list through a three-way filter (`ALL`,
`COMPLETED`, `INCOMPLETE`). The Details screen flips one task's `completed`
flag after a confirmation dialog. It then merges the flipped record into the
cached full list by id and writes the whole list back.

Layout, one module per file:

- `wrappers.dfy` (`Wrappers`): `Option`, the model of a value that may be `null`.
- `tasks.dfy` (`Tasks`): the `Task` record `{id, userId, title, completed}` and the flip of `completed`.
- `storage.dfy` (`Storage`): `TaskStore`, the key/value store with the single key `TASKS_DATA`. `SaveTasks` replaces the whole snapshot. `GetTasks` gives `None` when nothing is stored, and gives the stored list otherwise, even an empty one.
- `task_filter.dfy` (`TaskFilter`): `filteredTasks` as a pure function, with its properties.
- `task_merge.dfy` (`TaskMerge`): the id-keyed `map` that merges the updated task into the cached list, with its properties.
- `home_screen.dfy` (`Home`): `HomeScreen`, a class with the screen state `tasks`, `filter`, `loading`, `error` and `refreshing`, and the `fetchTasks` and `onRefresh` handlers.
- `details_screen.dfy` (`Details`): `DetailsScreen`, a class with `task` and `isToggling`, the toggle button, the dialog and the "Yes" handler.
- `scenarios.dfy` (`Scenarios`): sequences of handler runs on one shared store.

Each asynchronous handler is modelled as one atomic step. Whatever the
environment decides becomes a parameter: the outcome of the remote request
(`FetchOutcome`), whether the store accepts a write, and the user's choice in
the dialog. The error dialog becomes the outcome value `SaveFailed`.

Behaviour of the code that the model keeps:

- An empty cached list counts as a cache hit and suppresses the network request.
- On a cache hit `loading` still ends false, because the `finally` block runs on the early return.
- The Home screen does not await its write-back. A refused write therefore never sets `error`.
- In the "Yes" handler, an empty cache slot makes the handler return early. The task stays flipped, nothing is written, and `isToggling` stays raised, so the button stays disabled.
- A failed write lowers `isToggling` but does not revert the displayed task.
- An id that no cached entry carries raises no error: the unchanged list is written back.

The toggle reports no not-found error, neither for an id that no cached
entry carries nor for an empty cache slot. It is not all-or-nothing either:
a refused write leaves the displayed task flipped.

## Model

| member | source | states |
|---|---|---|
| `Tasks.Toggled` | android/app/src/screens/DetailsScreen.js:21 | the updated record keeps `id`, `userId` and `title` and has `completed` negated |
| `Tasks.ToggledTwice` | android/app/src/screens/DetailsScreen.js:21 | flipping twice gives back the original record |
| `Storage.TaskStore.Snapshot` | android/app/src/utile/storage.js:9-12 | the snapshot is present exactly when the key `TASKS_DATA` is stored, and is then the stored list |
| `Storage.TaskStore.SaveTasks` | android/app/src/utile/storage.js:3-7 | an accepted write replaces the value under `TASKS_DATA` and leaves other keys alone; a refused write changes nothing |
| `Storage.TaskStore.GetTasks` | android/app/src/utile/storage.js:9-12 | gives `None` exactly when nothing is stored under the key, otherwise the stored list (an empty list included) |
| `TaskFilter.FilteredTasks` | android/app/src/screens/HomeScreen.js:64-68 | the result is no longer than the list, and a task is in it exactly when it is in the list and the filter keeps it |
| `TaskFilter.FilterOtherIsIdentity` | android/app/src/screens/HomeScreen.js:64-68 | `ALL`, and any value other than `COMPLETED` and `INCOMPLETE`, returns the list unchanged |
| `TaskFilter.FilterConcat` | android/app/src/screens/HomeScreen.js:64-68 | filtering a concatenation is the concatenation of the filtered parts, in order |
| `TaskFilter.FilterIsSubsequence` | android/app/src/screens/HomeScreen.js:64-68 | the filtered list is an order-preserving selection from the list |
| `TaskFilter.FilterCounts` | android/app/src/screens/HomeScreen.js:65-66 | each kept task occurs as often as in the list, and each dropped task not at all (`COMPLETED` keeps exactly the completed tasks, `INCOMPLETE` exactly the others) |
| `TaskFilter.FilterPartition` | android/app/src/screens/HomeScreen.js:65-66 | the `COMPLETED` and `INCOMPLETE` results have lengths summing to the list's length, together hold exactly its entries, and each task is in exactly one of them |
| `TaskFilter.FilterIdempotent` | android/app/src/screens/HomeScreen.js:64-68 | filtering a filtered list with the same value changes nothing |
| `TaskMerge.ReplaceById` | android/app/src/screens/DetailsScreen.js:27-29 | the merged list has the cached list's length and order; every entry with the task's id becomes the whole updated record; every other entry is unchanged |
| `TaskMerge.ReplaceAbsentIsIdentity` | android/app/src/screens/DetailsScreen.js:27-31 | when no entry has the id, the list written back is the cached list itself |
| `TaskMerge.ReplacePresentContainsUpdated` | android/app/src/screens/DetailsScreen.js:27-29 | when some entry has the id, the updated record is in the merged list |
| `TaskMerge.ReplaceKeepsIds` | android/app/src/screens/DetailsScreen.js:27-29 | the merge keeps every id in place, so unique ids stay unique |
| `TaskMerge.ReplaceTwice` | android/app/src/screens/DetailsScreen.js:27-29 | merging two records with the same id in turn equals merging the second alone |
| `TaskMerge.ToggleTwiceRestores` | android/app/src/screens/DetailsScreen.js:21-29 | merging the flipped task and then the task flipped back sets every matching entry to the original record |
| `Home.HomeScreen.constructor` | android/app/src/screens/HomeScreen.js:19-23 | the screen starts with no tasks, filter `ALL`, `loading` raised, and `error` and `refreshing` lowered |
| `Home.HomeScreen.VisibleTasks` | android/app/src/screens/HomeScreen.js:64-68 | the rendered list holds exactly the screen's tasks that the active filter keeps |
| `Home.HomeScreen.SetFilter` | android/app/src/screens/HomeScreen.js:101-106 | a filter button sets the active filter and nothing else |
| `Home.HomeScreen.FetchTasks` | android/app/src/screens/HomeScreen.js:25-46 | on a hit (an empty list included) the tasks become the cached list, with no request, no write and no error; on a miss with a fetched list the tasks become that list and an accepted write stores exactly it; on a failed fetch `error` is raised and the tasks and store are unchanged; `loading` ends false on every path |
| `Home.HomeScreen.OnRefresh` | android/app/src/screens/HomeScreen.js:48-52 | the same outcomes as `FetchTasks`, with `refreshing` lowered at the end; with a stored snapshot no request is made |
| `Details.DetailsScreen.constructor` | android/app/src/screens/DetailsScreen.js:6-7 | the screen starts on the route's task with `isToggling` lowered |
| `Details.DetailsScreen.Confirm` | android/app/src/screens/DetailsScreen.js:17-40 | the displayed task is always the previous one flipped; with no snapshot nothing is written and `isToggling` stays raised; otherwise the merged list is written and `isToggling` is lowered, and a failed write reports `SaveFailed` and leaves the store as it was |
| `Details.DetailsScreen.ToggleStatus` | android/app/src/screens/DetailsScreen.js:9-44 | Cancel changes neither the task, `isToggling` nor the store; Yes has the outcomes of `Confirm` |
| `Details.DetailsScreen.Press` | android/app/src/screens/DetailsScreen.js:83-86 | while `isToggling` is raised the button does nothing; otherwise the dialog runs as in `ToggleStatus` |
| `Scenarios.LoadTwice` | android/app/src/screens/HomeScreen.js:25-46 | once a load has left a snapshot in the store, a second load makes no request, shows the same list and ends without error |
| `Scenarios.ConfirmTwice` | android/app/src/screens/DetailsScreen.js:17-40 | two confirmations with a cached list and accepted writes restore the displayed task, and leave every matching cached entry holding the original record |
| `Scenarios.ToggleThenReturn` | android/app/src/screens/DetailsScreen.js:24-31 | after a saved toggle, the Home screen's reload makes no request and shows the cached list with the flipped record merged in |

## Left out

- Rendering, styles, the loading and error views and the navigation to the Details screen (`HomeScreen.js` from line 70 on, `DetailsScreen.js` from line 46 on, `TaskItem.js`, `StackNavigator.js`): presentation only. The Retry button runs the same `fetchTasks` that `FetchTasks` models.
- The HTTP request and `res.json()`: foreign code. They are replaced by a `FetchOutcome` parameter. A response body that parses to something other than a task list is not modelled.
- `AsyncStorage` and `JSON.stringify` / `JSON.parse`: foreign code. The store holds decoded lists, and serialisation is taken to be the identity on flat task records.
- Reads of the store are modelled as never failing. The catch blocks are reached only through a failed fetch or a refused write.
- A refused write is modelled as leaving the store as it was.
- `id` and `userId` are JavaScript numbers (doubles) in the code and unbounded integers here. For the small integer ids the endpoint returns, the two agree, and so does the `===` comparison of ids in the merge.
- The scheduling of `useFocusEffect` and `useEffect`, the timing of the un-awaited write in `fetchTasks`, and any interleaving of concurrent loads or toggles: each handler runs as one atomic step.
- `Alert.alert`: the dialog's answer is an input (`Choice`), and the error dialog is the outcome `SaveFailed`.
