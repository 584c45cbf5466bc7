# Todo list state model (todo-ts-expo, App.tsx)

This project is a Dafny model of the single-screen todo app's `App` component.
The app keeps an ordered list of tasks and the text typed into the input field.
Each task has a timestamp id, the text as typed, and a `done` flag.
The Add button appends a task unless the input is blank.
Tapping a row flips `done` on every task with that id.
After each of those changes, the whole list is written to device storage under the key `TASKS`.
At start-up, the app reads that key back.

- `trim.dfy`, module `JsString`: the ECMAScript white-space set and `String.prototype.trim`. It proves that a trimmed string is empty exactly when the input is all white space.
- `tasks.dfy`, module `Tasks`: the `Task` record and the two pure list transforms, `[...tasks, newItem]` and `tasks.map(...)`. It also holds the lemmas about them: toggle is an involution, an absent id changes nothing, unique ids give a single flip, and the effect of append on id uniqueness.
- `app.dfy`, module `App`: class `TodoApp` with fields `tasks` and `newTask` and a ghost field `stored`. `stored` is the list last handed to storage. The class's methods are the component's handlers, and each states the whole new state.

The model keeps these details of the code:
- On blank input, `addTask` returns early at App.tsx:37, so the input field is **not** cleared.
- A failed or empty read at start-up leaves `tasks` as it was, initially `[]` (App.tsx:22-23). The list is not reset.
- `toggleTask` writes to storage even when no task carries the id (App.tsx:55).
- `toggleTask` flips every task with a matching id, so two tasks created in the same millisecond both flip (App.tsx:51-53).

## Model

| member | source | states |
|---|---|---|
| JsString.IsWhitespace | App.tsx:37 | holds exactly on the ECMAScript WhiteSpace and LineTerminator code points, the set `trim()` strips |
| JsString.TrimStart | App.tsx:37 | the result is a suffix of the input, everything dropped is white space, and it does not start with white space |
| JsString.TrimEnd | App.tsx:37 | the result is a prefix of the input, everything dropped is white space, and it does not end with white space |
| JsString.Trim | App.tsx:37 | `trim()` drops only white space, and only at the two ends; what it keeps neither starts nor ends with white space |
| JsString.TrimEmptyIffAllWhitespace | App.tsx:37 | `!newTask.trim()` holds exactly when every character of `newTask` is white space (both directions) |
| JsString.NonBlankSurvivesTrim | App.tsx:37 | input with any non-white-space character is accepted by the blank check |
| Tasks.Task | App.tsx:5-9 | a task is a record of a string id, a string text and a boolean done flag |
| Tasks.NewTask | App.tsx:38-42 | the new item carries the supplied id, the untrimmed text and `done == false` |
| Tasks.Appended | App.tsx:44 | the new list is one longer, its prefix is the old list unchanged and in order, and the new item is last |
| Tasks.ToggleOne | App.tsx:52 | the map callback keeps id and text and flips `done` exactly when the id matches |
| Tasks.Toggled | App.tsx:51-53 | the mapped list has the same length and order, every element keeps its id and text, and `done` is flipped exactly on the elements whose id matches |
| Tasks.ToggleInvolution | App.tsx:51-53 | toggling twice with the same id restores the original list |
| Tasks.ToggleAbsent | App.tsx:51-53 | toggling an id that no task carries returns the list unchanged |
| Tasks.ToggledPointwise | App.tsx:51-53 | each element is either the old element with `done` negated (id matches) or identical to the old element (id differs) |
| Tasks.ToggleFlipsExactlyOne | App.tsx:51-53 | when ids are unique, toggling a present id flips that one task and leaves every other task identical |
| Tasks.ToggleKeepsIds | App.tsx:51-53 | toggling leaves the id sequence unchanged and so keeps ids unique |
| Tasks.AppendKeepsUniqueIds | App.tsx:39-44 | appending keeps ids unique if and only if the new timestamp id is not already in the list |
| App.LoadedTasks | App.tsx:19-26 | only a successfully parsed stored value replaces the list; a missing value, an empty string, or a read or parse failure leaves it as it was |
| App.TodoApp.constructor | App.tsx:12-13 | the list and the input field both start empty, and nothing has been stored |
| App.TodoApp.LoadTasks | App.tsx:19-26 | the list becomes the loaded value as `LoadedTasks` decides; the input field and storage are untouched |
| App.TodoApp.SetNewTask | App.tsx:67 | typing replaces the input field and changes nothing else |
| App.TodoApp.SaveTasks | App.tsx:28-34 | storage is overwritten with exactly the given list |
| App.TodoApp.AddTask | App.tsx:36-48 | blank input leaves the list, the input field and storage unchanged; otherwise the list is the old list plus the new pending task, that exact list is stored, and the input field is empty |
| App.TodoApp.ToggleTask | App.tsx:50-56 | the list becomes the toggled list, and that exact list is stored |

## Left out

- AsyncStorage and `async`/`await`: storage is the ghost field `stored`, assigned the list handed to `saveTasks`. Write failures are logged and do not roll back the in-memory change, so the model ignores them. Writes are not awaited, so two quick actions could finish their writes out of order; this ordering is not modelled.
- `JSON.stringify` / `JSON.parse`: `LoadTasks` takes the outcome of reading and parsing as a `Saved` value. A JSON value that parses but is not an array of tasks would be put into state untyped by the source; the model has no such case.
- `Date.now().toString()`: the id is a method parameter, and the model does not assume it is fresh.
- `console.error` logging in the two `catch` blocks: only their effect, state unchanged, is modelled.
- Strings are sequences of Unicode scalar values, not UTF-16 code units. Every white-space character `trim` removes lies in the Basic Multilingual Plane, so the blank check is the same.
- React rendering, `useEffect`, `FlatList`, `TouchableOpacity`, `TextInput` wiring and `StyleSheet` (App.tsx:58-120) are UI only. React's batching of state updates is not modelled either: each handler's updates are applied in order.
