# Smart To-Do List: a Dafny model of its state logic

The application is a single-page to-do list. The page component (`Index`) owns
the list of tasks and a dark/light preference. It loads both from the browser's
key-value storage and writes them back after every change. It hands four
handlers to its children: add, toggle completion, delete and edit. Each one
computes a new list from the current one. The add form (`TaskForm`) holds a
title and a description, and hands a new uncompleted task to the page when the
title is not blank. Each displayed task (`TaskItem`) holds an edit buffer: an
editing flag and two drafts. Saving a non-blank draft title hands an edit to
the page.

The model follows that structure:

- `wrappers.dfy`: `Option`.
- `text.dfy`, module `Text`: `String.prototype.trim` over the ECMAScript
  whitespace set, and `IsBlank`, the test both forms apply to a title.
- `index.dfy`, module `Index`: the `Task` record; the four handlers as
  recursive functions over `seq<Task>` (`AddTask`, `ToggleComplete`,
  `DeleteTask`, `EditTask`) with their lemmas; loading and storing the task list
  and the theme over a `map<string, string>`; and the class `IndexPage`, whose
  fields `tasks`, `darkMode` and `storage` the handler methods update.
- `task_item.dfy`, module `Item`: the class `TaskItem`, with the fields
  `isEditing`, `editTitle` and `editDescription`, and the calls it makes.
- `task_form.dfy`, module `Form`: the class `TaskForm`, with the fields
  `title` and `description`, and its `Submit`.
- `app.dfy`, module `App`: an add / complete / rename / delete scenario
  across all three components.

Each class method is specified by the pure function it applies. For example,
`HandleToggleComplete` ends with `tasks == ToggleComplete(old(tasks), id)`.
The properties are proved about those functions.

Calls from the children to the page are values of `Index.Action`. `Apply`
dispatches each of them to its handler, as the page's wiring does.
`JSON.parse` is a parameter of type `string -> Option<seq<Task>>`, where
`None` stands for a thrown exception. `JSON.stringify` is the `serialize`
constant of `IndexPage`. The id `crypto.randomUUID()` would produce is a
parameter of `TaskForm.Submit`. Freshness of that id appears only as a
precondition of the lemmas that need it.

Behaviour of the code that a reader might not expect, which the model follows:

- The list handlers accept any title, blank or not. The blank-title check lives
  only in the two forms (src/components/TaskForm.tsx:19,
  src/components/TaskItem.tsx:24). So `EditTask(tasks, id, "", d)` does blank
  the title. It is `SaveEvent` that never produces such an edit.
- Entering edit mode does not copy the task into the drafts
  (src/components/TaskItem.tsx:112). The drafts keep whatever they last held:
  the values seeded at mount, the values reset by a cancel, or the values of
  the last save.
- The stored task list is used only when it is truthy
  (src/pages/Index.tsx:18). An empty stored string therefore counts as absent,
  like a missing key.
- Unique ids are not enforced by any handler. A stored list may already hold
  duplicates. Toggle and edit then change every match, and delete removes every
  match. The lemmas are stated both for arbitrary lists and for lists with
  unique ids.

## Model

| member | source | states |
|---|---|---|
| `Text.Trim` | src/components/TaskForm.tsx:19 | the trimmed title is a slice of the title, empty exactly when the title is blank, and otherwise starts and ends with a non-whitespace character |
| `Index.AddTask` | src/pages/Index.tsx:62-64 | the list grows by one, the earlier tasks stay unchanged and in order, and the new task is last |
| `Index.AddKeepsUniqueIds` | src/pages/Index.tsx:62-64 | adding a task whose id is not in the list keeps ids unique |
| `Index.ToggleComplete` | src/pages/Index.tsx:66-72 | same length and order; every task with the id has `completed` flipped and all its other fields kept; every other task is unchanged |
| `Index.ToggleInvolution` | src/pages/Index.tsx:66-72 | toggling the same id twice returns the original list |
| `Index.ToggleAbsentIsNoop` | src/pages/Index.tsx:66-72 | toggling an id that no task carries returns the list unchanged |
| `Index.ToggleUnique` | src/pages/Index.tsx:68-70 | with unique ids, toggling the id at position k flips that task and changes no other |
| `Index.MapsKeepIds` | src/pages/Index.tsx:66-84 | toggle and edit keep every id in place, so they keep ids unique |
| `Index.DeleteTask` | src/pages/Index.tsx:74-76 | a task is in the result exactly when it was in the list and its id differs; the result is no longer than the list |
| `Index.DeleteSplits` | src/pages/Index.tsx:75 | delete distributes over concatenation, which together with `DeleteSingle` fixes the original relative order of the kept tasks |
| `Index.DeleteSingle` | src/pages/Index.tsx:75 | a single task is kept exactly when its id differs |
| `Index.DeleteAbsentIsNoop` | src/pages/Index.tsx:74-76 | deleting an id that no task carries returns the list unchanged |
| `Index.DeleteIdempotent` | src/pages/Index.tsx:74-76 | deleting the same id twice is the same as deleting it once |
| `Index.DeleteCount` | src/pages/Index.tsx:74-76 | delete removes exactly as many tasks as carry the id |
| `Index.DeleteUniqueRemovesOne` | src/pages/Index.tsx:74-76 | with unique ids, deleting a present id removes exactly one task |
| `Index.DeleteKeepsUniqueIds` | src/pages/Index.tsx:74-76 | delete keeps ids unique |
| `Index.EditTask` | src/pages/Index.tsx:78-84 | same length and order; every task with the id gets the new title and description and keeps its id and `completed`; every other task is unchanged |
| `Index.EditAbsentIsNoop` | src/pages/Index.tsx:78-84 | editing an id that no task carries returns the list unchanged |
| `Index.Apply` | src/pages/Index.tsx:106-113 | each child call goes to its handler: add grows the list by one, toggle and edit keep length and ids, delete never grows the list |
| `Index.LoadTasks` | src/pages/Index.tsx:16-27 | a non-empty result is always a successful parse of the stored value; a successful parse of a non-empty stored value is the result |
| `Index.LoadTasksFallback` | src/pages/Index.tsx:16-27 | an absent key, an empty stored string or a value that fails to parse yields the empty list |
| `Index.SaveTasks` | src/pages/Index.tsx:36-38 | storage afterwards holds the serialized list under "tasks" and every other key unchanged |
| `Index.ThemeValue` | src/pages/Index.tsx:42 | the stored preference is "dark" or "light" |
| `Index.LoadTheme` | src/pages/Index.tsx:30-33 | the preference loads as dark exactly when the stored theme is the string that storing dark writes ("dark"); any other value, or none, loads as light |
| `Index.StoredValuesIndependent` | src/pages/Index.tsx:36-42 | each effect writes only its own key: storing the list never changes the loaded preference, and storing the preference never changes the loaded list |
| `Index.SaveTheme` | src/pages/Index.tsx:41-42 | storage afterwards holds "dark" or "light" under "theme" and every other key unchanged |
| `Index.ThemeRoundTrip` | src/pages/Index.tsx:42 | storing a preference and loading it gives it back |
| `Index.NextTheme` | src/pages/Index.tsx:87-89 | toggling always changes the preference |
| `Index.ToggleThemeTwice` | src/pages/Index.tsx:87-89 | toggling twice restores the preference |
| `Index.ReloadRestoresState` | src/pages/Index.tsx:16-42 | if the parser reads back what the serializer wrote, reloading from what the effects stored restores both the list and the preference |
| `Index.IndexPage.constructor` | src/pages/Index.tsx:16-59 | the state is loaded from storage, then the mount effects store both values back |
| `Index.IndexPage.PersistTasks` | src/pages/Index.tsx:36-38 | the tasks effect writes the serialized list and changes nothing else |
| `Index.IndexPage.PersistTheme` | src/pages/Index.tsx:41-42 | the theme effect writes "dark" or "light" and changes nothing else |
| `Index.IndexPage.HandleAddTask` | src/pages/Index.tsx:62-64 | the list becomes `AddTask` of the old list, it is persisted, and the preference is unchanged |
| `Index.IndexPage.HandleToggleComplete` | src/pages/Index.tsx:66-72 | the list becomes `ToggleComplete` of the old list and it is persisted |
| `Index.IndexPage.HandleDeleteTask` | src/pages/Index.tsx:74-76 | the list becomes `DeleteTask` of the old list and it is persisted |
| `Index.IndexPage.HandleEditTask` | src/pages/Index.tsx:78-84 | the list becomes `EditTask` of the old list and it is persisted |
| `Index.IndexPage.ToggleTheme` | src/pages/Index.tsx:87-89 | the preference is negated and persisted; the list is unchanged |
| `Item.SaveEvent` | src/components/TaskItem.tsx:23-28 | a save produces no call exactly when the draft title is blank, and otherwise the edit of this task's id with the drafts as typed (untrimmed) |
| `Item.TaskItem.constructor` | src/components/TaskItem.tsx:19-21 | initially not editing, with the drafts equal to the task's title and description |
| `Item.TaskItem.Rerender` | src/components/TaskList.tsx:31-38 | a later render replaces the task and keeps the edit state |
| `Item.TaskItem.ChangeEditTitle` | src/components/TaskItem.tsx:52 | typing sets the draft title |
| `Item.TaskItem.ChangeEditDescription` | src/components/TaskItem.tsx:64 | typing sets the draft description |
| `Item.TaskItem.BeginEdit` | src/components/TaskItem.tsx:112 | entering edit mode sets the flag and leaves both drafts unchanged |
| `Item.TaskItem.SaveEdit` | src/components/TaskItem.tsx:23-28 | the call made is `SaveEvent` of the drafts; edit mode ends exactly when a call is made; the drafts never change |
| `Item.TaskItem.CancelEdit` | src/components/TaskItem.tsx:30-34 | both drafts are reset to the task's current fields and edit mode ends, whatever the drafts held |
| `Item.TaskItem.CheckboxChanged` | src/components/TaskItem.tsx:89 | the checkbox asks to toggle this item's own id |
| `Item.TaskItem.DeleteClicked` | src/components/TaskItem.tsx:121 | the delete button asks to delete this item's own id |
| `Item.SaveReachesList` | src/components/TaskItem.tsx:25 | a non-blank save, once the page handles it, gives the task the drafts and keeps its id and `completed`; with unique ids no other task changes |
| `Item.ItemEventsTargetOwnTask` | src/components/TaskItem.tsx:86-127 | the item's toggle flips its own task; its delete removes its own task, and with unique ids exactly one task |
| `Form.NewTask` | src/components/TaskForm.tsx:19-26 | a submit produces nothing exactly when the title is blank, and otherwise an uncompleted task with the fresh id and the title and description as typed (untrimmed) |
| `Form.TaskForm.constructor` | src/components/TaskForm.tsx:14-15 | both fields start empty |
| `Form.TaskForm.ChangeTitle` | src/components/TaskForm.tsx:42 | typing sets the title |
| `Form.TaskForm.ChangeDescription` | src/components/TaskForm.tsx:55 | typing sets the description |
| `Form.TaskForm.Submit` | src/components/TaskForm.tsx:17-30 | the task handed on is `NewTask` of the fields; after a successful submit both fields are empty; after a blank one both are unchanged |
| `Form.SubmitThenAdd` | src/components/TaskForm.tsx:20-26 | a successful submit handled by the page grows the list by one and ends it with the new uncompleted task; with a fresh id the ids stay unique |
| `Form.SubmitAllGrowsByNonBlank` | src/components/TaskForm.tsx:17-30 | after any series of submits the list has grown by exactly the number of non-blank titles, with the earlier tasks unchanged at its front |
| `Form.BlankAddsNothing` | src/components/TaskForm.tsx:19 | a submit with a blank title, such as "" or "   ", leaves the list unchanged |
| `App.BuyMilkScenario` | src/pages/Index.tsx:62-84 | add "Buy milk", complete it, rename it to "Buy oat milk" with an empty description, then delete it: each step gives the expected list, ending with the empty list |

## Left out

- Markup, CSS classes and the styling that depends on `completed`: presentation only.
- `TaskList` is modelled only as what it passes to each item (`Rerender`). Its empty-list message is presentation.
- The `ThemeToggle` component is not part of this model. Only the `toggleTheme` handler it calls is modelled.
- The `dark` class on `document.documentElement`: a DOM side effect.
- React's scheduling. Each handler's effect is applied at once, after the handler's state update. Every handler produces a new array, so the tasks effect runs after each one, as modelled. Stale closures and batching are not modelled.
- `localStorage` becomes a `map<string, string>`. Storage quota errors and other tabs writing the same keys are not modelled.
- `JSON.parse` and `JSON.stringify` become function parameters. A stored value that parses to something other than a list of tasks (for example `null` or a number) is outside the parser's type. The model does not capture the page then holding that value.
- The `console.error` call on a parse failure: logging only.
- `crypto.randomUUID()` becomes a parameter. Its freshness is assumed where needed, not proved.
- JavaScript strings are UTF-16 code-unit sequences. The model uses sequences of Unicode scalar values, with the whitespace set of ECMAScript `trim`.
- The browser's `required` check on the add form's title input (src/components/TaskForm.tsx:45) blocks only an empty title. The edit input is not inside a form, so its `required` blocks nothing. Both handlers refuse every blank title anyway, so the model's outcome is the same.
- Which controls are on screen is not a precondition. Save and Cancel are shown only while editing, and the checkbox and the Edit and Delete buttons only while not editing. The methods accept every call, as the handlers do.
- `e.preventDefault()` in the form's submit handler has no effect on the modelled state.
