/**
 * The page that owns the task list and the theme preference: the four list
 * handlers, the load of both values from the browser's key-value storage and
 * the effects that write them back.
 */
module Index {
  import opened Wrappers

  /** One to-do item. The list handlers put no constraint on any field. */
  datatype Task = Task(id: string, title: string, description: string, completed: bool)

  /** The calls the item and form components make into the page. */
  datatype Action =
    | Add(task: Task)
    | Toggle(id: string)
    | Delete(id: string)
    | Edit(id: string, title: string, description: string)

  /** The ids of a list, position by position. */
  function Ids(tasks: seq<Task>): (ids: seq<string>)
    ensures |ids| == |tasks|
    ensures forall i :: 0 <= i < |tasks| ==> ids[i] == tasks[i].id
  {
    if tasks == [] then [] else [tasks[0].id] + Ids(tasks[1..])
  }

  /** How many tasks of the list carry `id`. */
  function CountId(tasks: seq<Task>, id: string): (n: nat)
    ensures n <= |tasks|
    ensures n == 0 <==> id !in Ids(tasks)
  {
    if tasks == [] then 0
    else (if tasks[0].id == id then 1 else 0) + CountId(tasks[1..], id)
  }

  /** No two tasks share an id: what fresh ids keep true, though no handler checks it. */
  predicate UniqueIds(tasks: seq<Task>) {
    forall i, j :: 0 <= i < j < |tasks| ==> tasks[i].id != tasks[j].id
  }

  // ---------------------------------------------------------------------------
  // The four list handlers, each a new list computed from the current one.

  /** `[...tasks, newTask]`: the earlier tasks unchanged and in order, then the new one. */
  function AddTask(tasks: seq<Task>, newTask: Task): (r: seq<Task>)
    ensures |r| == |tasks| + 1
    ensures r[..|tasks|] == tasks && r[|tasks|] == newTask
  {
    tasks + [newTask]
  }

  /** A task with its completion flag flipped and everything else kept. */
  function Toggled(t: Task): (r: Task)
    ensures r.id == t.id && r.title == t.title && r.description == t.description
    ensures r.completed != t.completed
  {
    t.(completed := !t.completed)
  }

  /** `tasks.map(...)` flipping `completed` on every task whose id is `id`. */
  function ToggleComplete(tasks: seq<Task>, id: string): (r: seq<Task>)
    ensures |r| == |tasks|
    ensures forall i :: 0 <= i < |tasks| ==>
      r[i] == if tasks[i].id == id then Toggled(tasks[i]) else tasks[i]
  {
    if tasks == [] then []
    else [if tasks[0].id == id then Toggled(tasks[0]) else tasks[0]]
         + ToggleComplete(tasks[1..], id)
  }

  /** `tasks.filter(...)` keeping the tasks whose id is not `id`. */
  function DeleteTask(tasks: seq<Task>, id: string): (r: seq<Task>)
    ensures |r| <= |tasks|
    ensures forall t :: t in r <==> t in tasks && t.id != id
  {
    if tasks == [] then []
    else (if tasks[0].id == id then [] else [tasks[0]]) + DeleteTask(tasks[1..], id)
  }

  /** `tasks.map(...)` replacing title and description on every task whose id is `id`. */
  function EditTask(tasks: seq<Task>, id: string, title: string, description: string): (r: seq<Task>)
    ensures |r| == |tasks|
    ensures forall i :: 0 <= i < |tasks| ==>
      r[i] == if tasks[i].id == id then tasks[i].(title := title, description := description) else tasks[i]
  {
    if tasks == [] then []
    else [if tasks[0].id == id then tasks[0].(title := title, description := description) else tasks[0]]
         + EditTask(tasks[1..], id, title, description)
  }

  /** The page's handler for each call its children make. */
  function Apply(tasks: seq<Task>, a: Action): (r: seq<Task>)
    ensures a.Add? ==> |r| == |tasks| + 1
    ensures a.Toggle? || a.Edit? ==> |r| == |tasks| && Ids(r) == Ids(tasks)
    ensures a.Delete? ==> |r| <= |tasks|
  {
    match a
    case Add(t) => AddTask(tasks, t)
    case Toggle(id) => ToggleComplete(tasks, id)
    case Delete(id) => DeleteTask(tasks, id)
    case Edit(id, title, description) => EditTask(tasks, id, title, description)
  }

  // ---------------------------------------------------------------------------
  // Properties of the handlers.

  /** Adding a task whose id is not yet used keeps the ids unique. */
  lemma AddKeepsUniqueIds(tasks: seq<Task>, newTask: Task)
    requires UniqueIds(tasks) && newTask.id !in Ids(tasks)
    ensures UniqueIds(AddTask(tasks, newTask))
  {
  }

  /** Toggling the same id twice gives back the original list. */
  lemma ToggleInvolution(tasks: seq<Task>, id: string)
    ensures ToggleComplete(ToggleComplete(tasks, id), id) == tasks
  {
  }

  /** Toggling an id no task carries changes nothing. */
  lemma ToggleAbsentIsNoop(tasks: seq<Task>, id: string)
    requires id !in Ids(tasks)
    ensures ToggleComplete(tasks, id) == tasks
  {
  }

  /** With unique ids, toggling the id of the task at `k` flips that task alone. */
  lemma ToggleUnique(tasks: seq<Task>, k: nat)
    requires UniqueIds(tasks) && k < |tasks|
    ensures ToggleComplete(tasks, tasks[k].id)[k].completed == !tasks[k].completed
    ensures forall j :: 0 <= j < |tasks| && j != k ==> ToggleComplete(tasks, tasks[k].id)[j] == tasks[j]
  {
  }

  /** Toggling and editing keep every id in place, so they keep ids unique. */
  lemma MapsKeepIds(tasks: seq<Task>, id: string, title: string, description: string)
    ensures Ids(ToggleComplete(tasks, id)) == Ids(tasks)
    ensures Ids(EditTask(tasks, id, title, description)) == Ids(tasks)
    ensures UniqueIds(tasks) ==> UniqueIds(ToggleComplete(tasks, id))
    ensures UniqueIds(tasks) ==> UniqueIds(EditTask(tasks, id, title, description))
  {
  }

  /** Deleting from a concatenation deletes from each part: with the
      single-task cases below, this fixes the result to be the tasks with a
      different id in their original relative order. */
  lemma {:induction false} DeleteSplits(a: seq<Task>, b: seq<Task>, id: string)
    ensures DeleteTask(a + b, id) == DeleteTask(a, id) + DeleteTask(b, id)
  {
    if a != [] {
      assert (a + b)[0] == a[0] && (a + b)[1..] == a[1..] + b;
      DeleteSplits(a[1..], b, id);
      var head := if a[0].id == id then [] else [a[0]];
      calc {
        DeleteTask(a + b, id);
        head + DeleteTask(a[1..] + b, id);
        head + (DeleteTask(a[1..], id) + DeleteTask(b, id));
        (head + DeleteTask(a[1..], id)) + DeleteTask(b, id);
      }
    } else {
      assert a + b == b;
    }
  }

  /** On a single task, delete keeps it exactly when its id differs. */
  lemma DeleteSingle(t: Task, id: string)
    ensures DeleteTask([t], id) == if t.id == id then [] else [t]
  {
  }

  /** Deleting an id no task carries changes nothing. */
  lemma {:induction false} DeleteAbsentIsNoop(tasks: seq<Task>, id: string)
    requires id !in Ids(tasks)
    ensures DeleteTask(tasks, id) == tasks
  {
    if tasks != [] {
      assert Ids(tasks) == [tasks[0].id] + Ids(tasks[1..]);
      DeleteAbsentIsNoop(tasks[1..], id);
      assert tasks == [tasks[0]] + tasks[1..];
    }
  }

  /** Deleting twice is deleting once. */
  lemma DeleteIdempotent(tasks: seq<Task>, id: string)
    ensures DeleteTask(DeleteTask(tasks, id), id) == DeleteTask(tasks, id)
  {
    var r := DeleteTask(tasks, id);
    forall k | 0 <= k < |r| ensures Ids(r)[k] != id {
      assert r[k] in r;
    }
    DeleteAbsentIsNoop(r, id);
  }

  /** Delete removes exactly the tasks that carry `id`, however many there are. */
  lemma {:induction false} DeleteCount(tasks: seq<Task>, id: string)
    ensures |DeleteTask(tasks, id)| == |tasks| - CountId(tasks, id)
  {
    if tasks != [] {
      DeleteCount(tasks[1..], id);
    }
  }

  /** With unique ids, deleting a present id removes one task. */
  lemma {:induction false} DeleteUniqueRemovesOne(tasks: seq<Task>, id: string)
    requires UniqueIds(tasks) && id in Ids(tasks)
    ensures |DeleteTask(tasks, id)| == |tasks| - 1
  {
    DeleteCount(tasks, id);
    UniqueCountsOne(tasks, id);
  }

  lemma {:induction false} UniqueCountsOne(tasks: seq<Task>, id: string)
    requires UniqueIds(tasks) && id in Ids(tasks)
    ensures CountId(tasks, id) == 1
  {
    if tasks[0].id == id {
      assert id !in Ids(tasks[1..]) by {
        forall k | 0 <= k < |tasks| - 1 ensures Ids(tasks[1..])[k] != id {
          assert tasks[1..][k] == tasks[k + 1];
        }
      }
    } else {
      assert Ids(tasks) == [tasks[0].id] + Ids(tasks[1..]);
      UniqueCountsOne(tasks[1..], id);
    }
  }

  /** Delete keeps ids unique. */
  lemma {:induction false} DeleteKeepsUniqueIds(tasks: seq<Task>, id: string)
    requires UniqueIds(tasks)
    ensures UniqueIds(DeleteTask(tasks, id))
  {
    if tasks != [] {
      DeleteKeepsUniqueIds(tasks[1..], id);
      var rest := DeleteTask(tasks[1..], id);
      if tasks[0].id != id {
        forall k | 0 <= k < |rest| ensures rest[k].id != tasks[0].id {
          assert rest[k] in rest;
          var j :| 0 <= j < |tasks[1..]| && tasks[1..][j] == rest[k];
          assert tasks[j + 1] == rest[k];
        }
      }
    }
  }

  /** Editing an id no task carries changes nothing. */
  lemma EditAbsentIsNoop(tasks: seq<Task>, id: string, title: string, description: string)
    requires id !in Ids(tasks)
    ensures EditTask(tasks, id, title, description) == tasks
  {
  }

  // ---------------------------------------------------------------------------
  // Storage: the browser's key-value store, and the two values kept in it.

  type Storage = map<string, string>

  const TasksKey := "tasks"
  const ThemeKey := "theme"

  /** The initial task list: the parsed stored value, or the empty list when
      the key is absent, holds the empty string (falsy), or fails to parse. */
  function LoadTasks(storage: Storage, parse: string -> Option<seq<Task>>): (tasks: seq<Task>)
    ensures tasks == [] || (TasksKey in storage && parse(storage[TasksKey]) == Some(tasks))
    ensures TasksKey in storage && storage[TasksKey] != "" && parse(storage[TasksKey]).Some?
            ==> tasks == parse(storage[TasksKey]).value
  {
    if TasksKey in storage && storage[TasksKey] != "" then
      match parse(storage[TasksKey])
      case Some(saved) => saved
      case None => []
    else []
  }

  /** The tasks effect: the whole list serialized under its key. */
  function SaveTasks(storage: Storage, serialize: seq<Task> -> string, tasks: seq<Task>): (s: Storage)
    ensures s.Keys == storage.Keys + {TasksKey}
    ensures s[TasksKey] == serialize(tasks)
    ensures forall k :: k in storage && k != TasksKey ==> s[k] == storage[k]
  {
    storage[TasksKey := serialize(tasks)]
  }

  /** The stored form of the preference. */
  function ThemeValue(dark: bool): (v: string)
    ensures v == "dark" || v == "light"
  {
    if dark then "dark" else "light"
  }

  /** The initial preference: dark exactly when the stored theme is "dark". */
  function LoadTheme(storage: Storage): (dark: bool)
    ensures dark <==> ThemeKey in storage && storage[ThemeKey] == ThemeValue(true)
    ensures ThemeKey !in storage ==> !dark
  {
    ThemeKey in storage && storage[ThemeKey] == "dark"
  }

  /** The theme effect: the preference written under its key. */
  function SaveTheme(storage: Storage, dark: bool): (s: Storage)
    ensures s.Keys == storage.Keys + {ThemeKey}
    ensures s[ThemeKey] in {"dark", "light"}
    ensures forall k :: k in storage && k != ThemeKey ==> s[k] == storage[k]
  {
    storage[ThemeKey := ThemeValue(dark)]
  }

  /** `!darkMode`. */
  function NextTheme(dark: bool): (r: bool)
    ensures r != dark
  {
    !dark
  }

  /** Each effect writes its own key only: storing the list never changes the
      loaded preference, and storing the preference never changes the loaded list. */
  lemma StoredValuesIndependent(storage: Storage, serialize: seq<Task> -> string, tasks: seq<Task>,
                                dark: bool, parse: string -> Option<seq<Task>>)
    ensures LoadTheme(SaveTasks(storage, serialize, tasks)) == LoadTheme(storage)
    ensures LoadTasks(SaveTheme(storage, dark), parse) == LoadTasks(storage, parse)
  {
  }

  /** Storing a preference and loading it gives it back, whatever else is stored. */
  lemma ThemeRoundTrip(storage: Storage, dark: bool)
    ensures LoadTheme(SaveTheme(storage, dark)) == dark
  {
  }

  /** Toggling twice restores the preference. */
  lemma ToggleThemeTwice(dark: bool)
    ensures NextTheme(NextTheme(dark)) == dark
  {
  }

  /** The task load falls back to the empty list when nothing usable is stored. */
  lemma LoadTasksFallback(storage: Storage, parse: string -> Option<seq<Task>>)
    ensures TasksKey !in storage ==> LoadTasks(storage, parse) == []
    ensures TasksKey in storage && storage[TasksKey] == "" ==> LoadTasks(storage, parse) == []
    ensures TasksKey in storage && parse(storage[TasksKey]).None? ==> LoadTasks(storage, parse) == []
  {
  }

  /** Both values are in storage as the page holds them. */
  ghost predicate Persisted(storage: Storage, tasks: seq<Task>, dark: bool, serialize: seq<Task> -> string) {
    && TasksKey in storage && storage[TasksKey] == serialize(tasks)
    && ThemeKey in storage && storage[ThemeKey] == ThemeValue(dark)
  }

  /** Reloading the page from what its effects stored restores its state,
      provided the parser reads back what the serializer wrote (and the
      serializer never writes the empty string, which `JSON.stringify` of a
      list never does). */
  lemma ReloadRestoresState(storage: Storage, tasks: seq<Task>, dark: bool,
                            parse: string -> Option<seq<Task>>, serialize: seq<Task> -> string)
    requires Persisted(storage, tasks, dark, serialize)
    requires serialize(tasks) != "" && parse(serialize(tasks)) == Some(tasks)
    ensures LoadTasks(storage, parse) == tasks
    ensures LoadTheme(storage) == dark
  {
  }

  // ---------------------------------------------------------------------------
  // The page component: its two state cells and the storage its effects write.

  class IndexPage {
    var tasks: seq<Task>
    var darkMode: bool
    var storage: Storage
    /** `JSON.stringify` on task lists. */
    const serialize: seq<Task> -> string

    /** Every effect has run: storage holds the current list and preference. */
    ghost predicate Valid()
      reads this
    {
      Persisted(storage, tasks, darkMode, serialize)
    }

    /** First render: both state initializers read storage, then the mount
        effects write both values back. */
    constructor (saved: Storage, parse: string -> Option<seq<Task>>, serialize: seq<Task> -> string)
      ensures this.serialize == serialize
      ensures tasks == LoadTasks(saved, parse) && darkMode == LoadTheme(saved)
      ensures storage == SaveTheme(SaveTasks(saved, serialize, tasks), darkMode)
      ensures Valid()
    {
      this.serialize := serialize;
      tasks := LoadTasks(saved, parse);
      darkMode := LoadTheme(saved);
      storage := saved;
      new;
      PersistTasks();
      PersistTheme();
    }

    /** The effect on `tasks`. */
    method PersistTasks()
      modifies this`storage
      ensures storage == SaveTasks(old(storage), serialize, tasks)
    {
      storage := storage[TasksKey := serialize(tasks)];
    }

    /** The effect on `darkMode` (the document class it also sets is not modelled). */
    method PersistTheme()
      modifies this`storage
      ensures storage == SaveTheme(old(storage), darkMode)
    {
      storage := storage[ThemeKey := if darkMode then "dark" else "light"];
    }

    method HandleAddTask(newTask: Task)
      requires Valid()
      modifies this`tasks, this`storage
      ensures tasks == AddTask(old(tasks), newTask)
      ensures storage == SaveTasks(old(storage), serialize, tasks)
      ensures Valid()
    {
      tasks := tasks + [newTask];
      PersistTasks();
    }

    method HandleToggleComplete(id: string)
      requires Valid()
      modifies this`tasks, this`storage
      ensures tasks == ToggleComplete(old(tasks), id)
      ensures storage == SaveTasks(old(storage), serialize, tasks)
      ensures Valid()
    {
      tasks := ToggleComplete(tasks, id);
      PersistTasks();
    }

    method HandleDeleteTask(id: string)
      requires Valid()
      modifies this`tasks, this`storage
      ensures tasks == DeleteTask(old(tasks), id)
      ensures storage == SaveTasks(old(storage), serialize, tasks)
      ensures Valid()
    {
      tasks := DeleteTask(tasks, id);
      PersistTasks();
    }

    method HandleEditTask(id: string, title: string, description: string)
      requires Valid()
      modifies this`tasks, this`storage
      ensures tasks == EditTask(old(tasks), id, title, description)
      ensures storage == SaveTasks(old(storage), serialize, tasks)
      ensures Valid()
    {
      tasks := EditTask(tasks, id, title, description);
      PersistTasks();
    }

    method ToggleTheme()
      requires Valid()
      modifies this`darkMode, this`storage
      ensures darkMode == NextTheme(old(darkMode))
      ensures storage == SaveTheme(old(storage), darkMode)
      ensures Valid()
    {
      darkMode := !darkMode;
      PersistTheme();
    }
  }
}
