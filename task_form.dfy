/**
 * The add form: two fields and a submit that hands a new task to the page
 * and clears the fields.
 */
module Form {
  import opened Wrappers
  import opened Text
  import opened Index

  /** The task a submit hands to the page: none for a blank title, otherwise
      an uncompleted task with the fresh id and the fields exactly as typed. */
  function NewTask(title: string, description: string, freshId: string): (t: Option<Task>)
    ensures t.None? <==> IsBlank(title)
    ensures t.Some? ==> t.value == Task(freshId, title, description, false)
  {
    if Trim(title) != "" then Some(Task(freshId, title, description, false)) else None
  }

  class TaskForm {
    var title: string
    var description: string

    /** First render: both fields empty. */
    constructor ()
      ensures title == "" && description == ""
    {
      title := "";
      description := "";
    }

    /** Typing in the title field. */
    method ChangeTitle(value: string)
      modifies this`title
      ensures title == value
    {
      title := value;
    }

    /** Typing in the description field. */
    method ChangeDescription(value: string)
      modifies this`description
      ensures description == value
    {
      description := value;
    }

    /** `handleSubmit`, given the id `crypto.randomUUID()` would return: a
        blank title hands nothing on and keeps both fields; otherwise the new
        task is handed on and both fields are cleared. */
    method Submit(freshId: string) returns (emitted: Option<Task>)
      modifies this`title, this`description
      ensures emitted == NewTask(old(title), old(description), freshId)
      ensures emitted.Some? ==> title == "" && description == ""
      ensures emitted.None? ==> title == old(title) && description == old(description)
    {
      if Trim(title) != "" {
        emitted := Some(Task(freshId, title, description, false));
        title := "";
        description := "";
      } else {
        emitted := None;
      }
    }
  }

  /** A successful submit handled by the page grows the list by one, ends it
      with the new uncompleted task and, for an id not yet in the list, keeps
      the ids unique. */
  lemma SubmitThenAdd(tasks: seq<Task>, title: string, description: string, freshId: string)
    requires !IsBlank(title)
    ensures var r := Apply(tasks, Add(NewTask(title, description, freshId).value));
      && |r| == |tasks| + 1
      && r[..|tasks|] == tasks
      && r[|tasks|] == Task(freshId, title, description, false)
      && (UniqueIds(tasks) && freshId !in Ids(tasks) ==> UniqueIds(r))
  {
  }

  /** What the user types before one submit. */
  datatype Entry = Entry(title: string, description: string, freshId: string)

  /** A series of submits, each handed to the page's add handler. */
  function SubmitAll(tasks: seq<Task>, entries: seq<Entry>): (r: seq<Task>)
    decreases |entries|
  {
    if entries == [] then tasks
    else
      var e := entries[0];
      match NewTask(e.title, e.description, e.freshId)
      case Some(t) => SubmitAll(AddTask(tasks, t), entries[1..])
      case None => SubmitAll(tasks, entries[1..])
  }

  /** How many entries have a title that is not blank. */
  function CountNonBlank(entries: seq<Entry>): (n: nat)
    ensures n <= |entries|
  {
    if entries == [] then 0
    else (if IsBlank(entries[0].title) then 0 else 1) + CountNonBlank(entries[1..])
  }

  /** After a series of submits the list has grown by exactly the number of
      non-blank titles, the earlier tasks untouched at its front. */
  lemma {:induction false} SubmitAllGrowsByNonBlank(tasks: seq<Task>, entries: seq<Entry>)
    ensures |SubmitAll(tasks, entries)| == |tasks| + CountNonBlank(entries)
    ensures SubmitAll(tasks, entries)[..|tasks|] == tasks
    decreases |entries|
  {
    if entries != [] {
      var e := entries[0];
      match NewTask(e.title, e.description, e.freshId)
      case Some(t) =>
        SubmitAllGrowsByNonBlank(AddTask(tasks, t), entries[1..]);
        assert AddTask(tasks, t)[..|tasks|] == tasks;
      case None =>
        SubmitAllGrowsByNonBlank(tasks, entries[1..]);
    }
  }

  /** A blank title adds nothing; the empty string and a run of spaces are blank. */
  lemma BlankAddsNothing(tasks: seq<Task>, title: string, description: string, freshId: string)
    ensures IsBlank("") && IsBlank("   ")
    ensures IsBlank(title) ==> SubmitAll(tasks, [Entry(title, description, freshId)]) == tasks
  {
  }
}
