/**
 * One displayed task: its edit buffer (a flag and two drafts) and the calls
 * it makes into the page when the user saves, toggles or deletes.
 */
module Item {
  import opened Wrappers
  import opened Text
  import opened Index

  /** The call a save makes: none for a blank draft title, otherwise an edit
      of this task carrying the drafts exactly as typed. */
  function SaveEvent(id: string, editTitle: string, editDescription: string): (a: Option<Action>)
    ensures a.None? <==> IsBlank(editTitle)
    ensures a.Some? ==> a.value == Edit(id, editTitle, editDescription)
  {
    if Trim(editTitle) != "" then Some(Edit(id, editTitle, editDescription)) else None
  }

  class TaskItem {
    /** The task the item shows, as last passed in by the list. */
    var task: Task
    var isEditing: bool
    var editTitle: string
    var editDescription: string

    /** First render: not editing, the drafts seeded from the task. */
    constructor (task: Task)
      ensures this.task == task
      ensures !isEditing && editTitle == task.title && editDescription == task.description
    {
      this.task := task;
      isEditing := false;
      editTitle := task.title;
      editDescription := task.description;
    }

    /** A later render with the list's current task: the state initializers
        do not run again, so the drafts are kept. */
    method Rerender(task: Task)
      modifies this`task
      ensures this.task == task
    {
      this.task := task;
    }

    /** Typing in the title field. */
    method ChangeEditTitle(value: string)
      modifies this`editTitle
      ensures editTitle == value
    {
      editTitle := value;
    }

    /** Typing in the description field. */
    method ChangeEditDescription(value: string)
      modifies this`editDescription
      ensures editDescription == value
    {
      editDescription := value;
    }

    /** The edit button: enters edit mode and leaves the drafts as they are. */
    method BeginEdit()
      modifies this`isEditing
      ensures isEditing
    {
      isEditing := true;
    }

    /** `handleSaveEdit`: a blank draft title changes nothing and calls
        nothing; otherwise the drafts go to the page and edit mode ends. */
    method SaveEdit() returns (emitted: Option<Action>)
      modifies this`isEditing
      ensures emitted == SaveEvent(task.id, editTitle, editDescription)
      ensures isEditing == (old(isEditing) && emitted.None?)
    {
      if Trim(editTitle) != "" {
        emitted := Some(Edit(task.id, editTitle, editDescription));
        isEditing := false;
      } else {
        emitted := None;
      }
    }

    /** `handleCancelEdit`: the drafts go back to the task's current fields
        and edit mode ends, whatever was typed. */
    method CancelEdit()
      modifies this`editTitle, this`editDescription, this`isEditing
      ensures editTitle == task.title && editDescription == task.description
      ensures !isEditing
    {
      editTitle := task.title;
      editDescription := task.description;
      isEditing := false;
    }

    /** The checkbox: asks the page to toggle this task. */
    method CheckboxChanged() returns (a: Action)
      ensures a == Toggle(task.id)
    {
      a := Toggle(task.id);
    }

    /** The delete button: asks the page to delete this task. */
    method DeleteClicked() returns (a: Action)
      ensures a == Delete(task.id)
    {
      a := Delete(task.id);
    }
  }

  /** A save of the item at position `k`, handled by the page, gives that task
      the drafts as typed and keeps its id and completion flag; with unique
      ids no other task changes. A blank draft title leaves the list alone. */
  lemma SaveReachesList(tasks: seq<Task>, k: nat, editTitle: string, editDescription: string)
    requires k < |tasks|
    ensures SaveEvent(tasks[k].id, editTitle, editDescription).None? ==> IsBlank(editTitle)
    ensures !IsBlank(editTitle) ==>
      var r := Apply(tasks, SaveEvent(tasks[k].id, editTitle, editDescription).value);
      && |r| == |tasks|
      && r[k] == Task(tasks[k].id, editTitle, editDescription, tasks[k].completed)
      && (UniqueIds(tasks) ==> forall j :: 0 <= j < |tasks| && j != k ==> r[j] == tasks[j])
  {
  }

  /** The checkbox of the item at position `k` flips that task, and with
      unique ids no other; the delete button removes it, and with unique ids
      exactly one task goes. */
  lemma ItemEventsTargetOwnTask(tasks: seq<Task>, k: nat)
    requires k < |tasks|
    ensures Apply(tasks, Toggle(tasks[k].id))[k] == Toggled(tasks[k])
    ensures tasks[k] !in Apply(tasks, Delete(tasks[k].id))
    ensures UniqueIds(tasks) ==> |Apply(tasks, Delete(tasks[k].id))| == |tasks| - 1
  {
    if UniqueIds(tasks) {
      assert Ids(tasks)[k] == tasks[k].id;
      DeleteUniqueRemovesOne(tasks, tasks[k].id);
    }
  }
}
