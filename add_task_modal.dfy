/**
 * The task form (src/components/AddTaskModal/AddTaskModal.tsx): three
 * controlled fields, the effect that fills them from the task being edited
 * or clears them, and the submit handler that trims what was typed and
 * refuses a blank title.
 */
module AddTaskModal {
  import opened Wrappers
  import opened Text
  import opened Kanban

  /**
   * What a submit hands to `onSave`: nothing when the trimmed title is empty,
   * otherwise the trimmed title and description with the chosen status.
   * The title is refused exactly when it is all white space.
   */
  function SubmitPayload(title: string, description: string, status: Status): (r: Option<TaskData>)
    ensures r.None? <==> forall k :: 0 <= k < |title| ==> IsJsSpace(title[k])
    ensures r.Some? ==> r.value.title != "" && IsTrimmed(r.value.title) && r.value.title == Trim(title)
    ensures r.Some? ==> IsTrimmed(r.value.description) && r.value.description == Trim(description)
    ensures r.Some? ==> r.value.status == status
  {
    TrimEmptyIff(title);
    TrimIsInnerPiece(title);
    TrimIsInnerPiece(description);
    if Trim(title) != "" then Some(TaskData(Trim(title), Trim(description), status)) else None
  }

  /** Submitting what a submit produced gives the same data again. */
  lemma ResubmitUnchanged(title: string, description: string, status: Status)
    requires Trim(title) != ""
    ensures var data := SubmitPayload(title, description, status).value;
      SubmitPayload(data.title, data.description, data.status) == Some(data)
  {
    TrimIdempotent(title);
    TrimIdempotent(description);
  }

  /**
   * Opening the form on a task whose title and description are already
   * trimmed, and submitting without typing, leaves the task as it was.
   */
  lemma SubmitUnchangedTask(task: Task)
    requires task.title != "" && IsTrimmed(task.title) && IsTrimmed(task.description)
    ensures SubmitPayload(task.title, task.description, task.status).Some?
    ensures Merge(task, SubmitPayload(task.title, task.description, task.status).value) == task
  {
    TrimTrimmed(task.title);
    TrimTrimmed(task.description);
  }

  class TaskForm {
    var title: string
    var description: string
    var status: Status

    /** The initial field values: an empty title and description, status todo. */
    constructor ()
      ensures title == "" && description == "" && status == Todo
    {
      title := "";
      description := "";
      status := Todo;
    }

    /**
     * The effect run when the modal opens or the edited task changes: the
     * fields take the edited task's values, or are cleared for a new task.
     */
    method Sync(editingTask: Option<Task>)
      modifies this
      ensures match editingTask
        case Some(task) => title == task.title && description == task.description && status == task.status
        case None => title == "" && description == "" && status == Todo
    {
      match editingTask {
        case Some(task) =>
          title := task.title;
          description := task.description;
          status := task.status;
        case None =>
          title := "";
          description := "";
          status := Todo;
      }
    }

    /** The title input's `onChange`. */
    method SetTitle(value: string)
      modifies this`title
      ensures title == value
    {
      title := value;
    }

    /** The description textarea's `onChange`. */
    method SetDescription(value: string)
      modifies this`description
      ensures description == value
    {
      description := value;
    }

    /** The status select's `onChange`. */
    method SetStatus(value: Status)
      modifies this`status
      ensures status == value
    {
      status := value;
    }

    /**
     * `handleSubmit`: the data passed to `onSave`, if any, and whether
     * `onClose` is called, which happens exactly when something is saved.
     * The fields themselves are left as they are.
     */
    method HandleSubmit() returns (saved: Option<TaskData>, closes: bool)
      ensures saved == SubmitPayload(title, description, status)
      ensures closes <==> saved.Some?
    {
      var trimmed := Trim(title);
      if trimmed != "" {
        saved := Some(TaskData(trimmed, Trim(description), status));
        closes := true;
      } else {
        saved := None;
        closes := false;
      }
    }
  }
}
