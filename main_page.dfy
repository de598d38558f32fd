/**
 * The kanban page's state (src/pages/MainPage/MainPage.tsx): the task list,
 * the modal bookkeeping and the local-storage persistence, with one method
 * per event handler. The lists the handlers compute are in module Kanban.
 */
module MainPage {
  import opened Wrappers
  import opened Kanban

  /**
   * What `localStorage.getItem('task-tracker-tasks')` and `JSON.parse` give:
   * no item (`null` or the empty string), text that does not parse, or a list.
   */
  datatype SavedTasks = NoItem | Unparseable | Item(tasks: seq<Task>)

  class Board {
    var tasks: seq<Task>
    var isModalOpen: bool
    var editingTask: Option<Task>
    var isLoaded: bool
    /** The local-storage slot the page reads once and writes after every change. */
    var storage: SavedTasks

    /** Once the initial load has run, the storage slot holds the list in memory. */
    ghost predicate Valid()
      reads this
    {
      isLoaded ==> storage == Item(tasks)
    }

    /** The page as first rendered: no tasks, no modal, nothing loaded yet. */
    constructor (storage: SavedTasks)
      ensures Valid()
      ensures tasks == [] && !isModalOpen && editingTask == None && !isLoaded && this.storage == storage
    {
      tasks := [];
      isModalOpen := false;
      editingTask := None;
      isLoaded := false;
      this.storage := storage;
    }

    /** `setTasks` followed by the save effect, which writes only once the load has run. */
    method SetTasks(newTasks: seq<Task>)
      modifies this`tasks, this`storage
      ensures tasks == newTasks
      ensures storage == if isLoaded then Item(newTasks) else old(storage)
    {
      tasks := newTasks;
      if isLoaded {
        storage := Item(tasks);
      }
    }

    /**
     * The load effect on mount: a stored list that parses replaces the list
     * (anything else is logged and ignored), then `isLoaded` is set, which
     * runs the save effect and writes the list back, over unparseable text too.
     */
    method LoadEffect()
      modifies this
      ensures tasks == if old(storage).Item? then old(storage).tasks else old(tasks)
      ensures isLoaded && storage == Item(tasks) && Valid()
      ensures isModalOpen == old(isModalOpen) && editingTask == old(editingTask)
    {
      if storage.Item? {
        tasks := storage.tasks;
      }
      isLoaded := true;
      storage := Item(tasks);
    }

    /** `getTasksByStatus`: the column for one status. */
    function GetTasksByStatus(s: Status): (r: seq<Task>)
      reads this
      ensures |r| <= |tasks|
      ensures forall i :: 0 <= i < |r| ==> r[i].status == s
    {
      TasksByStatus(tasks, s)
    }

    /** `handleAddTask`: open the modal for a new task. */
    method HandleAddTask()
      modifies this`editingTask, this`isModalOpen
      ensures isModalOpen && editingTask == None
    {
      editingTask := None;
      isModalOpen := true;
    }

    /** `handleEditTask`: open the modal on an existing task. */
    method HandleEditTask(task: Task)
      modifies this`editingTask, this`isModalOpen
      ensures isModalOpen && editingTask == Some(task)
    {
      editingTask := Some(task);
      isModalOpen := true;
    }

    /** The modal's `onClose`: close it and forget the task being edited. */
    method HandleCloseModal()
      modifies this`editingTask, this`isModalOpen
      ensures !isModalOpen && editingTask == None
    {
      isModalOpen := false;
      editingTask := None;
    }

    /**
     * `handleSaveTask`: with a task being edited, merge the form data into
     * every task with its id; otherwise append a new task made from the form
     * data and two clock readings. Either way the modal closes.
     */
    method HandleSaveTask(data: TaskData, idNow: nat, createdNow: nat)
      requires Valid()
      modifies this
      ensures Valid()
      ensures tasks == match old(editingTask)
        case Some(editing) => EditTask(old(tasks), editing.id, data)
        case None => old(tasks) + [NewTask(data, idNow, createdNow)]
      ensures !isModalOpen && editingTask == None && isLoaded == old(isLoaded)
      ensures !isLoaded ==> storage == old(storage)
    {
      match editingTask {
        case Some(editing) => SetTasks(EditTask(tasks, editing.id, data));
        case None => SetTasks(tasks + [NewTask(data, idNow, createdNow)]);
      }
      isModalOpen := false;
      editingTask := None;
    }

    /** `handleDeleteTask`: when the user confirms, every task with the id goes. */
    method HandleDeleteTask(id: string, confirmed: bool)
      requires Valid()
      modifies this
      ensures Valid()
      ensures tasks == if confirmed then DeleteTask(old(tasks), id) else old(tasks)
      ensures isModalOpen == old(isModalOpen) && editingTask == old(editingTask) && isLoaded == old(isLoaded)
      ensures !isLoaded || !confirmed ==> storage == old(storage)
    {
      if confirmed {
        SetTasks(DeleteTask(tasks, id));
      }
    }

    /** `handleToggleDone`: every task with the id toggles between done and todo. */
    method HandleToggleDone(id: string)
      requires Valid()
      modifies this
      ensures Valid()
      ensures tasks == ToggleDone(old(tasks), id)
      ensures isModalOpen == old(isModalOpen) && editingTask == old(editingTask) && isLoaded == old(isLoaded)
      ensures !isLoaded ==> storage == old(storage)
    {
      SetTasks(ToggleDone(tasks, id));
    }

    /** `handleDragEnd`: apply the list the drop computes, if it computes one. */
    method HandleDragEnd(activeId: string, overId: Option<string>)
      requires Valid()
      modifies this
      ensures Valid()
      ensures tasks == match DragEnd(old(tasks), activeId, overId)
        case Some(moved) => moved
        case None => old(tasks)
      ensures isModalOpen == old(isModalOpen) && editingTask == old(editingTask) && isLoaded == old(isLoaded)
      ensures !isLoaded || DragEnd(old(tasks), activeId, overId).None? ==> storage == old(storage)
    {
      var moved := DragEnd(tasks, activeId, overId);
      if moved.Some? {
        SetTasks(moved.value);
      }
    }
  }

  /**
   * Saving and loading round-trip: a page that loads what a loaded page has
   * stored starts with the same list.
   */
  method Reload(page: Board) returns (reloaded: seq<Task>)
    requires page.Valid() && page.isLoaded
    ensures reloaded == page.tasks
  {
    var next := new Board(page.storage);
    next.LoadEffect();
    reloaded := next.tasks;
  }
}
