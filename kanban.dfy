/**
 * The task list of the kanban page (src/pages/MainPage/MainPage.tsx) as
 * values: the column view and the new list each event handler computes
 * with `map`, `filter`, spread and `arrayMove`. The page's state and its
 * persistence are in module MainPage.
 */
module Kanban {
  import opened Wrappers
  import opened Seqs
  import opened Text

  /** The three columns. */
  datatype Status = Todo | InProgress | Done

  /** The string a status is stored and compared as; the columns' droppable ids. */
  function StatusName(s: Status): string {
    match s
    case Todo => "todo"
    case InProgress => "in-progress"
    case Done => "done"
  }

  /** `['todo', 'in-progress', 'done'].includes(overId)`: the column a drop target's id names, if any. */
  function ColumnOf(overId: string): (r: Option<Status>)
    ensures r.Some? <==> overId in {"todo", "in-progress", "done"}
    ensures r.Some? ==> StatusName(r.value) == overId
  {
    if overId == "todo" then Some(Todo)
    else if overId == "in-progress" then Some(InProgress)
    else if overId == "done" then Some(Done)
    else None
  }

  /** A task as the page keeps it. */
  datatype Task = Task(id: string, title: string, description: string, status: Status, createdAt: int)

  /** `Omit<Task, 'id' | 'createdAt'>`: what the form hands to the save handler. */
  datatype TaskData = TaskData(title: string, description: string, status: Status)

  /** `t => t.status === s`. */
  function InStatus(s: Status): Task -> bool {
    (t: Task) => t.status == s
  }

  /** `t => t.id === id`. */
  function HasId(id: string): Task -> bool {
    (t: Task) => t.id == id
  }

  /** `getTasksByStatus`: the tasks one column shows, in list order. */
  function TasksByStatus(tasks: seq<Task>, s: Status): (r: seq<Task>)
    ensures |r| <= |tasks|
    ensures forall i :: 0 <= i < |r| ==> r[i].status == s
  {
    Filter(tasks, InStatus(s))
  }

  /**
   * The three columns partition the list: together they hold every task
   * exactly as often as the list does, and a column keeps list order.
   */
  lemma ColumnsPartition(tasks: seq<Task>)
    ensures |TasksByStatus(tasks, Todo)| + |TasksByStatus(tasks, InProgress)| + |TasksByStatus(tasks, Done)| == |tasks|
    ensures multiset(TasksByStatus(tasks, Todo)) + multiset(TasksByStatus(tasks, InProgress))
            + multiset(TasksByStatus(tasks, Done)) == multiset(tasks)
  {
    FilterPartition3(tasks, InStatus(Todo), InStatus(InProgress), InStatus(Done));
  }

  /** A column holds each task of its status as often as the list does, and no other task. */
  lemma ColumnContents(tasks: seq<Task>, s: Status, t: Task)
    ensures multiset(TasksByStatus(tasks, s))[t] == if t.status == s then multiset(tasks)[t] else 0
  {
    FilterCount(tasks, InStatus(s), t);
  }

  /** The status a toggle leads to: done goes back to todo, anything else becomes done. */
  function Toggled(s: Status): (r: Status)
    ensures r != InProgress
    ensures r == Todo <==> s == Done
  {
    if s == Done then Todo else Done
  }

  /** `handleToggleDone`'s new list: every task with the id toggles, the rest stay as they were. */
  function ToggleDone(tasks: seq<Task>, id: string): (r: seq<Task>)
    ensures |r| == |tasks|
    ensures forall i :: 0 <= i < |r| ==> r[i].(status := tasks[i].status) == tasks[i]
    ensures forall i :: 0 <= i < |r| && tasks[i].id == id ==>
      r[i].status == (if tasks[i].status == Done then Todo else Done)
    ensures forall i :: 0 <= i < |r| && tasks[i].id != id ==> r[i] == tasks[i]
  {
    seq(|tasks|, i requires 0 <= i < |tasks| =>
      if tasks[i].id == id then tasks[i].(status := Toggled(tasks[i].status)) else tasks[i])
  }

  /**
   * Toggling twice gives the list back, except that a task with the id that
   * was in progress ends up in todo: the toggle never leads to in progress.
   */
  lemma ToggleTwice(tasks: seq<Task>, id: string)
    ensures var r := ToggleDone(ToggleDone(tasks, id), id);
      && |r| == |tasks|
      && (forall i :: 0 <= i < |r| && !(tasks[i].id == id && tasks[i].status == InProgress) ==> r[i] == tasks[i])
      && (forall i :: 0 <= i < |r| && tasks[i].id == id && tasks[i].status == InProgress ==>
            r[i] == tasks[i].(status := Todo))
  {
  }

  /** `handleDeleteTask`'s new list: every task with the id goes, the others stay in order. */
  function DeleteTask(tasks: seq<Task>, id: string): (r: seq<Task>)
    ensures forall i :: 0 <= i < |r| ==> r[i].id != id
    ensures forall t: Task :: t.id != id ==> multiset(r)[t] == multiset(tasks)[t]
  {
    FilterCountsAll(tasks, id);
    Filter(tasks, Not(HasId(id)))
  }

  /** Every task without the id keeps its number of occurrences through the delete filter. */
  lemma FilterCountsAll(tasks: seq<Task>, id: string)
    ensures forall t: Task :: t.id != id ==> multiset(Filter(tasks, Not(HasId(id))))[t] == multiset(tasks)[t]
  {
    forall t: Task | t.id != id ensures multiset(Filter(tasks, Not(HasId(id))))[t] == multiset(tasks)[t] {
      FilterCount(tasks, Not(HasId(id)), t);
    }
  }

  /** Deleting keeps the relative order of what stays: it distributes over concatenation. */
  lemma DeleteKeepsOrder(a: seq<Task>, b: seq<Task>, id: string)
    ensures DeleteTask(a + b, id) == DeleteTask(a, id) + DeleteTask(b, id)
  {
    FilterAppend(a, b, Not(HasId(id)));
  }

  /** `{ ...task, ...taskData }`: the form's three fields overwrite the task's. */
  function Merge(t: Task, data: TaskData): (r: Task)
    ensures r.id == t.id && r.createdAt == t.createdAt
    ensures TaskData(r.title, r.description, r.status) == data
  {
    t.(title := data.title, description := data.description, status := data.status)
  }

  /**
   * The edit branch of `handleSaveTask`: every task with the edited task's id
   * takes the form's title, description and status and keeps its id and
   * creation time; the other tasks and the length stay.
   */
  function EditTask(tasks: seq<Task>, id: string, data: TaskData): (r: seq<Task>)
    ensures |r| == |tasks|
    ensures forall i :: 0 <= i < |r| ==> r[i].id == tasks[i].id && r[i].createdAt == tasks[i].createdAt
    ensures forall i :: 0 <= i < |r| && tasks[i].id == id ==>
      r[i].title == data.title && r[i].description == data.description && r[i].status == data.status
    ensures forall i :: 0 <= i < |r| && tasks[i].id != id ==> r[i] == tasks[i]
  {
    seq(|tasks|, i requires 0 <= i < |tasks| => if tasks[i].id == id then Merge(tasks[i], data) else tasks[i])
  }

  /** The task the create branch of `handleSaveTask` builds from the form data and two clock readings. */
  function NewTask(data: TaskData, idNow: nat, createdNow: nat): (t: Task)
    ensures t.id == Decimal(idNow) && t.createdAt == createdNow
    ensures t.title == data.title && t.description == data.description && t.status == data.status
  {
    Task(Decimal(idNow), data.title, data.description, data.status, createdNow)
  }

  /** The column branch of `handleDragEnd`: every task with the id moves to the column. */
  function MoveToColumn(tasks: seq<Task>, id: string, s: Status): (r: seq<Task>)
    ensures |r| == |tasks|
    ensures forall i :: 0 <= i < |r| ==> r[i].(status := tasks[i].status) == tasks[i]
    ensures forall i :: 0 <= i < |r| && tasks[i].id == id ==> r[i].status == s
    ensures forall i :: 0 <= i < |r| && tasks[i].id != id ==> r[i] == tasks[i]
  {
    seq(|tasks|, i requires 0 <= i < |tasks| => if tasks[i].id == id then tasks[i].(status := s) else tasks[i])
  }

  /**
   * The reorder branch of `handleDragEnd` for two tasks of status `s`: the
   * tasks of other statuses first, in their order, then the column of `s`
   * with the dragged task moved to the target's index in it.
   */
  function Reorder(tasks: seq<Task>, activeId: string, overId: string, s: Status): (r: Option<seq<Task>>)
    ensures r.Some? ==> |r.value| == |tasks|
    ensures r.Some? ==> forall i :: 0 <= i < |r.value| ==>
      (r.value[i].status == s <==> |tasks| - |TasksByStatus(tasks, s)| <= i)
  {
    FilterComplement(tasks, InStatus(s));
    var statusTasks := TasksByStatus(tasks, s);
    var activeIndex := FirstIndex(statusTasks, HasId(activeId));
    var overIndex := FirstIndex(statusTasks, HasId(overId));
    if activeIndex != -1 && overIndex != -1 then
      MovedColumnStatus(tasks, s, activeIndex, overIndex);
      Some(Filter(tasks, Not(InStatus(s))) + ArrayMove(statusTasks, activeIndex, overIndex))
    else
      None
  }

  /**
   * `handleDragEnd`: the list the handler passes to `setTasks`, or `None`
   * when it returns without calling it.
   */
  function DragEnd(tasks: seq<Task>, activeId: string, overId: Option<string>): (r: Option<seq<Task>>)
    ensures overId.None? ==> r.None?
    ensures r.Some? ==> |r.value| == |tasks|
  {
    match overId
    case None => None
    case Some(over) =>
      var activeTask := Find(tasks, HasId(activeId));
      match ColumnOf(over)
      case Some(newStatus) =>
        if activeTask.Some? && activeTask.value.status == newStatus then None
        else Some(MoveToColumn(tasks, activeId, newStatus))
      case None =>
        var overTask := Find(tasks, HasId(over));
        if activeTask.None? || overTask.None? then None
        else if activeTask.value.status != overTask.value.status then None
        else Reorder(tasks, activeId, over, activeTask.value.status)
  }

  /** Dropping outside every target leaves the list alone. */
  lemma DropNowhere(tasks: seq<Task>, activeId: string)
    ensures DragEnd(tasks, activeId, None) == None
  {
  }

  /**
   * Dropping onto a column: nothing happens when the first task with the
   * dragged id already has that status; otherwise exactly the tasks with
   * that id get the column's status and nothing else changes.
   */
  lemma DropOnColumn(tasks: seq<Task>, activeId: string, over: string)
    requires ColumnOf(over).Some?
    ensures var s := ColumnOf(over).value;
      var first := FirstIndex(tasks, HasId(activeId));
      DragEnd(tasks, activeId, Some(over)) ==
        if first != -1 && tasks[first].status == s then None else Some(MoveToColumn(tasks, activeId, s))
  {
  }

  /**
   * Dropping onto something that is not a column changes nothing when either
   * task is missing or the two first matches have different statuses.
   */
  lemma DropOnTaskNoOp(tasks: seq<Task>, activeId: string, over: string)
    requires ColumnOf(over).None?
    requires var a := FirstIndex(tasks, HasId(activeId)); var o := FirstIndex(tasks, HasId(over));
      a == -1 || o == -1 || tasks[a].status != tasks[o].status
    ensures DragEnd(tasks, activeId, Some(over)) == None
  {
  }

  /** A task found in the list with status `s` is found in that status's column, as the same task. */
  lemma {:induction false} FoundInColumn(tasks: seq<Task>, id: string, s: Status)
    requires FirstIndex(tasks, HasId(id)) != -1 && tasks[FirstIndex(tasks, HasId(id))].status == s
    ensures FirstIndex(TasksByStatus(tasks, s), HasId(id)) != -1
    ensures TasksByStatus(tasks, s)[FirstIndex(TasksByStatus(tasks, s), HasId(id))] == tasks[FirstIndex(tasks, HasId(id))]
  {
    var col := TasksByStatus(tasks, s);
    var rest := TasksByStatus(tasks[1..], s);
    assert col == (if tasks[0].status == s then [tasks[0]] else []) + rest;
    var k := FirstIndex(tasks, HasId(id));
    if tasks[0].id == id {
      assert col[0] == tasks[0];
    } else {
      var k' := FirstIndex(tasks[1..], HasId(id));
      assert k == k' + 1 && tasks[k] == tasks[1..][k'];
      FoundInColumn(tasks[1..], id, s);
      var j' := FirstIndex(rest, HasId(id));
      assert rest[j'] == tasks[k];
      if tasks[0].status == s {
        assert col[1..] == rest;
        assert FirstIndex(col, HasId(id)) == j' + 1;
        assert col[j' + 1] == rest[j'];
      } else {
        assert col == rest;
      }
    }
  }

  /** Every task in a reordered column still has the column's status. */
  lemma MovedColumnStatus(tasks: seq<Task>, s: Status, from: nat, to: nat)
    requires from < |TasksByStatus(tasks, s)| && to < |TasksByStatus(tasks, s)|
    ensures var moved := ArrayMove(TasksByStatus(tasks, s), from, to);
      forall i :: 0 <= i < |moved| ==> moved[i].status == s
  {
    var group := TasksByStatus(tasks, s);
    var moved := ArrayMove(group, from, to);
    forall i | 0 <= i < |moved| ensures moved[i].status == s {
      assert moved[i] in multiset(moved);
      assert moved[i] in multiset(group);
      assert moved[i] in group;
    }
  }

  /**
   * A drop onto a task (not a column) whose first match has the same status
   * as the dragged task's first match always reorders: both are found in
   * their column, so the handler's index check never fails.
   */
  lemma DropOnSameStatus(tasks: seq<Task>, activeId: string, over: string)
    requires ColumnOf(over).None?
    requires var a := FirstIndex(tasks, HasId(activeId)); var o := FirstIndex(tasks, HasId(over));
      a != -1 && o != -1 && tasks[a].status == tasks[o].status
    ensures var s := tasks[FirstIndex(tasks, HasId(activeId))].status;
      && Reorder(tasks, activeId, over, s).Some?
      && DragEnd(tasks, activeId, Some(over)) == Reorder(tasks, activeId, over, s)
  {
    var s := tasks[FirstIndex(tasks, HasId(activeId))].status;
    FoundInColumn(tasks, activeId, s);
    FoundInColumn(tasks, over, s);
  }

  /**
   * A reorder is a permutation of the list: the tasks of other statuses
   * first, in their order, then the column with the dragged task (the first
   * of the column with its id) at the target's index.
   */
  lemma ReorderIsPermutation(tasks: seq<Task>, activeId: string, overId: string, s: Status)
    requires Reorder(tasks, activeId, overId, s).Some?
    ensures var r := Reorder(tasks, activeId, overId, s).value;
      var others := Filter(tasks, Not(InStatus(s)));
      var group := TasksByStatus(tasks, s);
      var ai := FirstIndex(group, HasId(activeId));
      var oi := FirstIndex(group, HasId(overId));
      && |r| == |tasks| && multiset(r) == multiset(tasks)
      && r[..|others|] == others
      && 0 <= ai && 0 <= oi && |others| + oi < |r| && r[|others| + oi] == group[ai]
  {
    var group := TasksByStatus(tasks, s);
    var others := Filter(tasks, Not(InStatus(s)));
    var ai, oi := ReorderShape(tasks, activeId, overId, s);
    var moved := ArrayMove(group, ai, oi);
    assert |moved| == |group| && multiset(moved) == multiset(group) && moved[oi] == group[ai];
    FilterComplement(tasks, InStatus(s));
    ConcatPermutation(tasks, group, others, moved);
    var r := others + moved;
    assert r == Reorder(tasks, activeId, overId, s).value;
    assert |r| == |tasks| && multiset(r) == multiset(tasks);
    assert r[..|others|] == others;
    assert |others| + oi < |r| && r[|others| + oi] == group[ai];
  }

  /** The two indices a successful reorder uses, and the list it builds from them. */
  lemma ReorderShape(tasks: seq<Task>, activeId: string, overId: string, s: Status) returns (ai: nat, oi: nat)
    requires Reorder(tasks, activeId, overId, s).Some?
    ensures ai == FirstIndex(TasksByStatus(tasks, s), HasId(activeId))
    ensures oi == FirstIndex(TasksByStatus(tasks, s), HasId(overId))
    ensures ai < |TasksByStatus(tasks, s)| && oi < |TasksByStatus(tasks, s)|
    ensures Reorder(tasks, activeId, overId, s).value ==
      Filter(tasks, Not(InStatus(s))) + ArrayMove(TasksByStatus(tasks, s), ai, oi)
  {
    ai := FirstIndex(TasksByStatus(tasks, s), HasId(activeId));
    oi := FirstIndex(TasksByStatus(tasks, s), HasId(overId));
  }

  /** Putting the complement of a filter before a permutation of the filter permutes the whole. */
  lemma ConcatPermutation(tasks: seq<Task>, group: seq<Task>, others: seq<Task>, moved: seq<Task>)
    requires multiset(group) + multiset(others) == multiset(tasks) && |group| + |others| == |tasks|
    requires multiset(moved) == multiset(group) && |moved| == |group|
    ensures |others + moved| == |tasks| && multiset(others + moved) == multiset(tasks)
    ensures (others + moved)[..|others|] == others
    ensures forall k :: 0 <= k < |moved| ==> (others + moved)[|others| + k] == moved[k]
  {
  }

  /** Keeping one status out of a list already cut down to other statuses keeps that whole column. */
  lemma {:induction false} FilterOthers(tasks: seq<Task>, s: Status, s': Status)
    requires s != s'
    ensures Filter(Filter(tasks, Not(InStatus(s))), InStatus(s')) == TasksByStatus(tasks, s')
  {
    if tasks != [] {
      var head := if tasks[0].status != s then [tasks[0]] else [];
      assert Filter(tasks, Not(InStatus(s))) == head + Filter(tasks[1..], Not(InStatus(s)));
      FilterAppend(head, Filter(tasks[1..], Not(InStatus(s))), InStatus(s'));
      FilterOthers(tasks[1..], s, s');
    }
  }

  /** The tasks of other statuses that a reorder puts first hold none of status `s`. */
  lemma OthersOutsideColumn(tasks: seq<Task>, s: Status)
    ensures Filter(Filter(tasks, Not(InStatus(s))), InStatus(s)) == []
  {
    var others := Filter(tasks, Not(InStatus(s)));
    FilterKeepsNone(others, InStatus(s));
  }

  /**
   * What the columns show after a reorder in column `s`: that column is the
   * moved group, and every other column is exactly as before.
   */
  lemma ReorderColumns(tasks: seq<Task>, activeId: string, overId: string, s: Status, s': Status)
    requires Reorder(tasks, activeId, overId, s).Some?
    ensures var group := TasksByStatus(tasks, s);
      var r := Reorder(tasks, activeId, overId, s).value;
      && TasksByStatus(r, s) == ArrayMove(group, FirstIndex(group, HasId(activeId)), FirstIndex(group, HasId(overId)))
      && (s' != s ==> TasksByStatus(r, s') == TasksByStatus(tasks, s'))
  {
    var group := TasksByStatus(tasks, s);
    var others := Filter(tasks, Not(InStatus(s)));
    var ai, oi := ReorderShape(tasks, activeId, overId, s);
    var moved := ArrayMove(group, ai, oi);
    var r := others + moved;
    assert r == Reorder(tasks, activeId, overId, s).value;
    MovedColumnStatus(tasks, s, ai, oi);
    FilterAppend(others, moved, InStatus(s));
    OthersOutsideColumn(tasks, s);
    FilterKeepsAll(moved, InStatus(s));
    assert TasksByStatus(r, s) == [] + moved;
    if s' != s {
      FilterAppend(others, moved, InStatus(s'));
      FilterOthers(tasks, s, s');
      FilterKeepsNone(moved, InStatus(s'));
      assert TasksByStatus(r, s') == TasksByStatus(tasks, s') + [];
    }
  }

  /**
   * Two todo tasks and a done task: dragging the first todo task onto the
   * second puts the done task first and swaps the two todo tasks after it,
   * so the list is regrouped by status rather than swapped in place.
   */
  lemma DropRegroups(a: Task, b: Task, c: Task)
    requires a.id == "1" && b.id == "2" && c.id == "3"
    requires a.status == Todo && b.status == Todo && c.status == Done
    ensures DragEnd([a, b, c], "1", Some("2")) == Some([c, b, a])
  {
    var tasks := [a, b, c];
    assert FirstIndex(tasks, HasId("1")) == 0;
    assert FirstIndex(tasks, HasId("2")) == 1 by {
      assert tasks[1..] == [b, c];
      assert FirstIndex(tasks[1..], HasId("2")) == 0;
    }
    DropOnSameStatus(tasks, "1", "2");
    RegroupReorder(a, b, c);
  }

  /** The reorder behind the regrouping example. */
  lemma RegroupReorder(a: Task, b: Task, c: Task)
    requires a.id == "1" && b.id == "2"
    requires a.status == Todo && b.status == Todo && c.status == Done
    ensures Reorder([a, b, c], "1", "2", Todo) == Some([c, b, a])
  {
    RegroupColumns(a, b, c);
    var moved := ArrayMove([a, b], 0, 1);
    assert |moved| == 2;
    ArrayMoveAt([a, b], 0, 1, 0);
    ArrayMoveAt([a, b], 0, 1, 1);
    assert moved == [b, a];
    assert Reorder([a, b, c], "1", "2", Todo) == Some([c] + moved);
    assert [c] + moved == [c, b, a];
  }

  /** The column split behind the regrouping example. */
  lemma RegroupColumns(a: Task, b: Task, c: Task)
    requires a.id == "1" && b.id == "2"
    requires a.status == Todo && b.status == Todo && c.status == Done
    ensures TasksByStatus([a, b, c], Todo) == [a, b]
    ensures Filter([a, b, c], Not(InStatus(Todo))) == [c]
    ensures FirstIndex([a, b], HasId("1")) == 0 && FirstIndex([a, b], HasId("2")) == 1
  {
    var tasks := [a, b, c];
    assert tasks[1..] == [b, c] && [b, c][1..] == [c] && [c][1..] == [];
    assert InStatus(Todo)(a) && InStatus(Todo)(b) && !InStatus(Todo)(c);
    assert Filter([c], InStatus(Todo)) == [];
    assert Filter([b, c], InStatus(Todo)) == [b];
    assert Not(InStatus(Todo))(c) && !Not(InStatus(Todo))(b) && !Not(InStatus(Todo))(a);
    assert Filter([c], Not(InStatus(Todo))) == [c];
    assert Filter([b, c], Not(InStatus(Todo))) == [c];
    assert [a, b][1..] == [b];
  }
}
