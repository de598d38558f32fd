/**
 * The agent-facing tool server (mcp-server/src/index.ts): five named tools
 * over one JSON file of task records. A tool checks its arguments first,
 * then reads the whole file; the three changing tools write the changed
 * array back, the two others only read, and an unknown name reads nothing.
 */
module TaskServer {
  import opened Wrappers
  import opened Seqs
  import opened Text

  /**
   * A JavaScript value, as it can arrive in the loosely-typed arguments of a
   * tool call or sit in a field of a parsed task. Numbers are integers here.
   * `Composite` stands for any object or array; `===` never finds one equal
   * to a value parsed separately.
   */
  datatype Value = Undefined | Null | Bool(b: bool) | Num(n: int) | Str(s: string) | Composite

  /** JavaScript truthiness, which `!` and `||` test: every value but the five falsy ones. */
  predicate Truthy(v: Value)
    ensures Truthy(v) <==> v !in {Undefined, Null, Bool(false), Num(0), Str("")}
  {
    match v
    case Undefined => false
    case Null => false
    case Bool(b) => b
    case Num(n) => n != 0
    case Str(s) => s != ""
    case Composite => true
  }

  /**
   * `a === b` for two values that did not start out as the same object:
   * equal primitives, and never an object.
   */
  predicate StrictEquals(a: Value, b: Value)
    ensures StrictEquals(a, b) ==> a == b && !b.Composite?
    ensures a == b && (a.Str? || a.Num? || a.Bool?) ==> StrictEquals(a, b)
  {
    a == b && !a.Composite?
  }

  /** `a || b`: the first operand when it is truthy, else the second, so truthy when either is. */
  function Or(a: Value, b: Value): (r: Value)
    ensures r == a || r == b
    ensures Truthy(r) <==> Truthy(a) || Truthy(b)
    ensures Truthy(a) ==> r == a
  {
    if Truthy(a) then a else b
  }

  /**
   * A stored task. TypeScript's declared types are not checked at run time,
   * so `description` and `status` hold whatever `create_task` was given.
   */
  datatype Task = Task(id: string, title: string, description: Value, status: Value, createdAt: int)

  /** The statuses `update_task_status` accepts. */
  const ValidStatuses: seq<string> := ["todo", "in-progress", "done"]

  /** The five tool names the call handler dispatches on. */
  const ToolNames: set<string> := {"list_tasks", "create_task", "update_task_status", "delete_task", "get_task_statistics"}

  /** The tools that only read the file. */
  const ReadOnlyTools: set<string> := {"list_tasks", "get_task_statistics"}

  /** The storage file `tasks.json`, as reading and parsing it finds it. */
  datatype StoreFile = Missing | Unreadable | Holds(tasks: seq<Task>)

  /** `readTasks`: never fails; a missing, unreadable or unparseable file reads as no tasks. */
  function ReadTasks(file: StoreFile): (r: seq<Task>)
    ensures file.Holds? ==> r == file.tasks
    ensures !file.Holds? ==> r == []
  {
    match file
    case Holds(tasks) => tasks
    case _ => []
  }

  /** The arguments of a call; an absent key (or absent arguments) reads as `undefined`. */
  type Args = map<string, Value>

  function Arg(args: Args, key: string): Value {
    if key in args then args[key] else Undefined
  }

  /** The MCP error codes the handler raises. */
  datatype ErrorCode = InvalidParams | MethodNotFound | InternalError

  /** What a tool can throw: an `McpError` with its code, or any other exception (a failed write). */
  datatype Thrown = McpError(code: ErrorCode) | OtherError

  /** The catch block: an `McpError` is rethrown as it is, anything else becomes an internal error. */
  function Wrap(e: Thrown): (c: ErrorCode)
    ensures e.McpError? ==> c == e.code
    ensures e.OtherError? ==> c == InternalError
  {
    match e
    case McpError(code) => code
    case OtherError => InternalError
  }

  /** The counts `get_task_statistics` reports. */
  datatype Statistics = Statistics(total: nat, todo: nat, inProgress: nat, done: nat)

  /** What a successful call returns, before it is rendered as JSON text. */
  datatype Response =
    | TaskList(tasks: seq<Task>)
    | Created(task: Task)
    | Updated(task: Task)
    | Deleted(task: Task)
    | Stats(stats: Statistics)

  /** `task => task.status === v`. */
  function HasStatus(v: Value): Task -> bool {
    (t: Task) => StrictEquals(t.status, v)
  }

  /** `task => task.id === id`. */
  function HasId(id: string): Task -> bool {
    (t: Task) => t.id == id
  }

  /** Every stored status is one of the three valid strings. */
  predicate AllStatusesValid(tasks: seq<Task>) {
    forall i :: 0 <= i < |tasks| ==> tasks[i].status.Str? && tasks[i].status.s in ValidStatuses
  }

  /** The record `create_task` builds from its arguments and two clock readings. */
  function NewTask(args: Args, idNow: nat, createdNow: nat): (t: Task)
    requires Arg(args, "title").Str?
    ensures t.id == Decimal(idNow) && t.createdAt == createdNow
    ensures t.title == Arg(args, "title").s
    ensures t.description == if Truthy(Arg(args, "description")) then Arg(args, "description") else Str("")
    ensures t.status == if Truthy(Arg(args, "status")) then Arg(args, "status") else Str("todo")
  {
    Task(Decimal(idNow), Arg(args, "title").s, Or(Arg(args, "description"), Str("")),
         Or(Arg(args, "status"), Str("todo")), createdNow)
  }

  /** The statistics object: the length of the array and one filter length per status. */
  function CountStatistics(tasks: seq<Task>): (r: Statistics)
    ensures r.total == |tasks|
    ensures r.todo <= r.total && r.inProgress <= r.total && r.done <= r.total
  {
    Statistics(|tasks|, |Filter(tasks, HasStatus(Str("todo")))|,
               |Filter(tasks, HasStatus(Str("in-progress")))|, |Filter(tasks, HasStatus(Str("done")))|)
  }

  /** When every stored status is valid, the three per-status counts add up to the total. */
  lemma StatisticsSum(tasks: seq<Task>)
    requires AllStatusesValid(tasks)
    ensures CountStatistics(tasks).todo + CountStatistics(tasks).inProgress + CountStatistics(tasks).done == |tasks|
  {
    FilterPartition3(tasks, HasStatus(Str("todo")), HasStatus(Str("in-progress")), HasStatus(Str("done")));
  }

  /** Each per-status count is the number of stored tasks with exactly that status. */
  lemma StatisticsCount(tasks: seq<Task>, t: Task)
    ensures multiset(Filter(tasks, HasStatus(Str("todo"))))[t] == if t.status == Str("todo") then multiset(tasks)[t] else 0
    ensures multiset(Filter(tasks, HasStatus(Str("done"))))[t] == if t.status == Str("done") then multiset(tasks)[t] else 0
    ensures multiset(Filter(tasks, HasStatus(Str("in-progress"))))[t] ==
      if t.status == Str("in-progress") then multiset(tasks)[t] else 0
  {
    FilterCount(tasks, HasStatus(Str("todo")), t);
    FilterCount(tasks, HasStatus(Str("in-progress")), t);
    FilterCount(tasks, HasStatus(Str("done")), t);
  }

  /** A filter value that names no valid status lists nothing from a file whose statuses are all valid. */
  lemma UnknownFilterListsNothing(tasks: seq<Task>, f: Value)
    requires AllStatusesValid(tasks)
    requires !(f.Str? && f.s in ValidStatuses)
    ensures Filter(tasks, HasStatus(f)) == []
  {
  }

  /** The arguments `update_task_status` accepts: a non-empty string id and a valid status string. */
  predicate UpdateArgsOk(args: Args) {
    Arg(args, "taskId").Str? && Arg(args, "taskId").s != ""
    && Arg(args, "status").Str? && Arg(args, "status").s in ValidStatuses
  }

  /**
   * What one tool call amounts to, as a function of the file it starts on:
   * the call's result, the file afterwards, and whether a write was attempted.
   */
  datatype Step = Step(result: Result<Response, Thrown>, file: StoreFile, wrote: bool)

  /**
   * The error discipline every tool keeps: without a write, or with a failed
   * one, the file is as it was; an `McpError` a tool throws is always
   * `InvalidParams` and comes before any write; any other error is a write's.
   */
  predicate Disciplined(file: StoreFile, step: Step) {
    && (!step.wrote || step.result.Failure? ==> step.file == file)
    && (step.result.Failure? && step.result.error.McpError? ==>
          step.result.error == McpError(InvalidParams) && !step.wrote)
    && (step.result.Failure? && step.result.error.OtherError? ==> step.wrote)
  }

  /** A refusal with `InvalidParams` before anything is written. */
  function Refuse(file: StoreFile): Step {
    Step(Failure(McpError(InvalidParams)), file, false)
  }

  /** `await writeTasks(tasks)` followed by the tool's response, or the error the write throws. */
  function WriteThen(file: StoreFile, tasks: seq<Task>, writeOk: bool, response: Response): Step {
    if writeOk then Step(Success(response), Holds(tasks), true) else Step(Failure(OtherError), file, true)
  }

  /** The `list_tasks` case. */
  function ListStep(file: StoreFile, args: Args): (r: Step)
    ensures Disciplined(file, r) && r.result.Success? && r.result.value.TaskList? && !r.wrote
  {
    var statusFilter := Or(Arg(args, "status"), Str("all"));
    var tasks := ReadTasks(file);
    Step(Success(TaskList(if StrictEquals(statusFilter, Str("all")) then tasks else Filter(tasks, HasStatus(statusFilter)))),
         file, false)
  }

  /** The `create_task` case. */
  function CreateStep(file: StoreFile, args: Args, idNow: nat, createdNow: nat, writeOk: bool): (r: Step)
    ensures Disciplined(file, r)
    ensures r.wrote <==> Arg(args, "title").Str? && Arg(args, "title").s != ""
    ensures r.result.Success? <==> r.wrote && writeOk
    ensures r.result.Success? ==> r.result.value.Created? && r.file == Holds(ReadTasks(file) + [r.result.value.task])
  {
    var title := Arg(args, "title");
    if !Truthy(title) || !title.Str? then Refuse(file)
    else
      var newTask := NewTask(args, idNow, createdNow);
      WriteThen(file, ReadTasks(file) + [newTask], writeOk, Created(newTask))
  }

  /** The `update_task_status` case. */
  function UpdateStep(file: StoreFile, args: Args, writeOk: bool): (r: Step)
    ensures Disciplined(file, r)
    ensures r.wrote <==> UpdateArgsOk(args) && FirstIndex(ReadTasks(file), HasId(Arg(args, "taskId").s)) != -1
    ensures r.result.Success? <==> r.wrote && writeOk
    ensures r.result.Success? ==> r.result.value.Updated? && r.result.value.task.status == Arg(args, "status")
  {
    if !UpdateArgsOk(args) then Refuse(file)
    else
      var tasks := ReadTasks(file);
      var taskIndex := FirstIndex(tasks, HasId(Arg(args, "taskId").s));
      if taskIndex == -1 then Refuse(file)
      else
        var updated := tasks[taskIndex := tasks[taskIndex].(status := Arg(args, "status"))];
        WriteThen(file, updated, writeOk, Updated(updated[taskIndex]))
  }

  /** The `delete_task` case. */
  function DeleteStep(file: StoreFile, args: Args, writeOk: bool): (r: Step)
    ensures Disciplined(file, r)
    ensures r.wrote <==> Arg(args, "taskId").Str? && Arg(args, "taskId").s != ""
                         && FirstIndex(ReadTasks(file), HasId(Arg(args, "taskId").s)) != -1
    ensures r.result.Success? <==> r.wrote && writeOk
    ensures r.result.Success? ==>
      && r.result.value.Deleted? && r.result.value.task.id == Arg(args, "taskId").s
      && r.file.Holds? && |r.file.tasks| + 1 == |ReadTasks(file)|
  {
    var taskId := Arg(args, "taskId");
    if !Truthy(taskId) || !taskId.Str? then Refuse(file)
    else
      var tasks := ReadTasks(file);
      var taskIndex := FirstIndex(tasks, HasId(taskId.s));
      if taskIndex == -1 then Refuse(file)
      else WriteThen(file, RemoveAt(tasks, taskIndex), writeOk, Deleted(tasks[taskIndex]))
  }

  /** The `get_task_statistics` case. */
  function StatisticsStep(file: StoreFile): (r: Step)
    ensures Disciplined(file, r) && r.result.Success? && r.result.value.Stats? && !r.wrote
    ensures r.result.value.stats.total == |ReadTasks(file)|
  {
    Step(Success(Stats(CountStatistics(ReadTasks(file)))), file, false)
  }

  /** The catch block applied to a tool's outcome: a success passes through, an error is wrapped. */
  function Caught(outcome: Result<Response, Thrown>): (r: Result<Response, ErrorCode>)
    ensures outcome.Success? ==> r == Success(outcome.value)
    ensures outcome.Failure? ==> r == Failure(Wrap(outcome.error))
  {
    match outcome
    case Success(response) => Success(response)
    case Failure(e) => Failure(Wrap(e))
  }

  /** The tool server: the storage file and the number of writes attempted on it. */
  class Server {
    var file: StoreFile
    var writes: nat

    /** The file and the write count are as `step` says, starting from `writesBefore` writes. */
    predicate Applied(step: Step, writesBefore: nat)
      reads this
    {
      file == step.file && writes == writesBefore + (if step.wrote then 1 else 0)
    }

    constructor (file: StoreFile)
      ensures this.file == file && writes == 0
    {
      this.file := file;
      writes := 0;
    }

    /** `writeTasks`: one write attempt; a failed one leaves the file as it was and throws. */
    method WriteTasks(tasks: seq<Task>, writeOk: bool) returns (r: Result<(), Thrown>)
      modifies this
      ensures writes == old(writes) + 1
      ensures file == if writeOk then Holds(tasks) else old(file)
      ensures r == if writeOk then Success(()) else Failure(OtherError)
    {
      writes := writes + 1;
      if writeOk {
        file := Holds(tasks);
        r := Success(());
      } else {
        r := Failure(OtherError);
      }
    }

    /**
     * `list_tasks`: an absent, falsy or `'all'` filter lists every stored task;
     * any other value lists the tasks whose status is strictly equal to it.
     */
    method ListTasks(args: Args) returns (r: Result<Response, Thrown>)
      ensures r.Success? && r.value.TaskList?
      ensures r == ListStep(file, args).result && Applied(ListStep(file, args), writes)
      ensures !Truthy(Arg(args, "status")) || Arg(args, "status") == Str("all") ==>
        r.value.tasks == ReadTasks(file)
      ensures Truthy(Arg(args, "status")) && Arg(args, "status") != Str("all") ==>
        r.value.tasks == Filter(ReadTasks(file), HasStatus(Arg(args, "status")))
    {
      var tasks := ReadTasks(file);
      var statusFilter := Or(Arg(args, "status"), Str("all"));
      var filteredTasks := tasks;
      if !StrictEquals(statusFilter, Str("all")) {
        filteredTasks := Filter(tasks, HasStatus(statusFilter));
      }
      r := Success(TaskList(filteredTasks));
    }

    /**
     * `create_task`: a title that is not a non-empty string is refused before
     * the file is touched; otherwise the new task is appended and written.
     */
    method CreateTask(args: Args, idNow: nat, createdNow: nat, writeOk: bool) returns (r: Result<Response, Thrown>)
      modifies this
      ensures var step := CreateStep(old(file), args, idNow, createdNow, writeOk);
        r == step.result && Applied(step, old(writes))
      ensures !(Arg(args, "title").Str? && Arg(args, "title").s != "") ==>
        r == Failure(McpError(InvalidParams)) && file == old(file) && writes == old(writes)
      ensures Arg(args, "title").Str? && Arg(args, "title").s != "" ==>
        var t := NewTask(args, idNow, createdNow);
        && writes == old(writes) + 1
        && file == (if writeOk then Holds(ReadTasks(old(file)) + [t]) else old(file))
        && r == (if writeOk then Success(Created(t)) else Failure(OtherError))
    {
      var title := Arg(args, "title");
      if !Truthy(title) || !title.Str? {
        return Failure(McpError(InvalidParams));
      }
      var tasks := ReadTasks(file);
      var newTask := NewTask(args, idNow, createdNow);
      tasks := tasks + [newTask];
      var written := WriteTasks(tasks, writeOk);
      if written.Failure? {
        return Failure(written.error);
      }
      r := Success(Created(newTask));
    }

    /**
     * `update_task_status`: after the three argument checks, the first stored
     * task with the id gets the new status and the array is written back.
     */
    method UpdateTaskStatus(args: Args, writeOk: bool) returns (r: Result<Response, Thrown>)
      modifies this
      ensures r == UpdateStep(old(file), args, writeOk).result && Applied(UpdateStep(old(file), args, writeOk), old(writes))
      ensures !UpdateArgsOk(args) ==>
        r == Failure(McpError(InvalidParams)) && file == old(file) && writes == old(writes)
      ensures UpdateArgsOk(args) && FirstIndex(ReadTasks(old(file)), HasId(Arg(args, "taskId").s)) == -1 ==>
        r == Failure(McpError(InvalidParams)) && file == old(file) && writes == old(writes)
      ensures UpdateArgsOk(args) && FirstIndex(ReadTasks(old(file)), HasId(Arg(args, "taskId").s)) != -1 ==>
        var tasks := ReadTasks(old(file));
        var i := FirstIndex(tasks, HasId(Arg(args, "taskId").s));
        var updated := tasks[i := tasks[i].(status := Arg(args, "status"))];
        && writes == old(writes) + 1
        && file == (if writeOk then Holds(updated) else old(file))
        && r == (if writeOk then Success(Updated(updated[i])) else Failure(OtherError))
    {
      var taskId := Arg(args, "taskId");
      if !Truthy(taskId) || !taskId.Str? {
        return Failure(McpError(InvalidParams));
      }
      var status := Arg(args, "status");
      if !Truthy(status) || !status.Str? {
        return Failure(McpError(InvalidParams));
      }
      if status.s !in ValidStatuses {
        return Failure(McpError(InvalidParams));
      }
      var tasks := ReadTasks(file);
      var taskIndex := FirstIndex(tasks, HasId(taskId.s));
      if taskIndex == -1 {
        return Failure(McpError(InvalidParams));
      }
      tasks := tasks[taskIndex := tasks[taskIndex].(status := status)];
      var written := WriteTasks(tasks, writeOk);
      if written.Failure? {
        return Failure(written.error);
      }
      r := Success(Updated(tasks[taskIndex]));
    }

    /**
     * `delete_task`: after the id check, the first stored task with the id is
     * spliced out, the array is written back and the removed task returned.
     */
    method DeleteTask(args: Args, writeOk: bool) returns (r: Result<Response, Thrown>)
      modifies this
      ensures r == DeleteStep(old(file), args, writeOk).result && Applied(DeleteStep(old(file), args, writeOk), old(writes))
      ensures !(Arg(args, "taskId").Str? && Arg(args, "taskId").s != "") ==>
        r == Failure(McpError(InvalidParams)) && file == old(file) && writes == old(writes)
      ensures (Arg(args, "taskId").Str? && Arg(args, "taskId").s != ""
               && FirstIndex(ReadTasks(old(file)), HasId(Arg(args, "taskId").s)) == -1) ==>
        r == Failure(McpError(InvalidParams)) && file == old(file) && writes == old(writes)
      ensures (Arg(args, "taskId").Str? && Arg(args, "taskId").s != ""
               && FirstIndex(ReadTasks(old(file)), HasId(Arg(args, "taskId").s)) != -1) ==>
        var tasks := ReadTasks(old(file));
        var i := FirstIndex(tasks, HasId(Arg(args, "taskId").s));
        && writes == old(writes) + 1
        && file == (if writeOk then Holds(RemoveAt(tasks, i)) else old(file))
        && r == (if writeOk then Success(Deleted(tasks[i])) else Failure(OtherError))
    {
      var taskId := Arg(args, "taskId");
      if !Truthy(taskId) || !taskId.Str? {
        return Failure(McpError(InvalidParams));
      }
      var tasks := ReadTasks(file);
      var taskIndex := FirstIndex(tasks, HasId(taskId.s));
      if taskIndex == -1 {
        return Failure(McpError(InvalidParams));
      }
      var deletedTask := tasks[taskIndex];
      tasks := RemoveAt(tasks, taskIndex);
      var written := WriteTasks(tasks, writeOk);
      if written.Failure? {
        return Failure(written.error);
      }
      r := Success(Deleted(deletedTask));
    }

    /** `get_task_statistics`: reads the file and counts, never fails. */
    method GetTaskStatistics() returns (r: Result<Response, Thrown>)
      ensures r.Success? && r.value.Stats?
      ensures r == StatisticsStep(file).result && Applied(StatisticsStep(file), writes)
      ensures r.value.stats.total == |ReadTasks(file)|
      ensures AllStatusesValid(ReadTasks(file)) ==>
        r.value.stats.todo + r.value.stats.inProgress + r.value.stats.done == r.value.stats.total
      ensures r.value.stats == CountStatistics(ReadTasks(file))
    {
      var tasks := ReadTasks(file);
      if AllStatusesValid(tasks) {
        StatisticsSum(tasks);
      }
      r := Success(Stats(CountStatistics(tasks)));
    }

    /**
     * The `CallToolRequestSchema` handler: dispatch on the tool name, an
     * unknown name being `MethodNotFound`, and the catch-and-wrap policy.
     * Only a failed write makes an internal error; every other failure
     * leaves the file untouched and unwritten, and the two reading tools
     * never write.
     */
    method CallTool(name: string, args: Args, idNow: nat, createdNow: nat, writeOk: bool)
      returns (r: Result<Response, ErrorCode>)
      modifies this
      ensures name !in ToolNames ==> r == Failure(MethodNotFound) && file == old(file) && writes == old(writes)
      ensures name in ToolNames ==> r != Failure(MethodNotFound)
      ensures name == "list_tasks" ==>
        r == Caught(ListStep(old(file), args).result) && Applied(ListStep(old(file), args), old(writes))
      ensures name == "create_task" ==>
        var step := CreateStep(old(file), args, idNow, createdNow, writeOk);
        r == Caught(step.result) && Applied(step, old(writes))
      ensures name == "update_task_status" ==>
        var step := UpdateStep(old(file), args, writeOk);
        r == Caught(step.result) && Applied(step, old(writes))
      ensures name == "delete_task" ==>
        var step := DeleteStep(old(file), args, writeOk);
        r == Caught(step.result) && Applied(step, old(writes))
      ensures name == "get_task_statistics" ==>
        r == Caught(StatisticsStep(old(file)).result) && Applied(StatisticsStep(old(file)), old(writes))
      ensures name in ReadOnlyTools ==> r.Success?
      ensures name in ReadOnlyTools || (r.Failure? && r.error != InternalError) ==>
        file == old(file) && writes == old(writes)
      ensures r.Failure? && r.error == InternalError ==>
        !writeOk && name in ToolNames - ReadOnlyTools && file == old(file) && writes == old(writes) + 1
      ensures r.Success? && name !in ReadOnlyTools ==> writeOk && writes == old(writes) + 1
      ensures r.Success? ==>
        (name == "list_tasks" <==> r.value.TaskList?) && (name == "create_task" <==> r.value.Created?)
        && (name == "update_task_status" <==> r.value.Updated?) && (name == "delete_task" <==> r.value.Deleted?)
        && (name == "get_task_statistics" <==> r.value.Stats?)
    {
      var outcome: Result<Response, Thrown>;
      if name == "list_tasks" {
        outcome := ListTasks(args);
      } else if name == "create_task" {
        outcome := CreateTask(args, idNow, createdNow, writeOk);
      } else if name == "update_task_status" {
        outcome := UpdateTaskStatus(args, writeOk);
      } else if name == "delete_task" {
        outcome := DeleteTask(args, writeOk);
      } else if name == "get_task_statistics" {
        outcome := GetTaskStatistics();
      } else {
        outcome := Failure(McpError(MethodNotFound));
      }
      r := Caught(outcome);
    }
  }

  /**
   * Outcomes the handler guarantees whatever the file holds: a create without
   * a title is refused with `InvalidParams`, a delete is never reported as an
   * unknown tool, and a valid create whose write fails is an internal error
   * that leaves the file as it was.
   */
  method CallToolOutcomes(file: StoreFile, args: Args, idNow: nat, createdNow: nat)
    returns (untitled: Result<Response, ErrorCode>, deleted: Result<Response, ErrorCode>,
             unwritten: Result<Response, ErrorCode>, after: StoreFile)
    ensures untitled == Failure(InvalidParams)
    ensures deleted != Failure(MethodNotFound)
    ensures unwritten == Failure(InternalError) && after == file
  {
    var server := new Server(file);
    untitled := server.CallTool("create_task", map[], idNow, createdNow, true);
    deleted := server.CallTool("delete_task", args, idNow, createdNow, true);
    var other := new Server(file);
    unwritten := other.CallTool("create_task", map["title" := Str("a")], idNow, createdNow, false);
    after := other.file;
  }
}
