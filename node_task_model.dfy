/**
 * The Node server's task registry: the `Priority` enumeration, the `Task` record with its
 * constructor defaults, and `TaskManager`, which owns the task list and the id counter
 * and changes them in place.
 */
module NodeTaskModel {
  import opened Base
  import opened JsValues
  import Seqs

  const LOW := "low"
  const MEDIUM := "medium"
  const HIGH := "high"
  const DEFAULT_CATEGORY := "general"

  /** `Priority.values()`, in declaration order. */
  function PriorityValues(): (r: seq<string>)
    ensures |r| == 3 && r[0] == LOW && r[1] == MEDIUM && r[2] == HIGH
    ensures forall i, j :: 0 <= i < j < |r| ==> r[i] != r[j]
  {
    [LOW, MEDIUM, HIGH]
  }

  /** `Task.validatePriority`: the value is one of the enumeration's strings. */
  function ValidatePriority(v: JsValue): (ok: bool)
    ensures ok <==> v == Str("low") || v == Str("medium") || v == Str("high")
  {
    v.Str? && v.s in PriorityValues()
  }

  /**
   * A stored task.  Apart from `id` and `createdAt`, every field holds whatever value the
   * request body supplied (or its default), so a field may hold a non-string.
   */
  datatype Task = Task(id: int, text: JsValue, priority: JsValue, category: JsValue,
                       completed: JsValue, createdAt: Timestamp)

  /**
   * The fields a request body supplies for a task.  The model assumes the body carries
   * no `id` (which the spread `{ id, ...taskData }` would let override the assigned id);
   * a `created_at` in the body is ignored by the constructor in any case.
   */
  datatype TaskData = TaskData(text: JsValue, priority: JsValue, category: JsValue, completed: JsValue)

  /** `new Task({ id, ...data })`: absent fields take their defaults; the clock stamps `createdAt`. */
  function NewTask(id: int, data: TaskData, now: Timestamp): (t: Task)
    ensures t.id == id && t.text == data.text && t.createdAt == now
    ensures data.priority != Undefined ==> t.priority == data.priority
    ensures data.priority == Undefined ==> t.priority == Str("medium")
    ensures data.category != Undefined ==> t.category == data.category
    ensures data.category == Undefined ==> t.category == Str("general")
    ensures data.completed != Undefined ==> t.completed == data.completed
    ensures data.completed == Undefined ==> t.completed == Bool(false)
  {
    Task(id, data.text, OrDefault(data.priority, Str(MEDIUM)), OrDefault(data.category, Str(DEFAULT_CATEGORY)),
         OrDefault(data.completed, Bool(false)), now)
  }

  /** `task.completed = !task.completed`: the flag becomes a boolean, nothing else moves. */
  function Toggled(t: Task): (r: Task)
    ensures r.completed.Bool? && (r.completed.b <==> !Truthy(t.completed))
    ensures r.(completed := t.completed) == t
  {
    t.(completed := Not(t.completed))
  }

  /** Toggling twice restores a task exactly when its flag was a boolean to begin with. */
  lemma ToggledTwice(t: Task)
    ensures Toggled(Toggled(t)) == t <==> t.completed.Bool?
  {
    NotNot(t.completed);
  }

  /** The search predicate `t => t.id === id`. */
  function HasId(id: int): Task -> bool
  {
    (t: Task) => t.id == id
  }

  /** The ids along the list, in list order. */
  function Ids(tasks: seq<Task>): (r: seq<int>)
    ensures |r| == |tasks| && forall i :: 0 <= i < |tasks| ==> r[i] == tasks[i].id
  {
    seq(|tasks|, i requires 0 <= i < |tasks| => tasks[i].id)
  }

  class TaskManager {
    var tasks: seq<Task>
    var idCounter: int

    ghost predicate Valid()
      reads this
    {
      Seqs.IdsAscending(Ids(tasks), idCounter)
    }

    constructor()
      ensures Valid() && tasks == [] && idCounter == 1
    {
      tasks := [];
      idCounter := 1;
    }

    /** `addTask`: the task gets the counter's id, the counter moves on by one, the task goes last. */
    method AddTask(data: TaskData, now: Timestamp) returns (task: Task)
      requires Valid()
      modifies this
      ensures Valid()
      ensures task == NewTask(old(idCounter), data, now)
      ensures tasks == old(tasks) + [task] && idCounter == old(idCounter) + 1
      ensures forall i :: 0 <= i < |old(tasks)| ==> old(tasks)[i].id < task.id
    {
      task := NewTask(idCounter, data, now);
      idCounter := idCounter + 1;
      tasks := tasks + [task];
    }

    /**
     * `getAllTasks`: the list itself, in insertion order, which the GET handler filters
     * (see `NodeTaskRoutes.ListTasks`).  Under the invariant no two listed tasks share an id.
     */
    function GetAllTasks(): (r: seq<Task>)
      reads this
      ensures |r| == |tasks|
      ensures Valid() ==> forall i, j :: 0 <= i < j < |r| ==> r[i].id != r[j].id
    {
      tasks
    }

    /**
     * `updateTask`: an absent id gives `null` and changes nothing; otherwise the task at the
     * first matching index is rebuilt from `data` with its id and its old `completed`, and
     * (since the constructor ignores the `created_at` it is handed) a fresh `createdAt`.
     */
    method UpdateTask(id: int, data: TaskData, now: Timestamp) returns (updated: Option<Task>)
      requires Valid()
      modifies this
      ensures Valid() && idCounter == old(idCounter)
      ensures match Seqs.FindIndex(old(tasks), HasId(id))
        case None => updated == None && tasks == old(tasks)
        case Some(i) =>
          && updated == Some(NewTask(id, data.(completed := old(tasks)[i].completed), now))
          && tasks == old(tasks)[i := updated.value]
    {
      match Seqs.FindIndex(tasks, HasId(id))
      case None =>
        updated := None;
      case Some(i) =>
        var task := NewTask(id, data.(completed := tasks[i].completed), now);
        tasks := tasks[i := task];
        updated := Some(task);
    }

    /** `deleteTask`: removes the first task with that id; the counter is left alone. */
    method DeleteTask(id: int) returns (deleted: bool)
      requires Valid()
      modifies this
      ensures Valid() && idCounter == old(idCounter)
      ensures deleted <==> Seqs.FindIndex(old(tasks), HasId(id)).Some?
      ensures match Seqs.FindIndex(old(tasks), HasId(id))
        case None => tasks == old(tasks)
        case Some(i) => tasks == Seqs.RemoveAt(old(tasks), i)
    {
      match Seqs.FindIndex(tasks, HasId(id))
      case None =>
        deleted := false;
      case Some(i) =>
        tasks := Seqs.RemoveAt(tasks, i);
        deleted := true;
    }

    /** `toggleTask`: flips `completed` of the first task with that id, in place. */
    method ToggleTask(id: int) returns (task: Option<Task>)
      requires Valid()
      modifies this
      ensures Valid() && idCounter == old(idCounter)
      ensures match Seqs.FindIndex(old(tasks), HasId(id))
        case None => task == None && tasks == old(tasks)
        case Some(i) =>
          && task == Some(Toggled(old(tasks)[i]))
          && tasks == old(tasks)[i := task.value]
    {
      match Seqs.FindIndex(tasks, HasId(id))
      case None =>
        task := None;
      case Some(i) =>
        var t := Toggled(tasks[i]);
        tasks := tasks[i := t];
        task := Some(t);
    }
  }
}
