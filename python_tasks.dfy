/**
 * The Python server's task store: the `Priority`, `TaskCreate` and `Task` models with
 * their defaults, the module-level `tasks_db` list and `task_id_counter` (seeded with five
 * tasks), and the add, list, get, update, delete and toggle handlers.
 */
module PythonTasks {
  import opened Base
  import Seqs
  import Text

  datatype Priority = Low | Medium | High

  const DEFAULT_CATEGORY := "general"
  const SEARCH_MIN_LENGTH := 3

  /** The body of a create or update request, after its defaults are filled in. */
  datatype TaskCreate = TaskCreate(text: string, priority: Priority, category: string)

  /** A stored task: the `TaskCreate` fields plus id, creation time and completion flag. */
  datatype Task = Task(text: string, priority: Priority, category: string,
                       id: int, createdAt: Timestamp, completed: bool)

  /** The failures the handlers report: 404, and 422 for a query parameter that fails validation. */
  datatype TaskError = NotFound | Invalid(message: string)

  /** `TaskCreate(...)` with `priority` and `category` omitted where `None` is given. */
  function MakeTaskCreate(text: string, priority: Option<Priority>, category: Option<string>): (c: TaskCreate)
    ensures c.text == text
    ensures c.priority == (if priority.Some? then priority.value else Medium)
    ensures c.category == (if category.Some? then category.value else "general")
  {
    TaskCreate(text,
               match priority case Some(p) => p case None => Medium,
               match category case Some(c) => c case None => DEFAULT_CATEGORY)
  }

  /** `Task(id=..., created_at=..., **create.dict())`: a new task is never completed. */
  function NewTask(create: TaskCreate, id: int, now: Timestamp): (t: Task)
    ensures t.text == create.text && t.priority == create.priority && t.category == create.category
    ensures t.id == id && t.createdAt == now && !t.completed
  {
    Task(create.text, create.priority, create.category, id, now, false)
  }

  /** The five sample tasks the store starts with, in order. */
  function InitialTasks(): (r: seq<TaskCreate>)
    ensures |r| == 5
  {
    [ TaskCreate("Write a diary entry from the future", Medium, "writing"),
      TaskCreate("Create a time machine from a cardboard box", High, "crafts"),
      TaskCreate("Plan a trip to the dinosaurs", High, "planning"),
      TaskCreate("Draw a futuristic city", Medium, "art"),
      TaskCreate("List items to bring on a time-travel adventure", Low, "planning") ]
  }

  /** The search predicate `t.id == task_id`. */
  function HasId(id: int): Task -> bool
  {
    (t: Task) => t.id == id
  }

  /** The ids along the list, in list order. */
  function Ids(tasks: seq<Task>): (r: seq<int>)
    ensures |r| == |tasks| && forall i :: 0 <= i < |tasks| ==> r[i] == tasks[i].id
  {
    seq(|tasks|, i requires 0 <= i < |tasks| => tasks[i].id)
  }

  /** The query parameters of `GET /tasks`; `None` is a parameter the request does not carry. */
  datatype Filters = Filters(priority: Option<Priority>, category: Option<string>,
                             completed: Option<bool>, search: Option<string>)

  /**
   * `Query(None, min_length=3)`: a search, when present, must have three characters or more,
   * counted as Python counts `len(str)`, in code points.
   */
  predicate SearchValid(f: Filters)
  {
    f.search.Some? ==> |f.search.value| >= SEARCH_MIN_LENGTH
  }

  /** A category filter applies only when it is truthy (non-empty). */
  predicate CategoryGiven(f: Filters)
  {
    f.category.Some? && f.category.value != ""
  }

  function PriorityIs(p: Priority): Task -> bool
  {
    (t: Task) => t.priority == p
  }

  function CategoryIs(c: string): Task -> bool
  {
    (t: Task) => t.category == c
  }

  function CompletedIs(b: bool): Task -> bool
  {
    (t: Task) => t.completed == b
  }

  /** `search.lower() in t.text.lower()`, with ASCII lower-casing. */
  function TextContains(search: string): Task -> bool
  {
    (t: Task) => Text.Contains(Text.Lower(t.text), Text.Lower(search))
  }

  /** `[t for t in filtered_tasks if t.priority == priority]`, run only when `priority` is given. */
  function ByPriority(tasks: seq<Task>, f: Filters): seq<Task>
  {
    if f.priority.Some? then Seqs.Filter(tasks, PriorityIs(f.priority.value)) else tasks
  }

  /** The category comprehension, run only when `category` is truthy. */
  function ByCategory(tasks: seq<Task>, f: Filters): seq<Task>
  {
    if CategoryGiven(f) then Seqs.Filter(tasks, CategoryIs(f.category.value)) else tasks
  }

  /** The completion comprehension, run only when `completed is not None`. */
  function ByCompleted(tasks: seq<Task>, f: Filters): seq<Task>
  {
    if f.completed.Some? then Seqs.Filter(tasks, CompletedIs(f.completed.value)) else tasks
  }

  /** The case-insensitive search comprehension, run only when `search` is given. */
  function BySearch(tasks: seq<Task>, f: Filters): seq<Task>
  {
    if f.search.Some? then Seqs.Filter(tasks, TextContains(f.search.value)) else tasks
  }

  /**
   * `get_tasks`: parameter validation, then the four comprehensions in the handler's order.
   */
  function GetTasks(tasks: seq<Task>, f: Filters): (r: Result<seq<Task>, TaskError>)
    ensures r.Err? <==> f.search.Some? && |f.search.value| < SEARCH_MIN_LENGTH
    ensures r.Ok? ==> |r.value| <= |tasks|
  {
    if !SearchValid(f) then Err(Invalid("search must have at least 3 characters"))
    else Ok(BySearch(ByCompleted(ByCategory(ByPriority(tasks, f), f), f), f))
  }

  /** What each comprehension demands of a task, `true` when its parameter is not given. */
  function PriorityOk(f: Filters): Task -> bool
  {
    (t: Task) => f.priority.Some? ==> PriorityIs(f.priority.value)(t)
  }

  function CategoryOk(f: Filters): Task -> bool
  {
    (t: Task) => CategoryGiven(f) ==> CategoryIs(f.category.value)(t)
  }

  function CompletedOk(f: Filters): Task -> bool
  {
    (t: Task) => f.completed.Some? ==> CompletedIs(f.completed.value)(t)
  }

  function SearchOk(f: Filters): Task -> bool
  {
    (t: Task) => f.search.Some? ==> TextContains(f.search.value)(t)
  }

  /** A task passes every filter the parameters supply. */
  predicate Matches(f: Filters, t: Task)
  {
    && (f.priority.Some? ==> t.priority == f.priority.value)
    && (CategoryGiven(f) ==> t.category == f.category.value)
    && (f.completed.Some? ==> t.completed == f.completed.value)
    && (f.search.Some? ==> Text.Contains(Text.Lower(t.text), Text.Lower(f.search.value)))
  }

  /** `Matches` as a predicate to filter by. */
  function FiltersMatch(f: Filters): Task -> bool
  {
    (t: Task) => Matches(f, t)
  }

  /** Each stage, conditional as it is, is a filter by "not given, or satisfied". */
  lemma ByPriorityIsFilter(s: seq<Task>, f: Filters)
    ensures ByPriority(s, f) == Seqs.Filter(s, PriorityOk(f))
  {
    Seqs.FilterWhen(s, f.priority.Some?, PriorityIs(if f.priority.Some? then f.priority.value else Medium), PriorityOk(f));
  }

  lemma ByCategoryIsFilter(s: seq<Task>, f: Filters)
    ensures ByCategory(s, f) == Seqs.Filter(s, CategoryOk(f))
  {
    Seqs.FilterWhen(s, CategoryGiven(f), CategoryIs(if f.category.Some? then f.category.value else ""), CategoryOk(f));
  }

  lemma ByCompletedIsFilter(s: seq<Task>, f: Filters)
    ensures ByCompleted(s, f) == Seqs.Filter(s, CompletedOk(f))
  {
    Seqs.FilterWhen(s, f.completed.Some?, CompletedIs(f.completed == Some(true)), CompletedOk(f));
  }

  lemma BySearchIsFilter(s: seq<Task>, f: Filters)
    ensures BySearch(s, f) == Seqs.Filter(s, SearchOk(f))
  {
    Seqs.FilterWhen(s, f.search.Some?, TextContains(if f.search.Some? then f.search.value else ""), SearchOk(f));
  }

  /**
   * The GET answer: a validation error exactly for a search shorter than three characters,
   * otherwise the tasks matching every supplied filter, in their original order.
   */
  lemma GetTasksKeepsMatches(tasks: seq<Task>, f: Filters)
    ensures GetTasks(tasks, f).Err? <==> f.search.Some? && |f.search.value| < 3
    ensures GetTasks(tasks, f).Ok? ==> GetTasks(tasks, f).value == Seqs.Filter(tasks, FiltersMatch(f))
  {
    var s1 := ByPriority(tasks, f);
    var s2 := ByCategory(s1, f);
    var s3 := ByCompleted(s2, f);
    ByPriorityIsFilter(tasks, f);
    ByCategoryIsFilter(s1, f);
    ByCompletedIsFilter(s2, f);
    BySearchIsFilter(s3, f);
    var f12 := (t: Task) => PriorityOk(f)(t) && CategoryOk(f)(t);
    var f123 := (t: Task) => f12(t) && CompletedOk(f)(t);
    Seqs.FilterThenFilter(tasks, PriorityOk(f), CategoryOk(f), f12);
    Seqs.FilterThenFilter(tasks, f12, CompletedOk(f), f123);
    Seqs.FilterThenFilter(tasks, f123, SearchOk(f), FiltersMatch(f));
  }

  /** The GET answer is always an order-preserving selection from `tasks_db`. */
  lemma GetTasksIsSubsequence(tasks: seq<Task>, f: Filters)
    ensures GetTasks(tasks, f).Ok? ==> Seqs.IsSubsequence(GetTasks(tasks, f).value, tasks)
  {
    GetTasksKeepsMatches(tasks, f);
    Seqs.FilterIsSubsequence(tasks, FiltersMatch(f));
  }

  /** `get_task`: the first task with that id, or "not found". */
  function GetTask(tasks: seq<Task>, id: int): (r: Result<Task, TaskError>)
    ensures r.Err? <==> forall i :: 0 <= i < |tasks| ==> tasks[i].id != id
    ensures r.Err? ==> r.error == NotFound
    ensures r.Ok? ==> r.value.id == id
    ensures r.Ok? ==> exists i :: 0 <= i < |tasks| && tasks[i] == r.value &&
                                  (forall j :: 0 <= j < i ==> tasks[j].id != id)
  {
    match Seqs.FindIndex(tasks, HasId(id))
    case None => Err(NotFound)
    case Some(i) => Ok(tasks[i])
  }

  /** `task.completed = not task.completed`. */
  function Toggled(t: Task): (r: Task)
    ensures r.completed == !t.completed
    ensures r.(completed := t.completed) == t
  {
    t.(completed := !t.completed)
  }

  /** Toggling twice is the identity. */
  lemma ToggledTwice(t: Task)
    ensures Toggled(Toggled(t)) == t
  {
  }

  /** `tasks_db` and `task_id_counter`, which the handlers change in place. */
  class TaskStore {
    var tasks: seq<Task>
    var counter: int

    ghost predicate Valid()
      reads this
    {
      Seqs.IdsAscending(Ids(tasks), counter)
    }

    /**
     * The module's start-up: the sample tasks are added in order with ids 1 to 5, each
     * stamped with its own clock reading, and the counter ends at 6.
     */
    constructor(clock: seq<Timestamp>)
      requires |clock| == |InitialTasks()|
      ensures Valid() && counter == 6 && |tasks| == 5
      ensures forall i :: 0 <= i < 5 ==> tasks[i] == NewTask(InitialTasks()[i], i + 1, clock[i])
    {
      tasks := [];
      counter := 1;
      new;
      var initial := InitialTasks();
      for k := 0 to |initial|
        invariant Valid() && counter == k + 1 && |tasks| == k
        invariant forall i :: 0 <= i < k ==> tasks[i] == NewTask(initial[i], i + 1, clock[i])
      {
        var task := NewTask(initial[k], counter, clock[k]);
        tasks := tasks + [task];
        counter := counter + 1;
      }
    }

    /** `add_task`: the task gets the counter's id, goes last, and the counter moves on by one. */
    method AddTask(create: TaskCreate, now: Timestamp) returns (task: Task)
      requires Valid()
      modifies this
      ensures Valid()
      ensures task == NewTask(create, old(counter), now)
      ensures tasks == old(tasks) + [task] && counter == old(counter) + 1
      ensures forall i :: 0 <= i < |old(tasks)| ==> old(tasks)[i].id < task.id
    {
      task := NewTask(create, counter, now);
      tasks := tasks + [task];
      counter := counter + 1;
    }

    /**
     * `update_task`: an absent id is "not found" and changes nothing; otherwise the task at
     * the first matching index takes the new text, priority and category and keeps its id,
     * creation time and completion flag.
     */
    method UpdateTask(id: int, update: TaskCreate) returns (r: Result<Task, TaskError>)
      requires Valid()
      modifies this
      ensures Valid() && counter == old(counter)
      ensures match Seqs.FindIndex(old(tasks), HasId(id))
        case None => r == Err(NotFound) && tasks == old(tasks)
        case Some(i) =>
          && r == Ok(Task(update.text, update.priority, update.category,
                          id, old(tasks)[i].createdAt, old(tasks)[i].completed))
          && tasks == old(tasks)[i := r.value]
    {
      match Seqs.FindIndex(tasks, HasId(id))
      case None =>
        r := Err(NotFound);
      case Some(i) =>
        var updated := Task(update.text, update.priority, update.category,
                            id, tasks[i].createdAt, tasks[i].completed);
        tasks := tasks[i := updated];
        r := Ok(updated);
    }

    /** `delete_task`: removes the first task with that id; the counter is left alone. */
    method DeleteTask(id: int) returns (r: Result<(), TaskError>)
      requires Valid()
      modifies this
      ensures Valid() && counter == old(counter)
      ensures match Seqs.FindIndex(old(tasks), HasId(id))
        case None => r == Err(NotFound) && tasks == old(tasks)
        case Some(i) => r == Ok(()) && tasks == Seqs.RemoveAt(old(tasks), i)
    {
      match Seqs.FindIndex(tasks, HasId(id))
      case None =>
        r := Err(NotFound);
      case Some(i) =>
        tasks := Seqs.RemoveAt(tasks, i);
        r := Ok(());
    }

    /** `toggle_task`: flips `completed` of the first task with that id, in place. */
    method ToggleTask(id: int) returns (r: Result<Task, TaskError>)
      requires Valid()
      modifies this
      ensures Valid() && counter == old(counter)
      ensures match Seqs.FindIndex(old(tasks), HasId(id))
        case None => r == Err(NotFound) && tasks == old(tasks)
        case Some(i) => r == Ok(Toggled(old(tasks)[i])) && tasks == old(tasks)[i := r.value]
    {
      match Seqs.FindIndex(tasks, HasId(id))
      case None =>
        r := Err(NotFound);
      case Some(i) =>
        var task := Toggled(tasks[i]);
        tasks := tasks[i := task];
        r := Ok(task);
    }
  }
}
