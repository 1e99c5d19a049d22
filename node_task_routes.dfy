/**
 * The Node server's task routes: the `validateTask` middleware, the filtering GET
 * handler, and the POST/PUT/DELETE/PATCH handlers, which delegate every change to a
 * `TaskManager` and turn its `null`/`false` answers into "not found".
 */
module NodeTaskRoutes {
  import opened Base
  import opened JsValues
  import opened NodeTaskModel
  import Seqs
  import Text

  /** The outcomes the handlers report instead of a task (400, 404 and 500 responses). */
  datatype RouteError = ValidationError(message: string) | NotFound | InternalError

  const TEXT_ERROR := "Text is required and must be a string"
  const PRIORITY_ERROR := "Priority must be one of: low, medium, high"
  const CATEGORY_ERROR := "Category must be a string"

  /** Text passes `!text || typeof text !== 'string'` only as a non-empty string. */
  predicate TextAcceptable(text: JsValue)
  {
    text.Str? && text.s != ""
  }

  /**
   * `validateTask`: `None` lets the request through, `Some(message)` is the 400 answer.
   * The checks run in order text, priority, category, and the first failure answers.
   */
  function ValidateTask(body: TaskData): (r: Option<string>)
    ensures r == Some(TEXT_ERROR) <==> !TextAcceptable(body.text)
    ensures r == Some(PRIORITY_ERROR) <==>
      TextAcceptable(body.text) && Truthy(body.priority) && !ValidatePriority(body.priority)
    ensures r == Some(CATEGORY_ERROR) <==>
      && TextAcceptable(body.text)
      && (!Truthy(body.priority) || ValidatePriority(body.priority))
      && Truthy(body.category) && !body.category.Str?
    ensures r.None? || r == Some(TEXT_ERROR) || r == Some(PRIORITY_ERROR) || r == Some(CATEGORY_ERROR)
  {
    if !Truthy(body.text) || !body.text.Str? then Some(TEXT_ERROR)
    else if Truthy(body.priority) && !ValidatePriority(body.priority) then Some(PRIORITY_ERROR)
    else if Truthy(body.category) && !body.category.Str? then Some(CATEGORY_ERROR)
    else None
  }

  /**
   * What an accepted body puts in the store: a non-empty string text, a priority that is
   * in the enumeration or else falsy (`null`, `''`, `0`, `false`) and stored as given, and a
   * category that is a string or else falsy.
   */
  lemma {:induction false} AcceptedBodyMakesTask(body: TaskData, id: int, now: Timestamp)
    requires ValidateTask(body).None?
    ensures var t := NewTask(id, body, now);
      && TextAcceptable(t.text)
      && (ValidatePriority(t.priority) || (body.priority != Undefined && !Truthy(t.priority)))
      && (t.category.Str? || (body.category != Undefined && !Truthy(t.category)))
  {
    var t := NewTask(id, body, now);
    if body.priority == Undefined {
      assert t.priority == Str(MEDIUM);
    }
    if body.category == Undefined {
      assert t.category == Str(DEFAULT_CATEGORY);
    }
  }

  /** An accepted body may still leave a priority outside the enumeration in the store. */
  lemma NullPriorityIsStored(id: int, now: Timestamp)
    ensures var body := TaskData(Str("x"), Null, Undefined, Undefined);
      ValidateTask(body).None? && NewTask(id, body, now).priority == Null
  {
  }

  /** The query string of `GET /tasks`; `None` is a parameter the request does not carry. */
  datatype Query = Query(priority: Option<string>, category: Option<string>,
                         completed: Option<string>, search: Option<string>)

  /** A query parameter that is present and non-empty (truthy). */
  predicate Given(p: Option<string>)
  {
    p.Some? && p.value != ""
  }

  /**
   * The search is applied only when it is truthy and `search.length >= 3`, a length
   * JavaScript counts in UTF-16 code units.
   */
  predicate SearchApplies(q: Query)
  {
    Given(q.search) && Text.Utf16Length(q.search.value) >= 3
  }

  function PriorityIs(p: string): Task -> bool
  {
    (t: Task) => t.priority == Str(p)
  }

  function CategoryIs(c: string): Task -> bool
  {
    (t: Task) => t.category == Str(c)
  }

  /** `t.completed === isCompleted`: strict equality with a boolean. */
  function CompletedIs(b: bool): Task -> bool
  {
    (t: Task) => t.completed == Bool(b)
  }

  /** The case-insensitive search on a task whose text is a string. */
  function TextContains(search: string): Task -> bool
  {
    (t: Task) => t.text.Str? && Text.Contains(Text.Lower(t.text.s), Text.Lower(search))
  }

  /** `filteredTasks.filter(t => t.priority === priority)`, run only when `priority` is truthy. */
  function ByPriority(tasks: seq<Task>, q: Query): seq<Task>
  {
    if Given(q.priority) then Seqs.Filter(tasks, PriorityIs(q.priority.value)) else tasks
  }

  /** The category filter, run only when `category` is truthy. */
  function ByCategory(tasks: seq<Task>, q: Query): seq<Task>
  {
    if Given(q.category) then Seqs.Filter(tasks, CategoryIs(q.category.value)) else tasks
  }

  /** The completion filter, run whenever `completed` is present: only `'true'` selects completed tasks. */
  function ByCompleted(tasks: seq<Task>, q: Query): seq<Task>
  {
    if q.completed.Some? then Seqs.Filter(tasks, CompletedIs(q.completed.value == "true")) else tasks
  }

  /** The three filters that come before the search, in the handler's order. */
  function FieldFilters(tasks: seq<Task>, q: Query): seq<Task>
  {
    ByCompleted(ByCategory(ByPriority(tasks, q), q), q)
  }

  /**
   * The `GET /tasks` handler.  When the search applies, `t.text.toLowerCase()` runs on each
   * remaining task, and throws (a 500 answer) on the first text that is not a string.
   * The handler filters a copy of `taskManager.getAllTasks()`, which is `tasks` here.
   */
  function ListTasks(tasks: seq<Task>, q: Query): (r: Result<seq<Task>, RouteError>)
    ensures r.Ok? ==> |r.value| <= |tasks|
    ensures r.Err? ==> r.error == InternalError && SearchApplies(q)
  {
    var filtered := FieldFilters(tasks, q);
    if !SearchApplies(q) then Ok(filtered)
    else if exists t :: t in filtered && !t.text.Str? then Err(InternalError)
    else Ok(Seqs.Filter(filtered, TextContains(q.search.value)))
  }

  /** What each field filter demands of a task, `true` when its parameter is not given. */
  function PriorityOk(q: Query): Task -> bool
  {
    (t: Task) => Given(q.priority) ==> PriorityIs(q.priority.value)(t)
  }

  function CategoryOk(q: Query): Task -> bool
  {
    (t: Task) => Given(q.category) ==> CategoryIs(q.category.value)(t)
  }

  function CompletedOk(q: Query): Task -> bool
  {
    (t: Task) => q.completed.Some? ==> CompletedIs(q.completed.value == "true")(t)
  }

  /** A task passes the field filters the query supplies. */
  predicate MatchesFields(q: Query, t: Task)
  {
    && (Given(q.priority) ==> t.priority == Str(q.priority.value))
    && (Given(q.category) ==> t.category == Str(q.category.value))
    && (q.completed.Some? ==> t.completed == Bool(q.completed.value == "true"))
  }

  /** A task passes every filter the query supplies, the search included when it applies. */
  predicate Matches(q: Query, t: Task)
  {
    MatchesFields(q, t) && (SearchApplies(q) ==> TextContains(q.search.value)(t))
  }

  /** `MatchesFields` and `Matches` as predicates to filter by. */
  function FieldsMatch(q: Query): Task -> bool
  {
    (t: Task) => MatchesFields(q, t)
  }

  function QueryMatch(q: Query): Task -> bool
  {
    (t: Task) => Matches(q, t)
  }

  /** Each stage, conditional as it is, is a filter by "not given, or satisfied". */
  lemma ByPriorityIsFilter(s: seq<Task>, q: Query)
    ensures ByPriority(s, q) == Seqs.Filter(s, PriorityOk(q))
  {
    Seqs.FilterWhen(s, Given(q.priority), PriorityIs(if q.priority.Some? then q.priority.value else ""), PriorityOk(q));
  }

  lemma ByCategoryIsFilter(s: seq<Task>, q: Query)
    ensures ByCategory(s, q) == Seqs.Filter(s, CategoryOk(q))
  {
    Seqs.FilterWhen(s, Given(q.category), CategoryIs(if q.category.Some? then q.category.value else ""), CategoryOk(q));
  }

  lemma ByCompletedIsFilter(s: seq<Task>, q: Query)
    ensures ByCompleted(s, q) == Seqs.Filter(s, CompletedOk(q))
  {
    Seqs.FilterWhen(s, q.completed.Some?, CompletedIs(q.completed == Some("true")), CompletedOk(q));
  }

  /** The field filters together keep exactly the tasks matching all of them, in list order. */
  lemma FieldFiltersAreConjunction(tasks: seq<Task>, q: Query)
    ensures FieldFilters(tasks, q) == Seqs.Filter(tasks, FieldsMatch(q))
  {
    var s1 := ByPriority(tasks, q);
    var s2 := ByCategory(s1, q);
    ByPriorityIsFilter(tasks, q);
    ByCategoryIsFilter(s1, q);
    ByCompletedIsFilter(s2, q);
    var f12 := (t: Task) => PriorityOk(q)(t) && CategoryOk(q)(t);
    Seqs.FilterThenFilter(tasks, PriorityOk(q), CategoryOk(q), f12);
    Seqs.FilterThenFilter(tasks, f12, CompletedOk(q), FieldsMatch(q));
  }

  /** A task with a non-string text survives the field filters exactly when it matches them. */
  lemma NonStringTextSurvives(tasks: seq<Task>, q: Query)
    ensures (exists t :: t in FieldFilters(tasks, q) && !t.text.Str?) <==>
      exists i :: 0 <= i < |tasks| && MatchesFields(q, tasks[i]) && !tasks[i].text.Str?
  {
    var filtered := FieldFilters(tasks, q);
    FieldFiltersAreConjunction(tasks, q);
    Seqs.FilterMembers(tasks, FieldsMatch(q));
    if exists i :: 0 <= i < |tasks| && MatchesFields(q, tasks[i]) && !tasks[i].text.Str? {
      var i :| 0 <= i < |tasks| && MatchesFields(q, tasks[i]) && !tasks[i].text.Str?;
      assert FieldsMatch(q)(tasks[i]);
      assert tasks[i] in filtered;
    }
    if exists t :: t in filtered && !t.text.Str? {
      var t :| t in filtered && !t.text.Str?;
      assert t in tasks && FieldsMatch(q)(t);
      var i :| 0 <= i < |tasks| && tasks[i] == t;
      assert MatchesFields(q, tasks[i]);
    }
  }

  /**
   * The GET handler fails (a 500) exactly when the search applies and some task passing the
   * field filters has a text that is not a string.
   */
  lemma ListTasksFails(tasks: seq<Task>, q: Query)
    ensures ListTasks(tasks, q).Err? <==>
      SearchApplies(q) && exists i :: 0 <= i < |tasks| && MatchesFields(q, tasks[i]) && !tasks[i].text.Str?
    ensures ListTasks(tasks, q).Err? ==> ListTasks(tasks, q).error == InternalError
  {
    NonStringTextSurvives(tasks, q);
  }

  /** A successful GET answer is the tasks matching every supplied filter, in list order. */
  lemma ListTasksKeepsMatches(tasks: seq<Task>, q: Query)
    ensures ListTasks(tasks, q).Ok? ==> ListTasks(tasks, q).value == Seqs.Filter(tasks, QueryMatch(q))
  {
    FieldFiltersAreConjunction(tasks, q);
    if SearchApplies(q) {
      Seqs.FilterThenFilter(tasks, FieldsMatch(q), TextContains(q.search.value), QueryMatch(q));
    } else {
      Seqs.FilterSameOn(tasks, FieldsMatch(q), QueryMatch(q));
    }
  }

  /** The GET answer is always an order-preserving selection from the list. */
  lemma ListTasksIsSubsequence(tasks: seq<Task>, q: Query)
    ensures ListTasks(tasks, q).Ok? ==> Seqs.IsSubsequence(ListTasks(tasks, q).value, tasks)
  {
    ListTasksKeepsMatches(tasks, q);
    Seqs.FilterIsSubsequence(tasks, QueryMatch(q));
  }

  /** A search shorter than three characters is ignored, not treated as matching nothing. */
  lemma ShortSearchIsIgnored(tasks: seq<Task>, q: Query)
    requires q.search.Some? && Text.Utf16Length(q.search.value) < 3
    ensures ListTasks(tasks, q) == ListTasks(tasks, q.(search := None))
  {
  }

  /**
   * Two characters outside the Basic Multilingual Plane make a search of length 4, which
   * the handler applies although it has only two characters.
   */
  lemma AstralSearchApplies()
    ensures SearchApplies(Query(None, None, None, Some("\U{1F600}\U{1F600}")))
  {
    assert Text.Utf16Length("\U{1F600}\U{1F600}") == 4;
  }

  /** With no query parameters the answer is the whole list. */
  lemma EmptyQueryListsAll(tasks: seq<Task>)
    ensures ListTasks(tasks, Query(None, None, None, None)) == Ok(tasks)
  {
  }

  /** Every text in the store is a string. */
  predicate TextsAreStrings(tasks: seq<Task>)
  {
    forall i :: 0 <= i < |tasks| ==> tasks[i].text.Str?
  }

  /** When every stored text is a string, as POST and PUT guarantee, GET never fails. */
  lemma ListTasksSucceeds(tasks: seq<Task>, q: Query)
    requires TextsAreStrings(tasks)
    ensures ListTasks(tasks, q).Ok?
  {
    ListTasksFails(tasks, q);
  }

  /** `POST /tasks`: validation, then `addTask`. */
  method Post(m: TaskManager, body: TaskData, now: Timestamp) returns (r: Result<Task, RouteError>)
    requires m.Valid()
    modifies m
    ensures m.Valid()
    ensures TextsAreStrings(old(m.tasks)) ==> TextsAreStrings(m.tasks)
    ensures ValidateTask(body).Some? ==>
      r == Err(ValidationError(ValidateTask(body).value)) && m.tasks == old(m.tasks) && m.idCounter == old(m.idCounter)
    ensures ValidateTask(body).None? ==>
      && r == Ok(NewTask(old(m.idCounter), body, now))
      && m.tasks == old(m.tasks) + [r.value] && m.idCounter == old(m.idCounter) + 1
  {
    var check := ValidateTask(body);
    if check.Some? {
      return Err(ValidationError(check.value));
    }
    var task := m.AddTask(body, now);
    r := Ok(task);
  }

  /** `PUT /tasks/:taskId`: validation, then `updateTask`; a `null` answer is "not found". */
  method Put(m: TaskManager, id: int, body: TaskData, now: Timestamp) returns (r: Result<Task, RouteError>)
    requires m.Valid()
    modifies m
    ensures m.Valid() && m.idCounter == old(m.idCounter)
    ensures TextsAreStrings(old(m.tasks)) ==> TextsAreStrings(m.tasks)
    ensures ValidateTask(body).Some? ==>
      r == Err(ValidationError(ValidateTask(body).value)) && m.tasks == old(m.tasks)
    ensures ValidateTask(body).None? ==>
      match Seqs.FindIndex(old(m.tasks), HasId(id))
      case None => r == Err(NotFound) && m.tasks == old(m.tasks)
      case Some(i) =>
        && r == Ok(NewTask(id, body.(completed := old(m.tasks)[i].completed), now))
        && m.tasks == old(m.tasks)[i := r.value]
  {
    var check := ValidateTask(body);
    if check.Some? {
      return Err(ValidationError(check.value));
    }
    var updated := m.UpdateTask(id, body, now);
    if updated.None? {
      return Err(NotFound);
    }
    r := Ok(updated.value);
  }

  /** `DELETE /tasks/:taskId`: `deleteTask`; a `false` answer is "not found". */
  method Delete(m: TaskManager, id: int) returns (r: Result<(), RouteError>)
    requires m.Valid()
    modifies m
    ensures m.Valid() && m.idCounter == old(m.idCounter)
    ensures TextsAreStrings(old(m.tasks)) ==> TextsAreStrings(m.tasks)
    ensures match Seqs.FindIndex(old(m.tasks), HasId(id))
      case None => r == Err(NotFound) && m.tasks == old(m.tasks)
      case Some(i) => r == Ok(()) && m.tasks == Seqs.RemoveAt(old(m.tasks), i)
  {
    var deleted := m.DeleteTask(id);
    if !deleted {
      return Err(NotFound);
    }
    r := Ok(());
  }

  /** `PATCH /tasks/:taskId/toggle`: `toggleTask`; a `null` answer is "not found". */
  method Patch(m: TaskManager, id: int) returns (r: Result<Task, RouteError>)
    requires m.Valid()
    modifies m
    ensures m.Valid() && m.idCounter == old(m.idCounter)
    ensures TextsAreStrings(old(m.tasks)) ==> TextsAreStrings(m.tasks)
    ensures match Seqs.FindIndex(old(m.tasks), HasId(id))
      case None => r == Err(NotFound) && m.tasks == old(m.tasks)
      case Some(i) => r == Ok(Toggled(old(m.tasks)[i])) && m.tasks == old(m.tasks)[i := r.value]
  {
    var task := m.ToggleTask(id);
    if task.None? {
      return Err(NotFound);
    }
    r := Ok(task.value);
  }
}
