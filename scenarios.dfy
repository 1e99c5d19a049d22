/**
 * Client code replaying request sequences against the stores: what a caller of each server
 * can rely on.  The store operations are used through their contracts; the one listing
 * step is worked out from the definition of `ListTasks` in `NodeListByPriority`.
 */
module Scenarios {
  import opened Base
  import opened JsValues
  import opened NodeTaskModel
  import opened NodeTaskRoutes
  import NodeSessions
  import PythonTasks
  import Seqs

  /**
   * Add, list, toggle, delete and update through the Node routes.  The update keeps the id
   * and the completion flag but re-stamps the creation time; a later add gets a fresh id.
   */
  method NodeTaskRequests(t1: Timestamp, t2: Timestamp, t3: Timestamp, t4: Timestamp)
  {
    var m := new TaskManager();
    var milk := Post(m, TaskData(Str("buy milk"), Undefined, Undefined, Undefined), t1);
    assert milk == Ok(Task(1, Str("buy milk"), Str("medium"), Str("general"), Bool(false), t1));
    var ship := Post(m, TaskData(Str("ship release"), Str("high"), Undefined, Undefined), t2);
    assert ship == Ok(Task(2, Str("ship release"), Str("high"), Str("general"), Bool(false), t2));
    assert m.tasks == [milk.value, ship.value];
    NodeListByPriority(milk.value, ship.value);
    var high := ListTasks(m.GetAllTasks(), Query(Some("high"), None, None, None));
    assert high == Ok([ship.value]);
    NodeChangeRequests(m, milk.value, ship.value, t3, t4);
  }

  /** Listing by priority after the two adds above keeps only the high-priority task. */
  lemma NodeListByPriority(milk: Task, ship: Task)
    requires milk.priority == Str("medium") && ship.priority == Str("high")
    ensures ListTasks([milk, ship], Query(Some("high"), None, None, None)) == Ok([ship])
  {
    var keep := PriorityIs("high");
    assert !keep(milk) && keep(ship);
    assert [milk, ship][1..] == [ship];
    assert Seqs.Filter([milk, ship], keep) == Seqs.Filter([ship], keep);
    assert Seqs.Filter([ship], keep) == [ship] + Seqs.Filter([], keep);
    var q := Query(Some("high"), None, None, None);
    assert Given(q.priority) && !SearchApplies(q);
    assert ByPriority([milk, ship], q) == [ship];
    assert FieldFilters([milk, ship], q) == [ship];
  }

  /** Toggle the second task, then delete the first. */
  method NodeChangeRequests(m: TaskManager, milk: Task, ship: Task, t3: Timestamp, t4: Timestamp)
    requires m.Valid() && m.idCounter == 3 && m.tasks == [milk, ship]
    requires milk.id == 1 && ship.id == 2 && ship.completed == Bool(false)
    modifies m
  {
    assert Seqs.FindIndex(m.tasks, HasId(2)) == Some(1);
    var toggled := Patch(m, 2);
    assert toggled == Ok(ship.(completed := Bool(true)));
    assert Seqs.FindIndex(m.tasks, HasId(1)) == Some(0);
    var deleted := Delete(m, 1);
    assert deleted == Ok(());
    assert m.tasks == Seqs.RemoveAt([milk, toggled.value], 0) == [toggled.value];
    NodeUpdateRequests(m, toggled.value, t3, t4);
  }

  /** A rejected and an accepted update, a toggle of the deleted id, and one more add. */
  method NodeUpdateRequests(m: TaskManager, ship: Task, t3: Timestamp, t4: Timestamp)
    requires m.Valid() && m.idCounter == 3 && m.tasks == [ship]
    requires ship.id == 2 && ship.completed == Bool(true)
    modifies m
  {
    var rejected := Put(m, 2, TaskData(Str(""), Str("low"), Undefined, Undefined), t3);
    assert rejected == Err(ValidationError(TEXT_ERROR));
    assert Seqs.FindIndex(m.tasks, HasId(2)) == Some(0);
    var updated := Put(m, 2, TaskData(Str("ship release v2"), Str("low"), Undefined, Bool(false)), t3);
    assert updated == Ok(Task(2, Str("ship release v2"), Str("low"), Str("general"), Bool(true), t3));
    assert m.tasks == [updated.value] && m.idCounter == 3;
    NodeLaterRequests(m, updated.value, t4);
  }

  /** A toggle of the deleted id is "not found", and the next add does not reuse it. */
  method NodeLaterRequests(m: TaskManager, ship: Task, t4: Timestamp)
    requires m.Valid() && m.idCounter == 3 && m.tasks == [ship] && ship.id == 2
    modifies m
  {
    assert Seqs.FindIndex(m.tasks, HasId(1)) == None;
    var missing := Patch(m, 1);
    assert missing == Err(NotFound);
    var next := Post(m, TaskData(Str("write notes"), Undefined, Str("work"), Undefined), t4);
    assert next.Ok? && next.value.id == 3;
  }

  /**
   * The same requests against the Python store, which starts with its five sample tasks:
   * new ids continue at 6, and an update keeps the creation time.
   */
  method PythonTaskRequests(clock: seq<Timestamp>, t1: Timestamp, t2: Timestamp)
    requires |clock| == 5
  {
    var store := new PythonTasks.TaskStore(clock);
    assert store.tasks[2].id == 3 && store.tasks[2].category == "planning";
    var milk := store.AddTask(PythonTasks.MakeTaskCreate("buy milk", None, None), t1);
    assert milk.id == 6 && milk.priority == PythonTasks.Medium && milk.category == "general" && !milk.completed;
    var ship := store.AddTask(PythonTasks.MakeTaskCreate("ship release", Some(PythonTasks.High), None), t2);
    assert ship.id == 7 && store.tasks[5] == milk && store.tasks[6] == ship && |store.tasks| == 7;
    PythonChangeRequests(store, milk, ship);
  }

  /** Toggle the last task, then delete the one before it, twice. */
  method PythonChangeRequests(store: PythonTasks.TaskStore, milk: PythonTasks.Task, ship: PythonTasks.Task)
    requires store.Valid() && |store.tasks| == 7 && store.tasks[5] == milk && store.tasks[6] == ship
    requires milk.id == 6 && ship.id == 7 && !ship.completed
    modifies store
  {
    assert Seqs.FindIndex(store.tasks, PythonTasks.HasId(7)) == Some(6);
    var toggled := store.ToggleTask(7);
    assert toggled == Ok(ship.(completed := true));
    assert store.tasks[5] == milk;
    assert forall j :: 0 <= j < 5 ==> store.tasks[j].id < store.tasks[5].id;
    assert Seqs.FindIndex(store.tasks, PythonTasks.HasId(6)) == Some(5);
    var deleted := store.DeleteTask(6);
    assert deleted == Ok(()) && |store.tasks| == 6 && store.tasks[5] == toggled.value;
    PythonUpdateRequests(store, toggled.value);
  }

  /** Delete an id already deleted, update the last task, and search with two characters. */
  method PythonUpdateRequests(store: PythonTasks.TaskStore, ship: PythonTasks.Task)
    requires store.Valid() && |store.tasks| == 6 && store.tasks[5] == ship
    requires ship.id == 7 && ship.completed
    requires forall j :: 0 <= j < 5 ==> store.tasks[j].id < 6
    modifies store
  {
    assert Seqs.FindIndex(store.tasks, PythonTasks.HasId(6)) == None;
    var again := store.DeleteTask(6);
    assert again == Err(PythonTasks.NotFound);

    assert Seqs.FindIndex(store.tasks, PythonTasks.HasId(7)) == Some(5);
    var updated := store.UpdateTask(7, PythonTasks.MakeTaskCreate("ship release v2", Some(PythonTasks.Low), None));
    assert updated.Ok? && updated.value.createdAt == ship.createdAt && updated.value.completed;
    assert updated.value.priority == PythonTasks.Low;

    assert PythonTasks.GetTasks(store.tasks, PythonTasks.Filters(None, None, None, Some("ab"))).Err?;
  }

  /** Register, a duplicate registration, login, profile, logout, and the revoked token. */
  method SessionRequests()
  {
    var s := new NodeSessions.SessionStore();
    var first := s.Register("a", "p");
    assert first.Ok?;
    var second := s.Register("a", "q");
    assert second == Err(NodeSessions.Conflict) && s.users["a"].password == "p";
    var wrong := s.Login("a", "q", "tok");
    assert wrong == Err(NodeSessions.Unauthorized) && s.tokens == map[];
    var login := s.Login("a", "p", "tok");
    assert login == Ok("tok");
    assert s.Authenticate(Some("tok")) == Ok("a");
    assert s.Profile(Some("tok")) == Ok("a");
    var out := s.Logout(Some("tok"));
    assert out.Ok?;
    assert s.Authenticate(Some("tok")) == Err(NodeSessions.Unauthorized);
  }
}
