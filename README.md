# Task servers: task registries and session store

This project models the stateful core of a small task-tracking service that exists in two
implementations: a Node/Express server and a Python/FastAPI server. It proves properties of
that model in Dafny. There are three in-memory stores:

- **The Node task registry** (`node-server/src/models/task.js`). The `TaskManager` class owns
  a task list and an id counter. The routes in `node-server/src/routes/tasks.js` sit in front
  of it: the `validateTask` middleware, the filtering `GET` handler, and the
  `POST`/`PUT`/`DELETE`/`PATCH` handlers.
- **The Python task store** (`python-server/src/main.py`). It is a parallel implementation
  over the module-level `tasks_db` list and `task_id_counter`, which start out with five
  sample tasks.
- **The Node session store** (`node-server/src/index.js`). It holds a `users` map and a
  `tokens` map, with register, login, `authenticate`, profile and logout.

The modules follow the source files:

| file | module | models |
|---|---|---|
| `base.dfy` | `Base` | `Option`, `Result`, and an opaque `Timestamp` for clock reads |
| `seqs.dfy` | `Seqs` | `findIndex`/`next(...)` as `FindIndex`, `filter`/comprehensions as `Filter`, `splice`/`pop` as `RemoveAt` |
| `text.dfy` | `Text` | ASCII `toLowerCase`/`lower()` and substring search (`includes`/`in`) |
| `js_values.dfy` | `JsValues` | JSON body values, JavaScript truthiness, `!`, destructuring defaults |
| `node_task_model.dfy` | `NodeTaskModel` | `Priority`, the `Task` constructor, `TaskManager` (a class) |
| `node_task_routes.dfy` | `NodeTaskRoutes` | `validateTask`, the GET pipeline, the mutating handlers |
| `node_sessions.dfy` | `NodeSessions` | `SessionStore` (a class over the two maps) |
| `python_tasks.dfy` | `PythonTasks` | the pydantic models, `get_tasks`/`get_task`, `TaskStore` (a class) |
| `scenarios.dfy` | `Scenarios` | client code that replays request sequences; store operations are used through their contracts, and one listing step is worked out from `ListTasks` |

The stores are classes whose methods update their fields in place: `tasks`/`idCounter`,
`tasks`/`counter`, and `users`/`tokens`. Each class has an invariant, `Valid()`:

- In both task stores, every id lies in `[1, counter)` and ids strictly increase along the
  list. So ids are unique, and ids are never reused after a delete.
- In the session store, every token belongs to a registered user. Every user is stored under
  its own name.

The list, lookup, validation and authentication logic is written as pure functions.

Node request bodies are modelled as JSON values (`JsValue`), where `Undefined` means the
field is absent. This keeps the exact behaviour of the source's truthiness tests, its
`typeof` checks, and its default parameters, which apply only to `undefined`. Several
consequences are proved:

- A Node update re-stamps `created_at`. The `Task` constructor ignores the `created_at` it
  is handed (`node-server/src/models/task.js:16,50`). The Python update keeps it
  (`python-server/src/main.py:96`).
- A Node add honours a `completed` field in the body. A Python add never does, because
  `TaskCreate` has no such field.
- `validateTask` lets a falsy priority or category through, such as `null` or `''`. That
  value is then stored as given (`NullPriorityIsStored`). A reader might expect a stored
  priority to always be one of `low`/`medium`/`high`. The code does not ensure this, and
  the model follows the code.
- Node's toggle stores `!completed`, which is always a boolean. So toggling twice restores a
  task exactly when its flag was a boolean to begin with. In Python, toggling twice always
  restores the task.
- The Node search calls `text.toLowerCase()`. This throws on a stored text that is not a
  string, and the handler answers 500 (`ListTasksFails`). Validated adds and updates never
  store such a text (`Post`, `Put`, `ListTasksSucceeds`).
- A search shorter than three characters is ignored by Node (`ShortSearchIsIgnored`).
  Python rejects it with a validation error (`GetTasksKeepsMatches`). The model follows
  each server.
- The two servers count a search's length differently. Node's `search.length` counts UTF-16
  code units, so a character outside the Basic Multilingual Plane counts twice, and a search
  of two emoji is applied (`AstralSearchApplies`). Python's `min_length` counts code points.
- Python does not require a non-empty text, because pydantic's `text: str` accepts `""`.
  Node does require one.

## Model

| member | source | states |
|---|---|---|
| Seqs.FindIndex | node-server/src/models/task.js:44-45 | the index found is the first one whose element satisfies the predicate; `None` exactly when no element does |
| Seqs.Filter | node-server/src/routes/tasks.js:31 | `.filter` and a list comprehension with an `if` never lengthen the list (membership and order are `FilterMembers` and `FilterIsSubsequence`) |
| Seqs.FilterMembers | node-server/src/routes/tasks.js:31 | a filter keeps exactly the elements that satisfy its predicate |
| Seqs.FilterIsSubsequence | python-server/src/main.py:71 | a filter's result is an order-preserving subsequence of its input |
| Seqs.FilterThenFilter | node-server/src/routes/tasks.js:30-41 | two successive filters equal one filter by the conjunction (filters compose with AND) |
| Seqs.FilterWhen | node-server/src/routes/tasks.js:30-32 | a filter run only when a parameter is given is a filter by "not given, or satisfied" |
| Seqs.RemoveAt | node-server/src/models/task.js:60 | `splice(index, 1)` keeps every element before the index and shifts every element after it down by one |
| Text.Utf16Length | node-server/src/routes/tasks.js:43 | JavaScript's `length` is at least the number of characters and at most twice it, and equals it exactly when no character lies outside the Basic Multilingual Plane |
| Text.Contains | node-server/src/routes/tasks.js:45 | `includes`/`in`: the empty needle is always found, and a found needle is no longer than the text (occurrence at a position is `ContainsIffOccurs`) |
| Text.Lower | node-server/src/routes/tasks.js:45 | lower-casing keeps the length and lower-cases each ASCII letter, leaving other characters alone |
| Text.ContainsIffOccurs | node-server/src/routes/tasks.js:45 | the substring scan succeeds exactly when the needle occurs at some start position |
| JsValues.Truthy | node-server/src/routes/tasks.js:9 | the falsy values are exactly `undefined`, `null`, `false`, `0` and `''`; everything else is truthy |
| JsValues.Not | node-server/src/models/task.js:67 | `!v` is a boolean that holds exactly when `v` is falsy |
| JsValues.OrDefault | node-server/src/models/task.js:10 | a destructuring default replaces `undefined` and keeps every other value, `null` included |
| JsValues.NotNot | node-server/src/models/task.js:67 | double negation gives the value back exactly when it was a boolean |
| NodeTaskModel.PriorityValues | node-server/src/models/task.js:6 | `Priority.values()` lists `low`, `medium`, `high` in that order, with no repeats |
| NodeTaskModel.ValidatePriority | node-server/src/models/task.js:2-21 | holds exactly for the strings `low`, `medium` and `high` |
| NodeTaskModel.NewTask | node-server/src/models/task.js:10-17 | priority defaults to `medium`, category to `general` and completed to `false`, only when absent; supplied values are kept; the clock stamps `createdAt` |
| NodeTaskModel.Toggled | node-server/src/models/task.js:67 | the completed flag becomes the boolean negation of its truthiness; no other field changes |
| NodeTaskModel.ToggledTwice | node-server/src/models/task.js:64-68 | toggling twice restores the task exactly when its flag was a boolean |
| NodeTaskModel.TaskManager.constructor | node-server/src/models/task.js:25-28 | an empty list, with the counter at 1 |
| NodeTaskModel.TaskManager.GetAllTasks | node-server/src/models/task.js:39-41 | the whole list; under the invariant no two listed tasks share an id |
| NodeTaskModel.TaskManager.AddTask | node-server/src/models/task.js:30-37 | the new task gets the old counter as its id, which exceeds every existing id; it is appended at the end; the counter grows by exactly 1; the invariant is kept |
| NodeTaskModel.TaskManager.UpdateTask | node-server/src/models/task.js:43-55 | an absent id gives `None` with nothing changed; otherwise only that index is replaced, keeping its id and old `completed`, taking text/priority/category from the body with defaults, and a fresh `createdAt` |
| NodeTaskModel.TaskManager.DeleteTask | node-server/src/models/task.js:57-62 | `false` with nothing changed for an absent id; otherwise exactly that element is removed, the rest keep their order, and the counter is unchanged |
| NodeTaskModel.TaskManager.ToggleTask | node-server/src/models/task.js:64-69 | only the matching task's completed flag flips; every other task and field is unchanged; an absent id gives `None` |
| NodeTaskRoutes.ValidateTask | node-server/src/routes/tasks.js:6-22 | rejects a missing, empty or non-string text first, then a truthy priority outside the enumeration, then a truthy non-string category, with the source's messages; it accepts everything else |
| NodeTaskRoutes.AcceptedBodyMakesTask | node-server/src/routes/tasks.js:9-19 | an accepted body yields a non-empty string text, a valid or explicitly falsy priority, and a string or explicitly falsy category |
| NodeTaskRoutes.NullPriorityIsStored | node-server/src/routes/tasks.js:13 | a body with `priority: null` passes validation and stores `null` as its priority |
| NodeTaskRoutes.ByPriorityIsFilter | node-server/src/routes/tasks.js:30-32 | the priority stage keeps exactly the tasks with that priority when the parameter is truthy, and all tasks otherwise |
| NodeTaskRoutes.ByCategoryIsFilter | node-server/src/routes/tasks.js:34-36 | the category stage keeps exactly the tasks with that category when the parameter is truthy, and all tasks otherwise |
| NodeTaskRoutes.ByCompletedIsFilter | node-server/src/routes/tasks.js:38-41 | when `completed` is present, keeps the tasks whose flag is strictly `true` if it reads `'true'`, and strictly `false` for any other value |
| NodeTaskRoutes.FieldFiltersAreConjunction | node-server/src/routes/tasks.js:30-41 | the three field stages together keep exactly the tasks matching every supplied field filter, in list order |
| NodeTaskRoutes.NonStringTextSurvives | node-server/src/routes/tasks.js:44-45 | a task with a non-string text reaches the search exactly when it passes the field filters |
| NodeTaskRoutes.ListTasksFails | node-server/src/routes/tasks.js:43-51 | GET fails with an internal error exactly when the search applies and a task passing the field filters has a non-string text |
| NodeTaskRoutes.ListTasksKeepsMatches | node-server/src/routes/tasks.js:25-49 | a successful GET returns exactly the tasks matching every supplied filter (including the case-insensitive search of 3 or more characters), in insertion order |
| NodeTaskRoutes.ListTasksIsSubsequence | node-server/src/routes/tasks.js:27-49 | the GET answer is a subsequence of the task list in its original order |
| NodeTaskRoutes.ListTasks | node-server/src/routes/tasks.js:25-53 | the answer is never longer than the list; the only failure is the internal error, and it can occur only when the search applies |
| NodeTaskRoutes.ShortSearchIsIgnored | node-server/src/routes/tasks.js:43 | a search shorter than 3 UTF-16 code units gives the same answer as no search |
| NodeTaskRoutes.AstralSearchApplies | node-server/src/routes/tasks.js:43 | a search of two characters outside the Basic Multilingual Plane has length 4 and is applied |
| NodeTaskRoutes.EmptyQueryListsAll | node-server/src/routes/tasks.js:27-49 | with no query parameters the answer is the whole list |
| NodeTaskRoutes.ListTasksSucceeds | node-server/src/routes/tasks.js:43-47 | when every stored text is a string, GET never fails |
| NodeTaskRoutes.Post | node-server/src/routes/tasks.js:56-63 | a rejected body changes nothing and reports the validation message; an accepted one is added as `addTask` does; stored texts stay strings |
| NodeTaskRoutes.Put | node-server/src/routes/tasks.js:66-79 | validation first; then not-found exactly when `updateTask` finds no task, with nothing changed; otherwise the updated task |
| NodeTaskRoutes.Delete | node-server/src/routes/tasks.js:82-94 | not-found exactly when `deleteTask` returns `false`; otherwise exactly that task is removed |
| NodeTaskRoutes.Patch | node-server/src/routes/tasks.js:97-109 | not-found exactly when `toggleTask` returns `null`; otherwise the toggled task |
| NodeSessions.SessionStore.constructor | node-server/src/index.js:25-26 | both maps start empty |
| NodeSessions.SessionStore.Register | node-server/src/index.js:52-59 | a taken username is a conflict, and `users` (with the stored password) is unchanged; otherwise exactly `{username, password}` is inserted under that key; `tokens` never changes |
| NodeSessions.SessionStore.Login | node-server/src/index.js:61-70 | an absent user or a different password is unauthorized, with `tokens` unchanged; otherwise the fresh token maps to the user and every existing token is kept |
| NodeSessions.SessionStore.Authenticate | node-server/src/index.js:29-36 | fails exactly when the token is missing, empty or not in `tokens`; otherwise yields `tokens[token]` |
| NodeSessions.SessionStore.Profile | node-server/src/index.js:73-76 | under the invariant, succeeds exactly when authentication does, with the token's registered username |
| NodeSessions.SessionStore.Logout | node-server/src/index.js:78-82 | after authentication, deletes exactly that token and leaves `users` unchanged; afterwards the token no longer authenticates |
| PythonTasks.MakeTaskCreate | python-server/src/main.py:14-17 | an omitted priority is `medium` and an omitted category is `general` |
| PythonTasks.NewTask | python-server/src/main.py:19-22 | a new task takes the request's fields, the counter's id and the clock's time, and is never completed |
| PythonTasks.InitialTasks | python-server/src/main.py:28-34 | there are five sample tasks |
| PythonTasks.TaskStore.constructor | python-server/src/main.py:24-43 | start-up holds the five sample tasks in order with ids 1 to 5, each with its own clock reading, and the counter at 6 |
| PythonTasks.TaskStore.AddTask | python-server/src/main.py:49-59 | the new task gets the old counter as its id, which exceeds every existing id; it is appended; the counter grows by 1 |
| PythonTasks.ByPriorityIsFilter | python-server/src/main.py:70-71 | the priority comprehension keeps exactly the tasks with that priority when one is given |
| PythonTasks.ByCategoryIsFilter | python-server/src/main.py:72-73 | the category comprehension keeps exactly the tasks with that category when it is non-empty |
| PythonTasks.ByCompletedIsFilter | python-server/src/main.py:74-75 | the completion comprehension keeps exactly the tasks with that flag when it is not `None` |
| PythonTasks.BySearchIsFilter | python-server/src/main.py:76-77 | the search comprehension keeps exactly the tasks whose lower-cased text contains the lower-cased search |
| PythonTasks.GetTasks | python-server/src/main.py:61-79 | a validation error exactly when a search shorter than 3 code points is given; otherwise the answer is never longer than `tasks_db` |
| PythonTasks.GetTasksKeepsMatches | python-server/src/main.py:61-79 | a validation error exactly for a search shorter than 3 characters; otherwise exactly the tasks matching every supplied filter, in insertion order |
| PythonTasks.GetTasksIsSubsequence | python-server/src/main.py:68-79 | the answer is a subsequence of `tasks_db` in its original order |
| PythonTasks.GetTask | python-server/src/main.py:81-86 | not-found exactly when no task has the id; otherwise the first task with that id |
| PythonTasks.Toggled | python-server/src/main.py:118 | only `completed` changes, to its negation |
| PythonTasks.ToggledTwice | python-server/src/main.py:112-119 | toggling twice is the identity |
| PythonTasks.TaskStore.UpdateTask | python-server/src/main.py:88-101 | an absent id is not-found with nothing changed; otherwise only that index is replaced, keeping id, `created_at` and `completed` and taking text, priority and category from the request |
| PythonTasks.TaskStore.DeleteTask | python-server/src/main.py:103-110 | an absent id is not-found; otherwise exactly that element is removed, the rest keep their order, and the counter is unchanged |
| PythonTasks.TaskStore.ToggleTask | python-server/src/main.py:112-119 | only the matching task's `completed` flips; an absent id is not-found with nothing changed |
| Scenarios.NodeListByPriority | node-server/src/routes/tasks.js:30-32 | after adding a medium and a high task, listing by `high` returns only the second |

## Left out

- HTTP wiring: the Express and FastAPI apps, cors/morgan/json middleware, the error middleware, `app.listen`, the `/` and `/api` documentation payloads, status codes and JSON serialisation. Outcomes are `Result` values instead.
- `/health`: `process.uptime()` and `process.memoryUsage()` observe the runtime. The user and session counts are the sizes of the two maps.
- `node-server/src/index.js` never mounts the task router. The mutating routes (`Post`, `Put`, `Delete`, `Patch`) take an explicit `TaskManager` argument. `ListTasks` takes the task list itself, the sequence that `TaskManager.GetAllTasks` returns. None of them is composed with the session store.
- Clock reads (`new Date().toISOString()`, `datetime.now()`) are `Timestamp` parameters. Their ISO and datetime formats are not modelled.
- Token generation (`Math.random()` encoded in base64) is floating-point and random. `Login` takes the token as a parameter that must be non-empty and not yet issued. A colliding random token, which would silently re-assign an existing token, is not modelled.
- `parseInt` of the path id is not modelled; ids are integers. A `NaN` id matches no task, which is the same as an absent integer id.
- The `Authorization` header split is not modelled. `Authenticate`, `Profile` and `Logout` receive its second word as an `Option`.
- Request bodies with an `id` field are not modelled. The spread in `addTask`/`updateTask` would let such a field override the assigned id.
- JSON numbers are integers in `JsValue`. Only their zero-ness matters here; `NaN` and fractions are not modelled. Objects and arrays are one opaque truthy `Object`.
- Query parameters are strings or absent. Repeated parameters, which Express turns into arrays, are not modelled.
- Register and login bodies are typed: username and password are strings. A missing username, stored under the key `undefined` in the source, is not modelled.
- Pydantic and FastAPI coercion of request data is not modelled. `Query(min_length=3)` is modelled only as the `Invalid` result of `GetTasks`, and its message text is not the framework's.
- `toLowerCase`/`lower()` are ASCII-only. Unicode case mapping is not modelled.
- Strings are sequences of Unicode scalar values. A lone UTF-16 surrogate, which `JSON.parse` accepts in a body's text and which JavaScript strings can hold, cannot be represented. The length of a Node search is still counted in UTF-16 code units (`Text.Utf16Length`).
- Aliasing is not modelled. `getAllTasks` and the toggle handlers return the stored objects themselves, while the model returns values. The Node GET handler's `[...]` copy is therefore implicit.
- Concurrency: neither server has any.
