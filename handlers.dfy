/** The HTTP layer (go-app/handlers.go): how each request is validated,
    which store call it makes, and which status code and body it answers.

    Path ids and request bodies arrive already interpreted: `strconv.Atoi`
    becomes an `Option<int>` and JSON decoding an `Option<Task>` (None when
    the text does not parse). The store is passed to every handler instead
    of living in a global. Each `failure` parameter says whether the
    database fails on the one store call the handler makes. */
module Handlers {
  import opened Wrappers
  import opened TaskModel
  import opened Store

  const StatusOK := 200
  const StatusCreated := 201
  const StatusNoContent := 204
  const StatusBadRequest := 400
  const StatusNotFound := 404
  const StatusInternalServerError := 500

  const JsonContentType := "application/json"

  /** What `json.Encoder` is given: nothing, a task, a list of tasks, or the
      `{"error": message}` object. */
  datatype Body = NoBody | TaskBody(task: Task) | TaskListBody(tasks: seq<Task>) | ErrorBody(message: string)

  datatype Response = Response(status: int, contentType: string, body: Body)

  /** `jsonResponse`: sets the JSON content type, writes the status, and
      encodes the data when there is any. */
  function JsonResponse(status: int, data: Body): Response
  {
    Response(status, JsonContentType, data)
  }

  /** `errorResponse`: a JSON response whose body is only the message. */
  function ErrorResponse(status: int, message: string): Response
  {
    JsonResponse(status, ErrorBody(message))
  }

  /** What every response of the service looks like on the wire: the JSON
      content type, a 204 included, and a body exactly when the status is
      not 204 (the only handler that passes no data is delete's success). */
  predicate JsonShaped(r: Response)
  {
    && r.contentType == JsonContentType
    && (r.body.NoBody? <==> r.status == StatusNoContent)
  }

  /** The five operations the router can dispatch to. */
  datatype Endpoint = ListTasks | CreateTask | GetTask | UpdateTask | DeleteTask

  /** The status codes each handler can answer with. A missing id is a 404
      only for GET: update and delete turn every store error into a 500. */
  predicate AllowedStatus(e: Endpoint, status: int)
  {
    match e
    case ListTasks => status in {StatusOK, StatusInternalServerError}
    case CreateTask => status in {StatusCreated, StatusBadRequest, StatusInternalServerError}
    case GetTask => status in {StatusOK, StatusBadRequest, StatusNotFound, StatusInternalServerError}
    case UpdateTask => status in {StatusOK, StatusBadRequest, StatusInternalServerError}
    case DeleteTask => status in {StatusNoContent, StatusBadRequest, StatusInternalServerError}
  }

  /** The invariant the handlers add on top of the table's: no stored task
      has an empty title, because create and update both refuse one. */
  predicate TitlesPresent(rows: map<int, Task>)
  {
    forall id :: id in rows ==> rows[id].title != ""
  }

  /** The checks create and update share: the body must decode, and the
      decoded title must be non-empty. The accepted task is the decoded one,
      unchanged. */
  function CheckPayload(body: Option<Task>): (r: Result<Task, Response>)
    ensures r.Success? <==> body.Some? && body.value.title != ""
    ensures r.Success? ==> r.value == body.value
    ensures r.Failure? ==> r.error.status == StatusBadRequest && r.error.body.ErrorBody?
    ensures body.None? ==> r == Failure(ErrorResponse(StatusBadRequest, "Invalid request payload"))
    ensures body.Some? && body.value.title == "" ==>
      r == Failure(ErrorResponse(StatusBadRequest, "Title is required"))
  {
    match body
    case None => Failure(ErrorResponse(StatusBadRequest, "Invalid request payload"))
    case Some(task) =>
      if task.title == "" then Failure(ErrorResponse(StatusBadRequest, "Title is required"))
      else Success(task)
  }

  /** Create's default: an empty status becomes "pending", any other status
      is kept, and nothing else about the task changes. */
  function WithDefaultStatus(task: Task): (r: Task)
    ensures r.status != ""
    ensures task.status != "" ==> r == task
    ensures task.status == "" ==> r == task.(status := "pending")
  {
    if task.status == "" then task.(status := "pending") else task
  }

  // The answers of the handlers, as functions of what they are given and of
  // the table before the call. Each handler method below is proved to answer
  // exactly this and to leave the table as the matching `RowsAfter...` says.

  /** The answer of `getTasksHandler`: a 500, or a 200 listing every row of
      `rows` once, newest first. (The order of rows created at the same
      instant is left open, so this is a predicate, not a function.) */
  predicate ListAnswer(resp: Response, failure: bool, rows: map<int, Task>)
  {
    if failure then resp == ErrorResponse(StatusInternalServerError, "Failed to fetch tasks")
    else
      && resp.status == StatusOK && resp.contentType == JsonContentType
      && resp.body.TaskListBody?
      && |resp.body.tasks| == |rows|
      && ListsEachRowOnce(resp.body.tasks, rows)
      && NewestFirst(resp.body.tasks)
  }

  /** The answer of `getTaskHandler`. */
  function GetTaskAnswer(pathId: Option<int>, failure: bool, rows: map<int, Task>): Response
  {
    if pathId.None? then ErrorResponse(StatusBadRequest, "Invalid task ID")
    else if failure || !FitsInteger(pathId.value) then
      ErrorResponse(StatusInternalServerError, "Failed to fetch task")
    else if pathId.value !in rows then ErrorResponse(StatusNotFound, "Task not found")
    else JsonResponse(StatusOK, TaskBody(rows[pathId.value]))
  }

  /** Whether a create request reaches a successful insert. */
  predicate CreateInserts(body: Option<Task>, failure: bool, nextId: int)
  {
    CheckPayload(body).Success? && !failure && nextId <= IntegerMax
  }

  /** The row an accepted create writes: the decoded task with its status
      defaulted, the sequence's id and the two clock readings. */
  function CreatedRow(task: Task, id: int, t1: int, t2: int): Task
  {
    WithDefaultStatus(task).(id := id, createdAt := t1, updatedAt := t2)
  }

  /** The answer of `createTaskHandler`. */
  function CreateTaskAnswer(body: Option<Task>, failure: bool, nextId: int, t1: int, t2: int): Response
  {
    match CheckPayload(body)
    case Failure(rejection) => rejection
    case Success(task) =>
      if failure || nextId > IntegerMax then
        ErrorResponse(StatusInternalServerError, "Failed to create task")
      else JsonResponse(StatusCreated, TaskBody(CreatedRow(task, nextId, t1, t2)))
  }

  /** The table after `createTaskHandler`. */
  function RowsAfterCreate(body: Option<Task>, failure: bool, rows: map<int, Task>, nextId: int, t1: int, t2: int)
    : map<int, Task>
  {
    if CreateInserts(body, failure, nextId) then rows[nextId := CreatedRow(body.value, nextId, t1, t2)]
    else rows
  }

  /** Whether an update request changes a row. */
  predicate UpdateChanges(pathId: Option<int>, body: Option<Task>, failure: bool, rows: map<int, Task>)
  {
    && pathId.Some? && CheckPayload(body).Success? && !failure
    && FitsInteger(pathId.value) && pathId.value in rows
  }

  /** The answer of `updateTaskHandler`. */
  function UpdateTaskAnswer(pathId: Option<int>, body: Option<Task>, failure: bool, rows: map<int, Task>, now: int)
    : Response
  {
    if pathId.None? then ErrorResponse(StatusBadRequest, "Invalid task ID")
    else match CheckPayload(body)
      case Failure(rejection) => rejection
      case Success(task) =>
        if UpdateChanges(pathId, body, failure, rows) then
          JsonResponse(StatusOK, TaskBody(task.(id := pathId.value, updatedAt := now)))
        else ErrorResponse(StatusInternalServerError, "Failed to update task")
  }

  /** The table after `updateTaskHandler`: the SET clause applied to the row. */
  function RowsAfterUpdate(pathId: Option<int>, body: Option<Task>, failure: bool, rows: map<int, Task>, now: int)
    : map<int, Task>
  {
    if UpdateChanges(pathId, body, failure, rows) then
      var id, task := pathId.value, body.value;
      rows[id := rows[id].(title := task.title, description := task.description,
                           status := task.status, updatedAt := now)]
    else rows
  }

  /** Whether a delete request removes a row. */
  predicate DeleteRemoves(pathId: Option<int>, failure: bool, rows: map<int, Task>)
  {
    pathId.Some? && !failure && FitsInteger(pathId.value) && pathId.value in rows
  }

  /** The answer of `deleteTaskHandler`. */
  function DeleteTaskAnswer(pathId: Option<int>, failure: bool, rows: map<int, Task>): Response
  {
    if pathId.None? then ErrorResponse(StatusBadRequest, "Invalid task ID")
    else if DeleteRemoves(pathId, failure, rows) then JsonResponse(StatusNoContent, NoBody)
    else ErrorResponse(StatusInternalServerError, "Failed to delete task")
  }

  /** The table after `deleteTaskHandler`. */
  function RowsAfterDelete(pathId: Option<int>, failure: bool, rows: map<int, Task>): map<int, Task>
  {
    if DeleteRemoves(pathId, failure, rows) then rows - {pathId.value} else rows
  }


  /** `getTasksHandler`: every row, newest first, or a 500. */
  method GetTasksHandler(store: TaskStore, failure: bool) returns (resp: Response)
    requires store.Valid()
    ensures ListAnswer(resp, failure, store.rows)
    ensures JsonShaped(resp) && AllowedStatus(ListTasks, resp.status)
    ensures failure ==> resp == ErrorResponse(StatusInternalServerError, "Failed to fetch tasks")
    ensures !failure ==>
      && resp.status == StatusOK
      && resp.body.TaskListBody?
      && |resp.body.tasks| == |store.rows|
      && ListsEachRowOnce(resp.body.tasks, store.rows)
      && NewestFirst(resp.body.tasks)
  {
    var tasks, err := store.GetTasks(failure);
    if err.Some? {
      return ErrorResponse(StatusInternalServerError, "Failed to fetch tasks");
    }
    resp := JsonResponse(StatusOK, TaskListBody(tasks));
  }

  /** `getTaskHandler`: a bad id is a 400 without touching the store; a
      store error (an id beyond the `integer` range included) is a 500; an
      absent task is a 404; a present one is a 200 carrying the row as
      stored. */
  method GetTaskHandler(store: TaskStore, pathId: Option<int>, failure: bool) returns (resp: Response)
    requires store.Valid()
    ensures resp == GetTaskAnswer(pathId, failure, store.rows)
    ensures JsonShaped(resp) && AllowedStatus(GetTask, resp.status)
    ensures pathId.None? ==> resp == ErrorResponse(StatusBadRequest, "Invalid task ID")
    ensures pathId.Some? && (failure || !FitsInteger(pathId.value)) ==>
      resp == ErrorResponse(StatusInternalServerError, "Failed to fetch task")
    ensures pathId.Some? && !failure && FitsInteger(pathId.value) && pathId.value !in store.rows ==>
      resp == ErrorResponse(StatusNotFound, "Task not found")
    ensures pathId.Some? && !failure && pathId.value in store.rows ==>
      resp == JsonResponse(StatusOK, TaskBody(store.rows[pathId.value]))
      && resp.body.task.id == pathId.value
  {
    if pathId.None? {
      return ErrorResponse(StatusBadRequest, "Invalid task ID");
    }
    var id := pathId.value;
    var found, err := store.GetTask(id, failure);
    if err.Some? {
      return ErrorResponse(StatusInternalServerError, "Failed to fetch task");
    }
    if found.None? {
      return ErrorResponse(StatusNotFound, "Task not found");
    }
    resp := JsonResponse(StatusOK, TaskBody(found.value));
  }

  /** `createTaskHandler`: payload checks first (neither touches the store),
      then the status default, then the insert. The 201 carries the task as
      the store wrote it: a fresh id and both clock readings. */
  method CreateTaskHandler(store: TaskStore, body: Option<Task>, t1: int, t2: int, failure: bool)
    returns (resp: Response)
    requires store.Valid()
    requires t1 <= t2
    modifies store
    ensures store.Valid()
    ensures resp == CreateTaskAnswer(body, failure, old(store.nextId), t1, t2)
    ensures store.rows == RowsAfterCreate(body, failure, old(store.rows), old(store.nextId), t1, t2)
    ensures store.nextId == old(store.nextId) + (if CreateInserts(body, failure, old(store.nextId)) then 1 else 0)
    ensures JsonShaped(resp) && AllowedStatus(CreateTask, resp.status)
    ensures old(store.TimestampsOrdered()) ==> store.TimestampsOrdered()
    ensures old(TitlesPresent(store.rows)) ==> TitlesPresent(store.rows)
    ensures body.None? ==>
      resp == ErrorResponse(StatusBadRequest, "Invalid request payload")
      && store.rows == old(store.rows) && store.nextId == old(store.nextId)
    ensures body.Some? && body.value.title == "" ==>
      resp == ErrorResponse(StatusBadRequest, "Title is required")
      && store.rows == old(store.rows) && store.nextId == old(store.nextId)
    ensures body.Some? && body.value.title != "" && (failure || old(store.nextId) > IntegerMax) ==>
      resp == ErrorResponse(StatusInternalServerError, "Failed to create task")
      && store.rows == old(store.rows) && store.nextId == old(store.nextId)
    ensures CreateInserts(body, failure, old(store.nextId)) ==>
      && resp.status == StatusCreated
      && resp.body.TaskBody?
      && var t := resp.body.task;
      && t.id == old(store.nextId) && t.id !in old(store.issued) && t.id !in old(store.rows)
      && t.title == body.value.title && t.description == body.value.description
      && t.status == (if body.value.status == "" then "pending" else body.value.status)
      && t.createdAt == t1 && t.updatedAt == t2
      && store.rows == old(store.rows)[t.id := t]
  {
    var checked := CheckPayload(body);
    if checked.Failure? {
      return checked.error;
    }
    var task := WithDefaultStatus(checked.value);
    var written, err := store.CreateTask(task, t1, t2, failure);
    if err.Some? {
      return ErrorResponse(StatusInternalServerError, "Failed to create task");
    }
    resp := JsonResponse(StatusCreated, TaskBody(written));
  }

  /** `updateTaskHandler`: the id is parsed before the body is decoded, so a
      bad id wins over a bad body. The status is not defaulted. Every store
      error, a missing id included, is a 500. The 200 echoes the decoded
      task with the path id and the new `updatedAt`; its `createdAt` is
      whatever the client sent, not the stored one. */
  method UpdateTaskHandler(store: TaskStore, pathId: Option<int>, body: Option<Task>, now: int, failure: bool)
    returns (resp: Response)
    requires store.Valid()
    modifies store
    ensures store.Valid() && store.nextId == old(store.nextId)
    ensures resp == UpdateTaskAnswer(pathId, body, failure, old(store.rows), now)
    ensures store.rows == RowsAfterUpdate(pathId, body, failure, old(store.rows), now)
    ensures JsonShaped(resp) && AllowedStatus(UpdateTask, resp.status)
    ensures old(TitlesPresent(store.rows)) ==> TitlesPresent(store.rows)
    ensures old(store.TimestampsOrdered())
      && (pathId.Some? && pathId.value in old(store.rows) ==> old(store.rows)[pathId.value].createdAt <= now)
      ==> store.TimestampsOrdered()
    ensures pathId.None? ==>
      resp == ErrorResponse(StatusBadRequest, "Invalid task ID") && store.rows == old(store.rows)
    ensures pathId.Some? && CheckPayload(body).Failure? ==>
      resp == CheckPayload(body).error && store.rows == old(store.rows)
    ensures pathId.Some? && CheckPayload(body).Success? && (failure || pathId.value !in old(store.rows)) ==>
      resp == ErrorResponse(StatusInternalServerError, "Failed to update task")
      && store.rows == old(store.rows)
    ensures pathId.Some? && CheckPayload(body).Success? && !failure && pathId.value in old(store.rows) ==>
      var id, task := pathId.value, body.value;
      && resp == JsonResponse(StatusOK, TaskBody(task.(id := id, updatedAt := now)))
      && store.rows.Keys == old(store.rows).Keys
      && (forall k :: k in store.rows && k != id ==> store.rows[k] == old(store.rows)[k])
      && store.rows[id] == old(store.rows)[id].(title := task.title, description := task.description,
                                               status := task.status, updatedAt := now)
  {
    if pathId.None? {
      return ErrorResponse(StatusBadRequest, "Invalid task ID");
    }
    var id := pathId.value;
    var checked := CheckPayload(body);
    if checked.Failure? {
      return checked.error;
    }
    var written, err := store.UpdateTask(id, checked.value, now, failure);
    if err.Some? {
      return ErrorResponse(StatusInternalServerError, "Failed to update task");
    }
    written := written.(id := id);
    resp := JsonResponse(StatusOK, TaskBody(written));
  }

  /** `deleteTaskHandler`: a bad id is a 400; every store error, a missing
      id included, is a 500; success is a 204 with no body. */
  method DeleteTaskHandler(store: TaskStore, pathId: Option<int>, failure: bool) returns (resp: Response)
    requires store.Valid()
    modifies store
    ensures store.Valid() && store.nextId == old(store.nextId)
    ensures resp == DeleteTaskAnswer(pathId, failure, old(store.rows))
    ensures store.rows == RowsAfterDelete(pathId, failure, old(store.rows))
    ensures JsonShaped(resp) && AllowedStatus(DeleteTask, resp.status)
    ensures old(TitlesPresent(store.rows)) ==> TitlesPresent(store.rows)
    ensures old(store.TimestampsOrdered()) ==> store.TimestampsOrdered()
    ensures pathId.None? ==>
      resp == ErrorResponse(StatusBadRequest, "Invalid task ID") && store.rows == old(store.rows)
    ensures pathId.Some? && (failure || pathId.value !in old(store.rows)) ==>
      resp == ErrorResponse(StatusInternalServerError, "Failed to delete task")
      && store.rows == old(store.rows)
    ensures pathId.Some? && !failure && pathId.value in old(store.rows) ==>
      resp == JsonResponse(StatusNoContent, NoBody) && store.rows == old(store.rows) - {pathId.value}
  {
    if pathId.None? {
      return ErrorResponse(StatusBadRequest, "Invalid task ID");
    }
    var err := store.DeleteTask(pathId.value, failure);
    if err.Some? {
      return ErrorResponse(StatusInternalServerError, "Failed to delete task");
    }
    resp := JsonResponse(StatusNoContent, NoBody);
  }

  /** The two path templates of `NewRouter`: "/tasks" and "/tasks/{id}". */
  datatype Template = Collection | Item

  /** A request path as the router sees it: "/tasks", "/tasks/{id}" with the
      `{id}` segment already run through `strconv.Atoi`, or anything else. */
  datatype Path = TasksPath | TaskPath(id: Option<int>) | OtherPath

  datatype Route = Route(verb: string, template: Template, endpoint: Endpoint)

  datatype Request = Request(verb: string, path: Path, body: Option<Task>)

  /** The five bindings of `NewRouter`, in registration order. */
  const Routes: seq<Route> := [
    Route("GET", Collection, ListTasks),
    Route("POST", Collection, CreateTask),
    Route("GET", Item, GetTask),
    Route("PUT", Item, UpdateTask),
    Route("DELETE", Item, DeleteTask)
  ]

  predicate Matches(route: Route, verb: string, path: Path)
  {
    && route.verb == verb
    && match route.template
       case Collection => path.TasksPath?
       case Item => path.TaskPath?
  }

  /** The endpoint of the first route, in registration order, that matches
      the method and the path; None when no route does. */
  function Lookup(table: seq<Route>, verb: string, path: Path): (r: Option<Endpoint>)
    ensures r.None? <==> forall i :: 0 <= i < |table| ==> !Matches(table[i], verb, path)
    ensures r.Some? ==> exists i ::
      && 0 <= i < |table| && Matches(table[i], verb, path)
      && table[i].endpoint == r.value
      && forall j :: 0 <= j < i ==> !Matches(table[j], verb, path)
    decreases |table|
  {
    if table == [] then None
    else if Matches(table[0], verb, path) then Some(table[0].endpoint)
    else Lookup(table[1..], verb, path)
  }

  /** What the route table dispatches: GET and POST on "/tasks", GET, PUT and
      DELETE on "/tasks/{id}", and nothing else. */
  lemma RoutesDispatch(verb: string, path: Path)
    ensures path.TasksPath? && verb == "GET" ==> Lookup(Routes, verb, path) == Some(ListTasks)
    ensures path.TasksPath? && verb == "POST" ==> Lookup(Routes, verb, path) == Some(CreateTask)
    ensures path.TaskPath? && verb == "GET" ==> Lookup(Routes, verb, path) == Some(GetTask)
    ensures path.TaskPath? && verb == "PUT" ==> Lookup(Routes, verb, path) == Some(UpdateTask)
    ensures path.TaskPath? && verb == "DELETE" ==> Lookup(Routes, verb, path) == Some(DeleteTask)
    ensures Lookup(Routes, verb, path).Some? <==>
      || (path.TasksPath? && verb in {"GET", "POST"})
      || (path.TaskPath? && verb in {"GET", "PUT", "DELETE"})
  {
  }

  /** The id a request path carries; only "/tasks/{id}" carries one. */
  function PathId(path: Path): Option<int>
  {
    if path.TaskPath? then path.id else None
  }

  /** A request through the router: the handler its route is bound to
      answers it, and a request no route matches is left to the framework
      (None) and changes nothing. Create reads the clock twice (t1, t2);
      update reads it once (t1). */
  method Serve(store: TaskStore, req: Request, t1: int, t2: int, failure: bool) returns (resp: Option<Response>)
    requires store.Valid()
    requires t1 <= t2
    modifies store
    ensures store.Valid()
    ensures old(TitlesPresent(store.rows)) ==> TitlesPresent(store.rows)
    ensures resp.None? <==> Lookup(Routes, req.verb, req.path).None?
    ensures resp.Some? ==> JsonShaped(resp.value)
    ensures resp.Some? ==> AllowedStatus(Lookup(Routes, req.verb, req.path).value, resp.value.status)
    ensures Lookup(Routes, req.verb, req.path).None? ==>
      store.rows == old(store.rows) && store.nextId == old(store.nextId)
    ensures Lookup(Routes, req.verb, req.path) == Some(ListTasks) ==>
      && resp.Some? && ListAnswer(resp.value, failure, old(store.rows))
      && store.rows == old(store.rows) && store.nextId == old(store.nextId)
    ensures Lookup(Routes, req.verb, req.path) == Some(GetTask) ==>
      && resp == Some(GetTaskAnswer(PathId(req.path), failure, old(store.rows)))
      && store.rows == old(store.rows) && store.nextId == old(store.nextId)
    ensures Lookup(Routes, req.verb, req.path) == Some(CreateTask) ==>
      && resp == Some(CreateTaskAnswer(req.body, failure, old(store.nextId), t1, t2))
      && store.rows == RowsAfterCreate(req.body, failure, old(store.rows), old(store.nextId), t1, t2)
      && store.nextId == old(store.nextId) + (if CreateInserts(req.body, failure, old(store.nextId)) then 1 else 0)
    ensures Lookup(Routes, req.verb, req.path) == Some(UpdateTask) ==>
      && resp == Some(UpdateTaskAnswer(PathId(req.path), req.body, failure, old(store.rows), t1))
      && store.rows == RowsAfterUpdate(PathId(req.path), req.body, failure, old(store.rows), t1)
      && store.nextId == old(store.nextId)
    ensures Lookup(Routes, req.verb, req.path) == Some(DeleteTask) ==>
      && resp == Some(DeleteTaskAnswer(PathId(req.path), failure, old(store.rows)))
      && store.rows == RowsAfterDelete(PathId(req.path), failure, old(store.rows))
      && store.nextId == old(store.nextId)
  {
    RoutesDispatch(req.verb, req.path);
    var endpoint := Lookup(Routes, req.verb, req.path);
    match endpoint
    case None =>
      resp := None;
    case Some(ListTasks) =>
      var r := GetTasksHandler(store, failure);
      resp := Some(r);
    case Some(CreateTask) =>
      var r := CreateTaskHandler(store, req.body, t1, t2, failure);
      resp := Some(r);
    case Some(GetTask) =>
      var r := GetTaskHandler(store, PathId(req.path), failure);
      resp := Some(r);
    case Some(UpdateTask) =>
      var r := UpdateTaskHandler(store, PathId(req.path), req.body, t1, failure);
      resp := Some(r);
    case Some(DeleteTask) =>
      var r := DeleteTaskHandler(store, PathId(req.path), failure);
      resp := Some(r);
  }
}
