# taskmaster task service — Dafny model

This project models the core of the taskmaster Go service: a small HTTP
service that creates, lists, reads, updates and deletes task records kept
in one PostgreSQL table.

It has two parts.

- **The task table** (`go-app/store.go`) is the class `Store.TaskStore`.
  The table is a map from id to `Task`. The `SERIAL` sequence is a counter,
  `nextId`, that starts at 1 and only grows. A ghost set, `issued`, records
  every id ever handed out, deleted rows included. The five operations are
  methods that change this state. They signal not-found the way the Go code
  does: `GetTask` returns absent with no error (`nil, nil`), and `UpdateTask`
  and `DeleteTask` return `ErrNoRows` (`sql.ErrNoRows`).
- **The HTTP handlers** (`go-app/handlers.go`) are methods in module
  `Handlers` that take the store as a parameter. Each one decides from the
  parsed path id, the decoded body and the store's answer which status code
  and body to send. `jsonResponse`/`errorResponse` and the route table of
  `NewRouter` are modelled too.

`go-app/models.go` becomes the `TaskModel.Task` datatype. Timestamps are
integers.

Inputs the Go code gets from its environment become parameters:

- **Clock.** `time.Now()` is an integer reading passed in by the caller.
  `CreateTask` reads the clock twice, so it takes two readings `t1 <= t2`.
- **Database failure.** Each store call takes a `failure` flag. When it is
  set, the statement has no effect and the call reports the opaque
  `DbError`.
- **Path id.** The result of `strconv.Atoi` is an `Option<int>`.
- **Request body.** The result of JSON decoding is an `Option<Task>`.

The model follows what the code does. In these places that differs from
what a reader of the routes or of the store's comments might expect (the
`// Not found` comments in `UpdateTask` and `DeleteTask` mark a missing
row, yet no handler answers it with 404):

- A PUT or DELETE on a missing id answers 500, not 404. The store reports
  `ErrNoRows`, and both handlers map every store error to 500. Only GET
  answers 404. (`AllowedStatus` and `Scenarios.DeleteTwice` state this.)
- The 200 response to an update is never re-read from the store. Its
  `created_at` is whatever the client sent, and its `updated_at` is the
  clock reading.
- An update does not default an empty status. An empty status is stored
  as it is.
- `created_at <= updated_at` is not guaranteed by the code. It holds only
  while the clock does not go backwards. `TimestampsOrdered` is therefore
  preserved under that condition only.
- Ids are 32-bit. The `id` column is a `SERIAL`, a PostgreSQL `integer`
  whose sequence stops at 2147483647. An id in the path outside the
  `integer` range makes the database reject the statement, so
  `GET /tasks/2147483648` answers 500, not 404. Once the sequence is used
  up, every create answers 500.
- A non-empty title is not enforced by the table. It is an invariant of the
  handlers (`TitlesPresent`), because create and update both refuse an
  empty title.

## Model

| member | source | states |
|---|---|---|
| `Store.TaskStore.constructor` | go-app/store.go:41-49 | A new table is empty, and its id sequence starts at 1. |
| `Store.TaskStore.NewestIn` | go-app/store.go:57 | Returns an id from the given set whose row has the latest `created_at` among them. This is one selection step of `ORDER BY created_at DESC`. |
| `Store.AppendNewest` | go-app/store.go:63-70 | Appending the newest remaining row to a newest-first listing keeps it newest-first, with no id twice. Afterwards the listing covers exactly the rows no longer remaining. |
| `Store.TaskStore.GetTasks` | go-app/store.go:56-72 | On success, the list holds every row exactly once, newest `created_at` first. Its length equals the row count, so an empty table gives an empty list and no error. On a database error it returns an empty list and the error. |
| `Store.TaskStore.GetTask` | go-app/store.go:74-84 | With no database error and an id in the 32-bit `integer` range, the result is absent exactly when no row has the id. A present row is returned unchanged, and its id is the one asked for. A database error, or an id outside the `integer` range, gives no task and `DbError`. |
| `Store.TaskStore.CreateTask` | go-app/store.go:86-93 | The caller's task gets `created_at = t1` and `updated_at = t2`, even on failure. On success it gets the next sequence value as id. That id was never issued before, so no present or deleted row ever held it. Exactly one row is added and every other row is unchanged. Any caller-supplied id is ignored. A database error, or a sequence already past 2147483647, gives `DbError` and leaves the table and the sequence unchanged. The table invariant and timestamp order are preserved. |
| `Store.TaskStore.UpdateTask` | go-app/store.go:95-111 | The caller's task gets `updated_at = now` whether or not the row exists. A missing id gives `ErrNoRows`; a database error or an id outside the `integer` range gives `DbError`. In both cases the table is unchanged. On success only the title, description, status and `updated_at` of that row change. Its id and `created_at` are kept, and every other row is unchanged. |
| `Store.TaskStore.DeleteTask` | go-app/store.go:113-126 | On success exactly that row is removed. A missing id gives `ErrNoRows`; a database error or an id outside the `integer` range gives `DbError`. Either way the table is unchanged. The sequence never moves back. |
| `Handlers.CheckPayload` | go-app/handlers.go:71-78 | A body is accepted exactly when it decodes and has a non-empty title. The accepted task is the decoded one, unchanged. An undecodable body gives 400 "Invalid request payload", and an empty title gives 400 "Title is required". |
| `Handlers.WithDefaultStatus` | go-app/handlers.go:79-81 | The resulting status is never empty. An empty status becomes "pending", a non-empty one is kept, and no other field changes. |
| `Handlers.GetTasksHandler` | go-app/handlers.go:28-39 | The answer is `ListAnswer`: a store error gives 500 "Failed to fetch tasks"; otherwise 200 with every row exactly once, newest first. The response is JSON-shaped: JSON content type and a body. |
| `Handlers.GetTaskHandler` | go-app/handlers.go:41-64 | The answer is exactly `GetTaskAnswer` of the path id and the table. A bad id gives 400 "Invalid task ID" without a store call. A store error, or an id outside the `integer` range, gives 500 "Failed to fetch task". A missing row gives 404 "Task not found". A present row gives 200 with that row. Every answer has the JSON content type and a body. |
| `Handlers.CreateTaskHandler` | go-app/handlers.go:66-90 | The answer is exactly `CreateTaskAnswer` and the table becomes `RowsAfterCreate`. An undecodable body or an empty title gives 400 and leaves the store unchanged. A store error or a used-up sequence gives 500 and leaves the store unchanged. Success gives 201 with the stored task: a fresh id, the decoded title and description, the status defaulted to "pending" only when empty, and `created_at = t1 <= updated_at = t2`. The sequence advances exactly on success. Every answer has the JSON content type and a body. Non-empty titles are preserved in the table. |
| `Handlers.UpdateTaskHandler` | go-app/handlers.go:92-121 | The answer is exactly `UpdateTaskAnswer` and the table becomes `RowsAfterUpdate`. A bad id gives 400 "Invalid task ID", even when the body is bad too. Payload errors give 400. Any store error, a missing id included, gives 500 "Failed to update task" and leaves the rows unchanged. Success gives 200 with the decoded task, its id forced to the path id and `updated_at = now`. The status is not defaulted, and the stored row keeps its `created_at`. Every answer has the JSON content type and a body. |
| `Handlers.DeleteTaskHandler` | go-app/handlers.go:123-141 | The answer is exactly `DeleteTaskAnswer` and the table becomes `RowsAfterDelete`. A bad id gives 400. Any store error, a missing id included, gives 500 "Failed to delete task" and leaves the rows unchanged. Success gives 204 with no body and removes exactly that row. Every answer has the JSON content type, and it has a body exactly when the status is not 204. |
| `Handlers.Lookup` | go-app/handlers.go:144-150 | The result is none exactly when no route matches the method and path. Otherwise it is the endpoint of the first matching route in registration order. |
| `Handlers.RoutesDispatch` | go-app/handlers.go:146-150 | GET and POST on "/tasks" reach list and create. GET, PUT and DELETE on "/tasks/{id}" reach get, update and delete. No other method and path reaches a handler. |
| `Handlers.Serve` | go-app/handlers.go:144-157 | A request that no route matches gets no response from the service and changes neither the table nor the sequence. A matched request gets exactly the answer of the handler its route is bound to, on the table as it was before, and the table and sequence change exactly as that handler changes them. Every response has the JSON content type, and a body exactly when its status is not 204. The table invariant and non-empty titles are preserved. |
| `Scenarios.FirstCreate` | go-app/handlers.go:66-90 | On an empty table, POST {"title":"Write spec"} gives 201 with id 1, status "pending" and both timestamps equal to the clock reading. |
| `Scenarios.CreateThenGet` | go-app/handlers.go:41-90 | Fetching a task by the id its create returned gives 200 with exactly the body the create returned. |
| `Scenarios.DeleteTwice` | go-app/handlers.go:123-141 | Deleting an existing task twice gives 204, then 500. A GET afterwards gives 404. |
| `Scenarios.DeleteThenCreate` | go-app/store.go:86-93 | A create after a delete never reuses the deleted id. |

## Left out

- `InitDB` and `createTable` (go-app/store.go:15-54) are not modelled: connection setup, ping, fatal logging and DDL. Only the sequence start and the primary key they define are modelled, in the constructor and `Valid`.
- The column widths `VARCHAR(255)` for title and `VARCHAR(50)` for status are not modelled. An over-long value makes the database reject the statement, which the model covers only through the opaque `failure` flag.
- Store.TaskStore.GetTasks: an error from the rows iterator itself is not modelled. The Go loop never calls `rows.Err()`, so such an error would end the list early with no error reported. The model has only the one `failure` flag, which drops the whole list.
- Store.TaskStore.CreateTask: on failure the sequence is modelled as unchanged. PostgreSQL may consume a sequence value on a failed insert. Either way ids stay unique and are never reused.
- Store.TaskStore.NewestIn: rows with equal `created_at` come out lowest id first. PostgreSQL leaves that order unspecified, so `GetTasks` promises only newest-first order.
- Timestamps are integer clock readings. The database's rounding of Go's nanosecond times to microseconds is not modelled, so a created task and the same task read back are equal here.
- Telemetry is not modelled: go-app/telemetry.go, the span calls in the handlers and the `otelhttp` wrapper. They do not affect responses.
- go-app/main.go is not modelled: environment loading, the server goroutine, signal handling and the shutdown deadline.
- JSON encoding and decoding are not modelled, including `omitempty` on description. Decoding is an `Option<Task>`, and `strconv.Atoi` is an `Option<int>`.
- gorilla/mux matching is reduced to the five-route table. Its default 404/405 answers for unmatched requests are left to the framework (`Serve` returns none).
- Concurrency between requests is not modelled. The model is sequential, so last-write-wins races at the database do not arise.
