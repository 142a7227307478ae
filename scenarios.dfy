/** Request sequences a client can observe, derived from the handler
    contracts alone (in the manner of a client of go-app/handlers.go). */
module Scenarios {
  import opened Wrappers
  import opened TaskModel
  import opened Store
  import opened Handlers

  /** POST {"title":"Write spec"} on an empty table, with both clock readings
      equal: a 201 carrying id 1, status "pending" and equal timestamps. */
  method FirstCreate(t: int) returns (resp: Response)
    ensures resp == JsonResponse(StatusCreated, TaskBody(Task(1, "Write spec", "", "pending", t, t)))
  {
    var store := new TaskStore();
    resp := CreateTaskHandler(store, Some(Task(0, "Write spec", "", "", 0, 0)), t, t, false);
  }

  /** Creating a task and then fetching it by the id the 201 returned gives
      back exactly the created task. */
  method CreateThenGet(store: TaskStore, body: Task, t1: int, t2: int)
    returns (created: Response, fetched: Response)
    requires store.Valid()
    requires store.nextId <= IntegerMax
    requires t1 <= t2
    requires body.title != ""
    modifies store
    ensures created.status == StatusCreated && created.body.TaskBody?
    ensures created.body.task.id == old(store.nextId)
    ensures fetched == JsonResponse(StatusOK, created.body)
  {
    created := CreateTaskHandler(store, Some(body), t1, t2, false);
    fetched := GetTaskHandler(store, Some(created.body.task.id), false);
  }

  /** Deleting an existing task twice: the first delete is a 204, the second
      a 500 (the store's not-found error is not told apart from other
      errors), and a GET afterwards is a 404. */
  method DeleteTwice(store: TaskStore, id: int) returns (first: Response, second: Response, fetched: Response)
    requires store.Valid()
    requires id in store.rows
    modifies store
    ensures first == JsonResponse(StatusNoContent, NoBody)
    ensures second == ErrorResponse(StatusInternalServerError, "Failed to delete task")
    ensures fetched == ErrorResponse(StatusNotFound, "Task not found")
    ensures store.rows == old(store.rows) - {id}
  {
    first := DeleteTaskHandler(store, Some(id), false);
    second := DeleteTaskHandler(store, Some(id), false);
    fetched := GetTaskHandler(store, Some(id), false);
  }

  /** An id once deleted is never handed out again: a create after a delete
      gets an id different from the deleted one. */
  method DeleteThenCreate(store: TaskStore, id: int, body: Task, t1: int, t2: int)
    returns (deleted: Response, created: Response)
    requires store.Valid()
    requires id in store.rows
    requires store.nextId <= IntegerMax
    requires t1 <= t2
    requires body.title != ""
    modifies store
    ensures deleted.status == StatusNoContent
    ensures created.status == StatusCreated && created.body.TaskBody?
    ensures created.body.task.id != id && id !in store.rows
  {
    deleted := DeleteTaskHandler(store, Some(id), false);
    created := CreateTaskHandler(store, Some(body), t1, t2, false);
  }
}
