/** The task table and its five operations (go-app/store.go).

    The PostgreSQL table becomes a map from id to row, and its SERIAL
    sequence becomes the counter `nextId`. Calls to `time.Now()` become
    clock readings passed in by the caller. A database failure (lost
    connection, rejected statement, failed scan) becomes the `failure`
    parameter: when it is set, the statement has no effect and the
    operation reports `DbError`.

    The `id` column is a SERIAL, that is a 32-bit PostgreSQL `integer`
    fed by a sequence whose largest value is 2147483647. An id parameter
    outside that range is rejected by the database as out of range, and an
    insert once the sequence is used up fails; both are a `DbError`. */
module Store {
  import opened Wrappers
  import opened TaskModel

  /** `ErrNoRows` is the `sql.ErrNoRows` that UpdateTask and DeleteTask
      return for a missing id; `DbError` is any other database error. */
  datatype StoreError = ErrNoRows | DbError

  const IntegerMin := -0x8000_0000
  const IntegerMax := 0x7FFF_FFFF

  /** `id` can be bound to a parameter of type `integer`. */
  predicate FitsInteger(id: int)
  {
    IntegerMin <= id <= IntegerMax
  }

  /** The order of `ORDER BY created_at DESC`: newest first. */
  predicate NewestFirst(s: seq<Task>)
  {
    forall i, j :: 0 <= i < j < |s| ==> s[i].createdAt >= s[j].createdAt
  }

  /** No two elements of `s` carry the same id. */
  predicate DistinctIds(s: seq<Task>)
  {
    forall i, j :: 0 <= i < j < |s| ==> s[i].id != s[j].id
  }

  /** `s` lists the rows of `rows`, each exactly once. */
  predicate ListsEachRowOnce(s: seq<Task>, rows: map<int, Task>)
  {
    && DistinctIds(s)
    && (forall i :: 0 <= i < |s| ==> s[i].id in rows && rows[s[i].id] == s[i])
    && (forall id :: id in rows ==> exists i :: 0 <= i < |s| && s[i].id == id)
  }

  /** Where the listing loop stands: `listed` holds, newest first and each
      once, exactly the rows whose ids are no longer in `remaining`, and none
      of them is older than a row still to come. */
  predicate ListingProgress(listed: seq<Task>, remaining: set<int>, rows: map<int, Task>)
  {
    && remaining <= rows.Keys
    && |listed| + |remaining| == |rows|
    && DistinctIds(listed)
    && NewestFirst(listed)
    && (forall i :: 0 <= i < |listed| ==>
          listed[i].id in rows && rows[listed[i].id] == listed[i] && listed[i].id !in remaining)
    && (forall id :: id in rows && id !in remaining ==>
          exists i :: 0 <= i < |listed| && listed[i].id == id)
    && (forall i, id :: 0 <= i < |listed| && id in remaining ==>
          listed[i].createdAt >= rows[id].createdAt)
  }

  /** Appending the newest remaining row is one step of the listing. */
  lemma AppendNewest(rows: map<int, Task>, listed: seq<Task>, remaining: set<int>, k: int)
    requires forall id :: id in rows ==> rows[id].id == id
    requires ListingProgress(listed, remaining, rows)
    requires k in remaining
    requires forall j :: j in remaining ==> rows[j].createdAt <= rows[k].createdAt
    ensures ListingProgress(listed + [rows[k]], remaining - {k}, rows)
  {
    var next, rest := listed + [rows[k]], remaining - {k};
    assert rows[k].id == k;
    forall id | id in rows && id !in rest
      ensures exists i :: 0 <= i < |next| && next[i].id == id
    {
      if id == k {
        assert next[|listed|].id == id;
      } else {
        var i :| 0 <= i < |listed| && listed[i].id == id;
        assert next[i].id == id;
      }
    }
  }

  class TaskStore {
    /** The rows of the `tasks` table, by primary key. */
    var rows: map<int, Task>
    /** The next value the SERIAL sequence hands out. */
    var nextId: int
    /** Every id the sequence has ever handed out, deleted rows included. */
    ghost var issued: set<int>

    /** The table invariant: every row is stored under its own id, every id
        ever issued lies below `nextId`, and sequence values run from 1 to
        `IntegerMax`. */
    ghost predicate Valid()
      reads this
    {
      && 1 <= nextId <= IntegerMax + 1
      && rows.Keys <= issued
      && (forall id :: id in issued ==> 1 <= id < nextId)
      && (forall id :: id in rows ==> rows[id].id == id)
    }

    /** Every row was created no later than its last update. This depends on
        the clock: it holds as long as no reading goes backwards. */
    ghost predicate TimestampsOrdered()
      reads this
    {
      forall id :: id in rows ==> rows[id].createdAt <= rows[id].updatedAt
    }

    /** A freshly created, empty table whose sequence starts at 1. */
    constructor ()
      ensures Valid() && TimestampsOrdered()
      ensures rows == map[] && nextId == 1 && issued == {}
    {
      rows := map[];
      nextId := 1;
      issued := {};
    }

    /** Finds a row with the latest `createdAt` among the ids in `keys`,
        scanning the id range the sequence has handed out; among rows with
        equal timestamps the lowest id wins. */
    method NewestIn(keys: set<int>) returns (k: int)
      requires Valid()
      requires keys != {} && keys <= rows.Keys
      ensures k in keys
      ensures forall j :: j in keys ==> rows[j].createdAt <= rows[k].createdAt
    {
      var found := false;
      k := 0;
      var i := 1;
      while i < nextId
        invariant 1 <= i <= nextId
        invariant found ==> k in keys
        invariant forall j :: j in keys && j < i ==> found && rows[j].createdAt <= rows[k].createdAt
      {
        if i in keys && (!found || rows[i].createdAt > rows[k].createdAt) {
          k := i;
          found := true;
        }
        i := i + 1;
      }
      assert found;
    }

    /** `SELECT ... ORDER BY created_at DESC`, appending each row the query
        yields to a list that starts empty (so an empty table gives an empty
        list, not an error). On a database error the list is dropped. */
    method GetTasks(failure: bool) returns (tasks: seq<Task>, err: Option<StoreError>)
      requires Valid()
      ensures failure ==> tasks == [] && err == Some(DbError)
      ensures !failure ==> err == None
      ensures !failure ==> |tasks| == |rows| && ListsEachRowOnce(tasks, rows) && NewestFirst(tasks)
    {
      if failure {
        return [], Some(DbError);
      }
      tasks := [];
      var remaining := rows.Keys;
      while remaining != {}
        invariant ListingProgress(tasks, remaining, rows)
        decreases |remaining|
      {
        var k := NewestIn(remaining);
        AppendNewest(rows, tasks, remaining, k);
        tasks := tasks + [rows[k]];
        remaining := remaining - {k};
      }
      err := None;
    }

    /** `SELECT ... WHERE id = $1`. A missing row is reported as absent with
        no error (`nil, nil`), never as a zero-valued task. An id outside the
        `integer` range is rejected by the database. */
    method GetTask(id: int, failure: bool) returns (found: Option<Task>, err: Option<StoreError>)
      requires Valid()
      ensures failure || !FitsInteger(id) ==> found == None && err == Some(DbError)
      ensures !failure && FitsInteger(id) ==> err == None
      ensures !failure && FitsInteger(id) ==> (found == None <==> id !in rows)
      ensures !failure && id in rows ==> found == Some(rows[id]) && found.value.id == id
    {
      if failure || !FitsInteger(id) {
        return None, Some(DbError);
      }
      if id in rows {
        found := Some(rows[id]);
      } else {
        found := None;
      }
      err := None;
    }

    /** `INSERT ... RETURNING id`. The caller's task has its timestamps
        overwritten by two successive clock readings before the statement
        runs; on success it also receives the id the sequence handed out,
        which no row, present or deleted, ever held. The caller-supplied id
        is ignored. Once the sequence is used up every insert fails. */
    method CreateTask(task: Task, t1: int, t2: int, failure: bool)
      returns (written: Task, err: Option<StoreError>)
      requires Valid()
      requires t1 <= t2
      modifies this
      ensures Valid()
      ensures old(TimestampsOrdered()) ==> TimestampsOrdered()
      ensures written.title == task.title && written.description == task.description
      ensures written.status == task.status
      ensures written.createdAt == t1 && written.updatedAt == t2
      ensures failure || old(nextId) > IntegerMax ==>
        && err == Some(DbError) && written.id == task.id
        && rows == old(rows) && nextId == old(nextId) && issued == old(issued)
      ensures !failure && old(nextId) <= IntegerMax ==>
        && err == None
        && written.id == old(nextId) && written.id !in old(issued) && written.id !in old(rows)
        && rows == old(rows)[written.id := written]
        && nextId == old(nextId) + 1 && issued == old(issued) + {written.id}
    {
      written := task.(createdAt := t1, updatedAt := t2);
      if failure || nextId > IntegerMax {
        err := Some(DbError);
        return;
      }
      written := written.(id := nextId);
      rows := rows[nextId := written];
      issued := issued + {nextId};
      nextId := nextId + 1;
      err := None;
    }

    /** `UPDATE ... SET title, description, status, updated_at WHERE id = $5`.
        The caller's task gets `updatedAt := now` whether or not the row
        exists. Zero affected rows is reported as `ErrNoRows`; an id outside
        the `integer` range is rejected by the database. The row keeps its id
        and its `createdAt`. */
    method UpdateTask(id: int, task: Task, now: int, failure: bool)
      returns (written: Task, err: Option<StoreError>)
      requires Valid()
      modifies this
      ensures Valid() && nextId == old(nextId) && issued == old(issued)
      ensures written == task.(updatedAt := now)
      ensures old(TimestampsOrdered()) && (id in old(rows) ==> old(rows)[id].createdAt <= now)
        ==> TimestampsOrdered()
      ensures failure || !FitsInteger(id) ==> err == Some(DbError) && rows == old(rows)
      ensures !failure && FitsInteger(id) && id !in old(rows) ==>
        err == Some(ErrNoRows) && rows == old(rows)
      ensures !failure && id in old(rows) ==>
        && err == None
        && rows.Keys == old(rows).Keys
        && (forall k :: k in rows && k != id ==> rows[k] == old(rows)[k])
        && rows[id].id == id && rows[id].createdAt == old(rows)[id].createdAt
        && rows[id].title == task.title && rows[id].description == task.description
        && rows[id].status == task.status && rows[id].updatedAt == now
        && rows == old(rows)[id := old(rows)[id].(title := task.title, description := task.description,
                                                  status := task.status, updatedAt := now)]
    {
      written := task.(updatedAt := now);
      if failure || !FitsInteger(id) {
        err := Some(DbError);
        return;
      }
      if id !in rows {
        err := Some(ErrNoRows);
        return;
      }
      var row := rows[id];
      rows := rows[id := row.(title := task.title, description := task.description,
                              status := task.status, updatedAt := now)];
      err := None;
    }

    /** `DELETE ... WHERE id = $1`. Zero affected rows is reported as
        `ErrNoRows`, so a second delete of the same id reports it; an id
        outside the `integer` range is rejected by the database. */
    method DeleteTask(id: int, failure: bool) returns (err: Option<StoreError>)
      requires Valid()
      modifies this
      ensures Valid() && nextId == old(nextId) && issued == old(issued)
      ensures old(TimestampsOrdered()) ==> TimestampsOrdered()
      ensures failure || !FitsInteger(id) ==> err == Some(DbError) && rows == old(rows)
      ensures !failure && FitsInteger(id) && id !in old(rows) ==>
        err == Some(ErrNoRows) && rows == old(rows)
      ensures !failure && id in old(rows) ==> err == None && rows == old(rows) - {id}
    {
      if failure || !FitsInteger(id) {
        return Some(DbError);
      }
      if id !in rows {
        return Some(ErrNoRows);
      }
      rows := rows - {id};
      err := None;
    }
  }
}
