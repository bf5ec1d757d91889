/** The record service: the `todos` table as a map from id to row, and
    the handlers `get_todo`, `add_todo`, `update_todo` and `delete_todo`
    with their existence checks and replies. */
module Todos {
  import opened Http
  import opened Mutation

  /** A row of `todos`. Each column holds the JSON value that was written
      to it; `created_at` and `updated_at` are not modelled. */
  datatype Todo = Todo(task: Json, description: Json, status: Json, dueDate: Json, priority: Json)

  /** The row the table's column defaults give: `status` is `pending`,
      `priority` is `medium`, the nullable columns are `NULL`. `task` has
      no default. */
  const Defaults: Todo := Todo(JNull, JNull, JStr("pending"), JNull, JStr("medium"))

  /** The value of the column called `name`. */
  function Column(t: Todo, name: string): Json {
    if name == "task" then t.task
    else if name == "description" then t.description
    else if name == "status" then t.status
    else if name == "due_date" then t.dueDate
    else if name == "priority" then t.priority
    else JNull
  }

  /** The row with the column called `name` set to `v`. */
  function WithColumn(t: Todo, name: string, v: Json): (u: Todo)
    ensures name in AllowList ==> Column(u, name) == v
    ensures forall c :: c != name ==> Column(u, c) == Column(t, c)
  {
    if name == "task" then t.(task := v)
    else if name == "description" then t.(description := v)
    else if name == "status" then t.(status := v)
    else if name == "due_date" then t.(dueDate := v)
    else if name == "priority" then t.(priority := v)
    else t
  }

  /** What the store does with a column list and its values: assigns them
      one after the other, left to right. */
  function Assign(t: Todo, columns: seq<string>, values: seq<Json>): Todo
    requires |columns| == |values|
  {
    if columns == [] then t
    else
      var n := |columns| - 1;
      WithColumn(Assign(t, columns[..n], values[..n]), columns[n], values[n])
  }

  /** The intended effect of a body on a row: each allow-listed column it
      supplies takes the supplied value, every other column is kept. */
  function Merge(t: Todo, data: map<string, Json>): (u: Todo)
    ensures forall c :: c in AllowList ==>
      Column(u, c) == if Supplied(data, c) then data[c] else Column(t, c)
  {
    Todo(
      if Supplied(data, "task") then data["task"] else t.task,
      if Supplied(data, "description") then data["description"] else t.description,
      if Supplied(data, "status") then data["status"] else t.status,
      if Supplied(data, "due_date") then data["due_date"] else t.dueDate,
      if Supplied(data, "priority") then data["priority"] else t.priority)
  }

  /** A column after an assignment list holds the last value given to it,
      or its old value when the list does not name it. */
  lemma {:induction false} AssignAt(t: Todo, columns: seq<string>, values: seq<Json>, data: map<string, Json>, c: string)
    requires |columns| == |values|
    requires forall k :: 0 <= k < |columns| ==> columns[k] in AllowList && columns[k] in data && values[k] == data[columns[k]]
    requires c in AllowList
    ensures Column(Assign(t, columns, values), c) == if c in columns then data[c] else Column(t, c)
  {
    if columns != [] {
      var n := |columns| - 1;
      AssignAt(t, columns[..n], values[..n], data, c);
      assert c in columns <==> c in columns[..n] || c == columns[n];
    }
  }

  /** Executing the statement a builder produces for `data` has exactly
      the intended effect: assigning the columns the builder lists, with
      their values, is the merge of `data` into the row. */
  lemma AssignColumnsIsMerge(t: Todo, data: map<string, Json>, values: seq<Json>)
    requires |values| == |Columns(data)|
    requires forall k :: 0 <= k < |values| ==> Columns(data)[k] in data && values[k] == data[Columns(data)[k]]
    ensures Assign(t, Columns(data), values) == Merge(t, data)
  {
    var u := Assign(t, Columns(data), values);
    forall c | c in AllowList
      ensures Column(u, c) == Column(Merge(t, data), c)
    {
      AssignAt(t, Columns(data), values, data, c);
    }
    assert Column(u, "task") == Column(Merge(t, data), "task");
    assert Column(u, "description") == Column(Merge(t, data), "description");
    assert Column(u, "status") == Column(Merge(t, data), "status");
    assert Column(u, "due_date") == Column(Merge(t, data), "due_date");
    assert Column(u, "priority") == Column(Merge(t, data), "priority");
  }

  /** A new row takes every supplied column from the body and the table's
      defaults for the rest. */
  lemma InsertDefaults(data: map<string, Json>)
    ensures var row := Merge(Defaults, data);
      && row.task == (if Supplied(data, "task") then data["task"] else JNull)
      && row.description == (if Supplied(data, "description") then data["description"] else JNull)
      && row.status == (if Supplied(data, "status") then data["status"] else JStr("pending"))
      && row.dueDate == (if Supplied(data, "due_date") then data["due_date"] else JNull)
      && row.priority == (if Supplied(data, "priority") then data["priority"] else JStr("medium"))
  {
  }

  /** A body with no usable column leaves the row as it was. */
  lemma MergeNothing(t: Todo, data: map<string, Json>)
    requires Columns(data) == []
    ensures Merge(t, data) == t
  {
    assert !Supplied(data, "task") && !Supplied(data, "description") && !Supplied(data, "status");
    assert !Supplied(data, "due_date") && !Supplied(data, "priority");
  }

  /** Applying the same body twice is the same as applying it once. */
  lemma MergeIdempotent(t: Todo, data: map<string, Json>)
    ensures Merge(Merge(t, data), data) == Merge(t, data)
  {
  }

  /** A merge never clears `task`: a `null` in the body is skipped. */
  lemma MergeKeepsTask(t: Todo, data: map<string, Json>)
    requires t.task != JNull
    ensures Merge(t, data).task != JNull
  {
  }

  /** Updating only `task` changes only `task`. */
  lemma TaskOnlyUpdate(t: Todo, v: Json)
    requires v != JNull
    ensures Merge(t, map["task" := v]) == t.(task := v)
  {
  }

  /** The column each built `column = %s` assignment sets. */
  function AssignedColumns(assignments: seq<string>): (columns: seq<string>)
    ensures |columns| == |assignments|
  {
    seq(|assignments|, k requires 0 <= k < |assignments| => AssignedColumn(assignments[k]))
  }

  /** The body of a JSON reply. `ExceptionJson` is `{'error': str(e)}`
      for an exception raised inside a handler, whose text is not modelled. */
  datatype TodoPayload =
    | TodoJson(id: int, todo: Todo)
    | ErrorJson(message: string)
    | MessageJson(message: string)
    | ExceptionJson

  /** The `todos` table and the handlers that read and change it. */
  class TodoTable {
    var rows: map<int, Todo>
    /** The next AUTO_INCREMENT value. */
    var nextId: int

    ghost predicate Valid()
      reads this
    {
      && 1 <= nextId
      && forall id :: id in rows ==> 1 <= id < nextId && rows[id].task != JNull
    }

    constructor ()
      ensures Valid() && rows == map[] && nextId == 1
    {
      rows := map[];
      nextId := 1;
    }

    /** `get_todo`: the row, or 404. */
    method GetTodo(id: int) returns (r: Reply<TodoPayload>)
      ensures id in rows ==> r == Reply(OK, TodoJson(id, rows[id]))
      ensures id !in rows ==> r == Reply(NOT_FOUND, ErrorJson("Todo not found"))
    {
      if id in rows {
        r := Reply(OK, TodoJson(id, rows[id]));
      } else {
        r := Reply(NOT_FOUND, ErrorJson("Todo not found"));
      }
    }

    /** `add_todo`: the key check on `task`, the INSERT of the supplied
        columns under the next id, and the re-read of the new row. */
    method AddTodo(body: Body) returns (r: Reply<TodoPayload>)
      requires Valid()
      modifies this
      ensures Valid()
      ensures body.NoJson? ==>
        r == Reply(SERVER_ERROR, ExceptionJson) && rows == old(rows) && nextId == old(nextId)
      ensures body.Object? && "task" !in body.fields ==>
        r == Reply(BAD_REQUEST, ErrorJson("Missing required fields")) && rows == old(rows) && nextId == old(nextId)
      ensures body.Object? && "task" in body.fields && body.fields["task"] == JNull ==>
        r == Reply(SERVER_ERROR, ExceptionJson) && rows == old(rows) && nextId == old(nextId)
      ensures body.Object? && Supplied(body.fields, "task") ==>
        && old(nextId) !in old(rows)
        && rows == old(rows)[old(nextId) := Merge(Defaults, body.fields)]
        && nextId == old(nextId) + 1
        && r == Reply(CREATED, TodoJson(old(nextId), Merge(Defaults, body.fields)))
    {
      if body.NoJson? {
        // `'task' in None` raises a TypeError, answered with 500.
        r := Reply(SERVER_ERROR, ExceptionJson);
        return;
      }
      var data := body.fields;
      if "task" !in data {
        r := Reply(BAD_REQUEST, ErrorJson("Missing required fields"));
        return;
      }
      var fields, values, placeholders, query := BuildInsert(data);
      if "task" !in fields {
        // The store refuses a row without `task`, which is NOT NULL and
        // has no default; the error is answered with 500.
        r := Reply(SERVER_ERROR, ExceptionJson);
        return;
      }
      var id := nextId;
      AssignColumnsIsMerge(Defaults, data, values);
      rows := rows[id := Assign(Defaults, fields, values)];
      nextId := nextId + 1;
      r := Reply(CREATED, TodoJson(id, rows[id]));
    }

    /** `update_todo`: the body check, the existence check, the UPDATE of
        the supplied columns of that row only, and the re-read. */
    method UpdateTodo(id: int, body: Body) returns (r: Reply<TodoPayload>)
      requires Valid()
      modifies this
      ensures Valid() && nextId == old(nextId)
      ensures Falsy(body) ==>
        r == Reply(BAD_REQUEST, ErrorJson("No update data provided")) && rows == old(rows)
      ensures !Falsy(body) && id !in old(rows) ==>
        r == Reply(NOT_FOUND, ErrorJson("Todo not found")) && rows == old(rows)
      ensures !Falsy(body) && id in old(rows) && Columns(body.fields) == [] ==>
        r == Reply(BAD_REQUEST, ErrorJson("No valid fields to update")) && rows == old(rows)
      ensures !Falsy(body) && id in old(rows) && Columns(body.fields) != [] ==>
        && rows == old(rows)[id := Merge(old(rows)[id], body.fields)]
        && r == Reply(OK, TodoJson(id, Merge(old(rows)[id], body.fields)))
    {
      if Falsy(body) {
        r := Reply(BAD_REQUEST, ErrorJson("No update data provided"));
        return;
      }
      if id !in rows {
        r := Reply(NOT_FOUND, ErrorJson("Todo not found"));
        return;
      }
      var data := body.fields;
      var updateFields, values, query := BuildUpdate(data, id);
      if updateFields == [] {
        r := Reply(BAD_REQUEST, ErrorJson("No valid fields to update"));
        return;
      }
      // The store sets the assigned columns of the row the last value names.
      var setValues := values[..|values| - 1];
      var target := values[|values| - 1].n;
      forall k | 0 <= k < |updateFields|
        ensures AssignedColumns(updateFields)[k] == Columns(data)[k]
      {
        AssignedColumnOf(Columns(data)[k]);
      }
      assert AssignedColumns(updateFields) == Columns(data);
      AssignColumnsIsMerge(rows[id], data, setValues);
      MergeKeepsTask(rows[id], data);
      rows := rows[target := Assign(rows[target], AssignedColumns(updateFields), setValues)];
      r := Reply(OK, TodoJson(id, rows[id]));
    }

    /** `delete_todo`: the existence check, then removal of that row only. */
    method DeleteTodo(id: int) returns (r: Reply<TodoPayload>)
      requires Valid()
      modifies this
      ensures Valid() && nextId == old(nextId)
      ensures id !in old(rows) ==>
        r == Reply(NOT_FOUND, ErrorJson("Todo not found")) && rows == old(rows)
      ensures id in old(rows) ==>
        && r == Reply(OK, MessageJson("Todo deleted successfully"))
        && rows.Keys == old(rows).Keys - {id}
        && forall k :: k in rows ==> rows[k] == old(rows)[k]
    {
      if id !in rows {
        r := Reply(NOT_FOUND, ErrorJson("Todo not found"));
        return;
      }
      rows := rows - {id};
      r := Reply(OK, MessageJson("Todo deleted successfully"));
    }
  }

  /** Create, update, delete and read back one todo. */
  method BuyMilkScenario() {
    var table := new TodoTable();
    var r := table.AddTodo(Object(map["task" := JStr("Buy milk")]));
    assert r.status == CREATED && r.payload.id == 1;
    assert r.payload.todo == Todo(JStr("Buy milk"), JNull, JStr("pending"), JNull, JStr("medium"));
    r := table.UpdateTodo(1, Object(map["status" := JStr("completed")]));
    assert AllowList[2] == "status";
    assert "status" in Columns(map["status" := JStr("completed")]);
    assert r.status == OK;
    assert r.payload.todo == Todo(JStr("Buy milk"), JNull, JStr("completed"), JNull, JStr("medium"));
    r := table.DeleteTodo(1);
    assert r.status == OK;
    r := table.GetTodo(1);
    assert r == Reply(NOT_FOUND, ErrorJson("Todo not found"));
  }
}
