/** The INSERT and UPDATE statement builders of `add_todo` and
    `update_todo`: a JSON object is filtered against a fixed allow-list of
    columns and turned into a parameterised statement. */
module Mutation {
  import opened Http
  import opened SqlText

  /** The keys of `field_mapping`, in its iteration order. */
  const AllowList: seq<string> := ["task", "description", "status", "due_date", "priority"]

  /** A key takes part in a statement when it is present and not `null`. */
  predicate Supplied(data: map<string, Json>, key: string) {
    key in data && data[key] != JNull
  }

  /** The names among the first `n` of `names` that `data` supplies, in
      the order of `names`. */
  function Kept(data: map<string, Json>, names: seq<string>, n: nat): (r: seq<string>)
    requires n <= |names|
    ensures forall f :: f in r <==> f in names[..n] && Supplied(data, f)
    ensures |r| <= n
  {
    if n == 0 then []
    else
      assert names[..n] == names[..n - 1] + [names[n - 1]];
      Kept(data, names, n - 1) + (if Supplied(data, names[n - 1]) then [names[n - 1]] else [])
  }

  /** The columns a body sets: the allow-listed keys it supplies. */
  function Columns(data: map<string, Json>): (r: seq<string>)
    ensures forall f :: f in r <==> f in AllowList && Supplied(data, f)
  {
    assert AllowList[..|AllowList|] == AllowList;
    Kept(data, AllowList, |AllowList|)
  }

  /** Kept names form a subsequence of `names`: `pos` gives, strictly
      increasing, the index in `names` of each kept name. */
  lemma {:induction false} KeptInOrder(data: map<string, Json>, names: seq<string>, n: nat) returns (pos: seq<nat>)
    requires n <= |names|
    ensures |pos| == |Kept(data, names, n)|
    ensures forall k :: 0 <= k < |pos| ==> pos[k] < n && Kept(data, names, n)[k] == names[pos[k]]
    ensures forall i, j :: 0 <= i < j < |pos| ==> pos[i] < pos[j]
  {
    if n == 0 {
      pos := [];
    } else {
      var p := KeptInOrder(data, names, n - 1);
      if Supplied(data, names[n - 1]) {
        pos := p + [n - 1];
      } else {
        pos := p;
      }
    }
  }

  /** The position of an allow-listed column in `task, description,
      status, due_date, priority`. */
  function Rank(column: string): nat {
    if column == "task" then 0
    else if column == "description" then 1
    else if column == "status" then 2
    else if column == "due_date" then 3
    else 4
  }

  lemma RankOfAllowList(p: nat)
    requires p < |AllowList|
    ensures Rank(AllowList[p]) == p
  {
  }

  /** The columns of a statement follow `task, description, status,
      due_date, priority` strictly, so none occurs twice. */
  lemma ColumnsInAllowListOrder(data: map<string, Json>)
    ensures forall i, j :: 0 <= i < j < |Columns(data)| ==> Rank(Columns(data)[i]) < Rank(Columns(data)[j])
    ensures forall i, j :: 0 <= i < j < |Columns(data)| ==> Columns(data)[i] != Columns(data)[j]
  {
    var pos := KeptInOrder(data, AllowList, |AllowList|);
    forall i, j | 0 <= i < j < |Columns(data)|
      ensures Rank(Columns(data)[i]) < Rank(Columns(data)[j])
    {
      RankOfAllowList(pos[i]);
      RankOfAllowList(pos[j]);
    }
  }

  /** Keys outside `names` do not change which names are kept. */
  lemma {:induction false} KeptIgnoresOtherKeys(data: map<string, Json>, key: string, v: Json, names: seq<string>, n: nat)
    requires n <= |names| && key !in names
    ensures Kept(data[key := v], names, n) == Kept(data, names, n)
  {
    if n != 0 {
      KeptIgnoresOtherKeys(data, key, v, names, n - 1);
    }
  }

  /** A key outside the allow-list, whatever its value, changes no
      statement: the columns are those of the body without it. */
  lemma UnknownKeysIgnored(data: map<string, Json>, key: string, v: Json)
    requires key !in AllowList
    ensures Columns(data[key := v]) == Columns(data)
  {
    KeptIgnoresOtherKeys(data, key, v, AllowList, |AllowList|);
  }

  /** `id` is not an allow-listed column, so no body can assign it. */
  lemma IdNeverAColumn(data: map<string, Json>)
    ensures "id" !in Columns(data)
  {
  }

  lemma AllowListPercentFree()
    ensures forall i :: 0 <= i < |AllowList| ==> '%' !in AllowList[i]
  {
    assert '%' !in AllowList[0];
    assert '%' !in AllowList[1];
    assert '%' !in AllowList[2];
    assert '%' !in AllowList[3];
    assert '%' !in AllowList[4];
  }

  lemma ColumnsPercentFree(data: map<string, Json>)
    ensures forall i :: 0 <= i < |Columns(data)| ==> '%' !in Columns(data)[i]
  {
    AllowListPercentFree();
    forall i | 0 <= i < |Columns(data)| ensures '%' !in Columns(data)[i] {
      assert Columns(data)[i] in AllowList;
    }
  }

  // ---------------------------------------------------------------- INSERT

  const InsertHead: string := "\n            INSERT INTO todos ("
  const InsertMid: string := ")\n            VALUES ("
  const InsertTail: string := ")\n        "

  function Markers(n: nat): (m: seq<string>)
    ensures |m| == n && forall k :: 0 <= k < n ==> m[k] == Placeholder
  {
    seq(n, _ => Placeholder)
  }

  /** The INSERT text for a column list; it holds the column names and
      one marker per column, and nothing else that varies. */
  function InsertText(columns: seq<string>): string {
    InsertHead + Join(columns, Comma) + InsertMid + Join(Markers(|columns|), Comma) + InsertTail
  }

  lemma InsertHeadCount()
    ensures Placeholders(InsertHead) == 0 && EndsClear(InsertHead)
  {
    PercentFree(InsertHead);
  }

  lemma InsertMidCount()
    ensures Placeholders(InsertMid) == 0 && EndsClear(InsertMid)
  {
    PercentFree(InsertMid);
  }

  lemma InsertTailCount()
    ensures Placeholders(InsertTail) == 0
  {
    PercentFree(InsertTail);
  }

  /** An INSERT over `%`-free column names has one marker per column. */
  lemma InsertTextCount(columns: seq<string>)
    requires forall i :: 0 <= i < |columns| ==> '%' !in columns[i]
    ensures Placeholders(InsertText(columns)) == |columns|
  {
    JoinPercentFree(columns);
    PercentFree(Join(columns, Comma));
    MarkerCount();
    JoinPlaceholders(Markers(|columns|));
    InsertHeadCount();
    InsertMidCount();
    InsertTailCount();
    ConcatFive(InsertHead, Join(columns, Comma), InsertMid, Join(Markers(|columns|), Comma), InsertTail);
  }

  /** `add_todo` lines 161-165, over the names `names`: one column, value
      and marker per name that `data` supplies, in the order of `names`. */
  method CollectInsert(data: map<string, Json>, names: seq<string>)
    returns (fields: seq<string>, values: seq<Json>, placeholders: seq<string>)
    ensures fields == Kept(data, names, |names|)
    ensures |values| == |fields| && |placeholders| == |fields|
    ensures forall k :: 0 <= k < |fields| ==> fields[k] in data && values[k] == data[fields[k]]
    ensures forall k :: 0 <= k < |fields| ==> placeholders[k] == Placeholder
  {
    fields, values, placeholders := [], [], [];
    var i := 0;
    while i < |names|
      invariant 0 <= i <= |names|
      invariant fields == Kept(data, names, i)
      invariant |values| == |fields| && |placeholders| == |fields|
      invariant forall k :: 0 <= k < |fields| ==> fields[k] in data && values[k] == data[fields[k]]
      invariant forall k :: 0 <= k < |fields| ==> placeholders[k] == Placeholder
    {
      var field := names[i];
      if field in data && data[field] != JNull {
        fields := fields + [field];
        values := values + [data[field]];
        placeholders := placeholders + [Placeholder];
      }
      i := i + 1;
    }
  }

  /** `add_todo` lines 148-170: the columns, values and markers of a body
      and the INSERT text over them, with one marker per value. */
  method BuildInsert(data: map<string, Json>)
    returns (fields: seq<string>, values: seq<Json>, placeholders: seq<string>, query: string)
    ensures fields == Columns(data)
    ensures |values| == |fields| && |placeholders| == |fields|
    ensures forall k :: 0 <= k < |fields| ==>
      fields[k] in data && values[k] == data[fields[k]] && placeholders[k] == Placeholder
    ensures query == InsertText(fields)
    ensures Placeholders(query) == |values|
  {
    fields, values, placeholders := CollectInsert(data, AllowList);
    assert placeholders == Markers(|fields|);
    query := InsertHead + Join(fields, Comma) + InsertMid + Join(placeholders, Comma) + InsertTail;
    assert fields == Columns(data);
    ColumnsPercentFree(data);
    InsertTextCount(fields);
  }

  // ---------------------------------------------------------------- UPDATE

  /** What follows a column name in one SET assignment. */
  const SetMarker: string := " = " + Placeholder

  /** One SET assignment, `f'{field} = %s'`. */
  function Assignment(column: string): string {
    column + SetMarker
  }

  const UpdateHead: string := "\n            UPDATE todos \n            SET "
  const UpdateTail: string := "\n            WHERE id = " + Placeholder + "\n        "

  /** The UPDATE text for a list of `column = %s` assignments; its last
      marker is the row id of the WHERE clause. */
  function UpdateText(assignments: seq<string>): string {
    UpdateHead + Join(assignments, Comma) + UpdateTail
  }

  /** The column an assignment `column = %s` sets. */
  function AssignedColumn(assignment: string): (column: string)
    ensures |assignment| >= |SetMarker| && assignment[|assignment| - |SetMarker|..] == SetMarker
      ==> assignment == Assignment(column)
  {
    if |assignment| >= |SetMarker| then assignment[..|assignment| - |SetMarker|] else assignment
  }

  /** Reading the column back out of a built assignment gives the column. */
  lemma AssignedColumnOf(column: string)
    ensures AssignedColumn(Assignment(column)) == column
  {
    assert Assignment(column)[..|column|] == column;
  }

  lemma UpdateHeadCount()
    ensures Placeholders(UpdateHead) == 0 && EndsClear(UpdateHead)
  {
    PercentFree(UpdateHead);
  }

  /** The WHERE clause holds the one marker of the row id. */
  lemma UpdateTailCount()
    ensures Placeholders(UpdateTail) == 1
  {
    var where := "\n            WHERE id = ";
    OneMarkerAfter(where);
    PlaceholdersConcat(where + Placeholder, "\n        ");
    PercentFree("\n        ");
  }

  lemma AssignmentCount(column: string)
    requires '%' !in column
    ensures Placeholders(Assignment(column)) == 1 && EndsClear(Assignment(column))
  {
    assert Assignment(column) == (column + " = ") + Placeholder;
    OneMarkerAfter(column + " = ");
  }

  /** An UPDATE over `%`-free columns has one marker per assignment plus
      one for the id. */
  lemma UpdateTextCount(assignments: seq<string>)
    requires forall i :: 0 <= i < |assignments| ==> Placeholders(assignments[i]) == 1 && EndsClear(assignments[i])
    ensures Placeholders(UpdateText(assignments)) == |assignments| + 1
  {
    JoinPlaceholders(assignments);
    UpdateHeadCount();
    UpdateTailCount();
    ConcatThree(UpdateHead, Join(assignments, Comma), UpdateTail);
  }

  /** `update_todo` lines 199-214, over the names `names`: one assignment
      `column = %s` and one value per name that `data` supplies, in the
      order of `names`. */
  method CollectAssignments(data: map<string, Json>, names: seq<string>)
    returns (updateFields: seq<string>, values: seq<Json>)
    ensures |updateFields| == |Kept(data, names, |names|)| == |values|
    ensures forall k :: 0 <= k < |updateFields| ==>
      updateFields[k] == Assignment(Kept(data, names, |names|)[k])
    ensures forall k :: 0 <= k < |updateFields| ==>
      Kept(data, names, |names|)[k] in data && values[k] == data[Kept(data, names, |names|)[k]]
  {
    updateFields, values := [], [];
    ghost var columns: seq<string> := [];
    var i := 0;
    while i < |names|
      invariant 0 <= i <= |names|
      invariant columns == Kept(data, names, i)
      invariant |updateFields| == |columns| == |values|
      invariant forall k :: 0 <= k < |updateFields| ==> updateFields[k] == Assignment(columns[k])
      invariant forall k :: 0 <= k < |updateFields| ==> columns[k] in data && values[k] == data[columns[k]]
    {
      var field := names[i];
      if field in data && data[field] != JNull {
        updateFields := updateFields + [Assignment(field)];
        values := values + [data[field]];
        columns := columns + [field];
      }
      i := i + 1;
    }
  }

  /** `update_todo` lines 199-224, without the reply: the assignments and
      their values; when there are none the caller rejects the body,
      otherwise the id is appended as the last value, for the WHERE clause. */
  method BuildUpdate(data: map<string, Json>, id: int)
    returns (updateFields: seq<string>, values: seq<Json>, query: string)
    ensures updateFields == [] <==> Columns(data) == []
    ensures updateFields == [] ==> values == []
    ensures updateFields != [] ==>
      && |updateFields| == |Columns(data)|
      && |values| == |updateFields| + 1
      && (forall k :: 0 <= k < |updateFields| ==>
            && updateFields[k] == Assignment(Columns(data)[k])
            && Columns(data)[k] in data && values[k] == data[Columns(data)[k]])
      && values[|values| - 1] == JNum(id)
      && query == UpdateText(updateFields)
      && Placeholders(query) == |values|
  {
    query := "";
    updateFields, values := CollectAssignments(data, AllowList);
    assert Kept(data, AllowList, |AllowList|) == Columns(data);
    if updateFields == [] {
      return;
    }
    values := values + [JNum(id)];
    query := UpdateHead + Join(updateFields, Comma) + UpdateTail;
    AssignmentsCount(data, updateFields);
  }

  /** Assignments built from a body's columns give an UPDATE text with
      one marker per assignment plus the id's. */
  lemma AssignmentsCount(data: map<string, Json>, assignments: seq<string>)
    requires |assignments| == |Columns(data)|
    requires forall k :: 0 <= k < |assignments| ==> assignments[k] == Assignment(Columns(data)[k])
    ensures Placeholders(UpdateText(assignments)) == |assignments| + 1
  {
    ColumnsPercentFree(data);
    forall k | 0 <= k < |assignments|
      ensures Placeholders(assignments[k]) == 1 && EndsClear(assignments[k])
    {
      AssignmentCount(Columns(data)[k]);
    }
    UpdateTextCount(assignments);
  }
}
