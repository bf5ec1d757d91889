/** The list endpoint's query construction (`get_todos`): three optional
    query arguments become a SELECT text and a positional argument list. */
module FilterQuery {
  import opened Http
  import opened SqlText

  const Base: string := "SELECT * FROM todos WHERE 1=1"
  const StatusClause: string := " AND status = " + Placeholder
  const PriorityClause: string := " AND priority = " + Placeholder
  const SearchClause: string :=
    " AND (task LIKE " + Placeholder + " OR description LIKE " + Placeholder + ")"
  const OrderBy: string := " ORDER BY created_at DESC"

  /** Python truthiness of `request.args.get(name)`: absent and empty
      arguments both count as "no filter". */
  predicate Truthy(arg: Option<string>) {
    arg.Some? && arg.value != ""
  }

  /** The LIKE pattern `f'%{search}%'`: matches any text containing `search`. */
  function LikePattern(search: string): (p: string)
    ensures |p| == |search| + 2 && p[0] == '%' && p[|p| - 1] == '%'
    ensures p[1..|p| - 1] == search
  {
    "%" + search + "%"
  }

  /** The statement text for a given set of active filters. It takes only
      booleans: no argument value can reach the text. */
  function SelectText(byStatus: bool, byPriority: bool, bySearch: bool): string {
    Base
      + (if byStatus then StatusClause else "")
      + (if byPriority then PriorityClause else "")
      + (if bySearch then SearchClause else "")
      + OrderBy
  }

  /** The positional arguments, in the order their markers occur. */
  function SelectParams(status: Option<string>, priority: Option<string>, search: Option<string>): seq<string> {
    (if Truthy(status) then [status.value] else [])
      + (if Truthy(priority) then [priority.value] else [])
      + (if Truthy(search) then [LikePattern(search.value), LikePattern(search.value)] else [])
  }

  /** `get_todos` lines 99-115: accumulates the text and the argument list. */
  method BuildSelect(status: Option<string>, priority: Option<string>, search: Option<string>)
    returns (query: string, params: seq<string>)
    ensures query == SelectText(Truthy(status), Truthy(priority), Truthy(search))
    ensures params == SelectParams(status, priority, search)
    ensures Placeholders(query) == |params|
  {
    query := Base;
    params := [];
    if Truthy(status) {
      query := query + StatusClause;
      params := params + [status.value];
    }
    assert query == Base + (if Truthy(status) then StatusClause else "");
    if Truthy(priority) {
      query := query + PriorityClause;
      params := params + [priority.value];
    }
    assert query == Base + (if Truthy(status) then StatusClause else "")
      + (if Truthy(priority) then PriorityClause else "");
    if Truthy(search) {
      query := query + SearchClause;
      var searchTerm := LikePattern(search.value);
      params := params + [searchTerm, searchTerm];
    }
    query := query + OrderBy;
    PlaceholdersMatchParams(status, priority, search);
  }

  lemma StatusClauseCount()
    ensures Placeholders(StatusClause) == 1 && EndsClear(StatusClause)
  {
    OneMarkerAfter(" AND status = ");
  }

  lemma PriorityClauseCount()
    ensures Placeholders(PriorityClause) == 1 && EndsClear(PriorityClause)
  {
    OneMarkerAfter(" AND priority = ");
  }

  lemma SearchClauseCount()
    ensures Placeholders(SearchClause) == 2 && EndsClear(SearchClause)
  {
    var first := " AND (task LIKE " + Placeholder;
    var second := " OR description LIKE " + Placeholder;
    OneMarkerAfter(" AND (task LIKE ");
    OneMarkerAfter(" OR description LIKE ");
    PlaceholdersConcat(first, second);
    PlaceholdersConcat(first + second, ")");
    PercentFree(")");
    assert SearchClause == first + second + ")";
  }

  lemma BaseCount()
    ensures Placeholders(Base) == 0 && EndsClear(Base)
  {
    PercentFree(Base);
  }

  lemma OrderByCount()
    ensures Placeholders(OrderBy) == 0
  {
    PercentFree(OrderBy);
  }

  /** The text holds one marker per equality filter and two for the
      search filter. */
  lemma SelectTextCount(byStatus: bool, byPriority: bool, bySearch: bool)
    ensures Placeholders(SelectText(byStatus, byPriority, bySearch))
         == (if byStatus then 1 else 0) + (if byPriority then 1 else 0) + (if bySearch then 2 else 0)
  {
    StatusClauseCount();
    PriorityClauseCount();
    SearchClauseCount();
    BaseCount();
    OrderByCount();
    var s := if byStatus then StatusClause else "";
    var p := if byPriority then PriorityClause else "";
    var q := if bySearch then SearchClause else "";
    assert Placeholders(s) == (if byStatus then 1 else 0) && EndsClear(s);
    assert Placeholders(p) == (if byPriority then 1 else 0) && EndsClear(p);
    assert Placeholders(q) == (if bySearch then 2 else 0) && EndsClear(q);
    ConcatFive(Base, s, p, q, OrderBy);
  }

  /** Every marker in the text has exactly one argument. */
  lemma PlaceholdersMatchParams(status: Option<string>, priority: Option<string>, search: Option<string>)
    ensures Placeholders(SelectText(Truthy(status), Truthy(priority), Truthy(search)))
         == |SelectParams(status, priority, search)|
  {
    SelectTextCount(Truthy(status), Truthy(priority), Truthy(search));
  }

  /** With no truthy filter the statement selects every row, newest first,
      and has no arguments; an empty argument is the same as a missing one. */
  lemma NoFilters(status: Option<string>, priority: Option<string>, search: Option<string>)
    requires !Truthy(status) && !Truthy(priority) && !Truthy(search)
    ensures SelectText(Truthy(status), Truthy(priority), Truthy(search))
         == "SELECT * FROM todos WHERE 1=1 ORDER BY created_at DESC"
    ensures SelectParams(status, priority, search) == []
  {
    UnfilteredText();
  }

  /** The text without filters, spelled out. */
  lemma UnfilteredText()
    ensures SelectText(false, false, false) == "SELECT * FROM todos WHERE 1=1 ORDER BY created_at DESC"
  {
    assert SelectText(false, false, false) == Base + OrderBy;
  }

  /** Whatever filters are set, the text keeps the trivial WHERE head and
      ends with the newest-first ordering. */
  lemma AlwaysOrdered(byStatus: bool, byPriority: bool, bySearch: bool)
    ensures var q := SelectText(byStatus, byPriority, bySearch);
      |q| >= |Base| + |OrderBy| && q[..|Base|] == Base && q[|q| - |OrderBy|..] == OrderBy
  {
  }

  /** Arguments come in the order status, priority, then the search
      pattern twice (once for `task`, once for `description`). */
  lemma ParamOrder(status: Option<string>, priority: Option<string>, search: Option<string>)
    ensures var ps := SelectParams(status, priority, search);
      && (Truthy(status) ==> ps[0] == status.value)
      && (Truthy(priority) ==> ps[if Truthy(status) then 1 else 0] == priority.value)
      && (Truthy(search) ==> |ps| >= 2 && ps[|ps| - 2] == ps[|ps| - 1] == "%" + search.value + "%")
      && (!Truthy(search) ==> forall i :: 0 <= i < |ps| ==> (Truthy(status) && ps[i] == status.value) || (Truthy(priority) && ps[i] == priority.value))
  {
  }
}
