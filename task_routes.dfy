/** The Flask handlers of backend/src/routes/task_routes.py over the `tasks` table,
    modelled as a store object owning a map from id to row and the autoincrement
    counter. A handler that fails before `db.session.commit()` leaves the table as it
    was (the request's session is rolled back). */
module TaskRoutes {
  import opened Wrappers
  import opened Text
  import opened JsonValue
  import opened TaskModel
  import Sets

  /** What a handler sends back: JSON from `jsonify`, or the HTML error page Flask
      renders for `get_or_404` and for an unhandled exception. */
  datatype Payload = JsonBody(json: Json) | HtmlPage
  datatype Response = Response(status: int, payload: Payload)

  /** `jsonify({"error": message})`. */
  function ErrorJson(message: string): Payload
  {
    JsonBody(JObj(map["error" := JStr(message)]))
  }

  const MissingTitle: string := "Missing title"
  const MissingSubtaskTitle: string := "Missing title for subtask"
  const InvalidDate: string := "Invalid due_date format. Use ISO format."
  const InvalidSubtaskDate: string := "Invalid due_date format for subtask. Use ISO format."
  const DeletedMessage: string := "Task and its subtasks deleted successfully"

  const NotFound: Response := Response(404, HtmlPage)
  const ServerError: Response := Response(500, HtmlPage)

  /** The JSON request body (`request.get_json()`), key by key. */
  datatype Body = Body(
    title: Field<string>,
    description: Field<string>,
    dueDate: Field<string>,
    status: Field<string>,
    priority: Field<string>,
    responsible: Field<string>,
    responsibleId: Field<int>,
    parentId: Field<int>)

  /** `not data or not data.get("title")`: no body, or a title that is absent, null
      or empty. A title of blanks passes. */
  predicate TitleMissing(data: Option<Body>)
    ensures !TitleMissing(data) <==> data.Some? && data.value.title.Given? && Truthy(JStr(data.value.title.value))
  {
    data.None? || !data.value.title.Given? || data.value.title.value == ""
  }

  /** What the create handlers make of `due_date` before the row is stored. */
  datatype DueDate = NoDueDate | ParsedDueDate(value: DateTime) | UnparsableDueDate | EmptyDueDate

  /** `due_date=data.get("due_date")`, then `fromisoformat(s.replace("Z", "+00:00"))`
      when it is a non-empty string. An empty string is falsy, so it is not parsed: it
      stays a string in a DateTime column and the insert fails. */
  function CreateDueDate(f: Field<string>, parse: string -> Option<DateTime>): (r: DueDate)
    ensures r.NoDueDate? <==> !f.Given?
    ensures r.EmptyDueDate? <==> f == Given("")
    ensures r.UnparsableDueDate? <==> f.Given? && f.value != "" && parse(ReplaceZ(f.value)).None?
    ensures r.ParsedDueDate? ==> f.Given? && parse(ReplaceZ(f.value)) == Some(r.value)
  {
    match f
    case Absent => NoDueDate
    case Null => NoDueDate
    case Given(s) =>
      if s == "" then EmptyDueDate
      else match parse(ReplaceZ(s))
        case None => UnparsableDueDate
        case Some(d) => ParsedDueDate(d)
  }

  /** A nullable column at INSERT: the given value, or `None`. */
  function Nullable<T>(f: Field<T>): (r: Option<T>)
    ensures r.Some? <==> f.Given?
    ensures f.Given? ==> r.value == f.value
  {
    if f.Given? then Some(f.value) else None
  }

  /** A column with a default at INSERT: a value of `None` is left out of the
      statement, so the column default applies. */
  function WithDefault(f: Field<string>, default: string): (r: string)
    ensures f.Given? ==> r == f.value
    ensures !f.Given? ==> r == default
  {
    if f.Given? then f.value else default
  }

  /** The row `Task(...)` stores for body `b`, once committed: the server stamps both
      timestamps with `now`, `status` and `priority` fall back to 'Pendente' and
      'Média' when the key is absent or null, and `parent_id` is whatever the caller
      passes, with no check that such a task exists. */
  function NewRow(id: int, b: Body, parentId: Option<int>, dueDate: Option<DateTime>, now: DateTime): (r: Row)
    requires b.title.Given?
    ensures r.id == id && r.title == b.title.value && r.parentId == parentId && r.dueDate == dueDate
    ensures r.status == WithDefault(b.status, DefaultStatus)
    ensures r.priority == WithDefault(b.priority, DefaultPriority)
    ensures r.description == Nullable(b.description) && r.responsible == Nullable(b.responsible)
    ensures r.responsibleId == Nullable(b.responsibleId)
    ensures r.createdAt == Some(now) && r.updatedAt == Some(now)
  {
    Row(id, b.title.value, Nullable(b.description), dueDate,
        WithDefault(b.status, DefaultStatus), WithDefault(b.priority, DefaultPriority),
        Nullable(b.responsible), Nullable(b.responsibleId), Some(now), Some(now), parentId)
  }

  /** The status stored by a create is the default exactly when the body gives none
      (or gives the default itself). */
  lemma CreateStatusDefault(id: int, b: Body, parentId: Option<int>, dueDate: Option<DateTime>, now: DateTime)
    requires b.title.Given?
    ensures NewRow(id, b, parentId, dueDate, now).status == DefaultStatus
        <==> !b.status.Given? || b.status.value == DefaultStatus
    ensures NewRow(id, b, parentId, dueDate, now).priority == DefaultPriority
        <==> !b.priority.Given? || b.priority.value == DefaultPriority
  {
  }

  /** `data.get(key, current)` on a NOT NULL column: `None` when the body sets the
      key to null, which makes the commit fail. */
  function Assign<T>(f: Field<T>, current: T): (r: Option<T>)
    ensures f.Absent? ==> r == Some(current)
    ensures f.Null? ==> r.None?
    ensures f.Given? ==> r == Some(f.value)
  {
    match f
    case Absent => Some(current)
    case Null => None
    case Given(v) => Some(v)
  }

  /** `data.get(key, current)` on a nullable column. */
  function AssignNullable<T>(f: Field<T>, current: Option<T>): (r: Option<T>)
    ensures f.Absent? ==> r == current
    ensures f.Null? ==> r.None?
    ensures f.Given? ==> r == Some(f.value)
  {
    match f
    case Absent => current
    case Null => None
    case Given(v) => Some(v)
  }

  /** What update_task does with `due_date`. */
  datatype DueDateChange = KeepDueDate | SetDueDate(value: Option<DateTime>) | RejectDueDate

  /** A truthy string is parsed (400 when it does not parse), an explicit null clears
      the date, and an absent key or an empty string leaves it alone. */
  function UpdateDueDate(f: Field<string>, parse: string -> Option<DateTime>): (r: DueDateChange)
    ensures r.KeepDueDate? <==> f.Absent? || f == Given("")
    ensures r == SetDueDate(None) <==> f.Null?
    ensures r.RejectDueDate? <==> f.Given? && f.value != "" && parse(ReplaceZ(f.value)).None?
    ensures r.SetDueDate? && r.value.Some? ==> f.Given? && parse(ReplaceZ(f.value)) == r.value
  {
    match f
    case Absent => KeepDueDate
    case Null => SetDueDate(None)
    case Given(s) =>
      if s == "" then KeepDueDate
      else match parse(ReplaceZ(s))
        case None => RejectDueDate
        case Some(d) => SetDueDate(Some(d))
  }

  /** The body sets a NOT NULL column to null. */
  predicate ClearsRequiredColumn(b: Body)
  {
    b.title.Null? || b.status.Null? || b.priority.Null?
  }

  /** The row update_task commits: every column the body names takes the body's value,
      every other keeps its value, `id` and `created_at` never change, and
      `updated_at` is stamped with `now` exactly when some column really changed
      (an UPDATE is only issued for a changed row). */
  function Updated(o: Row, b: Body, due: DueDateChange, now: DateTime): (r: Row)
    requires !ClearsRequiredColumn(b) && !due.RejectDueDate?
    ensures r.id == o.id && r.createdAt == o.createdAt
    ensures Some(r.title) == Assign(b.title, o.title)
    ensures Some(r.status) == Assign(b.status, o.status)
    ensures Some(r.priority) == Assign(b.priority, o.priority)
    ensures r.description == AssignNullable(b.description, o.description)
    ensures r.responsible == AssignNullable(b.responsible, o.responsible)
    ensures r.responsibleId == AssignNullable(b.responsibleId, o.responsibleId)
    ensures r.parentId == AssignNullable(b.parentId, o.parentId)
    ensures r.dueDate == if due.SetDueDate? then due.value else o.dueDate
    ensures r.updatedAt == o.updatedAt || r.updatedAt == Some(now)
    ensures r.(updatedAt := o.updatedAt) == o ==> r == o
    ensures r.(updatedAt := o.updatedAt) != o ==> r.updatedAt == Some(now)
  {
    var c := o.(
      title := Assign(b.title, o.title).value,
      description := AssignNullable(b.description, o.description),
      status := Assign(b.status, o.status).value,
      priority := Assign(b.priority, o.priority).value,
      responsible := AssignNullable(b.responsible, o.responsible),
      responsibleId := AssignNullable(b.responsibleId, o.responsibleId),
      parentId := AssignNullable(b.parentId, o.parentId),
      dueDate := if due.SetDueDate? then due.value else o.dueDate);
    if c == o then o else c.(updatedAt := Some(now))
  }

  /** An update whose body names no column (or repeats every current value) changes
      nothing, not even `updated_at`. */
  lemma EmptyUpdateChangesNothing(o: Row, now: DateTime)
    ensures Updated(o, Body(Absent, Absent, Absent, Absent, Absent, Absent, Absent, Absent), KeepDueDate, now) == o
  {
  }

  /** The ids of the rows whose `parent_id` is `p`: what `task.subtasks` yields. */
  function ChildIds(rows: map<int, Row>, p: int): (ids: set<int>)
    ensures ids <= rows.Keys && ids !! RootIds(rows)
    ensures forall k :: k in ids ==> rows[k].parentId == Some(p)
    ensures forall k :: k in rows && rows[k].parentId == Some(p) ==> k in ids
  {
    set k | k in rows && rows[k].parentId == Some(p)
  }

  /** The ids of the rows with a null `parent_id`. */
  function RootIds(rows: map<int, Row>): set<int>
  {
    set k | k in rows && rows[k].parentId.None?
  }

  function IdsOf(cs: seq<Row>): (ids: seq<int>)
    ensures |ids| == |cs| && forall i :: 0 <= i < |cs| ==> ids[i] == cs[i].id
  {
    seq(|cs|, i requires 0 <= i < |cs| => cs[i].id)
  }

  /** `cs` lists the subtasks of `p`: every child row once, in some order (the
      relationship declares no `order_by`). */
  predicate Enumerates(rows: map<int, Row>, p: int, cs: seq<Row>)
  {
    && (forall i :: 0 <= i < |cs| ==> cs[i].id in rows && rows[cs[i].id] == cs[i])
    && multiset(IdsOf(cs)) == multiset(ChildIds(rows, p))
  }

  /** The rows keyed by their own ids. */
  ghost predicate KeyedById(rows: map<int, Row>)
  {
    forall k :: k in rows ==> rows[k].id == k
  }

  /** Some sequence lists the rows of `s`, each once. */
  lemma {:induction false} ListRows(rows: map<int, Row>, s: set<int>) returns (cs: seq<Row>)
    requires KeyedById(rows) && s <= rows.Keys
    ensures forall i :: 0 <= i < |cs| ==> cs[i].id in s && rows[cs[i].id] == cs[i]
    ensures multiset(IdsOf(cs)) == multiset(s)
    decreases s
  {
    if |s| == 0 {
      cs := [];
    } else {
      var k := Sets.Pick(s);
      var rest := ListRows(rows, s - {k});
      cs := [rows[k]] + rest;
      assert IdsOf(cs) == [k] + IdsOf(rest);
      assert multiset(s) == multiset{k} + multiset(s - {k});
    }
  }

  /** `d` is `to_dict(include_subtasks)` of row `id`, with its subtasks listed in one
      of the orders the relationship may yield. */
  ghost predicate Serialized(rows: map<int, Row>, id: int, includeSubtasks: bool, d: Json)
  {
    id in rows &&
    if includeSubtasks then
      exists cs :: Enumerates(rows, id, cs) && d == ToDict(rows[id], true, cs)
    else
      d == ToDict(rows[id], false, [])
  }

  /** `a` was created no earlier than `b`: both have a creation stamp and `a`'s is
      not the earlier one. */
  predicate NotBefore(a: Row, b: Row)
  {
    a.createdAt.Some? && b.createdAt.Some? && a.createdAt.value.instant >= b.createdAt.value.instant
  }

  /** `order` is a possible result of
      `Task.query.filter(Task.parent_id.is_(None)).order_by(Task.created_at.desc())`:
      every root once, newest first (ties in any order). */
  predicate IsRootOrder(rows: map<int, Row>, order: seq<int>)
  {
    && (forall i :: 0 <= i < |order| ==> order[i] in rows)
    && multiset(order) == multiset(RootIds(rows))
    && (forall i, j :: 0 <= i < j < |order| ==> NotBefore(rows[order[i]], rows[order[j]]))
  }

  /** `items` holds the nested dictionaries of the rows `order` names, in that order. */
  ghost predicate Listed(rows: map<int, Row>, order: seq<int>, items: seq<Json>)
  {
    |items| == |order| && forall i :: 0 <= i < |order| ==> Serialized(rows, order[i], true, items[i])
  }

  /** One more dictionary extends a listing. */
  lemma ListedExtend(rows: map<int, Row>, order: seq<int>, items: seq<Json>, id: int, d: Json)
    requires Listed(rows, order, items) && Serialized(rows, id, true, d)
    ensures Listed(rows, order + [id], items + [d])
  {
    var order', items' := order + [id], items + [d];
    forall i | 0 <= i < |order'|
      ensures Serialized(rows, order'[i], true, items'[i])
    {
      if i < |order| {
        assert order'[i] == order[i] && items'[i] == items[i];
      }
    }
  }

  ghost predicate Stamped(rows: map<int, Row>)
  {
    forall k :: k in rows ==> rows[k].createdAt.Some?
  }

  /** A non-empty set of stamped rows has a newest member. */
  lemma {:induction false} Newest(rows: map<int, Row>, s: set<int>) returns (m: int)
    requires Stamped(rows) && s <= rows.Keys && |s| > 0
    ensures m in s && forall k :: k in s ==> NotBefore(rows[m], rows[k])
    decreases s
  {
    var x := Sets.Pick(s);
    if s == {x} {
      m := x;
    } else {
      var n := Newest(rows, s - {x});
      m := if NotBefore(rows[n], rows[x]) then n else x;
    }
  }

  /** The rows of `s` can be listed newest first. */
  lemma {:induction false} ListNewestFirst(rows: map<int, Row>, s: set<int>) returns (order: seq<int>)
    requires Stamped(rows) && s <= rows.Keys
    ensures forall i :: 0 <= i < |order| ==> order[i] in s
    ensures multiset(order) == multiset(s)
    ensures forall i, j :: 0 <= i < j < |order| ==> NotBefore(rows[order[i]], rows[order[j]])
    decreases s
  {
    if |s| == 0 {
      order := [];
    } else {
      var m := Newest(rows, s);
      var rest := ListNewestFirst(rows, s - {m});
      order := [m] + rest;
      assert multiset(s) == multiset{m} + multiset(s - {m});
      forall j | 0 < j < |order| ensures NotBefore(rows[m], rows[order[j]]) {
        assert order[j] == rest[j - 1] && order[j] in s;
      }
    }
  }

  class TaskStore {
    /** The `tasks` table, by primary key. */
    var rows: map<int, Row>
    /** The next value of the autoincrement key. */
    var nextId: int
    /** `datetime.fromisoformat`. */
    const parse: string -> Option<DateTime>

    ghost predicate Valid()
      reads this
    {
      nextId >= 1 &&
      forall k :: k in rows ==> 1 <= k < nextId && rows[k].id == k && rows[k].createdAt.Some?
    }

    constructor (parse: string -> Option<DateTime>)
      ensures Valid() && rows == map[] && nextId == 1 && this.parse == parse
    {
      rows := map[];
      nextId := 1;
      this.parse := parse;
    }

    /** `task.to_dict(include_subtasks)` for a stored row, its subtasks fetched in
        whatever order the relationship yields them. */
    method Serialize(id: int, includeSubtasks: bool) returns (d: Json)
      requires Valid() && id in rows
      ensures Serialized(rows, id, includeSubtasks, d)
    {
      if includeSubtasks {
        ghost var subtasks := ListRows(rows, ChildIds(rows, id));
        assert Enumerates(rows, id, subtasks);
        var fetched :| Enumerates(rows, id, fetched);
        d := ToDict(rows[id], true, fetched);
      } else {
        d := ToDict(rows[id], false, []);
      }
    }

    /** POST /tasks. */
    method CreateTask(data: Option<Body>, now: DateTime) returns (resp: Response)
      requires Valid()
      modifies this
      ensures Valid()
      ensures TitleMissing(data) ==> resp == Response(400, ErrorJson(MissingTitle))
      ensures !TitleMissing(data) && CreateDueDate(data.value.dueDate, parse).UnparsableDueDate? ==>
        resp == Response(400, ErrorJson(InvalidDate))
      ensures !TitleMissing(data) && CreateDueDate(data.value.dueDate, parse).EmptyDueDate? ==>
        resp == ServerError
      ensures resp.status != 201 ==> rows == old(rows) && nextId == old(nextId)
      ensures resp.status == 201 ==>
        && !TitleMissing(data)
        && var due := CreateDueDate(data.value.dueDate, parse);
        && (due.NoDueDate? || due.ParsedDueDate?)
        && var row := NewRow(old(nextId), data.value, Nullable(data.value.parentId),
                             if due.ParsedDueDate? then Some(due.value) else None, now);
        && rows == old(rows)[old(nextId) := row]
        && nextId == old(nextId) + 1
        && resp.payload.JsonBody? && Serialized(rows, row.id, true, resp.payload.json)
      ensures !TitleMissing(data) && !CreateDueDate(data.value.dueDate, parse).UnparsableDueDate?
        && !CreateDueDate(data.value.dueDate, parse).EmptyDueDate?
        ==> resp.status == 201
    {
      if TitleMissing(data) {
        return Response(400, ErrorJson(MissingTitle));
      }
      var b := data.value;
      var due := CreateDueDate(b.dueDate, parse);
      if due.UnparsableDueDate? {
        return Response(400, ErrorJson(InvalidDate));
      } else if due.EmptyDueDate? {
        return ServerError;
      }
      var row := NewRow(nextId, b, Nullable(b.parentId),
                        if due.ParsedDueDate? then Some(due.value) else None, now);
      rows := rows[nextId := row];
      nextId := nextId + 1;
      var d := Serialize(row.id, true);
      resp := Response(201, JsonBody(d));
    }

    /** The nested dictionaries of the rows `order` names, in that order. */
    method SerializeAll(order: seq<int>) returns (items: seq<Json>)
      requires Valid()
      requires forall i :: 0 <= i < |order| ==> order[i] in rows
      ensures Listed(rows, order, items)
    {
      items := [];
      var i := 0;
      while i < |order|
        invariant 0 <= i <= |order|
        invariant Listed(rows, order[..i], items)
      {
        var d := Serialize(order[i], true);
        ListedExtend(rows, order[..i], items, order[i], d);
        assert order[..i] + [order[i]] == order[..i + 1];
        items := items + [d];
        i := i + 1;
      }
      assert order[..i] == order;
    }

    /** GET /tasks: the root tasks, newest first, each with its direct subtasks. */
    method GetTasks() returns (resp: Response)
      requires Valid()
      ensures resp.status == 200 && resp.payload.JsonBody? && resp.payload.json.JArr?
      ensures exists order :: IsRootOrder(rows, order) && Listed(rows, order, resp.payload.json.items)
    {
      ghost var roots := ListNewestFirst(rows, RootIds(rows));
      assert IsRootOrder(rows, roots);
      var order :| IsRootOrder(rows, order);
      assert IsRootOrder(rows, order);
      assert forall i :: 0 <= i < |order| ==> order[i] in rows;
      var items := SerializeAll(order);
      resp := Response(200, JsonBody(JArr(items)));
      assert Listed(rows, order, resp.payload.json.items);
    }

    /** GET /tasks/{id}. */
    method GetTask(id: int) returns (resp: Response)
      requires Valid()
      ensures id !in rows ==> resp == NotFound
      ensures id in rows ==>
        resp.status == 200 && resp.payload.JsonBody? && Serialized(rows, id, true, resp.payload.json)
    {
      if id !in rows {
        return NotFound;
      }
      var d := Serialize(id, true);
      resp := Response(200, JsonBody(d));
    }

    /** PUT /tasks/{id}: merge the body into the row, column by column. */
    method UpdateTask(id: int, data: Option<Body>, now: DateTime) returns (resp: Response)
      requires Valid()
      modifies this
      ensures Valid() && nextId == old(nextId)
      ensures id !in old(rows) ==> resp == NotFound
      ensures id in old(rows) && data.None? ==> resp == ServerError
      ensures resp.status != 200 ==> rows == old(rows)
      ensures id in old(rows) && data.Some? && UpdateDueDate(data.value.dueDate, parse).RejectDueDate? ==>
        resp == Response(400, ErrorJson(InvalidDate))
      ensures id in old(rows) && data.Some? && !UpdateDueDate(data.value.dueDate, parse).RejectDueDate?
        && ClearsRequiredColumn(data.value)
        ==> resp == ServerError
      ensures resp.status == 200 <==>
        id in old(rows) && data.Some? && !UpdateDueDate(data.value.dueDate, parse).RejectDueDate? &&
        !ClearsRequiredColumn(data.value)
      ensures resp.status == 200 ==>
        && rows == old(rows)[id := Updated(old(rows)[id], data.value, UpdateDueDate(data.value.dueDate, parse), now)]
        && resp.payload.JsonBody? && Serialized(rows, id, true, resp.payload.json)
    {
      if id !in rows {
        return NotFound;
      }
      if data.None? {
        return ServerError;
      }
      var b := data.value;
      var task := rows[id];
      var due := UpdateDueDate(b.dueDate, parse);
      if due.RejectDueDate? {
        return Response(400, ErrorJson(InvalidDate));
      }
      if ClearsRequiredColumn(b) {
        return ServerError;
      }
      rows := rows[id := Updated(task, b, due, now)];
      var d := Serialize(id, true);
      resp := Response(200, JsonBody(d));
    }

    /** DELETE /tasks/{id}: the task and its direct subtasks go; deeper descendants
        stay, still pointing at a deleted parent. */
    method DeleteTask(id: int) returns (resp: Response)
      requires Valid()
      modifies this
      ensures Valid() && nextId == old(nextId)
      ensures id !in old(rows) ==> resp == NotFound && rows == old(rows)
      ensures id in old(rows) ==>
        && resp == Response(200, JsonBody(JObj(map["message" := JStr(DeletedMessage)])))
        && rows == old(rows) - ({id} + ChildIds(old(rows), id))
    {
      if id !in rows {
        return NotFound;
      }
      var subtasks := ChildIds(rows, id);
      var pending := subtasks;
      while pending != {}
        invariant pending <= subtasks
        invariant rows == old(rows) - (subtasks - pending)
        invariant Valid() && nextId == old(nextId)
        decreases pending
      {
        ghost var w := Sets.Pick(pending);
        var s :| s in pending;
        rows := rows - {s};
        pending := pending - {s};
      }
      rows := rows - {id};
      resp := Response(200, JsonBody(JObj(map["message" := JStr(DeletedMessage)])));
    }

    /** POST /tasks/{p}/subtasks: the new row's `parent_id` is always `p`. */
    method CreateSubtask(p: int, data: Option<Body>, now: DateTime) returns (resp: Response)
      requires Valid()
      modifies this
      ensures Valid()
      ensures p !in old(rows) ==> resp == NotFound
      ensures p in old(rows) && TitleMissing(data) ==> resp == Response(400, ErrorJson(MissingSubtaskTitle))
      ensures p in old(rows) && !TitleMissing(data) && CreateDueDate(data.value.dueDate, parse).UnparsableDueDate? ==>
        resp == Response(400, ErrorJson(InvalidSubtaskDate))
      ensures p in old(rows) && !TitleMissing(data) && CreateDueDate(data.value.dueDate, parse).EmptyDueDate? ==>
        resp == ServerError
      ensures resp.status != 201 ==> rows == old(rows) && nextId == old(nextId)
      ensures resp.status == 201 ==>
        && p in old(rows) && !TitleMissing(data)
        && var due := CreateDueDate(data.value.dueDate, parse);
        && (due.NoDueDate? || due.ParsedDueDate?)
        && var row := NewRow(old(nextId), data.value, Some(p),
                             if due.ParsedDueDate? then Some(due.value) else None, now);
        && rows == old(rows)[old(nextId) := row]
        && nextId == old(nextId) + 1
        && resp.payload == JsonBody(ToDict(row, false, []))
      ensures p in old(rows) && !TitleMissing(data) && !CreateDueDate(data.value.dueDate, parse).UnparsableDueDate?
        && !CreateDueDate(data.value.dueDate, parse).EmptyDueDate?
        ==> resp.status == 201
    {
      if p !in rows {
        return NotFound;
      }
      if TitleMissing(data) {
        return Response(400, ErrorJson(MissingSubtaskTitle));
      }
      var b := data.value;
      var due := CreateDueDate(b.dueDate, parse);
      if due.UnparsableDueDate? {
        return Response(400, ErrorJson(InvalidSubtaskDate));
      } else if due.EmptyDueDate? {
        return ServerError;
      }
      var row := NewRow(nextId, b, Some(p),
                        if due.ParsedDueDate? then Some(due.value) else None, now);
      rows := rows[nextId := row];
      nextId := nextId + 1;
      var d := Serialize(row.id, false);
      resp := Response(201, JsonBody(d));
    }
  }
}
