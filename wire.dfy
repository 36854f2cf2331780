/** How the client and the backend meet: Flask's URL map for the task blueprint
    (mounted at /api/tasks, which is the client's API base plus "/tasks"), what the
    browser makes of a backend response, how request bodies reach the handlers, and
    how the client reads the JSON the backend writes. */
module Wire {
  import opened Wrappers
  import opened Text
  import opened JsonValue
  import opened Http
  import opened TaskModel
  import TaskRoutes
  import TaskService
  import TaskList
  import TaskItemView

  /** Which view function of task_routes.py a request reaches. `OtherRoute` is any
      path outside the blueprint, which this model does not follow. */
  datatype Endpoint =
    | CreateEndpoint
    | ListEndpoint
    | GetEndpoint(id: nat)
    | UpdateEndpoint(id: nat)
    | DeleteEndpoint(id: nat)
    | SubtaskEndpoint(parent: nat)
    | MethodNotAllowed
    | OtherRoute

  const Collection: string := "/tasks"
  const Member: string := "/tasks/"
  const SubtasksSuffix: string := "/subtasks"

  /** The blueprint's rules: "" (POST, GET), "/<int:task_id>" (GET, PUT, DELETE) and
      "/<int:parent_task_id>/subtasks" (POST). The `int` converter takes a non-empty
      run of digits, so a negative id matches no rule. */
  function Route(req: Request): (e: Endpoint)
    ensures e.CreateEndpoint? <==> req.verb == POST && req.path == Collection
    ensures e.ListEndpoint? <==> req.verb == GET && req.path == Collection
    ensures e.GetEndpoint? ==> req.verb == GET
    ensures e.UpdateEndpoint? ==> req.verb == PUT
    ensures e.DeleteEndpoint? ==> req.verb == DELETE
    ensures e.SubtaskEndpoint? ==> req.verb == POST
    ensures e.OtherRoute? ==> req.path != Collection
  {
    var path := req.path;
    if path == Collection then
      match req.verb
      case POST => CreateEndpoint
      case GET => ListEndpoint
      case _ => MethodNotAllowed
    else if |path| > |Member| && path[..|Member|] == Member then
      var rest := path[|Member|..];
      if IsDigits(rest) then
        match req.verb
        case GET => GetEndpoint(ParseNat(rest))
        case PUT => UpdateEndpoint(ParseNat(rest))
        case DELETE => DeleteEndpoint(ParseNat(rest))
        case POST => MethodNotAllowed
      else if |rest| > |SubtasksSuffix| && rest[|rest| - |SubtasksSuffix|..] == SubtasksSuffix
              && IsDigits(rest[..|rest| - |SubtasksSuffix|]) then
        if req.verb == POST then SubtaskEndpoint(ParseNat(rest[..|rest| - |SubtasksSuffix|]))
        else MethodNotAllowed
      else OtherRoute
    else OtherRoute
  }

  /** `/tasks/{id}` for a non-negative id is the member path of that id. */
  lemma MemberPath(id: int)
    requires id >= 0
    ensures var path := Member + IntToString(id);
      && |path| > |Member| && path[..|Member|] == Member
      && path[|Member|..] == NatToString(id) && IsDigits(path[|Member|..])
      && ParseNat(path[|Member|..]) == id
  {
    ParseNatToString(id);
    var path := Member + IntToString(id);
    assert path[|Member|..] == NatToString(id);
  }

  /** For every id, the member path reaches get, update and delete by verb, and
      refuses POST. */
  lemma MemberRoutes(id: nat, body: Option<Json>)
    ensures Route(Request(GET, Member + NatToString(id), body)) == GetEndpoint(id)
    ensures Route(Request(PUT, Member + NatToString(id), body)) == UpdateEndpoint(id)
    ensures Route(Request(DELETE, Member + NatToString(id), body)) == DeleteEndpoint(id)
    ensures Route(Request(POST, Member + NatToString(id), body)) == MethodNotAllowed
  {
    ParseNatToString(id);
    var path := Member + NatToString(id);
    assert path[..|Member|] == Member && path[|Member|..] == NatToString(id);
  }

  /** How the rules split `/tasks/{id}/subtasks`: past the member prefix the rest is
      not all digits, ends with "/subtasks", and what precedes that parses to `id`. */
  lemma SubtaskPathParts(id: nat)
    ensures var path := Member + NatToString(id) + SubtasksSuffix;
      var rest := path[|Member|..];
      && path != Collection && |path| > |Member| && path[..|Member|] == Member
      && !IsDigits(rest) && |rest| > |SubtasksSuffix|
      && rest[|rest| - |SubtasksSuffix|..] == SubtasksSuffix
      && IsDigits(rest[..|rest| - |SubtasksSuffix|])
      && ParseNat(rest[..|rest| - |SubtasksSuffix|]) == id
  {
    ParseNatToString(id);
    var digits := NatToString(id);
    var path := Member + digits + SubtasksSuffix;
    var rest := path[|Member|..];
    assert |path| > |Collection|;
    assert path[..|Member|] == Member;
    assert rest == digits + SubtasksSuffix;
    assert rest[|digits|] == '/';
    assert rest[|rest| - |SubtasksSuffix|..] == SubtasksSuffix;
    assert rest[..|rest| - |SubtasksSuffix|] == digits;
  }

  /** For every id, the member path followed by "/subtasks" reaches create_subtask
      for POST and refuses every other verb. */
  lemma SubtaskRoutes(id: nat, verb: Method, body: Option<Json>)
    ensures Route(Request(verb, Member + NatToString(id) + SubtasksSuffix, body))
      == if verb == POST then SubtaskEndpoint(id) else MethodNotAllowed
  {
    SubtaskPathParts(id);
  }

  /** Each service call reaches the handler it is meant for: listing and creating hit
      the collection (a new subtask's parent travels in the body, so
      create_subtask is never used), and update and delete hit the member route of
      the same id. */
  lemma RequestsReachTheirHandlers(d: TaskService.TaskData, id: int, patch: Json)
    requires id >= 0
    ensures Route(TaskService.GetTasksRequest()) == ListEndpoint
    ensures Route(TaskService.CreateTaskRequest(d)) == CreateEndpoint
    ensures Route(TaskService.UpdateTaskRequest(id, patch)) == UpdateEndpoint(id)
    ensures Route(TaskService.DeleteTaskRequest(id)) == DeleteEndpoint(id)
  {
    MemberPath(id);
  }

  /** What the browser sees of a backend response: a `jsonify` body parses, an HTML
      error page (`abort(404)`, an unhandled exception) does not. `text` is the body
      as read by `response.text()`, and `parseError` the message of the browser's
      JSON parse failure. */
  function Deliver(r: TaskRoutes.Response, text: string, parseError: string): (h: HttpResponse)
    ensures h.status == r.status && h.text == text
    ensures r.payload.JsonBody? <==> h.json.Parsed?
    ensures r.payload.JsonBody? ==> h.json.value == r.payload.json
  {
    HttpResponse(r.status, text,
      if r.payload.JsonBody? then Parsed(r.payload.json) else ParseError(parseError))
  }

  /** A missing task (404) or a server error (500) comes back as an HTML page, so a
      failed update or delete reports the parse-failure text rather than the status,
      and a failed list load reports the status and the page's text. */
  lemma HtmlErrorsOnTheClient(text: string, parseError: string)
    ensures TaskService.Mutation(Resolved(Deliver(TaskRoutes.NotFound, text, parseError)))
      == Rejected(TaskService.FailedToParse)
    ensures TaskService.Mutation(Resolved(Deliver(TaskRoutes.ServerError, text, parseError)))
      == Rejected(TaskService.FailedToParse)
    ensures TaskService.GetTasks(Resolved(Deliver(TaskRoutes.ServerError, text, parseError)))
      == Rejected(TaskService.ListFailureMessage(500, text))
  {
  }

  /** A 400 from the handlers carries `{"error": message}`, and the client reports
      that message word for word. */
  lemma JsonErrorsOnTheClient(message: string, text: string, parseError: string)
    requires message != ""
    ensures TaskService.Mutation(Resolved(Deliver(TaskRoutes.Response(400, TaskRoutes.ErrorJson(message)), text, parseError)))
      == Rejected(message)
  {
    var j := JObj(map["error" := JStr(message)]);
    assert TaskService.ErrorField(j) == Some(message);
  }

  /** A string column of a request body: absent, null or a string. */
  predicate StrSlot(f: map<string, Json>, key: string)
  {
    key !in f || f[key].JNull? || f[key].JStr?
  }

  /** An integer column of a request body: absent, null or an integer. */
  predicate IntSlot(f: map<string, Json>, key: string)
  {
    key !in f || f[key].JNull? || f[key].JInt?
  }

  function StrField(f: map<string, Json>, key: string): Field<string>
    requires StrSlot(f, key)
  {
    if key !in f then Absent else if f[key].JNull? then Null else Given(f[key].s)
  }

  function IntField(f: map<string, Json>, key: string): Field<int>
    requires IntSlot(f, key)
  {
    if key !in f then Absent else if f[key].JNull? then Null else Given(f[key].i)
  }

  /** A request body whose columns all have the types the handlers expect. Bodies of
      other shapes are outside this model. */
  predicate Typed(j: Json)
  {
    j.JObj?
    && StrSlot(j.fields, "title") && StrSlot(j.fields, "description") && StrSlot(j.fields, "due_date")
    && StrSlot(j.fields, "status") && StrSlot(j.fields, "priority") && StrSlot(j.fields, "responsible")
    && IntSlot(j.fields, "responsible_id") && IntSlot(j.fields, "parent_id")
  }

  /** `request.get_json()` as the handlers read it, key by key. */
  function BodyOf(j: Json): (b: TaskRoutes.Body)
    requires Typed(j)
    ensures b.title == StrField(j.fields, "title") && b.parentId == IntField(j.fields, "parent_id")
  {
    var f := j.fields;
    TaskRoutes.Body(StrField(f, "title"), StrField(f, "description"), StrField(f, "due_date"),
      StrField(f, "status"), StrField(f, "priority"), StrField(f, "responsible"),
      IntField(f, "responsible_id"), IntField(f, "parent_id"))
  }

  /** What the list page's create sends, as create_task reads it: the status is
      "Pendente" and there is no parent. */
  lemma PageCreateBody(title: string, description: string, priority: string)
    ensures var j := TaskService.TaskDataJson(TaskList.NewTaskData(title, description, priority));
      && Typed(j)
      && BodyOf(j) == TaskRoutes.Body(Given(title), Given(description), Absent, Given(TaskList.NewTaskStatus),
           Given(priority), Absent, Absent, Absent)
  {
    var j := TaskService.TaskDataJson(TaskList.NewTaskData(title, description, priority));
    assert j.fields == map["title" := JStr(title), "description" := JStr(description),
      "priority" := JStr(priority), "status" := JStr(TaskList.NewTaskStatus)];
  }

  /** The page is stricter than the backend: a title the page sends (not blank)
      always passes create_task's title check. */
  lemma PageTitlePassesBackend(title: string, description: string, priority: string)
    requires Trim(title) != []
    ensures var j := TaskService.TaskDataJson(TaskList.NewTaskData(title, description, priority));
      Typed(j) && !TaskRoutes.TitleMissing(Some(BodyOf(j)))
  {
    PageCreateBody(title, description, priority);
    var b := BodyOf(TaskService.TaskDataJson(TaskList.NewTaskData(title, description, priority)));
    assert b.title == Given(title);
  }

  /** What `handleAddSubtask` sends, as create_task reads it: the parent id given by
      the card goes into the body unchecked, with the fixed description, priority
      and status. */
  lemma SubtaskCreateBody(parentId: int, title: string)
    ensures var j := TaskService.TaskDataJson(TaskList.SubtaskData(parentId, title));
      && Typed(j)
      && BodyOf(j) == TaskRoutes.Body(Given(title), Given(TaskList.SubtaskDescription), Absent,
           Given(TaskList.NewTaskStatus), Given(TaskList.DefaultFormPriority), Absent, Absent, Given(parentId))
  {
    var j := TaskService.TaskDataJson(TaskList.SubtaskData(parentId, title));
    assert j.fields == map["title" := JStr(title), "description" := JStr(TaskList.SubtaskDescription),
      "priority" := JStr(TaskList.DefaultFormPriority), "parent_id" := JInt(parentId),
      "status" := JStr(TaskList.NewTaskStatus)];
  }

  /** Saving a card touches exactly the four edited columns: the due date, the
      responsible fields and the parent keep their values, and the update can neither
      be refused for its date nor fail on a NOT NULL column. */
  lemma SaveTouchesFourColumns(o: Row, title: string, description: string, status: string, priority: string,
                               now: DateTime, parse: string -> Option<DateTime>)
    ensures var b := BodyOf(TaskItemView.UpdatePatch(title, description, status, priority));
      && !TaskRoutes.ClearsRequiredColumn(b)
      && TaskRoutes.UpdateDueDate(b.dueDate, parse) == TaskRoutes.KeepDueDate
      && var r := TaskRoutes.Updated(o, b, TaskRoutes.KeepDueDate, now);
      && r.title == title && r.description == Some(description)
      && r.status == status && r.priority == priority
      && r.dueDate == o.dueDate && r.responsible == o.responsible
      && r.responsibleId == o.responsibleId && r.parentId == o.parentId
      && r.id == o.id && r.createdAt == o.createdAt
  {
    var j := TaskItemView.UpdatePatch(title, description, status, priority);
    assert Typed(j);
    var b := BodyOf(j);
    assert b == TaskRoutes.Body(Given(title), Given(description), Absent, Given(status), Given(priority),
      Absent, Absent, Absent);
  }

  /** A string field as the client reads it: a string, or nothing. */
  function StrOf(f: map<string, Json>, key: string): Option<string>
  {
    if key in f && f[key].JStr? then Some(f[key].s) else None
  }

  /** An integer field as the client reads it: an integer, or nothing. */
  function IntOf(f: map<string, Json>, key: string): Option<int>
  {
    if key in f && f[key].JInt? then Some(f[key].i) else None
  }

  /** The client's view of a task dictionary (the `Task` interface): the fields it
      reads, with `subtasks` read recursively. Values of other JSON types are not
      modelled and read as missing. */
  function DecodeTask(j: Json): (t: TaskList.Task)
    ensures !j.JObj? ==> t.id == 0 && t.title == "" && t.parentId.None? && t.subtasks == []
    ensures j.JObj? && "id" in j.fields && j.fields["id"].JInt? ==> t.id == j.fields["id"].i
    ensures j.JObj? && "title" in j.fields && j.fields["title"].JStr? ==> t.title == j.fields["title"].s
    ensures j.JObj? && "subtasks" in j.fields && j.fields["subtasks"].JArr? ==>
      |t.subtasks| == |j.fields["subtasks"].items|
    ensures j.JObj? && !("subtasks" in j.fields && j.fields["subtasks"].JArr?) ==> t.subtasks == []
    decreases j
  {
    if !j.JObj? then TaskList.Task(0, "", None, None, None, None, None, [], None, None)
    else
      var f := j.fields;
      var subtasks :=
        if "subtasks" in f && f["subtasks"].JArr? then
          var items := f["subtasks"].items;
          seq(|items|, i requires 0 <= i < |items| => DecodeTask(items[i]))
        else [];
      TaskList.Task(
        if "id" in f && f["id"].JInt? then f["id"].i else 0,
        if "title" in f && f["title"].JStr? then f["title"].s else "",
        StrOf(f, "description"), StrOf(f, "due_date"), StrOf(f, "status"), StrOf(f, "priority"),
        IntOf(f, "parent_id"), subtasks, StrOf(f, "created_at"), StrOf(f, "updated_at"))
  }

  /** A flat dictionary reads back as the row's task with no subtasks. */
  lemma DecodeFlat(row: Row)
    ensures var t := DecodeTask(ToDict(row, false, []));
      && t.id == row.id && t.title == row.title && t.status == Some(row.status)
      && t.priority == Some(row.priority) && t.parentId == row.parentId && t.subtasks == []
  {
    ToDictColumns(row, false, []);
  }

  /** A nested dictionary reads back as the row's task, whose subtasks are the
      children in the same order, each with no subtasks of its own. */
  lemma DecodeNested(row: Row, cs: seq<Row>)
    ensures var t := DecodeTask(ToDict(row, true, cs));
      && t.id == row.id && t.title == row.title && t.parentId == row.parentId
      && |t.subtasks| == |cs|
      && forall i :: 0 <= i < |cs| ==>
           t.subtasks[i].id == cs[i].id && t.subtasks[i].parentId == cs[i].parentId
           && t.subtasks[i].subtasks == []
  {
    ToDictColumns(row, true, cs);
    var d := ToDict(row, true, cs);
    var items := d.fields["subtasks"].items;
    forall i | 0 <= i < |cs|
      ensures DecodeTask(items[i]).id == cs[i].id && DecodeTask(items[i]).parentId == cs[i].parentId
      ensures DecodeTask(items[i]).subtasks == []
    {
      ToDictSubtaskEntries(row, cs, i);
      DecodeFlat(cs[i]);
    }
  }

  /** The cards of tasks without subtasks: one line each, at the given level. */
  lemma {:induction false} LayoutOfLeaves(ts: seq<TaskList.Task>, level: nat)
    requires forall i :: 0 <= i < |ts| ==> ts[i].subtasks == []
    ensures |TaskItemView.LayoutList(ts, level)| == |ts|
    ensures forall i :: 0 <= i < |ts| ==>
      TaskItemView.LayoutList(ts, level)[i] == TaskItemView.Line(ts[i].id, level, level * 20)
  {
    if ts != [] {
      LayoutOfLeaves(ts[1..], level);
      assert TaskItemView.LayoutList(ts[0].subtasks, level + 1) == [];
    }
  }

  /** A card whose subtasks have none of their own: the card, then one line per
      subtask, one level deeper, in list order. */
  lemma CardOfLeaves(t: TaskList.Task, level: nat)
    requires forall i :: 0 <= i < |t.subtasks| ==> t.subtasks[i].subtasks == []
    ensures var lines := TaskItemView.Layout(t, level);
      && |lines| == 1 + |t.subtasks|
      && lines[0] == TaskItemView.Line(t.id, level, level * 20)
      && forall i :: 0 <= i < |t.subtasks| ==>
           lines[i + 1] == TaskItemView.Line(t.subtasks[i].id, level + 1, (level + 1) * 20)
  {
    LayoutOfLeaves(t.subtasks, level + 1);
    var rest := TaskItemView.LayoutList(t.subtasks, level + 1);
    assert TaskItemView.Layout(t, level) == [TaskItemView.Line(t.id, level, level * 20)] + rest;
  }

  /** What a card for a listed task shows: the task at level 0, then each direct
      subtask at level 1 (20px in), and nothing deeper. A subtask of a subtask is
      therefore never shown, whatever the store holds. */
  lemma ListedCardShowsTwoLevels(row: Row, cs: seq<Row>)
    ensures var lines := TaskItemView.Layout(DecodeTask(ToDict(row, true, cs)), 0);
      && |lines| == 1 + |cs|
      && lines[0] == TaskItemView.Line(row.id, 0, 0)
      && forall i :: 0 <= i < |cs| ==> lines[i + 1] == TaskItemView.Line(cs[i].id, 1, 20)
  {
    var t := DecodeTask(ToDict(row, true, cs));
    DecodeNested(row, cs);
    CardOfLeaves(t, 0);
  }

  /** The client's reading of a `get_tasks` body. */
  function DecodeList(items: seq<Json>): (ts: seq<TaskList.Task>)
    ensures |ts| == |items|
    ensures forall k :: 0 <= k < |items| ==> ts[k] == DecodeTask(items[k])
  {
    seq(|items|, k requires 0 <= k < |items| => DecodeTask(items[k]))
  }

  /** Every task `get_tasks` returns is a root on the client too, so the page's filter
      keeps the whole list in the order the backend chose (newest first). */
  lemma ListedTasksAllShown(rows: map<int, Row>, order: seq<int>, items: seq<Json>)
    requires TaskRoutes.IsRootOrder(rows, order) && TaskRoutes.Listed(rows, order, items)
    ensures TaskList.RootTasks(DecodeList(items)) == DecodeList(items)
    ensures forall k :: 0 <= k < |items| ==> DecodeList(items)[k].id == rows[order[k]].id
  {
    var ts := DecodeList(items);
    forall k | 0 <= k < |items|
      ensures TaskList.IsRoot(ts[k]) && ts[k].id == rows[order[k]].id
    {
      var cs :| TaskRoutes.Enumerates(rows, order[k], cs) && items[k] == ToDict(rows[order[k]], true, cs);
      DecodeNested(rows[order[k]], cs);
      assert order[k] in multiset(TaskRoutes.RootIds(rows));
      assert order[k] in TaskRoutes.RootIds(rows);
    }
    TaskList.RootTasksOfRoots(ts);
  }
}
