/** frontend/src/services/task-service.ts: four thin wrappers around `fetch`. The
    awaited `fetch` is an input (`Resolved` with the response, or `Rejected` when the
    request could not be made); each wrapper settles to the parsed JSON body or to an
    error whose message is chosen here. The `catch` blocks log and rethrow the same
    error, so a rejection's message reaches the caller unchanged. */
module TaskService {
  import opened Wrappers
  import opened Text
  import opened JsonValue
  import opened Http

  /** The fields `createTask` accepts (the `TaskData` interface). */
  datatype TaskData = TaskData(
    title: string,
    description: Option<string>,
    priority: Option<string>,
    parentId: Option<int>,
    status: Option<string>,
    dueDate: Option<string>,
    responsible: Option<string>,
    responsibleId: Option<int>)

  /** `m` with a string under `key` when the field is set; an unset field adds no key. */
  function WithStr(m: map<string, Json>, key: string, v: Option<string>): (r: map<string, Json>)
    ensures forall k :: k in r <==> k in m || (k == key && v.Some?)
    ensures forall k :: k in r ==> r[k] == if k == key && v.Some? then JStr(v.value) else m[k]
  {
    if v.Some? then m[key := JStr(v.value)] else m
  }

  /** `m` with a number under `key` when the field is set. */
  function WithInt(m: map<string, Json>, key: string, v: Option<int>): (r: map<string, Json>)
    ensures forall k :: k in r <==> k in m || (k == key && v.Some?)
    ensures forall k :: k in r ==> r[k] == if k == key && v.Some? then JInt(v.value) else m[k]
  {
    if v.Some? then m[key := JInt(v.value)] else m
  }

  /** `JSON.stringify(taskData)`: a key for every field that is set; unset fields
      are dropped. */
  function TaskDataJson(d: TaskData): (j: Json)
    ensures j.JObj?
  {
    var m := map["title" := JStr(d.title)];
    var m := WithStr(m, "description", d.description);
    var m := WithStr(m, "priority", d.priority);
    var m := WithInt(m, "parent_id", d.parentId);
    var m := WithStr(m, "status", d.status);
    var m := WithStr(m, "due_date", d.dueDate);
    var m := WithStr(m, "responsible", d.responsible);
    var m := WithInt(m, "responsible_id", d.responsibleId);
    JObj(m)
  }

  /** The body always carries the title, carries `parent_id` exactly when a parent
      is given, and never carries `subtasks`. */
  lemma TaskDataJsonShape(d: TaskData)
    ensures var f := TaskDataJson(d).fields;
      && "title" in f && f["title"] == JStr(d.title)
      && ("parent_id" in f <==> d.parentId.Some?)
      && (d.parentId.Some? ==> f["parent_id"] == JInt(d.parentId.value))
      && "subtasks" !in f
  {
    var m0 := map["title" := JStr(d.title)];
    var m1 := WithStr(m0, "description", d.description);
    var m2 := WithStr(m1, "priority", d.priority);
    var m3 := WithInt(m2, "parent_id", d.parentId);
    var m4 := WithStr(m3, "status", d.status);
    var m5 := WithStr(m4, "due_date", d.dueDate);
    var m6 := WithStr(m5, "responsible", d.responsible);
    var m7 := WithInt(m6, "responsible_id", d.responsibleId);
    assert TaskDataJson(d).fields == m7;
  }

  const FailedToParse: string := "Failed to parse error JSON"

  /** What V8 throws when `errorData.error` is read and the error body was the JSON
      literal `null`. */
  const NullErrorAccess: string := "Cannot read properties of null (reading 'error')"

  /** `HTTP error! status: S`. */
  function StatusMessage(status: int): (m: string)
    ensures |m| > 20 && m[..20] == "HTTP error! status: " && m[20..] == IntToString(status)
  {
    "HTTP error! status: " + IntToString(status)
  }

  /** getTasks: `HTTP error! status: S, message: T` with the body text. */
  function ListFailureMessage(status: int, text: string): (m: string)
    ensures |m| == |StatusMessage(status)| + 11 + |text|
    ensures m[..|StatusMessage(status)|] == StatusMessage(status)
    ensures m[|StatusMessage(status)|..|StatusMessage(status)| + 11] == ", message: "
    ensures m[|m| - |text|..] == text
  {
    StatusMessage(status) + ", message: " + text
  }

  /** The `error` field of a JSON error body, when it is a non-empty string. */
  function ErrorField(j: Json): (r: Option<string>)
    ensures r.Some? ==> r.value != ""
    ensures r.Some? <==> j.JObj? && "error" in j.fields && j.fields["error"].JStr? && j.fields["error"].s != ""
  {
    if j.JObj? && "error" in j.fields && j.fields["error"].JStr? && j.fields["error"].s != ""
    then Some(j.fields["error"].s) else None
  }

  /** create/update/delete on a non-2xx response:
      `(await response.json().catch(() => ({error: "Failed to parse error JSON"}))).error
       || "HTTP error! status: S"`. */
  function MutationErrorMessage(status: int, json: JsonParse): (msg: string)
    ensures json.ParseError? ==> msg == FailedToParse
    ensures json.Parsed? && ErrorField(json.value).Some? ==> msg == ErrorField(json.value).value
    ensures json.Parsed? && json.value != JNull && ErrorField(json.value).None? ==> msg == StatusMessage(status)
    ensures json == Parsed(JNull) ==> msg == NullErrorAccess
  {
    match json
    case ParseError(_) => FailedToParse
    case Parsed(v) =>
      if v == JNull then NullErrorAccess
      else if ErrorField(v).Some? then ErrorField(v).value
      else StatusMessage(status)
  }

  /** The success path shared by every wrapper: `return await response.json()`. */
  function Body(r: HttpResponse): (result: Outcome<Json>)
    ensures result.Resolved? <==> r.json.Parsed?
    ensures r.json.Parsed? ==> result.value == r.json.value
    ensures r.json.ParseError? ==> result.message == r.json.message
  {
    match r.json
    case Parsed(v) => Resolved(v)
    case ParseError(m) => Rejected(m)
  }

  function GetTasksRequest(): (r: Request)
    ensures r.verb == GET && r.path == "/tasks" && r.body.None?
  {
    Request(GET, "/tasks", None)
  }

  /** `getTasks()`, given what `fetch` settled to. */
  function GetTasks(fetched: Outcome<HttpResponse>): (result: Outcome<Json>)
    ensures fetched.Rejected? ==> result == Rejected(fetched.message)
    ensures fetched.Resolved? && !Ok(fetched.value) ==>
      result == Rejected(ListFailureMessage(fetched.value.status, fetched.value.text))
    ensures result.Resolved? <==> fetched.Resolved? && Ok(fetched.value) && fetched.value.json.Parsed?
    ensures result.Resolved? ==> result.value == fetched.value.json.value
  {
    match fetched
    case Rejected(m) => Rejected(m)
    case Resolved(r) =>
      if !Ok(r) then Rejected(ListFailureMessage(r.status, r.text)) else Body(r)
  }

  /** The request `createTask(taskData)` sends: always POST /tasks, so a subtask's
      parent travels only in the body. */
  function CreateTaskRequest(d: TaskData): (req: Request)
    ensures req.verb == POST && req.path == "/tasks" && req.body == Some(TaskDataJson(d))
  {
    Request(POST, "/tasks", Some(TaskDataJson(d)))
  }

  /** The request `updateTask(taskId, taskData)` sends. */
  function UpdateTaskRequest(taskId: int, data: Json): (req: Request)
    ensures req.verb == PUT && req.path == "/tasks/" + IntToString(taskId) && req.body == Some(data)
  {
    Request(PUT, "/tasks/" + IntToString(taskId), Some(data))
  }

  /** The request `deleteTask(taskId)` sends. */
  function DeleteTaskRequest(taskId: int): (req: Request)
    ensures req.verb == DELETE && req.path == "/tasks/" + IntToString(taskId) && req.body.None?
  {
    Request(DELETE, "/tasks/" + IntToString(taskId), None)
  }

  /** `createTask`, `updateTask` and `deleteTask` all settle the same way, given what
      `fetch` settled to. */
  function Mutation(fetched: Outcome<HttpResponse>): (result: Outcome<Json>)
    ensures fetched.Rejected? ==> result == Rejected(fetched.message)
    ensures fetched.Resolved? && !Ok(fetched.value) ==>
      result == Rejected(MutationErrorMessage(fetched.value.status, fetched.value.json))
    ensures result.Resolved? <==> fetched.Resolved? && Ok(fetched.value) && fetched.value.json.Parsed?
    ensures result.Resolved? ==> result.value == fetched.value.json.value
  {
    match fetched
    case Rejected(m) => Rejected(m)
    case Resolved(r) =>
      if !Ok(r) then Rejected(MutationErrorMessage(r.status, r.json)) else Body(r)
  }

  /** A failed mutation never reports the bare status when the server explained
      itself: a non-empty string `error` in the body is the message, word for word,
      and a body that is not JSON gives the fixed parse-failure text, never the
      status line. */
  lemma MutationMessageSources(r: HttpResponse)
    requires !Ok(r)
    ensures r.json.ParseError? ==> Mutation(Resolved(r)) == Rejected(FailedToParse)
    ensures r.json.Parsed? && ErrorField(r.json.value).Some? ==>
      Mutation(Resolved(r)) == Rejected(ErrorField(r.json.value).value)
    ensures Mutation(Resolved(r)).Rejected?
    ensures Mutation(Resolved(r)).message == StatusMessage(r.status) ==> r.json.Parsed?
  {
    if r.json.ParseError? {
      StatusMessageIsNotParseFailure(r.status);
    }
  }

  /** The status line names the status: different statuses give different messages. */
  lemma StatusMessageInjective(a: int, b: int)
    ensures StatusMessage(a) == StatusMessage(b) <==> a == b
  {
    if StatusMessage(a) == StatusMessage(b) {
      assert IntToString(a) == StatusMessage(a)[20..];
      IntToStringInjective(a, b);
    }
  }

  /** The status line and the parse-failure text never coincide. */
  lemma StatusMessageIsNotParseFailure(status: int)
    ensures StatusMessage(status) != FailedToParse
  {
    assert StatusMessage(status)[0] == 'H' != FailedToParse[0];
  }
}
