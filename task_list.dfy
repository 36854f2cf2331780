/** frontend/src/pages/tasksManage.tsx (`TasksManage`) and its copy `App` in
    frontend/src/App.tsx: the task list page. Its state is the fetched list, an error
    banner, a loading flag and the three fields of the "Nova Tarefa" form. Every
    awaited service call is an input: the handler is given what the call settled to.
    `fetchTasks` is split at its `await` into `StartFetch` and `FinishFetch`, because
    the handlers start a refetch without awaiting it. */
module TaskList {
  import opened Wrappers
  import opened Text
  import opened JsonValue
  import TaskService

  /** The `Task` interface. A missing `subtasks` array renders like an empty one, so
      both are `[]` here; `parentId` is `None` for both `null` and an absent key. */
  datatype Task = Task(
    id: int,
    title: string,
    description: Option<string>,
    dueDate: Option<string>,
    status: Option<string>,
    priority: Option<string>,
    parentId: Option<int>,
    subtasks: seq<Task>,
    createdAt: Option<string>,
    updatedAt: Option<string>)

  /** `!task.parent_id`: null, undefined and 0 are all falsy. */
  predicate IsRoot(t: Task)
    ensures IsRoot(t) <==> t.parentId.None? || !Truthy(JInt(t.parentId.value))
  {
    t.parentId.None? || t.parentId == Some(0)
  }

  /** `tasks.filter(task => !task.parent_id)`. */
  function RootTasks(tasks: seq<Task>): (roots: seq<Task>)
    ensures |roots| <= |tasks|
    ensures forall i :: 0 <= i < |roots| ==> IsRoot(roots[i])
  {
    if tasks == [] then []
    else (if IsRoot(tasks[0]) then [tasks[0]] else []) + RootTasks(tasks[1..])
  }

  /** A task is listed at root level exactly when it was fetched and has a falsy parent. */
  lemma {:induction false} RootTasksMembership(tasks: seq<Task>, t: Task)
    ensures t in RootTasks(tasks) <==> t in tasks && IsRoot(t)
  {
    if tasks != [] {
      RootTasksMembership(tasks[1..], t);
      assert tasks == [tasks[0]] + tasks[1..];
    }
  }

  /** The filter keeps fetched order: filtering a concatenation concatenates the
      filtered parts. */
  lemma {:induction false} RootTasksAppend(a: seq<Task>, b: seq<Task>)
    ensures RootTasks(a + b) == RootTasks(a) + RootTasks(b)
  {
    if a != [] {
      RootTasksAppend(a[1..], b);
      assert (a + b)[0] == a[0];
      assert (a + b)[1..] == a[1..] + b;
      var head := if IsRoot(a[0]) then [a[0]] else [];
      calc {
        RootTasks(a + b);
        head + RootTasks(a[1..] + b);
        head + (RootTasks(a[1..]) + RootTasks(b));
        (head + RootTasks(a[1..])) + RootTasks(b);
        RootTasks(a) + RootTasks(b);
      }
    } else {
      assert a + b == b;
    }
  }

  /** Filtering twice is filtering once. */
  lemma {:induction false} RootTasksIdempotent(tasks: seq<Task>)
    ensures RootTasks(RootTasks(tasks)) == RootTasks(tasks)
  {
    if tasks != [] {
      RootTasksIdempotent(tasks[1..]);
      var head := if IsRoot(tasks[0]) then [tasks[0]] else [];
      RootTasksAppend(head, RootTasks(tasks[1..]));
    }
  }

  /** A list of roots is shown whole and in order. */
  lemma {:induction false} RootTasksOfRoots(tasks: seq<Task>)
    requires forall i :: 0 <= i < |tasks| ==> IsRoot(tasks[i])
    ensures RootTasks(tasks) == tasks
  {
    if tasks != [] {
      RootTasksOfRoots(tasks[1..]);
    }
  }

  /** What the "Minhas Tarefas" section shows. */
  datatype View = LoadingText | EmptyText | TaskListView(roots: seq<Task>)

  /** The view choice: the loading text wins, then the empty-list text (only when
      there is no error), otherwise the root list, which may be empty. */
  function ViewOf(isLoading: bool, tasks: seq<Task>, error: Option<string>): (v: View)
    ensures v == LoadingText <==> isLoading
    ensures v == EmptyText <==> !isLoading && tasks == [] && error.None?
    ensures v.TaskListView? ==> v.roots == RootTasks(tasks)
  {
    if isLoading then LoadingText
    else if tasks == [] && error.None? then EmptyText
    else TaskListView(RootTasks(tasks))
  }

  /** The empty-list text never shows next to an error, and a failed load (no tasks,
      an error) shows an empty list under the error banner. */
  lemma ViewWithError(tasks: seq<Task>, error: Option<string>)
    requires error.Some?
    ensures ViewOf(false, tasks, error) == TaskListView(RootTasks(tasks))
    ensures tasks == [] ==> ViewOf(false, tasks, error) == TaskListView([])
  {
  }

  const LoadFailurePrefix: string := "Falha ao carregar tarefas: "
  const BackendHint: string := ". Verifique se o backend está rodando e acessível em http://127.0.0.1:5000."
  const CreateFailurePrefix: string := "Falha ao criar tarefa: "
  const UpdateFailurePrefix: string := "Falha ao atualizar tarefa: "
  const DeleteFailurePrefix: string := "Falha ao excluir tarefa: "
  const AddSubtaskFailurePrefix: string := "Falha ao adicionar subtarefa: "

  const DefaultFormPriority: string := "Média"
  const NewTaskStatus: string := "Pendente"
  const SubtaskDescription: string := "Nova subtarefa"

  /** The banner text after a failed load. */
  function LoadFailure(message: string): (banner: string)
    ensures |banner| == |LoadFailurePrefix| + |message| + |BackendHint|
    ensures banner[..|LoadFailurePrefix|] == LoadFailurePrefix
    ensures banner[|LoadFailurePrefix|..|LoadFailurePrefix| + |message|] == message
    ensures banner[|LoadFailurePrefix| + |message|..] == BackendHint
  {
    LoadFailurePrefix + message + BackendHint
  }

  /** What the page asks `createTask` for when the form is submitted. */
  function NewTaskData(title: string, description: string, priority: string): (d: TaskService.TaskData)
    ensures d.title == title && d.description == Some(description) && d.priority == Some(priority)
    ensures d.status == Some(NewTaskStatus) && d.parentId.None?
    ensures d.dueDate.None? && d.responsible.None? && d.responsibleId.None?
  {
    TaskService.TaskData(title, Some(description), Some(priority), None, Some(NewTaskStatus), None, None, None)
  }

  /** What `handleAddSubtask` asks `createTask` for. */
  function SubtaskData(parentId: int, title: string): (d: TaskService.TaskData)
    ensures d.title == title && d.parentId == Some(parentId)
    ensures d.description == Some(SubtaskDescription) && d.priority == Some(DefaultFormPriority)
    ensures d.status == Some(NewTaskStatus)
    ensures d.dueDate.None? && d.responsible.None? && d.responsibleId.None?
  {
    TaskService.TaskData(title, Some(SubtaskDescription), Some(DefaultFormPriority), Some(parentId),
      Some(NewTaskStatus), None, None, None)
  }

  class TasksPage {
    var tasks: seq<Task>
    var error: Option<string>
    var isLoading: bool
    var newTaskTitle: string
    var newTaskDescription: string
    var newTaskPriority: string

    /** The initial state; the mount effect then calls `StartFetch`. */
    constructor ()
      ensures tasks == [] && error.None? && isLoading
      ensures newTaskTitle == "" && newTaskDescription == "" && newTaskPriority == DefaultFormPriority
    {
      tasks := [];
      error := None;
      isLoading := true;
      newTaskTitle := "";
      newTaskDescription := "";
      newTaskPriority := DefaultFormPriority;
    }

    function View(): (v: View)
      reads this
      ensures v == LoadingText <==> isLoading
      ensures v == EmptyText <==> !isLoading && tasks == [] && error.None?
      ensures v.TaskListView? ==> v.roots == RootTasks(tasks) && forall i :: 0 <= i < |v.roots| ==> IsRoot(v.roots[i])
    {
      ViewOf(isLoading, tasks, error)
    }

    /** `fetchTasks` up to its `await`: the loading text shows and the banner clears. */
    method StartFetch()
      modifies this
      ensures isLoading && error.None? && tasks == old(tasks)
      ensures newTaskTitle == old(newTaskTitle) && newTaskDescription == old(newTaskDescription)
      ensures newTaskPriority == old(newTaskPriority)
      ensures View() == LoadingText
    {
      isLoading := true;
      error := None;
    }

    /** `fetchTasks` after its `await`, given what `getTasks` settled to (`None` for a
        nullish body). A failure drops the previous list. */
    method FinishFetch(fetched: Outcome<Option<seq<Task>>>)
      modifies this
      ensures !isLoading
      ensures fetched.Resolved? ==> error == old(error) && tasks == (if fetched.value.Some? then fetched.value.value else [])
      ensures fetched.Rejected? ==> error == Some(LoadFailure(fetched.message)) && tasks == []
      ensures newTaskTitle == old(newTaskTitle) && newTaskDescription == old(newTaskDescription)
      ensures newTaskPriority == old(newTaskPriority)
    {
      match fetched {
        case Resolved(list) =>
          tasks := if list.Some? then list.value else [];
        case Rejected(message) =>
          error := Some(LoadFailure(message));
          tasks := [];
      }
      isLoading := false;
    }

    /** The whole of `fetchTasks` when nothing runs in between: the banner ends up
        cleared on success. */
    method FetchTasks(fetched: Outcome<Option<seq<Task>>>)
      modifies this
      ensures !isLoading
      ensures fetched.Resolved? ==> error.None? && tasks == (if fetched.value.Some? then fetched.value.value else [])
      ensures fetched.Rejected? ==> error == Some(LoadFailure(fetched.message)) && tasks == []
      ensures newTaskTitle == old(newTaskTitle) && newTaskDescription == old(newTaskDescription)
      ensures newTaskPriority == old(newTaskPriority)
    {
      StartFetch();
      FinishFetch(fetched);
    }

    /** `handleCreateTask`, given what `createTask` settled to. `sent` is what the page
        passed to `createTask`, `None` when it made no call: a blank title (empty after
        `trim`) changes nothing. Success resets the form and starts a refetch; failure
        sets the banner and keeps the list and the form. */
    method HandleCreateTask(created: Outcome<Json>) returns (sent: Option<TaskService.TaskData>)
      modifies this
      ensures Trim(old(newTaskTitle)) == [] ==> sent.None?
      ensures Trim(old(newTaskTitle)) == [] ==>
        tasks == old(tasks) && error == old(error) && isLoading == old(isLoading)
        && newTaskTitle == old(newTaskTitle) && newTaskDescription == old(newTaskDescription)
        && newTaskPriority == old(newTaskPriority)
      ensures Trim(old(newTaskTitle)) != [] ==>
        sent == Some(NewTaskData(old(newTaskTitle), old(newTaskDescription), old(newTaskPriority)))
      ensures Trim(old(newTaskTitle)) != [] && created.Resolved? ==>
        newTaskTitle == "" && newTaskDescription == "" && newTaskPriority == DefaultFormPriority
        && isLoading && error.None? && tasks == old(tasks)
      ensures Trim(old(newTaskTitle)) != [] && created.Rejected? ==>
        error == Some(CreateFailurePrefix + created.message)
        && tasks == old(tasks) && isLoading == old(isLoading)
        && newTaskTitle == old(newTaskTitle) && newTaskDescription == old(newTaskDescription)
        && newTaskPriority == old(newTaskPriority)
    {
      if Trim(newTaskTitle) == [] {
        return None;
      }
      sent := Some(NewTaskData(newTaskTitle, newTaskDescription, newTaskPriority));
      match created {
        case Resolved(_) =>
          newTaskTitle := "";
          newTaskDescription := "";
          newTaskPriority := DefaultFormPriority;
          StartFetch();
        case Rejected(message) =>
          error := Some(CreateFailurePrefix + message);
      }
    }

    /** `handleUpdateTask`, given what `updateTask` settled to. Its own promise always
        resolves, whatever the update did: `settled` is what the caller awaits. */
    method HandleUpdateTask(updated: Outcome<Json>) returns (settled: Outcome<()>)
      modifies this
      ensures settled.Resolved?
      ensures updated.Resolved? ==> isLoading && error.None? && tasks == old(tasks)
      ensures updated.Rejected? ==>
        error == Some(UpdateFailurePrefix + updated.message)
        && tasks == old(tasks) && isLoading == old(isLoading)
      ensures newTaskTitle == old(newTaskTitle) && newTaskDescription == old(newTaskDescription)
      ensures newTaskPriority == old(newTaskPriority)
    {
      match updated {
        case Resolved(_) =>
          StartFetch();
        case Rejected(message) =>
          error := Some(UpdateFailurePrefix + message);
      }
      settled := Resolved(());
    }

    /** `handleDeleteTask`, given what `deleteTask` settled to. */
    method HandleDeleteTask(deleted: Outcome<Json>)
      modifies this
      ensures deleted.Resolved? ==> isLoading && error.None? && tasks == old(tasks)
      ensures deleted.Rejected? ==>
        error == Some(DeleteFailurePrefix + deleted.message)
        && tasks == old(tasks) && isLoading == old(isLoading)
      ensures newTaskTitle == old(newTaskTitle) && newTaskDescription == old(newTaskDescription)
      ensures newTaskPriority == old(newTaskPriority)
    {
      match deleted {
        case Resolved(_) =>
          StartFetch();
        case Rejected(message) =>
          error := Some(DeleteFailurePrefix + message);
      }
    }

    /** `handleAddSubtask(parentId, subtaskTitle)`, given what `createTask` settled to;
        `sent` is what it passed to `createTask`. */
    method HandleAddSubtask(parentId: int, subtaskTitle: string, created: Outcome<Json>)
      returns (sent: TaskService.TaskData)
      modifies this
      ensures sent == SubtaskData(parentId, subtaskTitle)
      ensures created.Resolved? ==> isLoading && error.None? && tasks == old(tasks)
      ensures created.Rejected? ==>
        error == Some(AddSubtaskFailurePrefix + created.message)
        && tasks == old(tasks) && isLoading == old(isLoading)
      ensures newTaskTitle == old(newTaskTitle) && newTaskDescription == old(newTaskDescription)
      ensures newTaskPriority == old(newTaskPriority)
    {
      sent := SubtaskData(parentId, subtaskTitle);
      match created {
        case Resolved(_) =>
          StartFetch();
        case Rejected(message) =>
          error := Some(AddSubtaskFailurePrefix + message);
      }
    }
  }
}
