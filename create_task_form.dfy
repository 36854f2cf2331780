/** frontend/src/pages/create-taks.tsx (`CreateTask`): the stand-alone "Criar Tarefa"
    form. It reads its fields, looks the chosen responsible user up in the list loaded
    on mount, refuses incomplete input, and tracks a `loading` and a `success` flag
    around the `createTask` call. */
module CreateTaskForm {
  import opened Wrappers
  import opened Text
  import opened JsonValue
  import TaskService
  import TaskItemView

  /** An element of the list `getUsers` returns. */
  datatype User = User(id: int, email: string, username: string)

  /** What `new FormData(form).get(...)` reads for each named control. */
  datatype FormFields = FormFields(
    taskName: string,
    taskDescription: string,
    taskPriority: string,
    taskDeadline: string,
    taskResponsible: string)

  /** The `value` of a user's `<option>`: `user.id` as text. */
  function OptionValue(u: User): string
  {
    IntToString(u.id)
  }

  /** `users.find(user => user.username === name)`. */
  function FindByUsername(users: seq<User>, name: string): (found: Option<User>)
    ensures found.Some? ==> found.value in users && found.value.username == name
    ensures found.None? <==> forall i :: 0 <= i < |users| ==> users[i].username != name
    ensures found.Some? ==>
      exists i :: 0 <= i < |users| && users[i] == found.value && forall j :: 0 <= j < i ==> users[j].username != name
  {
    if users == [] then None
    else if users[0].username == name then Some(users[0])
    else
      var rest := FindByUsername(users[1..], name);
      assert rest.Some? ==> forall i :: 0 <= i < |users| - 1 ==> users[1..][i] == users[i + 1];
      rest
  }

  /** The lookup as written: `users.find(user => user.username === selected)?.id || 0`,
      where `selected` is the chosen option's value. A found id is kept (an id of 0
      falls back to 0 anyway). */
  function ResponsibleIdAsWritten(users: seq<User>, selected: string): (r: int)
    ensures (forall i :: 0 <= i < |users| ==> users[i].username != selected) ==> r == 0
    ensures forall i :: (0 <= i < |users| && users[i].username == selected &&
      forall j :: 0 <= j < i ==> users[j].username != selected) ==> r == users[i].id
  {
    var found := FindByUsername(users, selected);
    if found.Some? then found.value.id else 0
  }

  /** Choosing a listed user never yields that user's id when no username is made of
      digits: the option's value is the id's text, which is compared with usernames. */
  lemma ResponsibleLookupIgnoresOptions(users: seq<User>, u: User)
    requires u in users && u.id >= 0
    requires forall i :: 0 <= i < |users| ==> !IsDigits(users[i].username)
    ensures ResponsibleIdAsWritten(users, OptionValue(u)) == 0
  {
    assert IsDigits(OptionValue(u));
  }

  /** A concrete instance: one user "ana" with id 1; choosing her submits
      responsible_id 0, and the form refuses to submit. */
  lemma ResponsibleLookupCounterexample()
    ensures var users := [User(1, "ana@example.com", "ana")];
      ResponsibleIdAsWritten(users, OptionValue(users[0])) == 0
      && !Accepted(TaskDataAsWritten(users, FormFields("Relatório", "", "medium", "2025-06-30", OptionValue(users[0]))))
  {
    var users := [User(1, "ana@example.com", "ana")];
    assert OptionValue(users[0]) == "1";
  }

  /** `users.find(user => String(user.id) === selected)`: the lookup matched against
      what the options actually carry. */
  function FindById(users: seq<User>, selected: string): (found: Option<User>)
    ensures found.Some? ==> found.value in users && OptionValue(found.value) == selected
    ensures found.None? <==> forall i :: 0 <= i < |users| ==> OptionValue(users[i]) != selected
  {
    if users == [] then None
    else if OptionValue(users[0]) == selected then Some(users[0])
    else FindById(users[1..], selected)
  }

  /** The corrected lookup: the id of the user whose option was chosen, or 0. */
  function ResponsibleId(users: seq<User>, selected: string): (r: int)
    ensures (forall i :: 0 <= i < |users| ==> OptionValue(users[i]) != selected) ==> r == 0
    ensures r != 0 ==> exists i :: 0 <= i < |users| && OptionValue(users[i]) == selected && users[i].id == r
  {
    var found := FindById(users, selected);
    if found.Some? then found.value.id else 0
  }

  /** With the corrected lookup, choosing any listed user submits that user's id, and
      the placeholder option ("") submits 0. */
  lemma {:induction false} ResponsibleIdFindsChosenUser(users: seq<User>, u: User)
    requires u in users
    ensures ResponsibleId(users, OptionValue(u)) == u.id
    ensures ResponsibleId(users, "") == 0
  {
    var found := FindById(users, OptionValue(u));
    assert found.Some?;
    IntToStringInjective(found.value.id, u.id);
  }

  /** The `TaskData` built from the form, given the lookup's result. */
  function TaskDataWith(f: FormFields, responsibleId: int): (d: TaskService.TaskData)
    ensures d.title == f.taskName && d.dueDate == Some(f.taskDeadline)
    ensures d.responsible == Some(f.taskResponsible) && d.responsibleId == Some(responsibleId)
    ensures d.description == Some(f.taskDescription) && d.priority == Some(f.taskPriority)
    ensures d.parentId.None? && d.status.None?
  {
    TaskService.TaskData(f.taskName, Some(f.taskDescription), Some(f.taskPriority), None, None,
      Some(f.taskDeadline), Some(f.taskResponsible), Some(responsibleId))
  }

  /** The `TaskData` the form submits as written: the username lookup's result. */
  function TaskDataAsWritten(users: seq<User>, f: FormFields): (d: TaskService.TaskData)
    ensures d.title == f.taskName && d.dueDate == Some(f.taskDeadline) && d.responsibleId.Some?
    ensures d.responsibleId.value != 0 ==>
      exists i :: 0 <= i < |users| && users[i].username == f.taskResponsible && users[i].id == d.responsibleId.value
  {
    TaskDataWith(f, ResponsibleIdAsWritten(users, f.taskResponsible))
  }

  /** The `TaskData` the form submits, with the corrected lookup. */
  function Submission(users: seq<User>, f: FormFields): (d: TaskService.TaskData)
    ensures d.title == f.taskName && d.dueDate == Some(f.taskDeadline) && d.responsibleId.Some?
    ensures d.responsibleId.value != 0 ==>
      exists i :: 0 <= i < |users| && OptionValue(users[i]) == f.taskResponsible && users[i].id == d.responsibleId.value
  {
    TaskDataWith(f, ResponsibleId(users, f.taskResponsible))
  }

  /** `!(!title || !due_date || !responsible_id)`. */
  predicate Accepted(d: TaskService.TaskData)
    ensures Accepted(d) <==>
      Truthy(JStr(d.title)) && d.dueDate.Some? && Truthy(JStr(d.dueDate.value))
      && d.responsibleId.Some? && Truthy(JInt(d.responsibleId.value))
  {
    d.title != "" && d.dueDate.Some? && d.dueDate.value != ""
    && d.responsibleId.Some? && d.responsibleId.value != 0
  }

  /** With the corrected lookup, a form is accepted exactly when it has a name, a
      deadline, and a chosen user whose id is not 0. */
  lemma AcceptedSubmission(users: seq<User>, f: FormFields, u: User)
    requires u in users && f.taskResponsible == OptionValue(u)
    ensures Accepted(Submission(users, f)) <==> f.taskName != "" && f.taskDeadline != "" && u.id != 0
  {
    ResponsibleIdFindsChosenUser(users, u);
  }

  /** As written, a form is accepted exactly when it has a name, a deadline, and some
      user's username equals the chosen option's value, the first such user having an
      id other than 0. */
  lemma AcceptedAsWritten(users: seq<User>, f: FormFields)
    ensures Accepted(TaskDataAsWritten(users, f)) <==>
      f.taskName != "" && f.taskDeadline != "" &&
      exists i :: 0 <= i < |users| && users[i].username == f.taskResponsible &&
        (forall j :: 0 <= j < i ==> users[j].username != f.taskResponsible) && users[i].id != 0
  {
    var d := TaskDataAsWritten(users, f);
    var found := FindByUsername(users, f.taskResponsible);
    if found.Some? {
      var i :| 0 <= i < |users| && users[i] == found.value &&
        forall j :: 0 <= j < i ==> users[j].username != f.taskResponsible;
      assert d.responsibleId.value == users[i].id;
    }
  }

  /** The form's priority options are "low", "medium" and "high", which the task list
      does not recognise: tasks created here get the gray border. */
  lemma FormPrioritiesAreUncoloured()
    ensures TaskItemView.PriorityClasses(Some("low")) == TaskItemView.NoBorder
    ensures TaskItemView.PriorityClasses(Some("medium")) == TaskItemView.NoBorder
    ensures TaskItemView.PriorityClasses(Some("high")) == TaskItemView.NoBorder
  {
    TaskItemView.LowersTo("low", "low");
    TaskItemView.LowersTo("medium", "medium");
    TaskItemView.LowersTo("high", "high");
  }

  class CreateTaskPage {
    var users: seq<User>
    var loading: bool
    var success: bool

    constructor ()
      ensures users == [] && !loading && !success
    {
      users := [];
      loading := false;
      success := false;
    }

    /** The mount effect, given what `getUsers` settled to; a failure only toasts. */
    method UsersFetched(fetched: Outcome<seq<User>>)
      modifies this
      ensures users == (if fetched.Resolved? then fetched.value else old(users))
      ensures loading == old(loading) && success == old(success)
    {
      if fetched.Resolved? {
        users := fetched.value;
      }
    }

    /** `disabled={loading || success}`. */
    function SubmitDisabled(): (disabled: bool)
      reads this
      ensures success ==> disabled
      ensures !disabled <==> !loading && !success
    {
      loading || success
    }

    /** `handleSubmit` up to the `createTask` call, with the username lookup as
        written. `form` is `None` when there is no form element; `sent` is what was
        passed to `createTask`, `None` when no call was made. */
    method HandleSubmit(form: Option<FormFields>) returns (sent: Option<TaskService.TaskData>)
      modifies this
      ensures form.None? ==> sent.None?
      ensures form.Some? ==> (sent.Some? <==> Accepted(TaskDataAsWritten(users, form.value)))
      ensures sent.Some? ==> sent.value == TaskDataAsWritten(users, form.value) && loading
      ensures sent.None? ==> loading == old(loading)
      ensures users == old(users) && success == old(success)
    {
      if form.None? {
        return None;
      }
      var data := TaskDataAsWritten(users, form.value);
      if !Accepted(data) {
        return None;
      }
      loading := true;
      sent := Some(data);
    }

    /** `handleSubmit` with the corrected lookup by option value. */
    method HandleSubmitCorrected(form: Option<FormFields>) returns (sent: Option<TaskService.TaskData>)
      modifies this
      ensures form.None? ==> sent.None?
      ensures form.Some? ==> (sent.Some? <==> Accepted(Submission(users, form.value)))
      ensures sent.Some? ==> sent.value == Submission(users, form.value) && loading
      ensures sent.None? ==> loading == old(loading)
      ensures users == old(users) && success == old(success)
    {
      if form.None? {
        return None;
      }
      var data := Submission(users, form.value);
      if !Accepted(data) {
        return None;
      }
      loading := true;
      sent := Some(data);
    }

    /** The `then`/`catch`/`finally` chain, given what `createTask` settled to:
        `success` only ever becomes true, and `loading` ends false either way. */
    method Settle(created: Outcome<Json>)
      modifies this
      ensures !loading
      ensures success == (old(success) || created.Resolved?)
      ensures users == old(users)
    {
      if created.Resolved? {
        success := true;
      }
      loading := false;
    }
  }
}
