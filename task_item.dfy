/** frontend/src/components/complex/taskItem.tsx (`TaskItem`) and its copy inside
    frontend/src/App.tsx: one task's card. It maps status and priority to colour
    classes, holds an edit mode with four edit buffers, and renders its subtasks one
    level deeper. */
module TaskItemView {
  import opened Wrappers
  import opened Text
  import opened JsonValue
  import opened TaskList
  import TaskModel

  const Green: string := "bg-green-100 border-green-500"
  const Blue: string := "bg-blue-100 border-blue-500"
  const Yellow: string := "bg-yellow-100 border-yellow-500"
  const Gray: string := "bg-gray-100 border-gray-400"

  const HighBorder: string := "border-l-4 border-red-500"
  const MediumBorder: string := "border-l-4 border-yellow-500"
  const LowBorder: string := "border-l-4 border-green-500"
  const NoBorder: string := "border-l-4 border-gray-300"

  /** `getStatusColor`: a `switch` on `status?.toLowerCase()`. */
  function StatusColor(status: Option<string>): (c: string)
    ensures c in {Green, Blue, Yellow, Gray}
    ensures c == Green <==> status.Some? && ToLower(status.value) == "concluída"
    ensures c == Blue <==> status.Some? && ToLower(status.value) == "em andamento"
    ensures c == Yellow <==> status.Some? && ToLower(status.value) == "pendente"
    ensures c == Gray <==> status.None? || ToLower(status.value) !in {"concluída", "em andamento", "pendente"}
  {
    if status.None? then Gray
    else
      var s := ToLower(status.value);
      if s == "concluída" then Green
      else if s == "em andamento" then Blue
      else if s == "pendente" then Yellow
      else Gray
  }

  /** `getPriorityClasses`: a `switch` on `priority?.toLowerCase()`. */
  function PriorityClasses(priority: Option<string>): (c: string)
    ensures c in {HighBorder, MediumBorder, LowBorder, NoBorder}
    ensures c == HighBorder <==> priority.Some? && ToLower(priority.value) == "alta"
    ensures c == MediumBorder <==> priority.Some? && ToLower(priority.value) == "média"
    ensures c == LowBorder <==> priority.Some? && ToLower(priority.value) == "baixa"
    ensures c == NoBorder <==> priority.None? || ToLower(priority.value) !in {"alta", "média", "baixa"}
  {
    if priority.None? then NoBorder
    else
      var p := ToLower(priority.value);
      if p == "alta" then HighBorder
      else if p == "média" then MediumBorder
      else if p == "baixa" then LowBorder
      else NoBorder
  }

  /** Both tables ignore letter case. */
  lemma ColoursIgnoreCase(s: string)
    ensures StatusColor(Some(ToLower(s))) == StatusColor(Some(s))
    ensures PriorityClasses(Some(ToLower(s))) == PriorityClasses(Some(s))
  {
    ToLowerIdempotent(s);
  }

  /** `ToLower(s)` is `w` when lowering `s` letter by letter gives `w`. */
  lemma LowersTo(s: string, w: string)
    requires |s| == |w|
    requires forall i :: 0 <= i < |s| ==> LowerChar(s[i]) == w[i]
    ensures ToLower(s) == w
  {
  }

  /** Every status the edit select offers, and the backend's default status, gets a
      colour of its own rather than the gray fallback. */
  lemma OfferedStatusesAreColoured()
    ensures StatusColor(Some("Pendente")) == Yellow
    ensures StatusColor(Some("Em Andamento")) == Blue
    ensures StatusColor(Some("Concluída")) == Green
    ensures StatusColor(Some(TaskModel.DefaultStatus)) == Yellow
  {
    PendingIsYellow();
    InProgressIsBlue();
    DoneIsGreen();
  }

  lemma PendingIsYellow()
    ensures StatusColor(Some("Pendente")) == Yellow
  {
    LowersTo("Pendente", "pendente");
  }

  lemma InProgressIsBlue()
    ensures StatusColor(Some("Em Andamento")) == Blue
  {
    LowersTo("Em Andamento", "em andamento");
  }

  lemma DoneIsGreen()
    ensures StatusColor(Some("Concluída")) == Green
  {
    LowersTo("Concluída", "concluída");
  }

  /** Every priority the selects offer, and the backend's default priority, gets a
      border of its own rather than the gray fallback. */
  lemma OfferedPrioritiesAreColoured()
    ensures PriorityClasses(Some("Baixa")) == LowBorder
    ensures PriorityClasses(Some("Média")) == MediumBorder
    ensures PriorityClasses(Some("Alta")) == HighBorder
    ensures PriorityClasses(Some(TaskModel.DefaultPriority)) == MediumBorder
  {
    LowersTo("Baixa", "baixa");
    LowersTo("Média", "média");
    LowersTo("Alta", "alta");
  }

  const EditStatusDefault: string := "Pendente"
  const EditPriorityDefault: string := "Média"
  const SubtaskTitlePrefix: string := "Subtarefa de "

  /** `x || fallback` for an optional string: `undefined` and `""` both fall back. */
  function OrElse(x: Option<string>, fallback: string): (r: string)
    ensures x.Some? && x.value != "" ==> r == x.value
    ensures x.None? || x.value == "" ==> r == fallback
  {
    if x.Some? && x.value != "" then x.value else fallback
  }

  /** The object `handleUpdate` passes to `onUpdateTask`: exactly the four buffers. */
  function UpdatePatch(title: string, description: string, status: string, priority: string): (j: Json)
    ensures j.JObj? && j.fields.Keys == {"title", "description", "status", "priority"}
    ensures j.fields["title"] == JStr(title) && j.fields["description"] == JStr(description)
    ensures j.fields["status"] == JStr(status) && j.fields["priority"] == JStr(priority)
  {
    JObj(map["title" := JStr(title), "description" := JStr(description),
             "status" := JStr(status), "priority" := JStr(priority)])
  }

  /** What "+ Subtarefa" passes to `onAddSubtask`. */
  function AddSubtaskArguments(t: Task): (args: (int, string))
    ensures args.0 == t.id && |args.1| == |SubtaskTitlePrefix| + |t.title|
    ensures args.1[..|SubtaskTitlePrefix|] == SubtaskTitlePrefix && args.1[|SubtaskTitlePrefix|..] == t.title
  {
    (t.id, SubtaskTitlePrefix + t.title)
  }

  /** The title "+ Subtarefa" proposes is never blank, whatever the parent's title, so
      the backend's title check always lets it through. */
  lemma SubtaskTitleNeverBlank(t: Task)
    ensures AddSubtaskArguments(t).1 != ""
    ensures Trim(AddSubtaskArguments(t).1) != []
  {
    var s := AddSubtaskArguments(t).1;
    assert !IsWhitespace(s[0]);
    TrimEmptyIffBlank(s);
  }

  class TaskItem {
    const task: Task
    const level: nat
    var isEditing: bool
    var editedTitle: string
    var editedDescription: string
    var editedStatus: string
    var editedPriority: string

    /** The buffers start from the task, with "", "Pendente" and "Média" for a missing
        (or empty) description, status and priority. */
    constructor (task: Task, level: nat)
      ensures this.task == task && this.level == level && !isEditing
      ensures editedTitle == task.title
      ensures editedDescription == OrElse(task.description, "")
      ensures editedStatus == OrElse(task.status, EditStatusDefault)
      ensures editedPriority == OrElse(task.priority, EditPriorityDefault)
    {
      this.task := task;
      this.level := level;
      isEditing := false;
      editedTitle := task.title;
      editedDescription := OrElse(task.description, "");
      editedStatus := OrElse(task.status, EditStatusDefault);
      editedPriority := OrElse(task.priority, EditPriorityDefault);
    }

    /** "Editar". */
    method StartEditing()
      modifies this
      ensures isEditing
      ensures editedTitle == old(editedTitle) && editedDescription == old(editedDescription)
      ensures editedStatus == old(editedStatus) && editedPriority == old(editedPriority)
    {
      isEditing := true;
    }

    /** "Cancelar": leaves edit mode and keeps the buffers as they are. */
    method Cancel()
      modifies this
      ensures !isEditing
      ensures editedTitle == old(editedTitle) && editedDescription == old(editedDescription)
      ensures editedStatus == old(editedStatus) && editedPriority == old(editedPriority)
    {
      isEditing := false;
    }

    /** Typing into the title input. */
    method EditTitle(value: string)
      modifies this
      ensures editedTitle == value && isEditing == old(isEditing)
      ensures editedDescription == old(editedDescription)
      ensures editedStatus == old(editedStatus) && editedPriority == old(editedPriority)
    {
      editedTitle := value;
    }

    /** Typing into the description area. */
    method EditDescription(value: string)
      modifies this
      ensures editedDescription == value && isEditing == old(isEditing)
      ensures editedTitle == old(editedTitle)
      ensures editedStatus == old(editedStatus) && editedPriority == old(editedPriority)
    {
      editedDescription := value;
    }

    /** Choosing a status. */
    method EditStatus(value: string)
      modifies this
      ensures editedStatus == value && isEditing == old(isEditing)
      ensures editedTitle == old(editedTitle) && editedDescription == old(editedDescription)
      ensures editedPriority == old(editedPriority)
    {
      editedStatus := value;
    }

    /** Choosing a priority. */
    method EditPriority(value: string)
      modifies this
      ensures editedPriority == value && isEditing == old(isEditing)
      ensures editedTitle == old(editedTitle) && editedDescription == old(editedDescription)
      ensures editedStatus == old(editedStatus)
    {
      editedPriority := value;
    }

    /** "Salvar" (`handleUpdate`), given what `onUpdateTask` settled to: it sends the
        four buffers for this task's id and leaves edit mode only when the call
        resolved. */
    method Save(settled: Outcome<()>) returns (taskId: int, patch: Json)
      modifies this
      ensures taskId == task.id
      ensures patch == UpdatePatch(editedTitle, editedDescription, editedStatus, editedPriority)
      ensures isEditing == (old(isEditing) && settled.Rejected?)
      ensures editedTitle == old(editedTitle) && editedDescription == old(editedDescription)
      ensures editedStatus == old(editedStatus) && editedPriority == old(editedPriority)
    {
      taskId := task.id;
      patch := UpdatePatch(editedTitle, editedDescription, editedStatus, editedPriority);
      if settled.Resolved? {
        isEditing := false;
      }
    }
  }

  /** One rendered card: its task, its depth and its `marginLeft` in pixels. */
  datatype Line = Line(taskId: int, level: nat, marginLeft: int)

  /** A card followed by its subtasks' cards, pre-order, children one level deeper. */
  function Layout(t: Task, level: nat): (lines: seq<Line>)
    ensures |lines| >= 1 && lines[0] == Line(t.id, level, level * 20)
    ensures forall i :: 0 <= i < |lines| ==> lines[i].level >= level && lines[i].marginLeft == lines[i].level * 20
    ensures forall i :: 1 <= i < |lines| ==> lines[i].level > level
    decreases t
  {
    [Line(t.id, level, level * 20)] + LayoutList(t.subtasks, level + 1)
  }

  /** The cards of a list of sibling tasks, in list order. */
  function LayoutList(ts: seq<Task>, level: nat): (lines: seq<Line>)
    ensures forall i :: 0 <= i < |lines| ==> lines[i].level >= level && lines[i].marginLeft == lines[i].level * 20
    ensures |lines| >= |ts|
    ensures ts != [] ==> lines[0] == Line(ts[0].id, level, level * 20)
    ensures ts == [] <==> lines == []
    decreases ts
  {
    if ts == [] then [] else Layout(ts[0], level) + LayoutList(ts[1..], level)
  }

  /** The ids of the cards drawn at depth `k`, top to bottom. */
  function AtLevel(lines: seq<Line>, k: nat): (ids: seq<int>)
    ensures |ids| <= |lines|
  {
    if lines == [] then []
    else (if lines[0].level == k then [lines[0].taskId] else []) + AtLevel(lines[1..], k)
  }

  /** The ids of a list of tasks, in list order. */
  function TaskIds(ts: seq<Task>): (ids: seq<int>)
    ensures |ids| == |ts| && forall i :: 0 <= i < |ts| ==> ids[i] == ts[i].id
  {
    seq(|ts|, i requires 0 <= i < |ts| => ts[i].id)
  }

  lemma {:induction false} AtLevelAppend(a: seq<Line>, b: seq<Line>, k: nat)
    ensures AtLevel(a + b, k) == AtLevel(a, k) + AtLevel(b, k)
  {
    if a == [] {
      assert a + b == b;
    } else {
      var head: seq<int> := if a[0].level == k then [a[0].taskId] else [];
      assert (a + b)[0] == a[0];
      assert (a + b)[1..] == a[1..] + b;
      assert AtLevel(a + b, k) == head + AtLevel(a[1..] + b, k);
      assert AtLevel(a, k) == head + AtLevel(a[1..], k);
      AtLevelAppend(a[1..], b, k);
      assert head + (AtLevel(a[1..], k) + AtLevel(b, k)) == (head + AtLevel(a[1..], k)) + AtLevel(b, k);
    }
  }

  lemma {:induction false} AtLevelNone(lines: seq<Line>, k: nat)
    requires forall i :: 0 <= i < |lines| ==> lines[i].level > k
    ensures AtLevel(lines, k) == []
  {
    if lines != [] {
      AtLevelNone(lines[1..], k);
    }
  }

  /** Among the cards of a sibling list, those at the siblings' own depth are the
      siblings themselves, in list order: deeper cards never sit at that depth. */
  lemma {:induction false} SiblingsInOrder(ts: seq<Task>, level: nat)
    ensures AtLevel(LayoutList(ts, level), level) == TaskIds(ts)
    decreases ts
  {
    if ts != [] {
      var first := Layout(ts[0], level);
      SiblingsInOrder(ts[1..], level);
      AtLevelAppend(first, LayoutList(ts[1..], level), level);
      AtLevelAppend([first[0]], first[1..], level);
      assert first == [first[0]] + first[1..];
      AtLevelNone(first[1..], level);
      assert TaskIds(ts) == [ts[0].id] + TaskIds(ts[1..]);
    }
  }

  /** A card's direct subtasks are drawn exactly one level deeper, in `subtasks`
      order, and nothing else is drawn at that depth under it. */
  lemma SubtasksOneLevelDown(t: Task, level: nat)
    ensures AtLevel(Layout(t, level), level + 1) == TaskIds(t.subtasks)
    ensures AtLevel(Layout(t, level), level) == [t.id]
  {
    var rest := LayoutList(t.subtasks, level + 1);
    assert Layout(t, level) == [Line(t.id, level, level * 20)] + rest;
    AtLevelAppend([Line(t.id, level, level * 20)], rest, level + 1);
    AtLevelAppend([Line(t.id, level, level * 20)], rest, level);
    SiblingsInOrder(t.subtasks, level + 1);
    AtLevelNone(rest, level);
  }
}
