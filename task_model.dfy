/** The `tasks` table (backend/src/models/task.py): one row per task, a nullable
    `parent_id` pointing at another row, and the `to_dict` serialiser that nests the
    direct subtasks one level deep. */
module TaskModel {
  import opened Wrappers
  import opened JsonValue

  /** A stored `datetime`: the instant it denotes (for ordering) and the text
      `isoformat()` prints for it. */
  datatype DateTime = DateTime(instant: int, iso: string)

  /** Column defaults of `status` and `priority`. */
  const DefaultStatus: string := "Pendente"
  const DefaultPriority: string := "Média"

  /** One row of `tasks`. `title`, `status` and `priority` are NOT NULL columns;
      every other column is nullable. */
  datatype Row = Row(
    id: int,
    title: string,
    description: Option<string>,
    dueDate: Option<DateTime>,
    status: string,
    priority: string,
    responsible: Option<string>,
    responsibleId: Option<int>,
    createdAt: Option<DateTime>,
    updatedAt: Option<DateTime>,
    parentId: Option<int>)

  /** The keys `to_dict` always writes. */
  const BaseKeys: set<string> :=
    {"id", "title", "description", "due_date", "status", "priority", "responsible",
     "responsible_id", "created_at", "updated_at", "parent_id"}

  function StrOrNull(s: Option<string>): (j: Json)
    ensures Scalar(j)
    ensures j == JNull <==> s.None?
    ensures s.Some? ==> j == JStr(s.value)
  {
    if s.Some? then JStr(s.value) else JNull
  }

  function IntOrNull(i: Option<int>): (j: Json)
    ensures Scalar(j)
    ensures j == JNull <==> i.None?
    ensures i.Some? ==> j == JInt(i.value)
  {
    if i.Some? then JInt(i.value) else JNull
  }

  /** `d.isoformat() if d else None`. */
  function IsoOrNull(d: Option<DateTime>): (j: Json)
    ensures Scalar(j)
    ensures j == JNull <==> d.None?
    ensures d.Some? ==> j == JStr(d.value.iso)
  {
    if d.Some? then JStr(d.value.iso) else JNull
  }

  /** The dictionary literal of `to_dict`: eleven keys, each mapped to a scalar. */
  function ColumnsDict(row: Row): (m: map<string, Json>)
    ensures m.Keys == BaseKeys
    ensures forall k :: k in m ==> Scalar(m[k])
  {
    map[
      "id" := JInt(row.id),
      "title" := JStr(row.title),
      "description" := StrOrNull(row.description),
      "due_date" := IsoOrNull(row.dueDate),
      "status" := JStr(row.status),
      "priority" := JStr(row.priority),
      "responsible" := StrOrNull(row.responsible),
      "responsible_id" := IntOrNull(row.responsibleId),
      "created_at" := IsoOrNull(row.createdAt),
      "updated_at" := IsoOrNull(row.updatedAt),
      "parent_id" := IntOrNull(row.parentId)]
  }

  /** `task.to_dict(include_subtasks)`. `subtasks` stands for what the `subtasks`
      relationship yields for this row (the rows whose `parent_id` is this row's id,
      in no particular order); each of them is serialised with
      `include_subtasks=False`, so the output never nests deeper than two levels. */
  function ToDict(row: Row, includeSubtasks: bool, subtasks: seq<Row>): (d: Json)
    ensures d.JObj?
    ensures d.fields.Keys == if includeSubtasks then BaseKeys + {"subtasks"} else BaseKeys
    ensures !includeSubtasks ==> FlatObject(d)
    ensures includeSubtasks ==>
      d.fields["subtasks"].JArr? && |d.fields["subtasks"].items| == |subtasks| &&
      forall i :: 0 <= i < |subtasks| ==>
        FlatObject(d.fields["subtasks"].items[i]) &&
        d.fields["subtasks"].items[i].fields.Keys == BaseKeys
    ensures AtMostTwoLevels(d)
    decreases includeSubtasks
  {
    var base := ColumnsDict(row);
    if includeSubtasks then
      var children := seq(|subtasks|, i requires 0 <= i < |subtasks| => ToDict(subtasks[i], false, []));
      assert "subtasks" !in BaseKeys;
      JObj(base["subtasks" := JArr(children)])
    else
      JObj(base)
  }

  /** Every column is written under its own key, whatever `include_subtasks` says:
      the serialised `parent_id` is the row's, `null` exactly for a root, the three
      datetimes are their ISO text or `null`, and the nullable text and number
      columns are their value or `null`. */
  lemma ToDictColumns(row: Row, includeSubtasks: bool, subtasks: seq<Row>)
    ensures var f := ToDict(row, includeSubtasks, subtasks).fields;
      && f["id"] == JInt(row.id)
      && f["title"] == JStr(row.title)
      && f["status"] == JStr(row.status)
      && f["priority"] == JStr(row.priority)
      && (f["parent_id"] == JNull <==> row.parentId.None?)
      && (row.parentId.Some? ==> f["parent_id"] == JInt(row.parentId.value))
      && (f["due_date"] == JNull <==> row.dueDate.None?)
      && (row.dueDate.Some? ==> f["due_date"] == JStr(row.dueDate.value.iso))
      && (f["created_at"] == JNull <==> row.createdAt.None?)
      && (row.createdAt.Some? ==> f["created_at"] == JStr(row.createdAt.value.iso))
      && (f["updated_at"] == JNull <==> row.updatedAt.None?)
      && (row.updatedAt.Some? ==> f["updated_at"] == JStr(row.updatedAt.value.iso))
      && (f["description"] == JNull <==> row.description.None?)
      && (row.description.Some? ==> f["description"] == JStr(row.description.value))
      && (f["responsible"] == JNull <==> row.responsible.None?)
      && (row.responsible.Some? ==> f["responsible"] == JStr(row.responsible.value))
      && (f["responsible_id"] == JNull <==> row.responsibleId.None?)
      && (row.responsibleId.Some? ==> f["responsible_id"] == JInt(row.responsibleId.value))
  {
  }

  /** Each entry of `subtasks` is the flat dictionary of the matching child, in the
      order the relationship produced them: same id, same parent reference, and no
      `subtasks` key of its own. */
  lemma ToDictSubtaskEntries(row: Row, subtasks: seq<Row>, i: int)
    requires 0 <= i < |subtasks|
    ensures var e := ToDict(row, true, subtasks).fields["subtasks"].items[i];
      && e == ToDict(subtasks[i], false, [])
      && e.fields["id"] == JInt(subtasks[i].id)
      && "subtasks" !in e.fields
  {
    var d := ToDict(row, true, subtasks);
    assert d.fields["subtasks"] == JArr(seq(|subtasks|, k requires 0 <= k < |subtasks| => ToDict(subtasks[k], false, [])));
    ToDictColumns(subtasks[i], false, []);
  }

  /** `include_subtasks` defaults to true: `to_dict()` with no argument nests the
      direct subtasks. */
  function ToDictDefault(row: Row, subtasks: seq<Row>): (d: Json)
    ensures d.JObj? && "subtasks" in d.fields && AtMostTwoLevels(d)
  {
    ToDict(row, true, subtasks)
  }
}
