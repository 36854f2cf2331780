/** JSON values as they travel between the Flask backend and the browser. */
module JsonValue {

  datatype Json =
    | JNull
    | JBool(b: bool)
    | JInt(i: int)
    | JStr(s: string)
    | JArr(items: seq<Json>)
    | JObj(fields: map<string, Json>)

  /** JavaScript truthiness of a parsed JSON value (`x || y`, `!x`). */
  predicate Truthy(j: Json)
  {
    match j
    case JNull => false
    case JBool(b) => b
    case JInt(i) => i != 0
    case JStr(s) => s != ""
    case _ => true
  }

  /** A value with no nested structure. */
  predicate Scalar(j: Json)
  {
    j.JNull? || j.JBool? || j.JInt? || j.JStr?
  }

  /** An object whose values are all scalars: one level of nesting. */
  predicate FlatObject(j: Json)
  {
    j.JObj? && forall k :: k in j.fields ==> Scalar(j.fields[k])
  }

  /** An object whose values are scalars or arrays of flat objects: at most two
      levels of objects. */
  predicate AtMostTwoLevels(j: Json)
  {
    j.JObj? &&
    forall k :: k in j.fields ==>
      Scalar(j.fields[k]) ||
      (j.fields[k].JArr? && forall i :: 0 <= i < |j.fields[k].items| ==> FlatObject(j.fields[k].items[i]))
  }
}
