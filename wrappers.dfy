/** Small value types shared by every module of the model. */
module Wrappers {

  /** A value that may be missing: Python's `None`, JavaScript's `null`/`undefined`. */
  datatype Option<T> = None | Some(value: T)

  /** One key of a JSON request body: absent, explicitly `null`, or carrying a value.
      The backend handlers treat the three cases differently (`data.get(k, old)` keeps
      `old` only when the key is absent, and turns an explicit `null` into `None`). */
  datatype Field<T> = Absent | Null | Given(value: T)

  /** The outcome of an awaited promise: resolved with a value or rejected with an
      error whose `message` is kept. */
  datatype Outcome<T> = Resolved(value: T) | Rejected(message: string)
}

/** Choosing from a finite set. */
module Sets {

  /** A set with a positive size has a member. */
  lemma Pick<T>(s: set<T>) returns (x: T)
    requires |s| > 0
    ensures x in s
  {
    x :| x in s;
  }
}
