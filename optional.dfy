/** Values that may be missing: a JavaScript property that may be `undefined`
    or `null`, a lookup that may find nothing, a date that may not parse, a
    database query that may fail. */
module Optional {
  datatype Option<T> = None | Some(value: T)

  /** The outcome of one database query: its rows (a `null` data counts as
      no rows) or an error. */
  datatype Fetch<T> = Rows(rows: seq<T>) | QueryError
}
