/**
 * Database results and cancellation, as the providers see them.  Queries are
 * not run: a provider receives what a query returned as a `Rows` value.
 */
module Db {
  import opened Wrappers
  import opened Errors

  /** A column value as the drivers hand it back through interface{}. */
  datatype Value = Null | Bytes(bytes: seq<bv8>) | Int64(i: int) | Text(t: string) | OtherValue(goType: string)

  /** One step of rows.Next/rows.Values (or rows.Scan): the values of a row, or the error reading it. */
  type Row = Result<seq<Value>, Error>

  /** A result set: column names, the rows in order, and rows.Err() once iteration ends. */
  datatype Rows = Rows(columns: seq<string>, rows: seq<Row>, err: Option<Error>)

  /**
   * ctx.Err() as an oracle: its answer at the n-th check made during one call
   * (counted from 0).  `None` is a nil error.
   */
  type Context = nat -> Option<Error>
}
