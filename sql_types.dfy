/**
 * The type dispatch of process_datetime_for_sql: a column is converted as a timestamp
 * ("datetime") or as a calendar date ("date"); any other type name raises ValueError.
 * The coercion itself is not modelled: a column is a sequence of integer play times, and
 * a converted column keeps its values.
 */
module SqlTypes {
  import opened Wrappers
  import opened Api

  /** The type names process_datetime_for_sql accepts. */
  predicate KnownKind(kind: string) {
    kind == "datetime" || kind == "date"
  }

  function ProcessDatetimeForSql(column: seq<int>, kind: string): (r: Result<seq<int>, Error>)
    ensures r.Success? <==> KnownKind(kind)
    ensures r.Failure? ==> r.error == ValueError
    ensures r.Success? ==> |r.value| == |column|
  {
    if kind == "datetime" then Success(column)
    else if kind == "date" then Success(column)
    else Failure(ValueError)
  }
}
