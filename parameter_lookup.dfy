/**
 * Name lookup on a statement handle (src/parameter_lookup.cpp): parameter
 * names through the engine's own index, column names by a linear scan.
 */
module ParameterLookup {
  import opened Engine
  import opened Errors

  /**
   * find_parameter_index: the engine's 1-based index of the parameter, or
   * bad_parameter naming it when the engine reports index 0 (absent).
   */
  function FindParameterIndex(parameter: string, stmt: Stmt): (r: Outcome<nat>)
    reads stmt.db
    ensures r.Ok? <==> parameter in stmt.program.params
    ensures r.Ok? ==>
      && 1 <= r.value <= stmt.ParameterCount()
      && stmt.program.params[r.value - 1] == parameter
      && parameter !in stmt.program.params[..r.value - 1]
    ensures r.Throw? ==> r.exception == BadParameterOf(parameter, stmt)
  {
    var index := stmt.ParameterIndex(parameter);
    if index == 0 then Throw(BadParameterOf(parameter, stmt)) else Ok(index)
  }

  /**
   * The counting loop shared by both find_column_index functions: the first
   * position below column_count whose name is `name`, or None.
   */
  method ScanColumns(name: string, stmt: Stmt) returns (r: Option<nat>)
    ensures r.Some? ==>
      && r.value < stmt.ColumnCount()
      && stmt.program.columns[r.value] == name
      && name !in stmt.program.columns[..r.value]
    ensures r.None? ==> name !in stmt.program.columns
  {
    var count := stmt.ColumnCount();
    var i := 0;
    while i < count
      invariant 0 <= i <= count
      invariant forall j :: 0 <= j < i ==> stmt.program.columns[j] != name
    {
      if stmt.ColumnName(i) == Some(name) {
        assert forall j :: 0 <= j < i ==> stmt.program.columns[..i][j] == stmt.program.columns[j];
        return Some(i);
      }
      i := i + 1;
    }
    return None;
  }

  /** internal::find_column_index: the first matching position, or error "invalid column name: <name>". */
  method FindColumnIndex(name: string, stmt: Stmt) returns (r: Outcome<nat>)
    ensures r.Ok? ==>
      && r.value < stmt.ColumnCount()
      && stmt.program.columns[r.value] == name
      && name !in stmt.program.columns[..r.value]
    ensures r.Throw? <==> name !in stmt.program.columns
    ensures r.Throw? ==> r.exception == MessageError("invalid column name: " + name)
  {
    var found := ScanColumns(name, stmt);
    match found
    case Some(i) =>
      r := Ok(i);
    case None =>
      r := Throw(MessageError("invalid column name: " + name));
  }
}
