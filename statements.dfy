/**
 * The prepared-statement wrapper of the src revision (src/statement.cpp).
 *
 * A statement holds a shared handle (null after default construction or a
 * move). Binding resolves the parameter name to the engine's index first and
 * only then calls the native bind, so an unknown name never reaches the
 * engine. The typed bind overloads differ only in the native call they make,
 * which the BoundValue argument selects.
 */
module Statements {
  import opened Engine
  import opened Errors
  import opened ParameterLookup
  import Results

  class Statement {
    var stmt: Stmt?

    /** The default constructor: no handle. */
    constructor Empty()
      ensures stmt == null
    {
      stmt := null;
    }

    /** statement(handle): a handle is required. */
    constructor (handle: Stmt)
      ensures stmt == handle
    {
      stmt := handle;
    }

    /** is_valid() and operator bool: the handle is non-null. */
    predicate IsValid()
      reads this
    {
      stmt != null
    }

    /** The defaulted move constructor: the handle moves and the source is left null. */
    static method MoveConstruct(other: Statement) returns (s: Statement)
      modifies other
      ensures fresh(s) && s.stmt == old(other.stmt) && other.stmt == null
    {
      s := new Statement.Empty();
      s.stmt := other.stmt;
      other.stmt := null;
    }

    /**
     * The defaulted move assignment: the handle moves and the source is left
     * null; a self-move of the shared_ptr leaves the handle in place.
     */
    method MoveAssign(other: Statement)
      modifies this, other
      ensures other != this ==> stmt == old(other.stmt) && other.stmt == null
      ensures other == this ==> stmt == old(stmt)
    {
      if other != this {
        stmt := other.stmt;
        other.stmt := null;
      }
    }

    /** parameter_count: the number of parameters; every named parameter's index lies in 1..count. */
    function ParameterCount(): (n: nat)
      requires stmt != null
      reads this
      ensures n == |stmt.program.params|
      ensures forall p :: p in stmt.program.params ==> 1 <= stmt.ParameterIndex(p) <= n
    {
      stmt.ParameterCount()
    }

    /** throw_on_bind_error: a status other than OK becomes bind_error naming the parameter. */
    function BindFailure(status: int, parameter: string): (e: Option<Exception>)
      requires stmt != null
      reads this, stmt.db
      ensures e.None? <==> status == OK
      ensures e.Some? ==> e.value == BindErrorOf(parameter, stmt) && e.value.kind == BindError
    {
      if status != OK then Some(BindErrorOf(parameter, stmt)) else None
    }

    /**
     * bind(parameter, value): an unknown name raises bad_parameter without a
     * native call, so nothing changes; a known name is bound at the engine's
     * index for it, the connection records the native status, and a refused
     * native bind raises bind_error naming the parameter with that status as
     * its code and that status's text at the head of what().
     */
    method Bind(parameter: string, value: BoundValue) returns (e: Option<Exception>)
      requires stmt != null && !stmt.finalized
      modifies stmt`bindings, stmt.db`state
      ensures parameter !in stmt.program.params ==>
        && e == Some(BadParameterOf(parameter, stmt))
        && stmt.bindings == old(stmt.bindings) && stmt.db.state == old(stmt.db.state)
      ensures parameter in stmt.program.params ==>
        var index := stmt.ParameterIndex(parameter);
        var status := old(stmt.BindStatus(index, value));
        && e == BindFailure(status, parameter)
        && stmt.db.state == Recorded(old(stmt.db.state), stmt.db.lib, status)
        && (e.Some? ==> e.value.code == status && IsPrefix(stmt.db.lib.errstr(status), What(e.value)))
        && stmt.bindings == (if status == OK then old(stmt.bindings)[index := value] else old(stmt.bindings))
    {
      var found := FindParameterIndex(parameter, stmt);
      match found
      case Throw(x) =>
        e := Some(x);
      case Ok(index) =>
        var status := stmt.Bind(index, value);
        e := BindFailure(status, parameter);
        BindErrorNamesItsParameter(stmt, parameter);
    }

    /** clear_bindings: every binding is dropped, or error(status) when the engine refuses. */
    method ClearBindings() returns (e: Option<Exception>)
      requires stmt != null && !stmt.finalized
      modifies stmt`bindings
      ensures e.None? <==> stmt.program.clearStatus == OK
      ensures e.None? ==> stmt.bindings == map[]
      ensures e.Some? ==>
        && e.value == CodeOnlyError(stmt.db.lib.errstr, stmt.program.clearStatus)
        && stmt.bindings == old(stmt.bindings)
    {
      var status := stmt.ClearBindings();
      if status != OK {
        e := Some(CodeOnlyError(stmt.db.lib.errstr, status));
      } else {
        e := None;
      }
    }
  }

  /**
   * A successful bind of a known parameter stores the value where the engine
   * looks the name up and leaves every other parameter as it was.
   */
  lemma BindTouchesOnlyItsParameter(stmt: Stmt, parameter: string, value: BoundValue,
                                    before: map<nat, BoundValue>, after: map<nat, BoundValue>)
    requires parameter in stmt.program.params
    requires after == before[stmt.ParameterIndex(parameter) := value]
    ensures var index := stmt.ParameterIndex(parameter);
      && index in after && after[index] == value
      && stmt.program.params[index - 1] == parameter
      && (forall j :: j in before && j != index ==> j in after && after[j] == before[j])
      && (forall j :: j in after && j != index ==> j in before)
  {
  }

  /**
   * make_result: rewinds the shared handle (its bindings stay) and builds a
   * result over the same handle, which takes the first step at once.
   */
  method MakeResult(statement: Statement) returns (r: Outcome<Results.Result>)
    requires statement.stmt != null && !statement.stmt.finalized
    modifies statement.stmt, statement.stmt.db
    ensures var s := statement.stmt;
      && s == old(statement.stmt)
      && s.cursor == (if 0 < |s.program.steps| then 1 else 0)
      && s.bindings == old(s.bindings) && !s.finalized
      && s.db.state == AfterStep(old(s.db.state), s.sql, s.program, 0)
      && s.db.live == old(s.db.live) && s.db.open == old(s.db.open)
    ensures var c := Results.StepClassification(statement.stmt, 0);
      && r.Ok? == c.Ok?
      && (r.Throw? ==> r.exception == c.exception)
      && (r.Ok? ==> fresh(r.value) && r.value.stmt == statement.stmt && r.value.endReached.value == c.value)
    ensures r.Ok? ==> r.value.Synced()
  {
    var s := statement.stmt;
    s.Reset();
    r := Results.Result.Create(s);
  }
}
