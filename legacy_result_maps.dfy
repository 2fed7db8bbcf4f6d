/**
 * The result_map of the root revision (result_map.cpp): a result that steps
 * once on construction, optionally owns its handle, and keeps no end flag.
 */
module LegacyResultMaps {
  import opened Engine
  import opened Errors
  import LegacyResults

  class LegacyResultMap {
    var stmt: Stmt?
    var ownsStatement: bool

    ghost predicate Valid()
      reads this, stmt
    {
      ownsStatement ==> stmt != null && stmt.owner == this && !stmt.finalized
    }

    constructor Raw(statement: Stmt, take: bool)
      ensures stmt == statement && ownsStatement == take
    {
      stmt := statement;
      ownsStatement := take;
    }

    /**
     * result_map(statement, ownership): owns the handle iff ownership::take
     * and steps once; a status other than ROW or DONE raises database_error
     * with the statement text, out of the constructor.
     */
    static method Create(statement: Stmt, take: bool) returns (r: Outcome<LegacyResultMap>)
      requires !statement.finalized
      requires take ==> statement.owner == null
      modifies statement, statement.db
      ensures statement.cursor == (if old(statement.cursor) < |statement.program.steps| then old(statement.cursor) + 1 else old(statement.cursor))
      ensures statement.bindings == old(statement.bindings) && !statement.finalized
      ensures statement.db.state == AfterStep(old(statement.db.state), statement.sql, statement.program, old(statement.cursor))
      ensures statement.db.live == old(statement.db.live) && statement.db.open == old(statement.db.open)
      ensures var status := StatusAt(statement.program.steps, old(statement.cursor));
        && (r.Throw? <==> status !in {ROW, DONE})
        && (r.Throw? ==> r.exception == LegacyResults.ScriptedFailure(statement, old(statement.cursor)))
        && (r.Ok? ==> fresh(r.value) && r.value.stmt == statement && r.value.ownsStatement == take && r.value.Valid())
      ensures !take ==> statement.owner == old(statement.owner)
    {
      var res := new LegacyResultMap.Raw(statement, take);
      if take {
        statement.owner := res;
      }
      var status := statement.Step();
      if status != ROW && status != DONE {
        r := Throw(DatabaseFailure(StatementText(LegacyResults.ErrorMessage(statement), statement.sql)));
      } else {
        r := Ok(res);
      }
    }

    /** The destructor: finalizes the handle iff the map owns it. */
    method Destroy()
      requires Valid()
      modifies if ownsStatement then {stmt, stmt.db} else {}
      ensures ownsStatement ==> stmt.finalized && stmt.db.live == old(stmt.db.live) - {stmt}
    {
      if ownsStatement {
        stmt.Finalize();
      }
    }

    function ColumnCount(): nat
      requires stmt != null
      reads this
    {
      stmt.ColumnCount()
    }

    /** column_name: the engine's name, with no null guard, so the index must name a column. */
    function ColumnName(index: nat): (name: string)
      requires stmt != null && index < ColumnCount()
      reads this
      ensures name == stmt.program.columns[index]
      ensures stmt.ColumnName(index) == Some(name)
    {
      stmt.ColumnName(index).value
    }
  }

  /**
   * Only one valid map owns a given handle.
   * It is immediate once both are valid, because a handle records one owner;
   * what makes it hold of a running program is that Create establishes
   * Valid() and no other member changes a handle's owner.
   */
  lemma SoleOwner(a: LegacyResultMap, b: LegacyResultMap)
    requires a.Valid() && b.Valid() && a.ownsStatement && b.ownsStatement && a.stmt == b.stmt
    ensures a == b
  {
  }
}
