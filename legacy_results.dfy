/**
 * The result cursor of the root revision (result.cpp).
 *
 * A result holds a raw handle and a flag saying whether it owns the handle
 * (ownership::take) and so finalizes it when destroyed. Its end flag is a
 * plain bool, and iterators copy it by value. Moves hand over the handle and
 * the owns flag and leave the source null and non-owning; the end flag is
 * not handed over.
 */
module LegacyResults {
  import opened Engine
  import opened Errors

  /** step_result of this revision: ROW and DONE continue, anything else raises database_error. */
  function LegacyClassify(status: int, errmsg: string, sql: string): (r: Outcome<bool>)
    ensures r.Ok? <==> status == ROW || status == DONE
    ensures r.Ok? ==> (r.value <==> status == DONE)
    ensures r.Throw? ==>
      && r.exception == DatabaseFailure(StatementText(errmsg, sql))
      && r.exception.kind == DatabaseError && !IsA(r.exception.kind, SqliteError)
  {
    if status != ROW && status != DONE then Throw(DatabaseFailure(StatementText(errmsg, sql)))
    else Ok(status == DONE)
  }

  /**
   * error_message(status) and error_message(stmt), which result.cpp and
   * result_map.cpp both define: the library's text for a status, and the last
   * message of the connection a statement belongs to.
   */
  function StatusMessage(lib: Library, status: int): string {
    lib.errstr(status)
  }

  function ErrorMessage(stmt: Stmt): string
    reads stmt.db
  {
    stmt.db.state.errmsg
  }

  /**
   * After a step that fails at a script position, error_message(stmt) is
   * that step's own message, and the code is the step's status, so the
   * database_error a failing step raises carries the failing step's text.
   */
  lemma FailedStepMessage(s: ConnState, sql: string, program: Program, at: nat)
    requires at < |program.steps| && program.steps[at].status !in {ROW, DONE}
    ensures AfterStep(s, sql, program, at).errmsg == program.steps[at].message
    ensures AfterStep(s, sql, program, at).errcode == program.steps[at].status
  {
  }

  /**
   * The exception a step at position `at` raises, stated over the script
   * alone: database_error with the failing step's message and the SQL.
   */
  function ScriptedFailure(stmt: Stmt, at: nat): Exception {
    DatabaseFailure(StatementText(StepMessage(stmt.program.steps, at), stmt.sql))
  }

  /** The classification of the step a statement takes at script position `at`. */
  function LegacyStepClassification(stmt: Stmt, at: nat): Outcome<bool>
    reads stmt.db
  {
    LegacyClassify(StatusAt(stmt.program.steps, at), ErrorMessage(stmt), stmt.sql)
  }

  /** The classification of a step the statement just took, restated over its script: see FailedStepMessage. */
  lemma StepFailureIsScripted(stmt: Stmt, before: ConnState, at: nat)
    requires stmt.db.state == AfterStep(before, stmt.sql, stmt.program, at)
    ensures var c := LegacyStepClassification(stmt, at);
      && (c.Ok? <==> StatusAt(stmt.program.steps, at) in {ROW, DONE})
      && (c.Ok? ==> (c.value <==> StatusAt(stmt.program.steps, at) == DONE))
      && (c.Throw? ==> c.exception == ScriptedFailure(stmt, at))
  {
  }

  method LegacyStepResult(stmt: Stmt) returns (r: Outcome<bool>)
    requires !stmt.finalized
    modifies stmt, stmt.db
    ensures SteppedOnce(stmt)
    ensures r == LegacyStepClassification(stmt, old(stmt.cursor))
  {
    var status := stmt.Step();
    r := LegacyClassify(status, ErrorMessage(stmt), stmt.sql);
  }

  class LegacyResult {
    var stmt: Stmt?
    var ownsStatement: bool
    var endReached: bool

    /** An owning result holds a live handle and is the one recorded as finalizing it. */
    ghost predicate Valid()
      reads this, stmt
    {
      ownsStatement ==> stmt != null && stmt.owner == this && !stmt.finalized
    }

    constructor Raw(statement: Stmt?, take: bool)
      ensures stmt == statement && ownsStatement == take && !endReached
    {
      stmt := statement;
      ownsStatement := take;
      endReached := false;
    }

    /**
     * result(statement, ownership): owns the handle iff ownership::take, and
     * steps it once. A failing step throws out of the constructor, so no
     * destructor runs and an owned handle is left unfinalized.
     */
    static method Create(statement: Stmt, take: bool) returns (r: Outcome<LegacyResult>)
      requires !statement.finalized
      requires take ==> statement.owner == null
      modifies statement, statement.db
      ensures statement.cursor == (if old(statement.cursor) < |statement.program.steps| then old(statement.cursor) + 1 else old(statement.cursor))
      ensures statement.bindings == old(statement.bindings) && !statement.finalized
      ensures statement.db.state == AfterStep(old(statement.db.state), statement.sql, statement.program, old(statement.cursor))
      ensures statement.db.live == old(statement.db.live) && statement.db.open == old(statement.db.open)
      ensures var status := StatusAt(statement.program.steps, old(statement.cursor));
        && (r.Throw? <==> status !in {ROW, DONE})
        && (r.Throw? ==> r.exception == ScriptedFailure(statement, old(statement.cursor)))
        && (r.Ok? ==>
              && fresh(r.value) && r.value.stmt == statement && r.value.ownsStatement == take
              && (r.value.endReached <==> status == DONE) && r.value.Valid())
      ensures !take ==> statement.owner == old(statement.owner)
    {
      var res := new LegacyResult.Raw(statement, take);
      if take {
        statement.owner := res;
      }
      ghost var before, at := statement.db.state, statement.cursor;
      var stepped := LegacyStepResult(statement);
      StepFailureIsScripted(statement, before, at);
      match stepped
      case Throw(e) =>
        r := Throw(e);
      case Ok(exhausted) =>
        res.endReached := exhausted;
        r := Ok(res);
    }

    /** The destructor: finalizes the handle iff the result owns it. */
    method Destroy()
      requires Valid()
      modifies if ownsStatement then {stmt, stmt.db} else {}
      ensures ownsStatement ==> stmt.finalized && stmt.db.live == old(stmt.db.live) - {stmt}
    {
      if ownsStatement {
        stmt.Finalize();
      }
    }

    /** replace_members_with: takes the handle and the owns flag; the source is left null and non-owning. */
    method ReplaceMembersWith(other: LegacyResult)
      requires other != this && other.Valid()
      modifies this, other, (if other.stmt != null then {other.stmt} else {})`owner
      ensures stmt == old(other.stmt) && ownsStatement == old(other.ownsStatement)
      ensures other.stmt == null && !other.ownsStatement
      ensures endReached == old(endReached) && other.endReached == old(other.endReached)
      ensures Valid() && other.Valid()
    {
      stmt := other.stmt;
      ownsStatement := other.ownsStatement;
      other.stmt := null;
      other.ownsStatement := false;
      if ownsStatement {
        stmt.owner := this;
      }
    }

    /** The move constructor, as written: a new result takes the members, but its end flag stays false. */
    static method MoveConstructAsWritten(other: LegacyResult) returns (r: LegacyResult)
      requires other.Valid()
      modifies other, other.stmt
      ensures fresh(r) && r.stmt == old(other.stmt) && r.ownsStatement == old(other.ownsStatement)
      ensures other.stmt == null && !other.ownsStatement
      ensures !r.endReached
      ensures old(other.endReached) ==> r.endReached != old(other.endReached)
      ensures r.Valid() && other.Valid()
    {
      r := new LegacyResult.Raw(null, false);
      r.ReplaceMembersWith(other);
    }

    /** The move constructor as evidently intended: the end flag moves with the handle. */
    static method MoveConstruct(other: LegacyResult) returns (r: LegacyResult)
      requires other.Valid()
      modifies other, other.stmt
      ensures fresh(r) && r.stmt == old(other.stmt) && r.ownsStatement == old(other.ownsStatement)
      ensures other.stmt == null && !other.ownsStatement
      ensures r.endReached == old(other.endReached)
      ensures r.Valid() && other.Valid()
    {
      r := new LegacyResult.Raw(null, false);
      r.ReplaceMembersWith(other);
      r.endReached := other.endReached;
    }

    /**
     * Move assignment, as written: a handle the target owns is finalized
     * first, then the members are replaced; the target keeps its own end flag.
     */
    method MoveAssignAsWritten(other: LegacyResult)
      requires other != this && Valid() && other.Valid()
      modifies this, other, other.stmt, if ownsStatement then {stmt, stmt.db} else {}
      ensures old(ownsStatement) ==> old(stmt).finalized
      ensures stmt == old(other.stmt) && ownsStatement == old(other.ownsStatement)
      ensures other.stmt == null && !other.ownsStatement
      ensures endReached == old(endReached)
      ensures Valid() && other.Valid()
    {
      if ownsStatement {
        stmt.Finalize();
      }
      ReplaceMembersWith(other);
    }

    /** Move assignment as evidently intended: as written, but the end flag moves with the handle. */
    method MoveAssign(other: LegacyResult)
      requires other != this && Valid() && other.Valid()
      modifies this, other, other.stmt, if ownsStatement then {stmt, stmt.db} else {}
      ensures old(ownsStatement) ==> old(stmt).finalized
      ensures stmt == old(other.stmt) && ownsStatement == old(other.ownsStatement)
      ensures other.stmt == null && !other.ownsStatement
      ensures endReached == old(other.endReached)
      ensures Valid() && other.Valid()
    {
      if ownsStatement {
        stmt.Finalize();
      }
      ReplaceMembersWith(other);
      endReached := other.endReached;
    }

    function ColumnCount(): nat
      requires stmt != null
      reads this
    {
      stmt.ColumnCount()
    }

    /** column_name: the engine's name for the column, or "" when it has none. */
    function ColumnName(index: nat): (name: string)
      requires stmt != null
      reads this
      ensures index < ColumnCount() ==> name == stmt.program.columns[index]
      ensures index >= ColumnCount() ==> name == ""
    {
      match stmt.ColumnName(index)
      case Some(n) => n
      case None => ""
    }

    /** begin(): at the end iff the result's end flag is set. */
    method Begin() returns (it: LegacyIterator)
      requires stmt != null
      ensures fresh(it) && it.stmt == stmt && it.atEnd == endReached
    {
      it := new LegacyIterator(stmt, endReached);
    }

    /** end(): always at the end. */
    method End() returns (it: LegacyIterator)
      requires stmt != null
      ensures fresh(it) && it.stmt == stmt && it.atEnd
    {
      it := new LegacyIterator(stmt, true);
    }
  }

  class LegacyIterator {
    const stmt: Stmt
    var atEnd: bool

    constructor (statement: Stmt, atEnd: bool)
      ensures stmt == statement && this.atEnd == atEnd
    {
      stmt := statement;
      this.atEnd := atEnd;
    }

    /** operator==: the same handle and the same at_end. */
    predicate Equals(other: LegacyIterator)
      reads this, other
    {
      stmt == other.stmt && atEnd == other.atEnd
    }

    predicate NotEquals(other: LegacyIterator)
      reads this, other
    {
      !Equals(other)
    }

    /** operator++: steps and sets at_end from the step; this revision does not check for the end first. */
    method Increment() returns (e: Option<Exception>)
      requires !stmt.finalized
      modifies this, stmt, stmt.db
      ensures SteppedOnce(stmt)
      ensures var c := LegacyStepClassification(stmt, old(stmt.cursor));
        && e.None? == c.Ok?
        && (c.Ok? ==> atEnd == c.value)
        && (c.Throw? ==> e == Some(c.exception) && atEnd == old(atEnd))
    {
      var stepped := LegacyStepResult(stmt);
      match stepped
      case Throw(x) =>
        e := Some(x);
      case Ok(exhausted) =>
        atEnd := exhausted;
        e := None;
    }
  }

  /** begin() == end() exactly when the result's end flag is set. */
  method LegacyBeginEqualsEnd(r: LegacyResult) returns (equal: bool)
    requires r.stmt != null
    ensures equal <==> r.endReached
  {
    var first := r.Begin();
    var last := r.End();
    equal := first.Equals(last);
  }

  /**
   * Only one valid result owns a given handle, so only one destructor
   * finalizes it.
   * It is immediate once both are valid, because a handle records one owner;
   * what makes it hold of a running program is that the constructor
   * establishes Valid() and the moves above keep it for both wrappers.
   */
  lemma SoleOwner(a: LegacyResult, b: LegacyResult)
    requires a.Valid() && b.Valid() && a.ownsStatement && b.ownsStatement && a.stmt == b.stmt
    ensures a == b
  {
  }

  /**
   * Moving out of a result whose statement is exhausted, as written, yields a
   * result whose begin() differs from end(), although no row is left.
   */
  method MovedExhaustedResultLooksOpen(other: LegacyResult) returns (r: LegacyResult, differ: bool)
    requires other.Valid() && other.stmt != null && other.endReached
    modifies other, other.stmt
    ensures differ
  {
    r := LegacyResult.MoveConstructAsWritten(other);
    var equal := LegacyBeginEqualsEnd(r);
    differ := !equal;
  }
}
