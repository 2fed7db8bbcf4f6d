/**
 * The result cursor of the src revision (src/result.cpp).
 *
 * A result shares its statement handle and owns a mutable end_reached flag.
 * The iterator from begin() holds a reference to that flag, so advancing it
 * changes what later begin() calls return; every end() iterator refers to one
 * process-wide flag that is always true. Both kinds of reference are modelled
 * by Flag objects.
 */
module Results {
  import opened Engine
  import opened Errors
  import opened Rows

  /** A bool that several objects refer to. */
  class Flag {
    var value: bool

    constructor (v: bool)
      ensures value == v
    {
      value := v;
    }
  }

  /**
   * step_result's classification of a step status: DONE means exhausted,
   * ROW means a row is available, LOCKED and BUSY raise transaction_failed
   * with that status, and anything else raises error(stmt) built from the
   * connection's message.
   */
  function Classify(status: int, lib: Library, errmsg: string, sql: string): (r: Outcome<bool>)
    ensures r == Ok(true) <==> status == DONE
    ensures r == Ok(false) <==> status == ROW
    ensures (r.Throw? && r.exception.kind == TransactionFailed) <==> (status == LOCKED || status == BUSY)
    ensures r.Throw? && r.exception.kind == TransactionFailed ==>
      r.exception == TransactionFailure(lib.errstr, status) && r.exception.code == status
    ensures (r.Throw? && r.exception.kind == SqliteError) <==> status !in {DONE, ROW, LOCKED, BUSY}
    ensures r.Throw? && r.exception.kind == SqliteError ==>
      r.exception == StatementError(errmsg, sql, "") && r.exception.code == 0
  {
    if status == DONE then Ok(true)
    else if status == ROW then Ok(false)
    else if status == LOCKED || status == BUSY then Throw(TransactionFailure(lib.errstr, status))
    else Throw(StatementError(errmsg, sql, ""))
  }

  /** The classification of the step a statement takes at script position `at`. */
  function StepClassification(stmt: Stmt, at: nat): Outcome<bool>
    reads stmt.db
  {
    Classify(StatusAt(stmt.program.steps, at), stmt.db.lib, stmt.db.state.errmsg, stmt.sql)
  }

  /** step_result: one native step, classified. */
  method StepResult(stmt: Stmt) returns (r: Outcome<bool>)
    requires !stmt.finalized
    modifies stmt, stmt.db
    ensures SteppedOnce(stmt)
    ensures r == StepClassification(stmt, old(stmt.cursor))
  {
    var status := stmt.Step();
    r := Classify(status, stmt.db.lib, stmt.db.state.errmsg, stmt.sql);
  }

  /** From script position `from` on, the statement yields n rows and then completes. */
  ghost predicate RowsThenDone(steps: seq<StepOutcome>, from: nat, n: nat) {
    && from + n < |steps|
    && (forall i :: from <= i < from + n ==> steps[i].status == ROW)
    && steps[from + n].status == DONE
  }

  /** A script that yields rows and then completes does so after one definite number of rows. */
  lemma RowsThenDoneUnique(steps: seq<StepOutcome>, from: nat, n: nat)
    requires RowsThenDone(steps, from, n)
    ensures forall m: nat :: RowsThenDone(steps, from, m) <==> m == n
  {
    forall m: nat | m != n
      ensures !RowsThenDone(steps, from, m)
    {
      if m < n {
        assert steps[from + m].status == ROW;
      } else {
        assert steps[from + n].status == DONE;
      }
    }
  }

  /** k rows followed by a step that neither yields a row nor completes: the script never reaches DONE through rows. */
  lemma NoRowsThenDone(steps: seq<StepOutcome>, from: nat, k: nat)
    requires from + k <= |steps| && forall i :: from <= i < from + k ==> steps[i].status == ROW
    requires StatusAt(steps, from + k) != ROW && StatusAt(steps, from + k) != DONE
    ensures forall n: nat :: !RowsThenDone(steps, from, n)
  {
    forall n: nat
      ensures !RowsThenDone(steps, from, n)
    {
      if n < k {
        assert steps[from + n].status == ROW;
      }
    }
  }

  class Result {
    var stmt: Stmt?
    const endReached: Flag

    constructor Raw(statement: Stmt?)
      ensures stmt == statement && fresh(endReached) && !endReached.value
    {
      stmt := statement;
      endReached := new Flag(false);
    }

    /**
     * The last step this result took produced a row or completed, and its
     * end_reached flag says which.
     */
    ghost predicate Synced()
      reads this, endReached, stmt
    {
      && stmt != null
      && 1 <= stmt.cursor <= |stmt.program.steps|
      && stmt.program.steps[stmt.cursor - 1].status in {ROW, DONE}
      && endReached.value == (stmt.program.steps[stmt.cursor - 1].status == DONE)
    }

    /** result(statement): takes the first step; a failing step throws from the constructor. */
    static method Create(statement: Stmt) returns (r: Outcome<Result>)
      requires !statement.finalized
      modifies statement, statement.db
      ensures SteppedOnce(statement)
      ensures var c := StepClassification(statement, old(statement.cursor));
        && r.Ok? == c.Ok?
        && (r.Throw? ==> r.exception == c.exception)
        && (r.Ok? ==> fresh(r.value) && fresh(r.value.endReached)
                      && r.value.stmt == statement && r.value.endReached.value == c.value)
      ensures r.Ok? ==> r.value.Synced()
      ensures r.Ok? && StatusAt(statement.program.steps, old(statement.cursor)) == DONE ==>
        r.value.RowModificationCount() == CompletedCount(statement.program, old(statement.db.state.changes))
    {
      ghost var before, at := statement.db.state, statement.cursor;
      var res := new Result.Raw(statement);
      var stepped := StepResult(statement);
      if stepped.Ok? && StatusAt(statement.program.steps, at) == DONE {
        CountAfterCompletion(res, before, at);
      }
      match stepped
      case Throw(e) =>
        r := Throw(e);
      case Ok(exhausted) =>
        res.endReached.value := exhausted;
        r := Ok(res);
    }

    /** The move constructor: the handle and the end flag's value move; the source is left null. */
    static method MoveConstruct(other: Result) returns (r: Result)
      modifies other
      ensures fresh(r) && fresh(r.endReached)
      ensures r.stmt == old(other.stmt) && r.endReached.value == other.endReached.value
      ensures other.stmt == null && other.endReached.value == old(other.endReached.value)
    {
      r := new Result.Raw(other.stmt);
      r.endReached.value := other.endReached.value;
      other.stmt := null;
    }

    /** Move assignment: the same transfer into an existing result. */
    method MoveAssign(other: Result)
      requires other != this && other.endReached != endReached
      modifies this, endReached, other
      ensures stmt == old(other.stmt) && endReached.value == old(other.endReached.value)
      ensures other.stmt == null && other.endReached.value == old(other.endReached.value)
    {
      stmt := other.stmt;
      endReached.value := other.endReached.value;
      other.stmt := null;
    }

    /** row_modification_count: 0 for a read-only statement, otherwise the connection's change counter. */
    function RowModificationCount(): (n: nat)
      requires stmt != null
      reads this, stmt.db
      ensures stmt.ReadOnly() ==> n == 0
      ensures !stmt.ReadOnly() ==> n == stmt.db.state.changes
    {
      if stmt.ReadOnly() then 0 else stmt.db.state.changes
    }

    /** begin(): an iterator over the shared handle that refers to this result's own end flag. */
    method Begin() returns (it: ConstIterator)
      requires stmt != null
      ensures fresh(it) && it.stmt == stmt && it.endReached == endReached && it.currentRow == Row(stmt)
    {
      it := new ConstIterator(stmt, endReached);
    }

    /**
     * end(): an iterator over the shared handle that refers to the
     * process-wide true flag. The flag is a parameter, so two calls need not
     * be given the same cell; that is harmless, because iterators compare the
     * flags' values, never their identity.
     */
    method End(iteratorEnd: Flag) returns (it: ConstIterator)
      requires stmt != null && iteratorEnd.value
      ensures fresh(it) && it.stmt == stmt && it.endReached == iteratorEnd && it.currentRow == Row(stmt)
    {
      it := new ConstIterator(stmt, iteratorEnd);
    }
  }

  class ConstIterator {
    const stmt: Stmt
    const endReached: Flag
    var currentRow: Row

    constructor (statement: Stmt, atEnd: Flag)
      ensures stmt == statement && endReached == atEnd && currentRow == Row(statement)
    {
      stmt := statement;
      endReached := atEnd;
      currentRow := Row(statement);
    }

    /** operator==: the same handle and equal end flags. */
    predicate Equals(other: ConstIterator)
      reads this, endReached, other, other.endReached
    {
      stmt == other.stmt && endReached.value == other.endReached.value
    }

    /** operator!=: the negation of operator==. */
    predicate NotEquals(other: ConstIterator)
      reads this, endReached, other, other.endReached
    {
      !Equals(other)
    }

    /** The current row is always a view of the iterator's own handle. */
    predicate Valid()
      reads this
    {
      currentRow == Row(stmt)
    }

    /** operator*: the row view of the current position. */
    function Current(): (row: Row)
      requires Valid()
      reads this
      ensures row.stmt == stmt
    {
      currentRow
    }

    /**
     * operator++: steps the handle and stores the classification in the
     * referenced flag; a failing step throws and changes neither the flag
     * nor the current row. Incrementing at the end is ruled out.
     */
    method Increment() returns (e: Option<Exception>)
      requires !endReached.value && !stmt.finalized && Valid()
      modifies this, endReached, stmt, stmt.db
      ensures SteppedOnce(stmt)
      ensures var c := StepClassification(stmt, old(stmt.cursor));
        && e.None? == c.Ok?
        && (c.Ok? ==> endReached.value == c.value)
        && (c.Throw? ==> e == Some(c.exception) && endReached.value == old(endReached.value))
      ensures Valid()
    {
      var stepped := StepResult(stmt);
      match stepped
      case Throw(x) =>
        e := Some(x);
      case Ok(exhausted) =>
        endReached.value := exhausted;
        currentRow := Row(stmt);
        e := None;
    }
  }

  /** begin() == end() exactly when the last step completed the statement. */
  method BeginEqualsEnd(r: Result, iteratorEnd: Flag) returns (equal: bool)
    requires r.Synced() && iteratorEnd.value
    ensures equal <==> r.stmt.program.steps[r.stmt.cursor - 1].status == DONE
  {
    var first := r.Begin();
    var last := r.End(iteratorEnd);
    equal := first.Equals(last);
  }

  /**
   * What row_modification_count reports once a statement has completed, given
   * the connection's counter before its step: 0 for a read-only statement (a
   * query), the rows it changed for an INSERT, UPDATE or DELETE, and the
   * earlier statement's count for anything else (DDL such as CREATE TABLE).
   */
  function CompletedCount(program: Program, previous: nat): nat {
    if program.readOnly then 0 else if program.dml then program.changes else previous
  }

  /** row_modification_count after a step that completed the statement. */
  lemma CountAfterCompletion(r: Result, before: ConnState, at: nat)
    requires r.stmt != null && StatusAt(r.stmt.program.steps, at) == DONE
    requires r.stmt.db.state == AfterStep(before, r.stmt.sql, r.stmt.program, at)
    ensures r.RowModificationCount() == CompletedCount(r.stmt.program, before.changes)
    ensures r.stmt.program.readOnly ==> r.RowModificationCount() == 0
    ensures !r.stmt.program.readOnly && r.stmt.program.dml ==> r.RowModificationCount() == r.stmt.program.changes
    ensures !r.stmt.program.readOnly && !r.stmt.program.dml ==> r.RowModificationCount() == before.changes
  {
  }

  /**
   * A range-based for loop over a result: increments begin() until it equals
   * end(). When the rest of the script is n rows and then DONE, it stops after
   * exactly n increments without an error, and the result's own flag is then
   * true, so a later begin() equals end(). Otherwise it stops with the first
   * failing step's exception.
   */
  method ForEachRow(r: Result, iteratorEnd: Flag) returns (count: nat, e: Option<Exception>)
    requires r.Synced() && iteratorEnd.value && !r.stmt.finalized
    modifies r.endReached, r.stmt, r.stmt.db
    ensures r.stmt == old(r.stmt) && iteratorEnd.value
    ensures old(r.stmt.cursor) - 1 + count < |r.stmt.program.steps|
    ensures var from := old(r.stmt.cursor) - 1;
      && (forall n: nat :: RowsThenDone(r.stmt.program.steps, from, n) ==> e.None? && count == n)
      && (e.None? ==> RowsThenDone(r.stmt.program.steps, from, count) && r.endReached.value)
      && (e.Some? ==> forall i :: from <= i < from + count ==> r.stmt.program.steps[i].status == ROW)
      && (e.Some? ==>
            && r.stmt.program.steps[from + count].status == ROW
            && StatusAt(r.stmt.program.steps, from + count + 1) !in {ROW, DONE}
            && StepClassification(r.stmt, from + count + 1).Throw?
            && e.value == StepClassification(r.stmt, from + count + 1).exception)
  {
    var stmt := r.stmt;
    var steps := stmt.program.steps;
    ghost var from: nat := stmt.cursor - 1;
    var it := r.Begin();
    var last := r.End(iteratorEnd);
    count := 0;
    e := None;
    while it.NotEquals(last)
      invariant fresh(it) && fresh(last)
      invariant it.stmt == stmt && it.endReached == r.endReached && it.Valid()
      invariant last.stmt == stmt && last.endReached == iteratorEnd
      invariant r.stmt == stmt && !stmt.finalized && iteratorEnd.value
      invariant stmt.cursor == from + 1 + count <= |steps|
      invariant forall i :: from <= i < from + count ==> steps[i].status == ROW
      invariant steps[from + count].status in {ROW, DONE}
      invariant r.endReached.value == (steps[from + count].status == DONE)
      invariant e.None?
      decreases |steps| - stmt.cursor
    {
      var x := it.Increment();
      if x.Some? {
        e := x;
        NoRowsThenDone(steps, from, count + 1);
        return;
      }
      count := count + 1;
    }
    RowsThenDoneUnique(steps, from, count);
  }
}
