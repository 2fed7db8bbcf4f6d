/**
 * The connection wrapper of the src revision (src/database.cpp).
 *
 * A database holds a raw connection handle, null once closed. Every failure
 * to acquire a handle closes it before the error is thrown. Executing SQL
 * prepares a statement and builds a result over it, so the statement takes
 * its first step at once; a result that is dropped straight away finalizes
 * its statement, which is how `as_transaction` and `size` use `execute`.
 */
module Databases {
  import opened Engine
  import opened Errors
  import opened Fields
  import Results
  import Statements

  // ---------------------------------------------------------------------------
  // Open modes and the in-memory URI.

  datatype AccessMode = ReadOnly | ReadWrite | ReadWriteCreate
  datatype Cache = PrivateCache | SharedCache

  /** The access_mode enumerators: read_only 0x01, read_write 0x02, read_write_create 0x06. */
  function ModeFlags(m: AccessMode): (f: bv32)
    ensures f & OPEN_READWRITE != 0 <==> m != ReadOnly
    ensures f & OPEN_CREATE != 0 <==> m == ReadWriteCreate
  {
    match m
    case ReadOnly => OPEN_READONLY
    case ReadWrite => OPEN_READWRITE
    case ReadWriteCreate => OPEN_READWRITE | OPEN_CREATE
  }

  function CacheFlags(c: Cache): bv32 {
    match c
    case PrivateCache => OPEN_PRIVATECACHE
    case SharedCache => OPEN_SHAREDCACHE
  }

  /** operator<< for access_mode. */
  function ModeText(m: AccessMode): string {
    match m
    case ReadOnly => "mode=ro"
    case ReadWrite => "mode=rw"
    case ReadWriteCreate => "mode=rwc"
  }

  /** operator<< for cache_type. */
  function CacheText(c: Cache): string {
    match c
    case PrivateCache => "cache=private"
    case SharedCache => "cache=shared"
  }

  const MemoryPrefix := "file::memory:?"

  /** The URI the in-memory constructor opens. */
  function MemoryUri(m: AccessMode, c: Cache): string {
    MemoryPrefix + ModeText(m) + "&" + CacheText(c)
  }

  function ParseMode(s: string): Option<AccessMode> {
    if s == "mode=ro" then Some(ReadOnly)
    else if s == "mode=rw" then Some(ReadWrite)
    else if s == "mode=rwc" then Some(ReadWriteCreate)
    else None
  }

  function ParseCache(s: string): Option<Cache> {
    if s == "cache=private" then Some(PrivateCache)
    else if s == "cache=shared" then Some(SharedCache)
    else None
  }

  /** The position of the first occurrence of c in s. */
  function FindChar(s: string, c: char): (r: Option<nat>)
    ensures r.Some? ==> r.value < |s| && s[r.value] == c && c !in s[..r.value]
    ensures r.None? ==> c !in s
  {
    if s == [] then None
    else if s[0] == c then Some(0)
    else match FindChar(s[1..], c)
      case None => None
      case Some(i) =>
        assert s[..i + 1] == [s[0]] + s[1..][..i];
        Some(i + 1)
  }

  /** Reads the mode and the cache back from an in-memory URI. */
  function ParseMemoryUri(uri: string): Option<(AccessMode, Cache)> {
    if |uri| < |MemoryPrefix| || uri[..|MemoryPrefix|] != MemoryPrefix then None
    else
      var query := uri[|MemoryPrefix|..];
      match FindChar(query, '&')
      case None => None
      case Some(i) =>
        match (ParseMode(query[..i]), ParseCache(query[i + 1..]))
        case (Some(m), Some(c)) => Some((m, c))
        case _ => None
  }

  lemma {:induction false} FindCharAfter(a: string, b: string, c: char)
    requires c !in a
    ensures FindChar(a + [c] + b, c) == Some(|a|)
  {
    var s := a + [c] + b;
    if a == [] {
      assert s[0] == c;
    } else {
      assert s[0] == a[0] && a[0] != c;
      assert s[1..] == a[1..] + [c] + b;
      FindCharAfter(a[1..], b, c);
    }
  }

  /** The URI names the mode and the cache it was built from: the two can be read back. */
  lemma MemoryUriRoundTrip(m: AccessMode, c: Cache)
    ensures ParseMemoryUri(MemoryUri(m, c)) == Some((m, c))
  {
    var uri := MemoryUri(m, c);
    var mode := ModeText(m);
    var cache := CacheText(c);
    assert uri == MemoryPrefix + (mode + "&" + cache);
    assert uri[..|MemoryPrefix|] == MemoryPrefix;
    var query := uri[|MemoryPrefix|..];
    assert query == mode + ['&'] + cache;
    FindCharAfter(mode, cache, '&');
    assert query[..|mode|] == mode;
    assert query[|mode| + 1..] == cache;
  }

  /** Different modes or caches give different URIs. */
  lemma MemoryUriInjective(m1: AccessMode, c1: Cache, m2: AccessMode, c2: Cache)
    requires MemoryUri(m1, c1) == MemoryUri(m2, c2)
    ensures m1 == m2 && c1 == c2
  {
    MemoryUriRoundTrip(m1, c1);
    MemoryUriRoundTrip(m2, c2);
  }

  // ---------------------------------------------------------------------------
  // What executing one SQL text does, as a function of the engine's oracles.
  // A freshly prepared statement takes its step at script position 0.

  /** The message the connection holds after a failing first step. */
  function FirstMessage(p: Program): string {
    if 0 < |p.steps| then p.steps[0].message else ""
  }

  /** The exception `execute(sql)` throws, if any: a prepare failure, or the classification of the first step. */
  function ExecuteError(lib: Library, sql: string): (r: Option<Exception>)
    ensures lib.compile(sql).Rejected? ==>
      r == Some(CodeError(lib.errstr, lib.compile(sql).status, "while preparing sql statement '" + sql + "'"))
    ensures lib.compile(sql).Compiled? ==>
      (r.None? <==> StatusAt(lib.compile(sql).program.steps, 0) in {ROW, DONE})
  {
    match lib.compile(sql)
    case Rejected(status, _) =>
      Some(CodeError(lib.errstr, status, "while preparing sql statement '" + sql + "'"))
    case Compiled(p) =>
      match Results.Classify(StatusAt(p.steps, 0), lib, FirstMessage(p), sql)
      case Ok(_) => None
      case Throw(e) => Some(e)
  }

  /** The connection state after `execute(sql)`. */
  function ExecuteState(s: ConnState, lib: Library, sql: string): ConnState {
    match lib.compile(sql)
    case Rejected(status, message) => s.(errcode := status, errmsg := message)
    case Compiled(p) => AfterStep(Recorded(s, lib, OK), sql, p, 0)
  }

  /** The connection state after executing each text in turn. */
  function RunAll(s: ConnState, lib: Library, sqls: seq<string>): ConnState
    decreases |sqls|
  {
    if sqls == [] then s else RunAll(ExecuteState(s, lib, sqls[0]), lib, sqls[1..])
  }

  /** The texts that reach the engine's step, and so its log: those that compile. */
  function Logged(lib: Library, sqls: seq<string>): (r: seq<string>)
    ensures forall x :: x in r ==> x in sqls && lib.compile(x).Compiled?
    decreases |sqls|
  {
    if sqls == [] then []
    else (if lib.compile(sqls[0]).Compiled? then [sqls[0]] else []) + Logged(lib, sqls[1..])
  }

  /** The first exception among executing the texts in turn. */
  function Failure(lib: Library, sqls: seq<string>): Option<Exception>
    decreases |sqls|
  {
    if sqls == [] then None
    else if ExecuteError(lib, sqls[0]).Some? then ExecuteError(lib, sqls[0])
    else Failure(lib, sqls[1..])
  }

  /** The texts executed in turn up to and including the first that throws. */
  function Executed(lib: Library, sqls: seq<string>): seq<string>
    decreases |sqls|
  {
    if sqls == [] then []
    else if ExecuteError(lib, sqls[0]).Some? then [sqls[0]]
    else [sqls[0]] + Executed(lib, sqls[1..])
  }

  /** Executing a single text. */
  lemma RunOne(s: ConnState, lib: Library, x: string)
    ensures RunAll(s, lib, [x]) == ExecuteState(s, lib, x)
    ensures Executed(lib, [x]) == [x] && Failure(lib, [x]) == ExecuteError(lib, x)
  {
    assert [x][1..] == [];
  }

  lemma {:induction false} RunAllConcat(s: ConnState, lib: Library, a: seq<string>, b: seq<string>)
    ensures RunAll(s, lib, a + b) == RunAll(RunAll(s, lib, a), lib, b)
    decreases |a|
  {
    if a != [] {
      assert (a + b)[1..] == a[1..] + b;
      RunAllConcat(ExecuteState(s, lib, a[0]), lib, a[1..], b);
    } else {
      assert a + b == b;
    }
  }

  lemma {:induction false} FailureConcat(lib: Library, a: seq<string>, b: seq<string>)
    ensures Failure(lib, a + b) == if Failure(lib, a).Some? then Failure(lib, a) else Failure(lib, b)
    ensures Executed(lib, a + b) == if Failure(lib, a).Some? then Executed(lib, a) else a + Executed(lib, b)
    decreases |a|
  {
    if a != [] {
      assert (a + b)[0] == a[0];
      assert (a + b)[1..] == a[1..] + b;
      FailureConcat(lib, a[1..], b);
      if ExecuteError(lib, a[0]).None? {
        assert a == [a[0]] + a[1..];
      }
    } else {
      assert a + b == b;
    }
  }

  /**
   * Executing texts in turn runs a prefix of them: all of them when none throws,
   * otherwise exactly up to the first that throws, whose exception is the failure.
   */
  lemma {:induction false} ExecutedShape(lib: Library, sqls: seq<string>)
    ensures Failure(lib, sqls).None? ==>
      Executed(lib, sqls) == sqls && forall x :: x in sqls ==> ExecuteError(lib, x).None?
    ensures Failure(lib, sqls).Some? ==>
      var e := Executed(lib, sqls);
      && 0 < |e| <= |sqls| && e == sqls[..|e|]
      && ExecuteError(lib, e[|e| - 1]) == Failure(lib, sqls)
      && forall i :: 0 <= i < |e| - 1 ==> ExecuteError(lib, e[i]).None?
    decreases |sqls|
  {
    if sqls != [] {
      ExecutedShape(lib, sqls[1..]);
      if ExecuteError(lib, sqls[0]).None? {
        assert sqls == [sqls[0]] + sqls[1..];
        if Failure(lib, sqls).Some? {
          var rest := Executed(lib, sqls[1..]);
          var e := Executed(lib, sqls);
          assert e == [sqls[0]] + rest;
          assert sqls[..|e|] == [sqls[0]] + sqls[1..][..|rest|];
          forall i | 0 <= i < |e| - 1
            ensures ExecuteError(lib, e[i]).None?
          {
            if i > 0 {
              assert e[i] == rest[i - 1];
            }
          }
        }
      }
    }
  }

  /** Every text that reaches a step appends itself to the log, in order; nothing else does. */
  lemma {:induction false} RunAllLog(s: ConnState, lib: Library, sqls: seq<string>)
    ensures RunAll(s, lib, sqls).log == s.log + Logged(lib, sqls)
    decreases |sqls|
  {
    if sqls != [] {
      RunAllLog(ExecuteState(s, lib, sqls[0]), lib, sqls[1..]);
    }
  }

  // ---------------------------------------------------------------------------
  // The transaction protocol.

  const Begin := "BEGIN;"
  const Commit := "COMMIT;"
  const Rollback := "ROLLBACK;"

  /** BEGIN, the operations, COMMIT. */
  function TransactionBody(ops: seq<string>): seq<string> {
    [Begin] + ops + [Commit]
  }

  /** Everything as_transaction executes: the body up to its first failure, then ROLLBACK if there was one. */
  function TransactionRun(lib: Library, ops: seq<string>): seq<string> {
    var body := TransactionBody(ops);
    Executed(lib, body) + (if Failure(lib, body).Some? then [Rollback] else [])
  }

  /** What as_transaction throws: nothing, the body's first exception, or ROLLBACK's own exception in its place. */
  function TransactionError(lib: Library, ops: seq<string>): Option<Exception> {
    var failure := Failure(lib, TransactionBody(ops));
    if failure.None? then None
    else if ExecuteError(lib, Rollback).Some? then ExecuteError(lib, Rollback)
    else failure
  }

  /** When nothing throws, the transaction is BEGIN, every operation in order, COMMIT, and nothing escapes. */
  lemma TransactionCommits(lib: Library, ops: seq<string>)
    requires Failure(lib, TransactionBody(ops)).None?
    ensures TransactionRun(lib, ops) == [Begin] + ops + [Commit]
    ensures TransactionError(lib, ops).None?
  {
    ExecutedShape(lib, TransactionBody(ops));
  }

  /**
   * When something throws, the transaction began with BEGIN, stopped at the
   * first failure, never committed past it, and ended with ROLLBACK; the
   * caller sees the original exception unless ROLLBACK itself throws.
   */
  lemma TransactionRollsBack(lib: Library, ops: seq<string>)
    requires Failure(lib, TransactionBody(ops)).Some?
    ensures var run := TransactionRun(lib, ops);
      && 2 <= |run| && |run| - 1 <= |TransactionBody(ops)| && run[0] == Begin && run[|run| - 1] == Rollback
      && run[..|run| - 1] == TransactionBody(ops)[..|run| - 1]
      && ExecuteError(lib, run[|run| - 2]).Some?
      && forall i :: 0 <= i < |run| - 2 ==> ExecuteError(lib, run[i]).None?
    ensures ExecuteError(lib, Rollback).None? ==> TransactionError(lib, ops) == Failure(lib, TransactionBody(ops))
    ensures ExecuteError(lib, Rollback).Some? ==> TransactionError(lib, ops) == ExecuteError(lib, Rollback)
  {
    var body := TransactionBody(ops);
    ExecutedShape(lib, body);
    var e := Executed(lib, body);
    var run := TransactionRun(lib, ops);
    assert run == e + [Rollback];
    assert run[..|run| - 1] == e;
    assert run[0] == e[0] == body[0];
  }

  // ---------------------------------------------------------------------------
  // The wrapper object.

  class Database {
    var db: Connection?

    constructor Wrap(handle: Connection?)
      ensures db == handle
    {
      db := handle;
    }

    /** A wrapper that holds a handle holds an open one. */
    predicate Valid()
      reads this, db
    {
      db != null ==> db.open
    }

    /** The first step a fresh statement of `sql` takes leaves the state ExecuteState describes and throws what ExecuteError says. */
    static lemma FirstStepAgrees(stmt: Stmt, before: ConnState)
      requires stmt.db.lib.compile(stmt.sql) == Compiled(stmt.program)
      requires stmt.db.state == AfterStep(Recorded(before, stmt.db.lib, OK), stmt.sql, stmt.program, 0)
      ensures stmt.db.state == ExecuteState(before, stmt.db.lib, stmt.sql)
      ensures var c := Results.StepClassification(stmt, 0);
        && (c.Ok? <==> ExecuteError(stmt.db.lib, stmt.sql).None?)
        && (c.Throw? ==> ExecuteError(stmt.db.lib, stmt.sql) == Some(c.exception))
    {
      var status := StatusAt(stmt.program.steps, 0);
      if status != ROW && status != DONE && status != LOCKED && status != BUSY {
        assert stmt.db.state.errmsg == FirstMessage(stmt.program);
      }
    }

    /** create_statement: prepares, or throws error(status, "while preparing sql statement '<sql>'"). */
    method CreateStatement(sql: string) returns (r: Outcome<Stmt>)
      requires db != null && db.open
      modifies db
      ensures db == old(db) && db.open
      ensures r.Throw? <==> db.lib.compile(sql).Rejected?
      ensures r.Throw? ==>
        && Some(r.exception) == ExecuteError(db.lib, sql)
        && db.state == ExecuteState(old(db.state), db.lib, sql) && db.live == old(db.live)
      ensures r.Ok? ==>
        && fresh(r.value) && r.value.db == db && r.value.sql == sql
        && db.lib.compile(sql) == Compiled(r.value.program)
        && r.value.cursor == 0 && r.value.bindings == map[] && !r.value.finalized
        && db.state == Recorded(old(db.state), db.lib, OK) && db.live == old(db.live) + {r.value}
    {
      var stmt, status := Prepare(db, sql);
      if status != OK {
        r := Throw(CodeError(db.lib.errstr, status, "while preparing sql statement '" + sql + "'"));
      } else {
        r := Ok(stmt as Stmt);
      }
    }

    /** prepare_statement: create_statement wrapped in a statement object. */
    method PrepareStatement(sql: string) returns (r: Outcome<Statements.Statement>)
      requires db != null && db.open
      modifies db
      ensures db == old(db) && db.open
      ensures r.Throw? <==> db.lib.compile(sql).Rejected?
      ensures r.Throw? ==> Some(r.exception) == ExecuteError(db.lib, sql) && db.live == old(db.live)
      ensures r.Ok? ==>
        && fresh(r.value) && r.value.stmt != null && fresh(r.value.stmt)
        && r.value.stmt.sql == sql && r.value.stmt.cursor == 0 && !r.value.stmt.finalized
        && db.live == old(db.live) + {r.value.stmt}
    {
      var created := CreateStatement(sql);
      match created
      case Throw(e) =>
        r := Throw(e);
      case Ok(stmt) =>
        var s := new Statements.Statement(stmt);
        r := Ok(s);
    }

    /**
     * execute(sql): prepares and builds a result, which steps once. When the
     * step throws, the statement's only owner is gone and it is finalized.
     */
    method Execute(sql: string) returns (r: Outcome<Results.Result>)
      requires db != null && db.open
      modifies db
      ensures db == old(db) && db.open
      ensures db.state == ExecuteState(old(db.state), db.lib, sql)
      ensures r.Throw? <==> ExecuteError(db.lib, sql).Some?
      ensures r.Throw? ==> Some(r.exception) == ExecuteError(db.lib, sql) && db.live == old(db.live)
      ensures r.Ok? ==>
        && fresh(r.value) && r.value.stmt != null && fresh(r.value.stmt)
        && r.value.stmt.db == db && r.value.stmt.sql == sql && db.lib.compile(sql) == Compiled(r.value.stmt.program)
        && r.value.stmt.cursor == 1 && !r.value.stmt.finalized && r.value.Synced()
        && db.live == old(db.live) + {r.value.stmt}
      ensures r.Ok? && StatusAt(r.value.stmt.program.steps, 0) == DONE ==>
        r.value.RowModificationCount() == Results.CompletedCount(r.value.stmt.program, old(db.state.changes))
    {
      var created := CreateStatement(sql);
      match created
      case Throw(e) =>
        r := Throw(e);
      case Ok(stmt) =>
        r := Results.Result.Create(stmt);
        FirstStepAgrees(stmt, old(db.state));
        if r.Throw? {
          stmt.Finalize();
        }
    }

    /** execute(statement): make_result on the statement's shared handle. */
    method ExecuteStatement(statement: Statements.Statement) returns (r: Outcome<Results.Result>)
      requires statement.stmt != null && !statement.stmt.finalized
      modifies statement.stmt, statement.stmt.db
      ensures r.Ok? ==> fresh(r.value) && r.value.stmt == statement.stmt
      ensures statement.stmt.db.state == AfterStep(old(statement.stmt.db.state), statement.stmt.sql, statement.stmt.program, 0)
      ensures var c := Results.StepClassification(statement.stmt, 0);
        r.Ok? == c.Ok? && (r.Throw? ==> r.exception == c.exception)
    {
      r := Statements.MakeResult(statement);
    }

    /** `db.execute(sql);` as a statement: the result is dropped at once and finalizes its statement. */
    method Run(sql: string) returns (e: Option<Exception>)
      requires db != null && db.open
      modifies db
      ensures db == old(db) && db.open && db.live == old(db.live)
      ensures db.state == ExecuteState(old(db.state), db.lib, sql)
      ensures e == ExecuteError(db.lib, sql)
    {
      var executed := Execute(sql);
      match executed
      case Throw(x) =>
        e := Some(x);
      case Ok(result) =>
        result.stmt.Finalize();
        e := None;
    }

    /**
     * A scalar query, as size() calls execute_scalar (src/database.cpp:95-96),
     * which the files of this revision neither declare nor define; it is read
     * as: the query is executed, column 0 of the row its first step produced
     * is read as size_t, and the result is dropped.
     */
    method ExecuteScalar(sql: string) returns (r: Outcome<int>)
      requires db != null && db.open
      modifies db
      ensures db == old(db) && db.open && db.live == old(db.live)
      ensures db.state == ExecuteState(old(db.state), db.lib, sql)
      ensures r.Throw? <==> ExecuteError(db.lib, sql).Some?
      ensures r.Throw? ==> Some(r.exception) == ExecuteError(db.lib, sql)
      ensures r.Ok? ==> r.value == ScalarValue(db.lib, sql)
    {
      var executed := Execute(sql);
      match executed
      case Throw(x) =>
        r := Throw(x);
      case Ok(result) =>
        var stmt := result.stmt;
        var field := Field(stmt, 0);
        r := Ok(field.AsSizeT());
        stmt.Finalize();
    }

    /** size(): page_count × page_size; the first query that throws decides the exception. */
    method Size() returns (r: Outcome<int>)
      requires db != null && db.open
      modifies db
      ensures db == old(db) && db.open && db.live == old(db.live)
      ensures db.state == RunAll(old(db.state), db.lib, Executed(db.lib, SizeQueries))
      ensures r.Throw? <==> Failure(db.lib, SizeQueries).Some?
      ensures r.Throw? ==> Some(r.exception) == Failure(db.lib, SizeQueries)
      ensures r.Ok? ==> r.value == ScalarValue(db.lib, PageCount) * ScalarValue(db.lib, PageSize)
    {
      ghost var s0 := db.state;
      assert SizeQueries == [PageCount] + [PageSize];
      FailureConcat(db.lib, [PageCount], [PageSize]);
      RunOne(s0, db.lib, PageCount);
      var count := ExecuteScalar(PageCount);
      if count.Throw? {
        return Throw(count.exception);
      }
      RunAllConcat(s0, db.lib, [PageCount], [PageSize]);
      RunOne(db.state, db.lib, PageSize);
      var size := ExecuteScalar(PageSize);
      if size.Throw? {
        return Throw(size.exception);
      }
      r := Ok(count.value * size.value);
    }

    /** close(): the handle is closed, with no statement left unfinalized, and always left null. */
    method Close()
      requires db != null ==> db.open && db.live == {}
      modifies this, db
      ensures db == null
      ensures old(db) != null ==> !old(db).open && old(db).state == old(db.state) && old(db).live == {}
    {
      var status := Engine.Close(db);
      db := null;
    }

    /** The defaulted move constructor, as written: the raw handle is copied and the source keeps it. */
    static method MoveConstructAsWritten(other: Database) returns (d: Database)
      ensures fresh(d) && d.db == other.db
      ensures other.db != null ==> !Exclusive(d, other) && !Exclusive(other, d)
    {
      d := new Database.Wrap(other.db);
    }

    /** The move constructor as evidently intended: the handle moves and the source is left null. */
    static method MoveConstruct(other: Database) returns (d: Database)
      modifies other
      ensures fresh(d) && d.db == old(other.db) && other.db == null
      ensures Exclusive(d, other) && Exclusive(other, d)
    {
      d := new Database.Wrap(other.db);
      other.db := null;
    }

    /** The defaulted move assignment, as written: the raw handle is copied and the source keeps it. */
    method MoveAssignAsWritten(other: Database)
      modifies this
      ensures db == other.db
      ensures other.db != null ==> !Exclusive(this, other)
    {
      db := other.db;
    }

    /**
     * Move assignment as evidently intended: the two wrappers exchange their
     * handles (a self-move changes nothing).
     */
    method MoveAssign(other: Database)
      modifies this, other
      ensures db == old(other.db) && other.db == old(db)
      ensures old(Exclusive(this, other)) ==> Exclusive(this, other) && Exclusive(other, this)
    {
      if other != this {
        db, other.db := other.db, db;
      }
    }
  }

  const PageCount := "PRAGMA page_count;"
  const PageSize := "PRAGMA page_size;"
  const SizeQueries := [PageCount, PageSize]

  /** Column 0 of the row the first step of `sql` produces, read as size_t; 0 when NULL or absent. */
  function ScalarValue(lib: Library, sql: string): int {
    match lib.compile(sql)
    case Rejected(_, _) => 0
    case Compiled(p) =>
      if 0 < |p.steps| && p.steps[0].status == ROW && 0 < |p.steps[0].row| && p.steps[0].row[0].kind != NullType
      then p.steps[0].row[0].int64
      else 0
  }

  /** No other wrapper holds a's handle, so a's destructor is the only one that closes it. */
  ghost predicate Exclusive(a: Database, b: Database)
    reads a, b
  {
    a.db == null || a.db != b.db
  }

  /**
   * throw_on_error: a failed open closes the handle it was given before
   * error(status) is thrown; a successful one keeps it open.
   */
  method ThrowOnError(status: int, conn: Connection) returns (e: Option<Exception>)
    requires conn.open
    modifies conn
    ensures e.None? <==> status == OK
    ensures e.Some? ==> e.value == CodeOnlyError(conn.lib.errstr, status) && !conn.open
    ensures e.None? ==> conn.open
    ensures conn.live == old(conn.live) && conn.state == old(conn.state)
  {
    if status != OK {
      CloseV2(conn);
      return Some(CodeOnlyError(conn.lib.errstr, status));
    }
    return None;
  }

  /** database(path, permissions, visibility): opens with permissions | visibility. */
  method OpenPath(lib: Library, path: string, mode: AccessMode, cache: Cache)
    returns (r: Outcome<Database>, handle: Connection)
    ensures fresh(handle) && handle.path == path && handle.flags == ModeFlags(mode) | CacheFlags(cache)
    ensures var status := lib.openStatus(path, ModeFlags(mode) | CacheFlags(cache));
      && (r.Throw? <==> status != OK)
      && (r.Throw? ==> r.exception == CodeOnlyError(lib.errstr, status) && !handle.open)
      && (r.Ok? ==> fresh(r.value) && r.value.db == handle && handle.open && handle.live == {})
  {
    var status;
    handle, status := Open(lib, path, ModeFlags(mode) | CacheFlags(cache));
    var e := ThrowOnError(status, handle);
    if e.Some? {
      return Throw(e.value), handle;
    }
    var d := new Database.Wrap(handle);
    r := Ok(d);
  }

  /**
   * database(in_memory, permissions, visibility): opens the in-memory URI
   * with permissions | OPEN_URI; the cache is chosen only through the URI.
   */
  method OpenInMemory(lib: Library, mode: AccessMode, cache: Cache)
    returns (r: Outcome<Database>, handle: Connection)
    ensures fresh(handle) && handle.path == MemoryUri(mode, cache) && handle.flags == ModeFlags(mode) | OPEN_URI
    ensures var status := lib.openStatus(MemoryUri(mode, cache), ModeFlags(mode) | OPEN_URI);
      && (r.Throw? <==> status != OK)
      && (r.Throw? ==> r.exception == CodeOnlyError(lib.errstr, status) && !handle.open)
      && (r.Ok? ==> fresh(r.value) && r.value.db == handle && handle.open && handle.live == {})
  {
    var path := MemoryUri(mode, cache);
    var status;
    handle, status := Open(lib, path, ModeFlags(mode) | OPEN_URI);
    var e := ThrowOnError(status, handle);
    if e.Some? {
      return Throw(e.value), handle;
    }
    var d := new Database.Wrap(handle);
    r := Ok(d);
  }

  /**
   * The operations callback, taken to be a sequence of SQL texts that it
   * executes in turn and whose first exception it lets escape.
   */
  method RunOperations(d: Database, ops: seq<string>) returns (e: Option<Exception>)
    requires d.db != null && d.db.open
    modifies d.db
    ensures d.db == old(d.db) && d.db.open && d.db.live == old(d.db.live)
    ensures d.db.state == RunAll(old(d.db.state), d.db.lib, Executed(d.db.lib, ops))
    ensures e == Failure(d.db.lib, ops)
  {
    var conn := d.db;
    var lib := conn.lib;
    ghost var s0 := conn.state;
    var i := 0;
    while i < |ops|
      invariant 0 <= i <= |ops| && d.db == conn && conn.open && conn.live == old(conn.live)
      invariant Failure(lib, ops[..i]).None?
      invariant conn.state == RunAll(s0, lib, ops[..i])
    {
      assert ops[..i + 1] == ops[..i] + [ops[i]];
      assert ops == ops[..i] + ops[i..];
      FailureConcat(lib, ops[..i], [ops[i]]);
      FailureConcat(lib, ops[..i], ops[i..]);
      RunAllConcat(s0, lib, ops[..i], [ops[i]]);
      e := d.Run(ops[i]);
      if e.Some? {
        ExecutedShape(lib, ops[..i]);
        assert Executed(lib, ops[i..]) == [ops[i]];
        return;
      }
      i := i + 1;
    }
    assert ops[..i] == ops;
    ExecutedShape(lib, ops);
    e := None;
  }

  /**
   * as_transaction: BEGIN, the operations, COMMIT; on any exception ROLLBACK
   * is executed and the exception rethrown (an exception from ROLLBACK itself
   * escapes instead).
   */
  method AsTransaction(d: Database, ops: seq<string>) returns (e: Option<Exception>)
    requires d.db != null && d.db.open
    modifies d.db
    ensures d.db == old(d.db) && d.db.open && d.db.live == old(d.db.live)
    ensures d.db.state == RunAll(old(d.db.state), d.db.lib, TransactionRun(d.db.lib, ops))
    ensures e == TransactionError(d.db.lib, ops)
  {
    var conn := d.db;
    var lib := conn.lib;
    ghost var s0 := conn.state;
    ghost var body := TransactionBody(ops);
    assert body == [Begin] + (ops + [Commit]);
    FailureConcat(lib, [Begin], ops + [Commit]);
    FailureConcat(lib, ops, [Commit]);
    RunOne(s0, lib, Begin);
    e := d.Run(Begin);
    if e.None? {
      RunAllConcat(s0, lib, [Begin], Executed(lib, ops + [Commit]));
      ghost var s1 := conn.state;
      e := RunOperations(d, ops);
      if e.None? {
        ExecutedShape(lib, ops);
        RunOne(conn.state, lib, Commit);
        RunAllConcat(s1, lib, ops, [Commit]);
        e := d.Run(Commit);
      }
    }
    assert e == Failure(lib, body);
    ghost var s2 := conn.state;
    assert s2 == RunAll(s0, lib, Executed(lib, body));
    if e.Some? {
      RunOne(s2, lib, Rollback);
      RunAllConcat(s0, lib, Executed(lib, body), [Rollback]);
      assert TransactionRun(lib, ops) == Executed(lib, body) + [Rollback];
      var r := d.Run(Rollback);
      assert conn.state == RunAll(s0, lib, Executed(lib, body) + [Rollback]);
      if r.Some? {
        e := r;
      }
      assert conn.state == RunAll(s0, lib, TransactionRun(lib, ops));
    } else {
      assert TransactionRun(lib, ops) == Executed(lib, body) + [];
      assert Executed(lib, body) + [] == Executed(lib, body);
      assert conn.state == RunAll(s0, lib, TransactionRun(lib, ops));
    }
  }
}
