/**
 * An abstract model of the SQLite C library, as far as the wrapper uses it.
 *
 * The engine itself (SQL compilation, the B-tree, column coercion, the
 * message texts) is not modelled: compilation is an oracle that maps SQL text
 * to a scripted program, and every message text comes from an oracle.  What is
 * modelled is the state the wrapper observes and changes through the C API:
 * a connection with its change counter, its last error and a log of the SQL
 * it has executed, and a prepared statement with its column and parameter
 * names, a script of step statuses, a cursor, its bindings and whether it has
 * been finalized.
 */
module Engine {

  datatype Option<T> = None | Some(value: T)

  // ---------------------------------------------------------------------------
  // Result codes and open flags of the SQLite C interface.

  const OK := 0
  const ERROR := 1
  const BUSY := 5
  const LOCKED := 6
  const MISUSE := 21
  const RANGE := 25
  const ROW := 100
  const DONE := 101

  const OPEN_READONLY: bv32 := 0x0000_0001
  const OPEN_READWRITE: bv32 := 0x0000_0002
  const OPEN_CREATE: bv32 := 0x0000_0004
  const OPEN_URI: bv32 := 0x0000_0040
  const OPEN_SHAREDCACHE: bv32 := 0x0002_0000
  const OPEN_PRIVATECACHE: bv32 := 0x0004_0000

  // ---------------------------------------------------------------------------
  // Values.

  /** A byte of column text: sqlite3_column_text yields UTF-8 bytes, not characters. */
  type Byte = bv8

  /** A double is an opaque 64-bit payload; 0.0 is the all-zero pattern. */
  datatype Double = Double(bits: bv64)
  const ZeroDouble := Double(0)

  /** The fundamental column types reported by sqlite3_column_type. */
  datatype ColumnType = IntegerType | FloatType | TextType | BlobType | NullType

  /**
   * One column of the current row, as the engine's typed accessors report it:
   * the type and what sqlite3_column_int, _int64, _double and _text return
   * after whatever coercion the engine performs. The text is the UTF-8 byte
   * string the engine returns, without its terminating NUL.
   */
  datatype Cell = Cell(kind: ColumnType, int32: int, int64: int, double: Double, text: seq<Byte>)

  const NullCell := Cell(NullType, 0, 0, ZeroDouble, [])

  /** A value handed to one of the sqlite3_bind_* calls. */
  datatype BoundValue =
    | DoubleValue(d: Double)
    | IntValue(i: int)
    | Int64Value(i: int)
    | NullValue
    | TextValue(s: string)

  // ---------------------------------------------------------------------------
  // The compile oracle.

  /** What one call of sqlite3_step reports: a status, the row it produced and the error text. */
  datatype StepOutcome = StepOutcome(status: int, row: seq<Cell>, message: string)

  /**
   * A compiled statement: its result columns, its named parameters (the
   * parameter with 1-based index i is params[i - 1]), the statuses its steps
   * return in order, whether it is read-only, whether it is an INSERT, UPDATE
   * or DELETE (only those set sqlite3_changes; DDL such as CREATE TABLE is not
   * read-only yet leaves the counter alone), how many rows it changes when it
   * completes, and the status sqlite3_clear_bindings reports for it.
   */
  datatype Program = Program(
    columns: seq<string>,
    params: seq<string>,
    steps: seq<StepOutcome>,
    readOnly: bool,
    dml: bool,
    changes: nat,
    clearStatus: int)

  /** A status other than OK. */
  type ErrorStatus = s: int | s != OK witness ERROR

  /** Compilation yields a program, or an error status and the connection's message for it. */
  datatype Compiled = Compiled(program: Program) | Rejected(status: ErrorStatus, message: string)

  /** The library-wide oracles: message texts, open and compile outcomes, bind refusals. */
  datatype Library = Library(
    errstr: int -> string,
    openStatus: (string, bv32) -> int,
    compile: string -> Compiled,
    bindStatus: BoundValue -> int)

  /** Status of the step taken at cursor position `at`; past the script the engine reports misuse. */
  function StatusAt(steps: seq<StepOutcome>, at: nat): int {
    if at < |steps| then steps[at].status else MISUSE
  }

  /** The 1-based index sqlite3_bind_parameter_index gives a name, or 0 when it is absent. */
  function ParameterIndexIn(params: seq<string>, name: string): (r: nat)
    ensures r <= |params|
    ensures r == 0 <==> name !in params
    ensures r != 0 ==> params[r - 1] == name && name !in params[..r - 1]
  {
    if |params| == 0 then 0
    else if params[0] == name then 1
    else
      var rest := ParameterIndexIn(params[1..], name);
      assert params == [params[0]] + params[1..];
      if rest == 0 then 0
      else
        assert params[..rest] == [params[0]] + params[1..][..rest - 1];
        rest + 1
  }

  // ---------------------------------------------------------------------------
  // Connections.

  /** The observable mutable state of a connection. */
  datatype ConnState = ConnState(changes: nat, log: seq<string>, errcode: int, errmsg: string)

  /** The error text a step at position `at` leaves; a step past the script leaves none. */
  function StepMessage(steps: seq<StepOutcome>, at: nat): string {
    if at < |steps| then steps[at].message else ""
  }

  /**
   * The connection state after a step of `sql` taken at position `at` of its
   * script: the step's status becomes the error code; a failing step also
   * leaves its message, a succeeding one keeps the message already held.
   * Only a completing INSERT, UPDATE or DELETE sets the change counter.
   */
  function AfterStep(s: ConnState, sql: string, program: Program, at: nat): (r: ConnState)
    ensures r.log == if at == 0 then s.log + [sql] else s.log
    ensures r.errcode == StatusAt(program.steps, at)
    ensures r.changes == if StatusAt(program.steps, at) == DONE && program.dml then program.changes else s.changes
  {
    var status := StatusAt(program.steps, at);
    var log := if at == 0 then s.log + [sql] else s.log;
    if status == ROW then s.(log := log, errcode := status)
    else if status == DONE then
      s.(log := log, errcode := status, changes := if program.dml then program.changes else s.changes)
    else
      s.(log := log, errcode := status, errmsg := StepMessage(program.steps, at))
  }

  /**
   * An API call that records its status with no message of its own (a bind,
   * a successful prepare): the status becomes the error code, and the
   * message is the library's text for that status.
   */
  function Recorded(s: ConnState, lib: Library, status: int): ConnState {
    s.(errcode := status, errmsg := lib.errstr(status))
  }

  class Connection {
    const lib: Library
    const path: string
    const flags: bv32
    var open: bool
    var live: set<Stmt>
    var state: ConnState
    /** The wrapper object that is responsible for closing this handle, if any. */
    ghost var owner: object?

    constructor (lib: Library, path: string, flags: bv32, status: int)
      ensures this.lib == lib && this.path == path && this.flags == flags
      ensures open && live == {} && owner == null
      ensures state == ConnState(0, [], status, lib.errstr(status))
    {
      this.lib := lib;
      this.path := path;
      this.flags := flags;
      open := true;
      live := {};
      state := ConnState(0, [], status, lib.errstr(status));
      owner := null;
    }
  }

  /** sqlite3_open_v2: a handle is allocated even when the open fails, and must be closed. */
  method Open(lib: Library, path: string, flags: bv32) returns (conn: Connection, status: int)
    ensures fresh(conn)
    ensures status == lib.openStatus(path, flags)
    ensures conn.lib == lib && conn.path == path && conn.flags == flags
    ensures conn.open && conn.live == {} && conn.owner == null
    ensures conn.state == ConnState(0, [], status, lib.errstr(status))
  {
    status := lib.openStatus(path, flags);
    conn := new Connection(lib, path, flags, status);
  }

  /**
   * sqlite3_close: a null handle is a harmless no-op; a connection with
   * unfinalized statements stays open and reports busy.
   */
  method Close(conn: Connection?) returns (status: int)
    requires conn != null ==> conn.open
    modifies conn
    ensures conn == null ==> status == OK
    ensures conn != null ==> status == (if old(conn.live) == {} then OK else BUSY)
    ensures conn != null ==> conn.open == (status != OK)
    ensures conn != null ==> conn.live == old(conn.live) && conn.state == old(conn.state)
    ensures conn != null ==> conn.owner == old(conn.owner)
  {
    if conn == null {
      status := OK;
    } else if conn.live == {} {
      conn.open := false;
      status := OK;
    } else {
      status := BUSY;
    }
  }

  /** sqlite3_close_v2: the handle is released (at once, or when its last statement is finalized). */
  method CloseV2(conn: Connection)
    requires conn.open
    modifies conn
    ensures !conn.open
    ensures conn.live == old(conn.live) && conn.state == old(conn.state) && conn.owner == old(conn.owner)
  {
    conn.open := false;
  }

  // ---------------------------------------------------------------------------
  // Prepared statements.

  class Stmt {
    const db: Connection
    const sql: string
    const program: Program
    /** Number of steps taken since the statement was prepared or last reset. */
    var cursor: nat
    var bindings: map<nat, BoundValue>
    var finalized: bool
    /** The wrapper object that is responsible for finalizing this handle, if any. */
    ghost var owner: object?

    constructor (db: Connection, sql: string, program: Program)
      ensures this.db == db && this.sql == sql && this.program == program
      ensures cursor == 0 && bindings == map[] && !finalized && owner == null
    {
      this.db := db;
      this.sql := sql;
      this.program := program;
      cursor := 0;
      bindings := map[];
      finalized := false;
      owner := null;
    }

    function ColumnCount(): nat {
      |program.columns|
    }

    /** sqlite3_column_name: null (None) for an index the statement has no column at. */
    function ColumnName(i: nat): (r: Option<string>)
      ensures r.Some? <==> i < ColumnCount()
    {
      if i < |program.columns| then Some(program.columns[i]) else None
    }

    function ParameterCount(): nat {
      |program.params|
    }

    function ParameterIndex(name: string): nat {
      ParameterIndexIn(program.params, name)
    }

    function ReadOnly(): bool {
      program.readOnly
    }

    /** The cells of the current row; empty unless the last step produced a row. */
    function CurrentRow(): seq<Cell>
      reads this
    {
      if 0 < cursor <= |program.steps| && program.steps[cursor - 1].status == ROW
      then program.steps[cursor - 1].row
      else []
    }

    function CellAt(i: nat): Cell
      reads this
    {
      var row := CurrentRow();
      if i < |row| then row[i] else NullCell
    }

    function ColumnTypeAt(i: nat): ColumnType reads this { CellAt(i).kind }
    function ColumnInt(i: nat): int reads this { CellAt(i).int32 }
    function ColumnInt64(i: nat): int reads this { CellAt(i).int64 }
    function ColumnDouble(i: nat): Double reads this { CellAt(i).double }
    function ColumnText(i: nat): seq<Byte> reads this { CellAt(i).text }

    /** The status sqlite3_bind_* reports for binding `value` at `index` in the current state. */
    function BindStatus(index: nat, value: BoundValue): int
      reads this
    {
      if cursor > 0 then MISUSE
      else if !(1 <= index <= |program.params|) then RANGE
      else db.lib.bindStatus(value)
    }

    /** sqlite3_step. */
    method Step() returns (status: int)
      requires !finalized
      modifies this, db
      ensures status == StatusAt(program.steps, old(cursor))
      ensures SteppedOnce(this)
    {
      status := StatusAt(program.steps, cursor);
      db.state := AfterStep(db.state, sql, program, cursor);
      if cursor < |program.steps| {
        cursor := cursor + 1;
      }
    }

    /** sqlite3_reset: rewinds the cursor and keeps the bindings. */
    method Reset()
      requires !finalized
      modifies this`cursor
      ensures cursor == 0
    {
      cursor := 0;
    }

    /** One of the sqlite3_bind_* calls; the connection records its status, success included. */
    method Bind(index: nat, value: BoundValue) returns (status: int)
      requires !finalized
      modifies this`bindings, db`state
      ensures status == old(BindStatus(index, value))
      ensures bindings == if status == OK then old(bindings)[index := value] else old(bindings)
      ensures db.state == Recorded(old(db.state), db.lib, status)
    {
      status := BindStatus(index, value);
      if status == OK {
        bindings := bindings[index := value];
      }
      db.state := Recorded(db.state, db.lib, status);
    }

    /** sqlite3_clear_bindings. */
    method ClearBindings() returns (status: int)
      requires !finalized
      modifies this`bindings
      ensures status == program.clearStatus
      ensures bindings == if status == OK then map[] else old(bindings)
    {
      status := program.clearStatus;
      if status == OK {
        bindings := map[];
      }
    }

    /** sqlite3_finalize on a live handle (finalizing it twice is undefined behaviour). */
    method Finalize()
      requires !finalized
      modifies this, db
      ensures finalized && cursor == old(cursor) && bindings == old(bindings) && owner == old(owner)
      ensures db.live == old(db.live) - {this}
      ensures db.open == old(db.open) && db.state == old(db.state) && db.owner == old(db.owner)
    {
      finalized := true;
      db.live := db.live - {this};
    }
  }

  /**
   * The effect of one sqlite3_step on a statement and its connection: the
   * cursor advances (it stays put past the end of the script), the
   * connection state follows AfterStep, and nothing else changes.
   */
  twostate predicate SteppedOnce(stmt: Stmt)
    reads stmt, stmt.db
  {
    && stmt.cursor == (if old(stmt.cursor) < |stmt.program.steps| then old(stmt.cursor) + 1 else old(stmt.cursor))
    && stmt.bindings == old(stmt.bindings) && stmt.finalized == old(stmt.finalized)
    && stmt.owner == old(stmt.owner)
    && stmt.db.state == AfterStep(old(stmt.db.state), stmt.sql, stmt.program, old(stmt.cursor))
    && stmt.db.open == old(stmt.db.open) && stmt.db.live == old(stmt.db.live)
    && stmt.db.owner == old(stmt.db.owner)
  }

  /**
   * sqlite3_prepare_v2: on failure the statement handle is null and the
   * error is recorded with the compiler's message; on success OK is recorded.
   */
  method Prepare(conn: Connection, sql: string) returns (stmt: Stmt?, status: int)
    requires conn.open
    modifies conn
    ensures conn.lib.compile(sql).Rejected? ==>
      && stmt == null
      && status == conn.lib.compile(sql).status
      && conn.state == old(conn.state).(errcode := status, errmsg := conn.lib.compile(sql).message)
      && conn.live == old(conn.live)
    ensures conn.lib.compile(sql).Compiled? ==>
      && stmt != null && fresh(stmt) && status == OK
      && stmt.db == conn && stmt.sql == sql && stmt.program == conn.lib.compile(sql).program
      && stmt.cursor == 0 && stmt.bindings == map[] && !stmt.finalized && stmt.owner == null
      && conn.state == Recorded(old(conn.state), conn.lib, OK)
      && conn.live == old(conn.live) + {stmt}
    ensures conn.open && conn.owner == old(conn.owner)
  {
    match conn.lib.compile(sql)
    case Rejected(st, message) =>
      stmt, status := null, st;
      conn.state := conn.state.(errcode := st, errmsg := message);
    case Compiled(program) =>
      stmt := new Stmt(conn, sql, program);
      status := OK;
      conn.live := conn.live + {stmt};
      conn.state := Recorded(conn.state, conn.lib, OK);
  }
}
