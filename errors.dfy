/**
 * The error taxonomy of both revisions of the wrapper.
 *
 * An exception is a value: its kind (the C++ class it was thrown as), the
 * message stored in its std::runtime_error base, the SQLite code it carries,
 * and, for the statement kinds, the SQL text and the parameter name. The
 * text a handler sees is What(e), which follows the what() overrides.
 */
module Errors {
  import opened Engine

  /** The exception classes. The root revision's database_error is a plain runtime_error. */
  datatype Kind =
    | RuntimeError
    | SqliteError
    | TransactionFailed
    | BadStatement
    | BadParameter
    | BindError
    | DatabaseError

  datatype Exception = Exception(kind: Kind, message: string, code: int, sql: string, param: string)

  /** The result of an operation that may throw. */
  datatype Outcome<T> = Ok(value: T) | Throw(exception: Exception)

  /** The direct base class of each exception class. */
  function Parent(k: Kind): Option<Kind> {
    match k
    case RuntimeError => None
    case SqliteError => Some(RuntimeError)
    case TransactionFailed => Some(SqliteError)
    case BadStatement => Some(SqliteError)
    case BadParameter => Some(BadStatement)
    case BindError => Some(BadParameter)
    case DatabaseError => Some(RuntimeError)
  }

  function Depth(k: Kind): nat {
    match k
    case RuntimeError => 0
    case SqliteError => 1
    case TransactionFailed => 2
    case BadStatement => 2
    case BadParameter => 3
    case BindError => 4
    case DatabaseError => 1
  }

  /** k is `ancestor` or derives from it: a handler for `ancestor` catches k. */
  predicate IsA(k: Kind, ancestor: Kind)
    decreases Depth(k)
  {
    k == ancestor || (Parent(k).Some? && Depth(Parent(k).value) < Depth(k) && IsA(Parent(k).value, ancestor))
  }

  lemma {:induction false} IsATransitive(a: Kind, b: Kind, c: Kind)
    requires IsA(a, b) && IsA(b, c)
    ensures IsA(a, c)
    decreases Depth(a)
  {
    if a != b {
      IsATransitive(Parent(a).value, b, c);
    }
  }

  /**
   * The statement kinds nest bind_error < bad_parameter < bad_statement <
   * error, transaction_failed is an error, and every error is a
   * runtime_error; database_error is not an error of the src revision.
   */
  lemma KindHierarchy()
    ensures IsA(BindError, BadParameter) && IsA(BadParameter, BadStatement) && IsA(BadStatement, SqliteError)
    ensures IsA(BindError, SqliteError) && IsA(TransactionFailed, SqliteError)
    ensures forall k :: IsA(k, RuntimeError)
    ensures !IsA(DatabaseError, SqliteError) && !IsA(TransactionFailed, BadStatement)
    ensures !IsA(BadParameter, BindError) && !IsA(SqliteError, BadStatement)
  {
    IsATransitive(BindError, BadParameter, BadStatement);
    IsATransitive(BindError, BadStatement, SqliteError);
  }

  /** The text the exception's what() returns. */
  function What(e: Exception): string {
    match e.kind
    case BadStatement => e.message + " with sql statement '" + e.sql + "'"
    case BadParameter => "unknown parameter '" + e.param + "' in sql statement '" + e.sql + "'"
    case BindError => e.message + " while binding parameter '" + e.param + "' in sql statement '" + e.sql + "'"
    case _ => e.message
  }

  // ---------------------------------------------------------------------------
  // The constructors of the src revision (src/error.cpp).

  /** error(code, msg): the engine's text for the code, a space, then msg. */
  function CodeError(errstr: int -> string, code: int, msg: string): Exception {
    Exception(SqliteError, errstr(code) + " " + msg, code, "", "")
  }

  /** error(msg): exactly msg, with the default code 0. */
  function MessageError(msg: string): Exception {
    Exception(SqliteError, msg, 0, "", "")
  }

  /** error_message(stmt): the connection's last message and the statement's SQL. */
  function StatementText(errmsg: string, sql: string): string {
    errmsg + " while executing sql statement '" + sql + "'"
  }

  /** error(stmt, msg): error_message(stmt), a space, then msg; the code stays 0. */
  function StatementError(errmsg: string, sql: string, msg: string): Exception {
    Exception(SqliteError, StatementText(errmsg, sql) + " " + msg, 0, "", "")
  }

  /** transaction_failed(status), built on error(status). */
  function TransactionFailure(errstr: int -> string, status: int): Exception {
    CodeOnlyError(errstr, status).(kind := TransactionFailed)
  }

  // ---------------------------------------------------------------------------
  // The constructors of the root revision (error.cpp, result.h).

  /** error(code): the engine's text for the code, carrying the code. */
  function CodeOnlyError(errstr: int -> string, code: int): Exception {
    Exception(SqliteError, errstr(code), code, "", "")
  }

  /** bad_statement(code, sql). */
  function BadStatementError(errstr: int -> string, code: int, sql: string): Exception {
    CodeOnlyError(errstr, code).(kind := BadStatement, sql := sql)
  }

  /** bad_statement(stmt): the code is the connection's errcode, the SQL the statement's text. */
  function BadStatementOf(stmt: Stmt): Exception
    reads stmt.db
  {
    BadStatementError(stmt.db.lib.errstr, stmt.db.state.errcode, stmt.sql)
  }

  /** bad_parameter(parameter, stmt). */
  function BadParameterOf(parameter: string, stmt: Stmt): Exception
    reads stmt.db
  {
    BadStatementOf(stmt).(kind := BadParameter, param := parameter)
  }

  /** bind_error(parameter, stmt). */
  function BindErrorOf(parameter: string, stmt: Stmt): Exception
    reads stmt.db
  {
    BadParameterOf(parameter, stmt).(kind := BindError)
  }

  /** database_error(msg), a runtime_error of the root revision. */
  function DatabaseFailure(msg: string): Exception {
    Exception(DatabaseError, msg, 0, "", "")
  }

  // ---------------------------------------------------------------------------
  // Properties.

  /** Only error(code, msg) and error(code) carry a code; the message constructors keep 0. */
  lemma OnlyCodeConstructorsSetCode(errstr: int -> string, code: int, msg: string, errmsg: string, sql: string)
    ensures CodeError(errstr, code, msg).code == code && CodeOnlyError(errstr, code).code == code
    ensures MessageError(msg).code == 0 && StatementError(errmsg, sql, msg).code == 0
    ensures DatabaseFailure(msg).code == 0
  {
  }

  /**
   * error(code, msg) and error(stmt, msg) put the caller's text after the
   * engine's: the engine text is a prefix and msg a suffix of what().
   */
  lemma MessageComposition(errstr: int -> string, code: int, msg: string, errmsg: string, sql: string)
    ensures var w := What(CodeError(errstr, code, msg));
      |w| == |errstr(code)| + 1 + |msg| && w[..|errstr(code)|] == errstr(code) && w[|w| - |msg|..] == msg
    ensures var w := What(StatementError(errmsg, sql, msg));
      w[..|errmsg|] == errmsg && w[|w| - |msg|..] == msg && sql <= w[|errmsg| + 32..]
    ensures What(MessageError(msg)) == msg
  {
    var w := What(StatementError(errmsg, sql, msg));
    assert w == errmsg + " while executing sql statement '" + sql + "'" + " " + msg;
    assert |" while executing sql statement '"| == 32;
    assert w[|errmsg| + 32..] == sql + "'" + " " + msg;
  }

  /** bad_statement(code, sql) keeps both arguments, and its what() is the engine text followed by the quoted SQL. */
  lemma BadStatementKeepsCodeAndSql(errstr: int -> string, code: int, sql: string)
    ensures var e := BadStatementError(errstr, code, sql);
      && e.kind == BadStatement && e.code == code && e.sql == sql
      && What(e) == errstr(code) + " with sql statement '" + sql + "'"
  {
  }

  /** bad_statement(stmt) starts with the engine's text for the connection's code and ends with the quoted SQL. */
  lemma BadStatementNamesItsSql(stmt: Stmt)
    ensures var e := BadStatementOf(stmt);
      e.kind == BadStatement && e.code == stmt.db.state.errcode && e.sql == stmt.sql
      && IsPrefix(stmt.db.lib.errstr(stmt.db.state.errcode), What(e))
      && IsSuffix("'" + stmt.sql + "'", What(e))
  {
    var base := stmt.db.lib.errstr(stmt.db.state.errcode);
    var tail := " with sql statement " + ("'" + stmt.sql + "'");
    assert What(BadStatementOf(stmt)) == base + tail;
    PrefixOfConcat(base, tail);
    SuffixOfConcat(base + " with sql statement ", "'" + stmt.sql + "'");
  }

  /** bad_parameter(parameter, stmt) quotes the unknown parameter first and the SQL last. */
  lemma BadParameterNamesItsParameter(stmt: Stmt, parameter: string)
    ensures var e := BadParameterOf(parameter, stmt);
      e.kind == BadParameter && e.param == parameter && e.sql == stmt.sql
      && IsPrefix("unknown parameter '" + parameter + "'", What(e))
      && IsSuffix("'" + stmt.sql + "'", What(e))
  {
    var head := "unknown parameter '" + parameter + "'";
    var tail := " in sql statement " + ("'" + stmt.sql + "'");
    assert What(BadParameterOf(parameter, stmt)) == head + tail;
    PrefixOfConcat(head, tail);
    SuffixOfConcat(head + " in sql statement ", "'" + stmt.sql + "'");
  }

  /** bind_error(parameter, stmt) starts with the engine's text for the code and ends with the quoted SQL. */
  lemma BindErrorNamesItsParameter(stmt: Stmt, parameter: string)
    ensures var e := BindErrorOf(parameter, stmt);
      e.kind == BindError && e.param == parameter && e.sql == stmt.sql
      && e.code == stmt.db.state.errcode
      && IsPrefix(stmt.db.lib.errstr(stmt.db.state.errcode), What(e))
      && IsSuffix("'" + stmt.sql + "'", What(e))
  {
    var base := stmt.db.lib.errstr(stmt.db.state.errcode);
    var mid := " while binding parameter '" + parameter + "' in sql statement ";
    var q := "'" + stmt.sql + "'";
    assert What(BindErrorOf(parameter, stmt)) == base + (mid + q);
    PrefixOfConcat(base, mid + q);
    SuffixOfConcat(base + mid, q);
  }

  predicate IsPrefix(p: string, s: string) {
    |p| <= |s| && s[..|p|] == p
  }

  predicate IsSuffix(p: string, s: string) {
    |p| <= |s| && s[|s| - |p|..] == p
  }

  lemma PrefixOfConcat(a: string, b: string)
    ensures IsPrefix(a, a + b)
  {
    assert (a + b)[..|a|] == a;
  }

  lemma SuffixOfConcat(a: string, b: string)
    ensures IsSuffix(b, a + b)
  {
    assert (a + b)[|a + b| - |b|..] == b;
  }
}
