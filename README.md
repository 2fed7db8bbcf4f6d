# xxsqlite, modelled in Dafny

xxsqlite is a thin C++ RAII wrapper over the SQLite C interface. It exists in
two revisions: the root files (`result.cpp`, `result_map.cpp`, `database.cpp`,
`statement.cpp`, `error.cpp`) and the later `src/` files. This project models
the wrapper logic of both revisions over an abstract engine and proves what
the wrapper promises about it:

- how step statuses are classified;
- how results, iterators and moves hand over handles and end flags;
- the column and parameter lookups;
- the NULL defaults of the field accessors;
- bind ordering and the error kinds;
- the open, close, prepare and execute paths;
- the transaction protocol;
- the error messages.

## The engine

SQLite itself is not modelled. Module `Engine` (`engine.dfy`) holds what the
wrapper observes through the C interface:

- **`Library`** holds the oracles:
  - `errstr` gives the message text of a status;
  - `openStatus` gives the status of an open, for a path and flags;
  - `compile` maps SQL text to a `Program` or to `Rejected(status, message)`;
  - `bindStatus` gives the status the engine reports for a bound value.
- **`Program`** is a compiled statement:
  - its column names and its parameter names;
  - a script of step outcomes (status, row cells, message);
  - whether it is read-only, whether it is an INSERT, UPDATE or DELETE, and how many rows it changes;
  - the status `sqlite3_clear_bindings` reports for it.
- **`Connection`** is a class with:
  - an `open` flag and the set of its live (unfinalized) statements;
  - a `ConnState`: the change counter, the log of SQL that reached a step, the last error code and the last message.
- **`Stmt`** is a class with a cursor into its script, its bindings and a `finalized` flag.
- **Column text** is the UTF-8 byte string `sqlite3_column_text` returns (`seq<Byte>`), so `as<char>` and `as<std::string>` are byte-wise, as in C++. SQL texts, names and messages are character strings.

Assumptions about the SQLite C interface, not stated by the wrapper:

- A statement logs its SQL when it takes its first step after prepare or reset.
- A step past the end of the script reports `SQLITE_MISUSE`. This is the legacy behaviour of SQLite up to 3.6.23.1, and of builds with `SQLITE_OMIT_AUTORESET`. A default current build instead resets the statement after DONE or an error and runs it again: a second step of a finished INSERT inserts again. The model does not capture that.
- Only a completing INSERT, UPDATE or DELETE (`Program.dml`) sets the `sqlite3_changes` counter, to that statement's changed rows. Any other statement, DDL such as `CREATE TABLE` included, leaves the counter at the earlier statement's count.
- `sqlite3_reset` keeps the bindings.
- A bind after a step reports `SQLITE_MISUSE`, and a bind at a bad index reports `SQLITE_RANGE`.
- `sqlite3_close(NULL)` succeeds.
- `sqlite3_close` of a connection with live statements reports `SQLITE_BUSY`.
- A failed open still allocates a handle, whose message is `errstr(status)`.
- Every call records its status as the connection's error code:
  - a bind and a successful prepare record their status with the message `errstr(status)`;
  - a failed prepare records the compiler's message;
  - a failing step records its scripted message;
  - a successful step (ROW or DONE) keeps the message already held.

Both `Connection` and `Stmt` carry a ghost `owner`: the wrapper object responsible for closing or finalizing the handle. The root revision's ownership proofs rest on it.

Exceptions are values (`Errors.Exception`): the C++ class (`Kind`), the
`runtime_error` message, the code, the SQL and the parameter. An operation
that may throw returns `Outcome<T>` = `Ok(value)` or `Throw(exception)`. The
text a handler sees is `Errors.What`. Debug `assert`s in the source are
preconditions, except where a release build goes on to throw. There the
model throws as the release build does:
- `find_column_index` after `assert(false)` (`src/row.cpp:38-39` and `src/parameter_lookup.cpp:48-49`), modelled by `Rows.FindColumnIndex` and `ParameterLookup.FindColumnIndex`;
- `row[index]` after its index assert (`src/row.cpp:57-59`), modelled by `Rows.Row.At`.

### Where the model follows the code rather than other readings

- **src error constructors.** src `error(int)` has no definition in `src/`, so the one in `error.cpp:53-54` is used: message `errstr(code)`, carrying the code. The `bad_statement`, `bad_parameter` and `bind_error` constructors that `src/` declares are likewise taken from `error.cpp`.
- **`error(stmt)`.** `src/result.cpp:35` throws `error(stmt)`, which is modelled as `error(stmt, "")`. Its message therefore ends in a space.
- **`result_map::column_name` past the last column.** `tests/test_result_map.cpp:66` calls `column_name(2)` on a two-column result and expects `""`. But `result_map.cpp:52-54` builds the `std::string` from `sqlite3_column_name` with no null guard, so that index would construct a string from NULL. The model follows the code: `LegacyResultMaps.LegacyResultMap.ColumnName` requires an index below the column count.
- **`create_statement` failure.** It throws a plain `error` (`src/database.cpp:117-118`). `src/tests/test_database.cpp:32-35` and `:46-53` expect `bad_statement`. The model follows the code.
- **The root `database.cpp`** is read against `src/database.h`, which declares `database(sqlite3*)`, `make_database`, and `access_mode` values 0x01, 0x02 and 0x06. The root `database.h` declares a different class. The match is not exact:
  - `src/database.h:46,50` default the moves, while `database.cpp:35-48` defines swap-based ones. The model follows the definitions in `database.cpp` for the root revision.
  - `src/database.h:54` declares `make_statement` const, while `database.cpp:60` defines it non-const.
- **The root `statement` moves.** `statement.h:44,48` declare the move constructor and move assignment `= default`, while `statement.cpp:33-44` defines swap-based ones. The model follows the definitions in `statement.cpp`.
  - The defaulted moves behind the first finding are those of `src/database.hpp:43,47` (and, identically, `src/database.h:46,50`), over a class whose only member is the raw `sqlite3*`.
- **`cache_type` values.** None of the files of this revision defines them. They are taken to be SQLite's `SQLITE_OPEN_PRIVATECACHE` (0x40000) and `SQLITE_OPEN_SHAREDCACHE` (0x20000).
- **`execute_scalar`** is called at `src/database.cpp:95-96`, but the files of this revision neither declare nor define it. `Databases.Database.ExecuteScalar` assumes a reading of it: execute the query, read column 0 of the row its first step produces as `size_t` (0 when NULL or absent), then drop the result. `size()` calls it for each PRAGMA.
- **The `as_transaction` callback** is a sequence of SQL texts (`Databases.RunOperations`). It executes them in turn and lets the first exception escape.

## Model

| member | source | states |
|---|---|---|
| Errors.IsATransitive | src/error.h:28-62 | the "is-a" relation of exception classes is transitive, so a handler for an outer kind catches every kind derived from it |
| Errors.KindHierarchy | src/error.h:27-62 | bind_error ⊂ bad_parameter ⊂ bad_statement ⊂ error ⊂ runtime_error (`error` derives from `std::runtime_error` at src/error.h:27) and transaction_failed ⊂ error (declared at src/result.hpp:30-33), while database_error is not an error and no outer kind is an inner one |
| Errors.OnlyCodeConstructorsSetCode | src/error.cpp:49-56 | error(code, msg) and error(code) store the code; error(msg), error(stmt, msg) and database_error keep code 0 |
| Errors.MessageComposition | src/error.cpp:32-38 | error(code, msg) is errstr(code), a space and msg; error(stmt, msg) starts with the connection's message, has the SQL after " while executing sql statement '" and ends with msg; error(msg) is exactly msg |
| Errors.BadStatementKeepsCodeAndSql | error.cpp:60-67 | bad_statement(code, sql) stores both, and what() is the code's text + " with sql statement '" + sql + "'" |
| Errors.BadStatementNamesItsSql | error.cpp:44-58 | bad_statement(stmt) takes the connection's errcode and the statement's SQL; what() starts with the code's text and ends with the quoted SQL |
| Errors.BadParameterNamesItsParameter | error.cpp:70-80 | bad_parameter's what() starts with "unknown parameter '<param>'" and ends with the quoted SQL |
| Errors.BindErrorNamesItsParameter | error.cpp:83-91 | bind_error keeps the parameter, the SQL and the connection's code; what() starts with the code's text and ends with the quoted SQL |
| Fields.CString | src/field.cpp:95-100 | the std::string built from column text (what Fields.Field.AsString returns) is its longest NUL-free prefix of bytes |
| Fields.CStringOfPlainText | src/field.cpp:95-100 | text without NUL bytes reads back unchanged |
| Fields.BoolIsNotNull | src/field.cpp:34-40 | Fields.Field.IsNull (is_null()) holds iff the engine reports type NULL, and Fields.Field.ToBool (bool(field)) is exactly !is_null() |
| Fields.NullReadsAsZero | src/field.cpp:53-100 | on a NULL column Fields.Field.AsInt, AsInt64, AsSizeT and AsDouble (as<int>, as<int64_t>, as<size_t>, as<double>) are 0, AsBool is false, AsChar is the NUL byte and AsString is empty |
| Fields.NonNullReadsTheEngine | src/field.cpp:53-100 | on a non-NULL column Fields.Field.AsInt, AsInt64, AsSizeT and AsDouble return the engine's values, AsBool is "the int value is nonzero", and AsString is a prefix of the column's bytes |
| Fields.ColumnNameOfValidIndex | src/field.cpp:42-45 | Fields.Field.ColumnName is the engine's name for an index below the column count and "" where the engine gives a null name |
| Fields.AsCharIsFirstOfAsString | src/field.cpp:88-100 | Fields.Field.AsChar (as<char>) is the first byte of as<std::string>, or NUL when that string is empty; for non-empty column text it is the text's first UTF-8 byte, the lead byte of a multi-byte character |
| ParameterLookup.FindParameterIndex | src/parameter_lookup.cpp:27-36 | succeeds iff the name is a parameter, the index is 1-based and names the first parameter with that name (never 0), and an absent name raises bad_parameter(parameter, stmt) |
| ParameterLookup.ScanColumns | src/parameter_lookup.cpp:43-47 | the counting loop finds the first column position with the name, or none when no column has it |
| ParameterLookup.FindColumnIndex | src/parameter_lookup.cpp:38-50 | the first matching column below column_count, and the error "invalid column name: <name>" exactly when no column matches |
| Rows.Decimal | src/row.cpp:59 | std::to_string of an index is a non-empty string of decimal digits |
| Rows.DecimalRoundTrip | src/row.cpp:59 | the number in "no column at index <n>" reads back as the requested index |
| Rows.Row.At | src/row.cpp:48-65 | an index is accepted iff Rows.Row.IsValidIndex holds, that is, iff it is below Rows.Row.ColumnCount (sqlite3_column_count); it gives a field over the row's handle at that index, and otherwise the error "no column at index <n>" |
| Rows.FindColumnIndex | src/row.cpp:28-40 | the first matching column below column_count, and the error "invalid column name '<name>'" exactly when no column matches |
| Rows.Lookup | src/row.cpp:52-54 | row[name] gives a field over the row's handle whose index is the first column with that name, below column_count |
| Results.Classify | src/result.cpp:27-37 | DONE is exhausted, ROW is a row, LOCKED and BUSY raise transaction_failed carrying the status, and every other status raises error(stmt); each direction is stated |
| Results.StepResult | src/result.cpp:27-37 | step_result steps the handle once and returns the classification of that step's status |
| Results.RowsThenDoneUnique | src/tests/test_result.cpp:77-84 | a script that yields rows and then completes does so after exactly one number of rows |
| Results.NoRowsThenDone | src/result.cpp:95-100 | rows followed by a failing step never reach DONE through rows |
| Results.Result.Create | src/result.cpp:43-47 | the constructor steps the statement exactly once; it stores "exhausted" in end_reached or throws the step's exception |
| Results.Result.MoveConstruct | src/result.cpp:49-53 | the handle moves, the end flag's value is copied, and the source's handle becomes null |
| Results.Result.MoveAssign | src/result.cpp:55-60 | the same transfer into an existing result |
| Results.Result.RowModificationCount | src/result.cpp:62-66 | 0 for a read-only statement, otherwise the connection's change counter |
| Results.CountAfterCompletion | src/tests/test_result.cpp:44-59 | once the statement has completed (its step is DONE), the count is 0 for a query, the rows it changed for an INSERT, UPDATE or DELETE, and the earlier count for any other statement such as `CREATE TABLE` (`Results.CompletedCount`); `Results.Result.Create` and `Databases.Database.Execute` state this for a result whose first step completes |
| Results.Result.Begin | src/result.cpp:68-70 | begin() shares the handle and refers to the result's own end_reached cell |
| Results.Result.End | src/result.cpp:72-74 | end() shares the handle and refers to the one global flag, which is true |
| Results.ConstIterator.Current | src/result.cpp:102-104 | operator* is a row view of the iterator's own handle |
| Results.ConstIterator.Increment | src/result.cpp:95-100 | ++ is ruled out at the end; it steps once, stores the classification in the referenced flag, and on a throw leaves the flag unchanged |
| Results.BeginEqualsEnd | src/result.cpp:68-93 | begin() == end() iff the last step returned DONE |
| Results.ForEachRow | src/tests/test_result.cpp:77-84 | a range-for over a script of N rows then DONE makes exactly N increments, stops without error and leaves the result at its end; otherwise it stops at the first failing step, after `count` ROW steps, with exactly the exception that step's classification throws |
| Statements.Statement.Empty | src/statement.cpp:29-42 | a default-constructed statement holds no handle, so Statements.Statement.IsValid (is_valid() and operator bool, "the handle is non-null") is false for it |
| Statements.Statement.constructor | src/statement.cpp:31-34 | the handle constructor holds the given handle |
| Statements.Statement.MoveConstruct | src/statement.hpp:42 | the defaulted move hands over the shared handle and leaves the source null |
| Statements.Statement.MoveAssign | src/statement.hpp:45 | the defaulted move assignment hands over the shared handle and leaves the source null; a self-move leaves the handle in place |
| Statements.Statement.ParameterCount | src/statement.cpp:84-87 | parameter_count is the number of parameters, and every parameter's index lies in 1..count |
| Statements.Statement.BindFailure | src/statement.cpp:89-95 | throw_on_bind_error raises bind_error(parameter, stmt) iff the status is not OK |
| Statements.Statement.Bind | src/statement.cpp:48-75 | an unknown name raises bad_parameter and changes nothing; a known name makes the native bind at its resolved index, which the connection records: the value is bound when the engine accepts it, and otherwise bind_error is raised with the bind's status as its code and that status's text at the head of what(), the bindings unchanged |
| Statements.Statement.ClearBindings | src/statement.cpp:77-82 | every binding is dropped, or error(status) is raised with the bindings kept |
| Statements.BindTouchesOnlyItsParameter | src/statement.cpp:48-75 | a successful bind sets only the parameter the name resolves to and leaves every other parameter as it was |
| Statements.MakeResult | src/statement.cpp:103-107 | the shared handle is reset with its bindings kept, then takes exactly one step as a new result over the same handle, which logs its SQL; the new result's end flag agrees with that step |
| Databases.ModeFlags | src/database.hpp:33-37 | read_only has no write bit, and only read_write_create has the create bit |
| Databases.FindChar | src/database.cpp:72-73 | the first position of a character, or none when it does not occur |
| Databases.MemoryUriRoundTrip | src/database.cpp:39-56 | Databases.MemoryUri, "file::memory:?" + Databases.ModeText + "&" + Databases.CacheText (the two operator<< texts), reads back as the mode and the cache it was built from |
| Databases.MemoryUriInjective | src/database.cpp:72-73 | different modes or caches give different URIs |
| Databases.ExecuteError | src/database.cpp:110-119 | execute throws error(status, "while preparing sql statement '<sql>'") on a prepare failure, and otherwise throws iff the first step is neither ROW nor DONE |
| Databases.Logged | src/database.cpp:134-144 | only texts that compile reach the log |
| Databases.RunOne | src/database.cpp:134-144 | executing a one-text sequence is executing that text |
| Databases.RunAllConcat | src/database.cpp:134-144 | executing two sequences in turn is executing their concatenation |
| Databases.FailureConcat | src/database.cpp:134-144 | the first failure and the executed prefix of a concatenation come from the first part when it fails, and otherwise from the second |
| Databases.ExecutedShape | src/database.cpp:134-144 | executing texts in turn runs all of them when none throws, and otherwise exactly up to the first that throws, whose exception is the failure |
| Databases.RunAllLog | src/database.cpp:134-144 | each executed text that compiles is appended to the connection's log, in order |
| Databases.TransactionCommits | src/database.cpp:134-144 | when nothing throws, as_transaction runs BEGIN, every operation in order, then COMMIT, and nothing escapes |
| Databases.TransactionRollsBack | src/database.cpp:134-144 | when something throws, the run is BEGIN up to the first failure, then ROLLBACK; the same exception is rethrown unless ROLLBACK throws |
| Databases.Database.FirstStepAgrees | src/database.cpp:86-88 | the first step of a freshly prepared statement leaves the state, and throws the exception, that ExecuteState and ExecuteError describe |
| Databases.Database.CreateStatement | src/database.cpp:110-120 | a compiled statement is a fresh live handle and the connection records OK; a prepare failure raises error(status, "while preparing sql statement '<sql>'") |
| Databases.Database.PrepareStatement | src/database.cpp:122-126 | a statement object over a fresh handle from create_statement, or its error |
| Databases.Database.Execute | src/database.cpp:86-88 | prepares and builds a result that has stepped once, or throws what ExecuteError says; a statement whose step throws is finalized; when the first step completes, row_modification_count is `Results.CompletedCount` of the program and the counter before the call |
| Databases.Database.ExecuteStatement | src/database.cpp:90-92 | execute(statement) is make_result: a result over the same handle, stepped once from its start |
| Databases.Database.Run | src/database.cpp:138-142 | `db.execute(sql);` changes the connection as ExecuteState says, throws what ExecuteError says and leaves no statement live |
| Databases.Database.ExecuteScalar | src/database.cpp:95-96 | a scalar query returns column 0 of its first row as size_t, or the query's exception |
| Databases.Database.Size | src/database.cpp:94-98 | size() is page_count × page_size; the first PRAGMA that throws decides the exception |
| Databases.Database.Close | src/database.cpp:100-108 | close() closes the handle, requires that no statement is live (the assert), and always leaves the handle null |
| Databases.Database.MoveConstructAsWritten | src/database.hpp:43 | the defaulted move copies the raw handle into a new wrapper (Databases.Database.Wrap), so both wrappers will close it |
| Databases.Database.MoveConstruct | src/database.hpp:43 | the corrected move hands the handle over and leaves the source null, so only one wrapper closes it |
| Databases.Database.MoveAssignAsWritten | src/database.hpp:47 | the defaulted move assignment copies the raw handle, so both wrappers will close it |
| Databases.Database.MoveAssign | src/database.hpp:47 | the corrected move assignment exchanges the handles, so each is still closed by one wrapper; a self-move changes nothing |
| Databases.ThrowOnError | src/database.cpp:30-35 | a failed open closes the handle and then raises error(status); a successful one keeps it open |
| Databases.OpenPath | src/database.cpp:58-65 | opens with permissions \| visibility (Databases.ModeFlags \| Databases.CacheFlags), and on failure the handle is closed and error(status) thrown |
| Databases.OpenInMemory | src/database.cpp:67-80 | opens the in-memory URI with permissions \| SQLITE_OPEN_URI, and on failure the handle is closed and error(status) thrown |
| Databases.RunOperations | src/database.cpp:139 | the operations run in order up to the first that throws, whose exception escapes |
| Databases.AsTransaction | src/database.cpp:134-144 | as_transaction changes the connection exactly as executing TransactionRun would: BEGIN, the operations and COMMIT up to the first failure, then ROLLBACK after a failure; it throws TransactionError |
| LegacyStatements.LegacyStatement.constructor | statement.cpp:29-31 | takes a non-null handle that no other wrapper owns, and becomes its owner |
| LegacyStatements.LegacyStatement.MoveConstruct | statement.cpp:42-44 | the swap with a null target moves the handle and its ownership and leaves the source null |
| LegacyStatements.LegacyStatement.MoveAssign | statement.cpp:33-36 | the swap exchanges the handles, and each wrapper owns what it now holds; swapping a wrapper with itself changes nothing |
| LegacyStatements.LegacyStatement.Destroy | statement.cpp:38-40 | the destructor finalizes whatever handle is held |
| LegacyStatements.SoleHolder | statement.cpp:33-44 | at most one valid wrapper holds a handle, so it is finalized at most once |
| LegacyResults.LegacyClassify | result.cpp:32-42 | ROW and DONE give "status == DONE"; every other status raises database_error "<errmsg> while executing sql statement '<sql>'", which no error handler catches |
| LegacyResults.LegacyStepResult | result.cpp:32-42 | step_result steps once and classifies that step |
| LegacyResults.LegacyResult.Create | result.cpp:46-50 | steps exactly once; the result owns the handle iff ownership::take; it throws iff the step's status is neither ROW nor DONE, with database_error "<that step's message> while executing sql statement '<sql>'", and otherwise stores "the status was DONE" as its end flag |
| LegacyResults.LegacyResult.Destroy | result.cpp:57-61 | the destructor finalizes the handle iff the result owns it |
| LegacyResults.LegacyResult.ReplaceMembersWith | result.cpp:88-93 | the handle and the owns flag move, the source becomes null and non-owning, and neither end flag changes |
| LegacyResults.LegacyResult.MoveConstructAsWritten | result.cpp:52-55 | the moved-to result has end flag false even when the source was at its end |
| LegacyResults.LegacyResult.MoveConstruct | result.cpp:52-55 | the corrected move also hands over the end flag |
| LegacyResults.LegacyResult.MoveAssignAsWritten | result.cpp:63-69 | an owned handle of the target is finalized first, then the members are replaced, and the target keeps its own end flag |
| LegacyResults.LegacyResult.MoveAssign | result.cpp:63-69 | the corrected move assignment also hands over the end flag |
| LegacyResults.LegacyResult.ColumnName | result.cpp:71-78 | the engine's name of a column below LegacyResults.LegacyResult.ColumnCount (sqlite3_column_count), or "" for an index it has no name for |
| LegacyResults.LegacyResult.Begin | result.cpp:80-82 | begin() is at the end iff end_reached |
| LegacyResults.LegacyResult.End | result.cpp:84-86 | end() is always at the end |
| LegacyResults.LegacyIterator.Increment | result.cpp:122-125 | ++ steps once with no end check and sets at_end from the step, or throws with at_end unchanged |
| LegacyResults.LegacyBeginEqualsEnd | result.cpp:110-120 | begin() == end() iff the result's end flag is set |
| LegacyResults.SoleOwner | result.cpp:88-93 | at most one valid result owns a handle, so it is finalized at most once |
| LegacyResults.MovedExhaustedResultLooksOpen | result.cpp:52-55 | after the as-written move of an exhausted result, begin() differs from end() |
| LegacyResultMaps.LegacyResultMap.Create | result_map.cpp:30-40 | steps exactly once; owns the handle iff ownership::take; it throws iff the step's status is neither ROW nor DONE, with database_error "<that step's message> while executing sql statement '<sql>'" |
| LegacyResultMaps.LegacyResultMap.Destroy | result_map.cpp:42-46 | the destructor finalizes the handle iff the map owns it |
| LegacyResultMaps.LegacyResultMap.ColumnName | result_map.cpp:48-54 | with no null guard the index must be below LegacyResultMaps.LegacyResultMap.ColumnCount (sqlite3_column_count), and the result is that column's name |
| LegacyResults.FailedStepMessage | result.cpp:95-101 | after a step that fails at a script position, LegacyResults.ErrorMessage (error_message(stmt), defined alike in result.cpp:99-101 and result_map.cpp:60-62) is that step's own message and the connection's code is its status; LegacyResults.StatusMessage is error_message(status), the library's text |
| LegacyResults.StepFailureIsScripted | result.cpp:32-42 | the classification a step leaves is stated over the script alone: it throws iff the status is neither ROW nor DONE, with database_error over the failing step's message, and otherwise returns "the status was DONE" |
| LegacyResultMaps.SoleOwner | result_map.cpp:42-46 | at most one valid map owns a handle |
| LegacyDatabases.LegacyDatabase.constructor | database.cpp:31-33 | takes a non-null open connection that no other wrapper owns, and becomes its owner |
| LegacyDatabases.LegacyDatabase.MoveConstruct | database.cpp:35-38 | the swap with a null target moves the connection and leaves the source null |
| LegacyDatabases.LegacyDatabase.MoveAssign | database.cpp:44-48 | the swap exchanges the connections, and each wrapper owns what it now holds |
| LegacyDatabases.LegacyDatabase.Close | database.cpp:50-58 | the native close must succeed, with no statement left live, and the handle is then null |
| LegacyDatabases.LegacyDatabase.MakeStatement | database.cpp:60-74 | requires an open connection; a prepare failure raises database_error "<errstr>\nwhile preparing statement '<sql>'"; success gives a statement object that owns a fresh handle |
| LegacyDatabases.SoleHolder | database.cpp:35-48 | at most one valid wrapper holds a connection, so it is closed at most once |
| LegacyDatabases.MakeDatabase | database.cpp:76-89 | opens with the mode's flags; on failure the handle is closed and database_error "<errmsg>\nwhile opening database: <path>" thrown; otherwise the wrapper owns the open connection |

## Left out

**The engine**

- The SQLite engine itself is an oracle: SQL compilation, step semantics, column type coercion, the row counts behind `sqlite3_changes`, whether a statement is DML, and all message texts.
- `sqlite3_changes` is modelled as set only by a completing DML statement. Triggers, foreign-key actions and `sqlite3_total_changes` are not modelled.
- `sqlite3_reset` records no status in the model. SQLite's reset re-reports the last step's error on the connection; the wrapper never reads that.
- After a successful step the model keeps the connection's previous message. SQLite may report a stale message or the status text there, depending on its internal error object; the wrapper reads the message only after a failing call.
- SQL text that compiles to no statement (`SQLITE_OK` with a null handle, such as an empty string) is not modelled. The compile oracle yields a program or an error status.

**Ownership and lifetimes**

- `shared_ptr` reference counting in the src revision is not modelled. Handles are shared object references. A handle is finalized only where the last owner evidently dies: a dropped `execute` result.
- The statement and database destructors of the src revision are not separate members. The database destructor calls `close()`, which `Databases.Database.Close` models.
- `LegacyResults.LegacyResult.Create`, `LegacyResultMaps.LegacyResultMap.Create`: when the first step throws, no destructor runs, so an owned handle is neither finalized nor handed back. The model states this and does not model the leak further.
- The `what()` overrides return `c_str()` of a destroyed temporary (`error.cpp:63-91`). They are modelled as returning the composed string.
- `make_database` reads `sqlite3_errmsg` after `sqlite3_close_v2` (`database.cpp:82-84`). The model reads the message the handle held before it was closed.

**Values and conversions**

- Floating point is not modelled: doubles are opaque 64-bit payloads.
- `Fields.Field.AsSizeT`, `Databases.Database.Size`: the int64 → `size_t` wrap and the 64-bit wrap of the product are not modelled. Values are unbounded integers.
- Text binding with `SQLITE_STATIC` (`src/statement.cpp:71-73`) is a plain value copy.
- The typed `bind` overloads (double, int, int64, null, text) are one `Bind` whose `BoundValue` selects the native call.

**Not modelled at all**

- Blob support is left out: the stubs assert false (`src/field.cpp:47-51`, `src/statement.cpp:44-46`).
- Debug printing (`operator<<` for database and statement objects) is left out.
- Real concurrency is not modelled. A conflicting writer shows up only as a scripted `SQLITE_BUSY` or `SQLITE_LOCKED` step.
- The commented-out iterator of `result_map.h` is not modelled.
- The move operations that `result_map.h` declares but no file defines are not modelled.
- Neither `const_iterator(iterator_pos)` of `result.h` nor `result_map`'s `replace_members_with` has a definition, so neither is modelled.
- `Results.ConstIterator.Equals`, `Results.ConstIterator.NotEquals`, `LegacyResults.LegacyIterator.Equals`: these are predicates with no contract of their own. Their meaning (same handle and equal end flags; `!=` is the negation) is used and stated through the BeginEqualsEnd methods.

## Findings

| source | as written | input that shows it | evidently intended | confidence | as-written member | corrected member |
|---|---|---|---|---|---|---|
| src/database.hpp:43-47 | the defaulted move constructor and move assignment copy the raw `sqlite3*`, and the moved-from wrapper keeps it | `database a(in_memory, read_write_create); database b(std::move(a));` — both destructors call `sqlite3_close` on one handle | the source gives the handle up, as the swap-based moves of the root revision do | high; not executed | Databases.Database.MoveConstructAsWritten, Databases.Database.MoveAssignAsWritten | Databases.Database.MoveConstruct, Databases.Database.MoveAssign |
| result.cpp:88-93 | `replace_members_with` moves the handle and the owns flag but not `end_reached`, so a moved-to result starts with `end_reached == false` | a result over a statement whose first step is DONE (such as `CREATE TABLE t(x);`), moved with `result r2(std::move(r1));` — `r2.begin() != r2.end()`, and a loop over `r2` steps a finished statement | the end flag moves with the handle, as the src revision's moves do (src/result.cpp:49-60) | high; not executed | LegacyResults.LegacyResult.MoveConstructAsWritten, LegacyResults.MovedExhaustedResultLooksOpen, LegacyResults.LegacyResult.MoveAssignAsWritten | LegacyResults.LegacyResult.MoveConstruct, LegacyResults.LegacyResult.MoveAssign |
