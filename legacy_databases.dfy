/**
 * The connection wrapper of the root revision (database.cpp).
 *
 * The wrapper holds a raw connection handle and closes it when destroyed.
 * Moves swap the handle with the target's, so a handle is never held by two
 * wrappers; the ghost `owner` field of the connection records which wrapper
 * closes it. Statements are handed out wrapped in statement objects that
 * finalize them.
 */
module LegacyDatabases {
  import opened Engine
  import opened Errors
  import opened LegacyStatements
  import Databases

  class LegacyDatabase {
    var db: Connection?

    /** A held connection is open and this wrapper is the one recorded as closing it. */
    ghost predicate Valid()
      reads this, db
    {
      db != null ==> db.open && db.owner == this
    }

    /** database(connection): a non-null connection that no other wrapper owns. */
    constructor (connection: Connection)
      requires connection.open && connection.owner == null
      modifies connection
      ensures db == connection && Valid()
      ensures connection.live == old(connection.live) && connection.state == old(connection.state)
    {
      db := connection;
      new;
      connection.owner := this;
    }

    constructor Empty()
      ensures db == null && Valid()
    {
      db := null;
    }

    /** The move constructor: swaps with a null-initialised target, so the source is left null. */
    static method MoveConstruct(other: LegacyDatabase) returns (d: LegacyDatabase)
      requires other.Valid()
      modifies other, (if other.db != null then {other.db} else {})`owner
      ensures fresh(d) && d.db == old(other.db) && other.db == null
      ensures d.Valid() && other.Valid()
    {
      d := new LegacyDatabase.Empty();
      d.db, other.db := other.db, d.db;
      if d.db != null {
        d.db.owner := d;
      }
    }

    /** Move assignment: the two wrappers exchange their handles, and each still owns what it holds. */
    method MoveAssign(other: LegacyDatabase)
      requires other != this && Valid() && other.Valid()
      modifies this, other, (if db != null then {db} else {})`owner, (if other.db != null then {other.db} else {})`owner
      ensures db == old(other.db) && other.db == old(db)
      ensures Valid() && other.Valid()
    {
      db, other.db := other.db, db;
      if db != null {
        db.owner := this;
      }
      if other.db != null {
        other.db.owner := other;
      }
    }

    /**
     * close(): the native close, which must succeed (no statement left
     * unfinalized), then the handle is set to null; the destructor calls it.
     */
    method Close()
      requires Valid() && (db != null ==> db.live == {})
      modifies this, db
      ensures db == null && Valid()
      ensures old(db) != null ==> !old(db).open && old(db).state == old(db.state) && old(db).owner == this
    {
      var status := Engine.Close(db);
      db := null;
    }

    /**
     * make_statement: requires an open connection. On failure the (null)
     * partial statement is finalized and database_error
     * "<errstr(status)>\nwhile preparing statement '<sql>'" is thrown; on
     * success the handle is wrapped in a statement object that owns it.
     */
    method MakeStatement(sql: string) returns (r: Outcome<LegacyStatement>)
      requires db != null && db.open
      modifies db
      ensures db == old(db) && db.open && db.owner == old(db.owner)
      ensures db.lib.compile(sql).Rejected? ==>
        && r == Throw(DatabaseFailure(db.lib.errstr(db.lib.compile(sql).status) + "\nwhile preparing statement '" + sql + "'"))
        && db.live == old(db.live)
      ensures db.lib.compile(sql).Compiled? ==>
        && r.Ok? && fresh(r.value) && r.value.stmt != null && fresh(r.value.stmt)
        && r.value.stmt.sql == sql && r.value.stmt.program == db.lib.compile(sql).program
        && r.value.stmt.cursor == 0 && r.value.Valid()
        && db.live == old(db.live) + {r.value.stmt}
    {
      var stmt, status := Prepare(db, sql);
      if status != OK {
        // sqlite3_finalize of the null partial statement does nothing.
        r := Throw(DatabaseFailure(db.lib.errstr(status) + "\nwhile preparing statement '" + sql + "'"));
      } else {
        var s := new LegacyStatement(stmt as Stmt);
        r := Ok(s);
      }
    }
  }

  /**
   * Only one valid wrapper holds a given connection, so only one destructor
   * closes it.
   * It is immediate once both are valid, because a handle records one owner;
   * what makes it hold of a running program is that the constructor
   * establishes Valid() and the moves above keep it for both wrappers.
   */
  lemma SoleHolder(a: LegacyDatabase, b: LegacyDatabase)
    requires a.Valid() && b.Valid() && a.db != null && a.db == b.db
    ensures a == b
  {
  }

  /**
   * make_database: opens with the access mode's flags. On failure the handle
   * is closed and database_error "<errmsg>\nwhile opening database: <path>"
   * is thrown; otherwise the connection is wrapped.
   */
  method MakeDatabase(lib: Library, path: string, mode: Databases.AccessMode)
    returns (r: Outcome<LegacyDatabase>, handle: Connection)
    ensures fresh(handle) && handle.path == path && handle.flags == Databases.ModeFlags(mode)
    ensures var status := lib.openStatus(path, Databases.ModeFlags(mode));
      && (r.Throw? <==> status != OK)
      && (r.Throw? ==> r.exception == DatabaseFailure(lib.errstr(status) + "\nwhile opening database: " + path) && !handle.open)
      && (r.Ok? ==> fresh(r.value) && r.value.db == handle && handle.open && handle.live == {} && r.value.Valid())
  {
    var status;
    handle, status := Open(lib, path, Databases.ModeFlags(mode));
    if status != OK {
      CloseV2(handle);
      r := Throw(DatabaseFailure(handle.state.errmsg + "\nwhile opening database: " + path));
      return;
    }
    var d := new LegacyDatabase(handle);
    r := Ok(d);
  }
}
