/**
 * The statement wrapper of the root revision (statement.cpp).
 *
 * The wrapper holds a raw handle and finalizes it when destroyed; moves swap
 * the handle with the target's (null for a new object), so a handle is never
 * held by two wrappers. The ghost `owner` field of the handle records which
 * wrapper will finalize it, and Valid() ties the two together.
 */
module LegacyStatements {
  import opened Engine

  class LegacyStatement {
    var stmt: Stmt?

    /** The held handle is live and this wrapper is the one recorded as finalizing it. */
    ghost predicate Valid()
      reads this, stmt
    {
      stmt != null ==> stmt.owner == this && !stmt.finalized
    }

    /** statement(handle): a non-null handle that no other wrapper owns. */
    constructor (handle: Stmt)
      requires handle.owner == null && !handle.finalized
      modifies handle
      ensures stmt == handle && Valid()
      ensures handle.cursor == old(handle.cursor) && handle.bindings == old(handle.bindings) && !handle.finalized
    {
      stmt := handle;
      new;
      handle.owner := this;
    }

    constructor Empty()
      ensures stmt == null && Valid()
    {
      stmt := null;
    }

    /** The move constructor: swaps with a null-initialised target, so the source is left null. */
    static method MoveConstruct(other: LegacyStatement) returns (s: LegacyStatement)
      requires other.Valid()
      modifies other, other.stmt
      ensures fresh(s) && s.stmt == old(other.stmt) && other.stmt == null
      ensures s.Valid() && other.Valid()
    {
      s := new LegacyStatement.Empty();
      s.stmt, other.stmt := other.stmt, s.stmt;
      if s.stmt != null {
        s.stmt.owner := s;
      }
    }

    /**
     * Move assignment: the two wrappers exchange their handles, and each still
     * owns what it holds; swapping a wrapper with itself changes nothing.
     */
    method MoveAssign(other: LegacyStatement)
      requires Valid() && other.Valid()
      modifies this, other, stmt, other.stmt
      ensures stmt == old(other.stmt) && other.stmt == old(stmt)
      ensures other == this ==> stmt == old(stmt) && (stmt != null ==> stmt.owner == old(stmt.owner))
      ensures Valid() && other.Valid()
    {
      if other == this {
        return;
      }
      stmt, other.stmt := other.stmt, stmt;
      if stmt != null {
        stmt.owner := this;
      }
      if other.stmt != null {
        other.stmt.owner := other;
      }
    }

    /** The destructor: finalizes whatever handle is held (finalizing null does nothing). */
    method Destroy()
      requires Valid()
      modifies stmt, if stmt != null then {stmt.db} else {}
      ensures stmt == old(stmt)
      ensures stmt != null ==> stmt.finalized && stmt.db.live == old(stmt.db.live) - {stmt}
    {
      if stmt != null {
        stmt.Finalize();
      }
    }
  }

  /**
   * At most one valid wrapper holds a given handle, so only one destructor
   * finalizes it.
   * It is immediate once both are valid, because a handle records one owner;
   * what makes it hold of a running program is that the constructor
   * establishes Valid() and the moves above keep it for both wrappers.
   */
  lemma SoleHolder(a: LegacyStatement, b: LegacyStatement)
    requires a.Valid() && b.Valid() && a.stmt != null && a.stmt == b.stmt
    ensures a == b
  {
  }
}
