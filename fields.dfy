/**
 * Typed access to one column of the current row (src/field.cpp).
 *
 * A field is a statement handle and a column index. It caches nothing:
 * every accessor is a function of the statement's current state, so a field
 * read after the cursor moves sees the new row. Text accessors work on the
 * UTF-8 bytes the engine returns, as std::string and char do.
 */
module Fields {
  import opened Engine

  /** The std::string built from a C string: the bytes up to its first NUL. */
  function CString(s: seq<Byte>): (r: seq<Byte>)
    ensures r <= s && 0 !in r
    ensures |r| < |s| ==> s[|r|] == 0
  {
    if s == [] || s[0] == 0 then [] else [s[0]] + CString(s[1..])
  }

  datatype Field = Field(stmt: Stmt, index: nat) {

    predicate IsNull()
      reads stmt
    {
      stmt.ColumnTypeAt(index) == NullType
    }

    /** The explicit bool conversion. */
    predicate ToBool()
      reads stmt
    {
      !IsNull()
    }

    /** The column's name, or "" when the engine has none for this index. */
    function ColumnName(): string {
      match stmt.ColumnName(index)
      case Some(name) => name
      case None => ""
    }

    function AsDouble(): Double
      reads stmt
    {
      if IsNull() then ZeroDouble else stmt.ColumnDouble(index)
    }

    function AsInt(): int
      reads stmt
    {
      if IsNull() then 0 else stmt.ColumnInt(index)
    }

    /** as<bool>: the 32-bit integer value converted to bool. */
    predicate AsBool()
      reads stmt
    {
      if IsNull() then false else stmt.ColumnInt(index) != 0
    }

    function AsInt64(): int
      reads stmt
    {
      if IsNull() then 0 else stmt.ColumnInt64(index)
    }

    /** as<size_t>: the 64-bit integer value (the conversion to an unsigned width is not modelled). */
    function AsSizeT(): int
      reads stmt
    {
      if IsNull() then 0 else stmt.ColumnInt64(index)
    }

    /** as<char>: the first byte of the column text, which is the terminating NUL for empty text. */
    function AsChar(): Byte
      reads stmt
    {
      if IsNull() then 0
      else
        var text := stmt.ColumnText(index);
        if text == [] then 0 else text[0]
    }

    /** as<std::string>: the column's bytes up to the first NUL. */
    function AsString(): seq<Byte>
      reads stmt
    {
      if IsNull() then [] else CString(stmt.ColumnText(index))
    }
  }

  /** bool(field) is exactly !is_null(), and is_null() is the engine reporting NULL. */
  lemma BoolIsNotNull(f: Field)
    ensures f.ToBool() <==> f.stmt.ColumnTypeAt(f.index) != NullType
    ensures f.IsNull() <==> f.stmt.CellAt(f.index).kind == NullType
  {
  }

  /** Every accessor yields its type's zero value when the column is NULL. */
  lemma NullReadsAsZero(f: Field)
    requires f.IsNull()
    ensures f.AsInt() == 0 && f.AsInt64() == 0 && f.AsSizeT() == 0
    ensures f.AsDouble() == ZeroDouble && !f.AsBool()
    ensures f.AsChar() == 0 && f.AsString() == []
  {
  }

  /** On a non-NULL column every numeric accessor is the engine's value, and as<bool> is "nonzero". */
  lemma NonNullReadsTheEngine(f: Field)
    requires !f.IsNull()
    ensures f.AsInt() == f.stmt.CellAt(f.index).int32
    ensures f.AsInt64() == f.stmt.CellAt(f.index).int64 && f.AsSizeT() == f.AsInt64()
    ensures f.AsDouble() == f.stmt.CellAt(f.index).double
    ensures f.AsBool() <==> f.AsInt() != 0
    ensures f.AsString() <= f.stmt.CellAt(f.index).text
  {
  }

  /** The name of a field whose index lies within the statement's columns is that column's name. */
  lemma ColumnNameOfValidIndex(f: Field)
    ensures f.index < f.stmt.ColumnCount() ==> f.ColumnName() == f.stmt.program.columns[f.index]
    ensures f.index >= f.stmt.ColumnCount() ==> f.ColumnName() == ""
  {
  }

  /**
   * as<char> agrees with as<std::string>: it is the string's first byte, or
   * NUL when the string is empty (NULL, empty text, or text starting with
   * NUL). For text that starts with a multi-byte UTF-8 character it is the
   * lead byte of that character, as the byte-wise C++ accessor gives.
   */
  lemma AsCharIsFirstOfAsString(f: Field)
    ensures f.AsChar() == if f.AsString() == [] then 0 else f.AsString()[0]
    ensures !f.IsNull() && f.stmt.ColumnText(f.index) != [] ==> f.AsChar() == f.stmt.ColumnText(f.index)[0]
  {
    if !f.IsNull() {
      var text := f.stmt.ColumnText(f.index);
      CStringHead(text);
    }
  }

  lemma CStringHead(s: seq<Byte>)
    ensures CString(s) == [] <==> s == [] || s[0] == 0
    ensures CString(s) != [] ==> CString(s)[0] == s[0]
  {
  }

  /** Text without NUL bytes reads back unchanged. */
  lemma {:induction false} CStringOfPlainText(s: seq<Byte>)
    requires 0 !in s
    ensures CString(s) == s
  {
    if s != [] {
      assert 0 !in s[1..] by {
        assert forall i :: 0 <= i < |s[1..]| ==> s[1..][i] == s[i + 1];
      }
      CStringOfPlainText(s[1..]);
      assert s == [s[0]] + s[1..];
    }
  }
}
