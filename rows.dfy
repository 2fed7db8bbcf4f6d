/**
 * A view of the current row of a statement (src/row.cpp). The row stores
 * only the handle: its column count is asked of the statement on every call.
 */
module Rows {
  import opened Engine
  import opened Errors
  import opened Fields
  import ParameterLookup

  /** std::to_string of an unsigned value: its decimal digits, most significant first. */
  function Decimal(n: nat): (r: string)
    ensures |r| >= 1 && forall i :: 0 <= i < |r| ==> '0' <= r[i] <= '9'
  {
    if n < 10 then [DigitChar(n)] else Decimal(n / 10) + [DigitChar(n % 10)]
  }

  function DigitChar(d: nat): (c: char)
    requires d < 10
    ensures '0' <= c <= '9'
  {
    ['0', '1', '2', '3', '4', '5', '6', '7', '8', '9'][d]
  }

  function DigitValue(c: char): nat
    requires '0' <= c <= '9'
  {
    c as int - '0' as int
  }

  /** Reads a string of decimal digits back as a number. */
  function ParseDecimal(s: string): nat
    requires forall i :: 0 <= i < |s| ==> '0' <= s[i] <= '9'
  {
    if s == [] then 0 else ParseDecimal(s[..|s| - 1]) * 10 + DigitValue(s[|s| - 1])
  }

  /** The index printed in "no column at index <n>" is the requested index. */
  lemma {:induction false} DecimalRoundTrip(n: nat)
    ensures ParseDecimal(Decimal(n)) == n
  {
    var r := Decimal(n);
    if n < 10 {
      assert r[..0] == [];
    } else {
      DecimalRoundTrip(n / 10);
      assert r[..|r| - 1] == Decimal(n / 10);
    }
  }

  datatype Row = Row(stmt: Stmt) {

    function ColumnCount(): nat {
      stmt.ColumnCount()
    }

    predicate IsValidIndex(index: nat) {
      index < ColumnCount()
    }

    /** operator[](index): the field at that index, or error "no column at index <n>". */
    function At(index: nat): (r: Outcome<Field>)
      ensures r.Ok? <==> index < stmt.ColumnCount()
      ensures r.Ok? ==> r.value == Field(stmt, index)
      ensures r.Throw? ==> r.exception == MessageError("no column at index " + Decimal(index))
    {
      if !IsValidIndex(index) then Throw(MessageError("no column at index " + Decimal(index)))
      else Ok(Field(stmt, index))
    }
  }

  /** The anonymous find_column_index: the first matching position, or error "invalid column name '<name>'". */
  method FindColumnIndex(name: string, stmt: Stmt) returns (r: Outcome<nat>)
    ensures r.Ok? ==>
      && r.value < stmt.ColumnCount()
      && stmt.program.columns[r.value] == name
      && name !in stmt.program.columns[..r.value]
    ensures r.Throw? <==> name !in stmt.program.columns
    ensures r.Throw? ==> r.exception == MessageError("invalid column name '" + name + "'")
  {
    var found := ParameterLookup.ScanColumns(name, stmt);
    match found
    case Some(i) =>
      r := Ok(i);
    case None =>
      r := Throw(MessageError("invalid column name '" + name + "'"));
  }

  /** operator[](name): a field over the row's handle at the first column with that name. */
  method Lookup(row: Row, name: string) returns (r: Outcome<Field>)
    ensures r.Ok? <==> name in row.stmt.program.columns
    ensures r.Ok? ==>
      && r.value.stmt == row.stmt && r.value.index < row.ColumnCount()
      && r.value.ColumnName() == name
      && name !in row.stmt.program.columns[..r.value.index]
    ensures r.Throw? ==> r.exception == MessageError("invalid column name '" + name + "'")
  {
    var index := FindColumnIndex(name, row.stmt);
    match index
    case Ok(i) => r := Ok(Field(row.stmt, i));
    case Throw(e) => r := Throw(e);
  }
}
