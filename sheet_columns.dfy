/** A1-style cell addresses of the Google Sheets repository
    (adapters/google_sheets_repository.py): spreadsheet column letters in
    bijective base 26, the sheet name taken from the configured range, and
    the `Sheet!C5` address of one cell. */
module SheetColumns {
  import opened Strings

  predicate IsUpper(c: char) { 'A' <= c <= 'Z' }

  predicate AllUpper(s: string) {
    forall i :: 0 <= i < |s| ==> IsUpper(s[i])
  }

  /** The letter for one base-26 digit: 0 is 'A', 25 is 'Z'. */
  function Letter(d: nat): (c: char)
    requires d < 26
    ensures IsUpper(c) && c as int - 'A' as int == d
  {
    ('A' as int + d) as char
  }

  /** The column name of a 0-based index: 0 is "A", 25 is "Z", 26 is "AA". */
  function ColumnName(i: nat): string
    decreases i
  {
    (if i < 26 then "" else ColumnName(i / 26 - 1)) + [Letter(i % 26)]
  }

  /** `_column_letter`: the while loop that prepends one letter per base-26
      digit. A negative index never enters the loop and gives "". */
  method ColumnLetter(columnIndex: int) returns (r: string)
    ensures columnIndex < 0 ==> r == ""
    ensures columnIndex >= 0 ==> r == ColumnName(columnIndex)
  {
    r := "";
    var c := columnIndex;
    while c >= 0
      invariant columnIndex >= 0 ==> c >= -1
      invariant columnIndex < 0 ==> c == columnIndex && r == ""
      invariant columnIndex >= 0 && c >= 0 ==> ColumnName(c) + r == ColumnName(columnIndex)
      invariant columnIndex >= 0 && c < 0 ==> r == ColumnName(columnIndex)
      decreases c + 1
    {
      var step := [Letter(c % 26)] + r;
      assert ColumnName(c) + r == (if c < 26 then "" else ColumnName(c / 26 - 1)) + step;
      r := step;
      c := c / 26 - 1;
    }
  }

  /** The 1-based number a column name stands for: the inverse reading of
      bijective base 26. */
  function ColumnNumber(s: string): int
  {
    if s == [] then 0
    else ColumnNumber(s[..|s| - 1]) * 26 + (s[|s| - 1] as int - 'A' as int + 1)
  }

  lemma {:induction false} ColumnNameShape(i: nat)
    ensures |ColumnName(i)| >= 1 && AllUpper(ColumnName(i))
    decreases i
  {
    if i >= 26 {
      ColumnNameShape(i / 26 - 1);
    }
  }

  /** Reading a column name back gives its index plus one. */
  lemma {:induction false} ColumnNumberOfName(i: nat)
    ensures ColumnNumber(ColumnName(i)) == i + 1
    decreases i
  {
    var s := ColumnName(i);
    var p := if i < 26 then "" else ColumnName(i / 26 - 1);
    assert s[..|s| - 1] == p;
    if i >= 26 {
      ColumnNumberOfName(i / 26 - 1);
    }
  }

  lemma {:induction false} ColumnNumberPositive(s: string)
    requires s != [] && AllUpper(s)
    ensures ColumnNumber(s) >= 1
  {
    var p := s[..|s| - 1];
    if p != [] {
      ColumnNumberPositive(p);
    }
  }

  /** Every non-empty string of capitals is the name of exactly one column,
      the one its number designates: the naming is onto. */
  lemma {:induction false} ColumnNameOfNumber(s: string)
    requires s != [] && AllUpper(s)
    ensures ColumnNumber(s) >= 1 && ColumnName(ColumnNumber(s) - 1) == s
    decreases |s|
  {
    ColumnNumberPositive(s);
    var p := s[..|s| - 1];
    var d := s[|s| - 1] as int - 'A' as int;
    var i: nat := ColumnNumber(s) - 1;
    assert i == ColumnNumber(p) * 26 + d;
    assert i % 26 == d && i / 26 == ColumnNumber(p);
    if p == [] {
      assert ColumnName(i) == [Letter(d)];
    } else {
      ColumnNumberPositive(p);
      ColumnNameOfNumber(p);
      assert ColumnName(i) == ColumnName(i / 26 - 1) + [Letter(d)];
    }
    assert s == p + [s[|s| - 1]];
  }

  /** Column names are non-empty, made of 'A'..'Z' only, and distinct
      indices give distinct names. */
  lemma ColumnNameInjective(i: nat, j: nat)
    ensures |ColumnName(i)| >= 1 && AllUpper(ColumnName(i))
    ensures ColumnName(i) == ColumnName(j) ==> i == j
  {
    ColumnNameShape(i);
    ColumnNumberOfName(i);
    ColumnNumberOfName(j);
  }

  /** `_sheet_name`: the part of the range before the first '!', or "Sheet1"
      when the range names no sheet. */
  function SheetName(rangeName: string): (r: string)
    ensures '!' !in r
    ensures '!' !in rangeName ==> r == "Sheet1"
  {
    if '!' in rangeName then
      var pieces := Split(rangeName, '!');
      assert pieces[0] in pieces;
      pieces[0]
    else "Sheet1"
  }

  /** The sheet named in a range `Sheet!A:Z` is recovered exactly. */
  lemma SheetNameOfRange(sheet: string, cells: string)
    requires '!' !in sheet
    ensures SheetName(sheet + "!" + cells) == sheet
  {
    SplitAppend(sheet, cells, '!');
    assert sheet + "!" + cells == sheet + ['!'] + cells;
    assert (sheet + "!" + cells)[|sheet|] == '!';
  }

  /** The address `Sheet!<column><row>` of one cell, as the write requests
      spell it. */
  function CellAddress(sheet: string, column: nat, row: int): string {
    sheet + "!" + ColumnName(column) + IntToString(row)
  }

  /** Length of the run of capitals a string starts with. */
  function UpperRun(s: string): nat
  {
    if s != [] && IsUpper(s[0]) then 1 + UpperRun(s[1..]) else 0
  }

  lemma {:induction false} UpperRunOfColumn(a: string, d: string)
    requires AllUpper(a) && |d| >= 1 && IsDigit(d[0])
    ensures UpperRun(a + d) == |a|
  {
    if a != [] {
      assert (a + d)[1..] == a[1..] + d;
      UpperRunOfColumn(a[1..], d);
    }
  }

  lemma LettersThenDigits(a1: string, d1: string, a2: string, d2: string)
    requires AllUpper(a1) && AllUpper(a2) && |d1| >= 1 && |d2| >= 1
    requires IsDigit(d1[0]) && IsDigit(d2[0])
    requires a1 + d1 == a2 + d2
    ensures a1 == a2 && d1 == d2
  {
    var s := a1 + d1;
    UpperRunOfColumn(a1, d1);
    UpperRunOfColumn(a2, d2);
    assert a1 == s[..|a1|] == a2;
    assert d1 == s[|a1|..] == d2;
  }

  /** Distinct cells of one sheet have distinct addresses, so each write
      request names the cell it was planned for. */
  lemma CellAddressInjective(sheet: string, c1: nat, r1: nat, c2: nat, r2: nat)
    requires CellAddress(sheet, c1, r1) == CellAddress(sheet, c2, r2)
    ensures c1 == c2 && r1 == r2
  {
    var p := sheet + "!";
    var t1 := ColumnName(c1) + NatToString(r1);
    var t2 := ColumnName(c2) + NatToString(r2);
    assert CellAddress(sheet, c1, r1) == p + t1;
    assert CellAddress(sheet, c2, r2) == p + t2;
    assert t1 == (p + t1)[|p|..];
    assert t2 == (p + t2)[|p|..];
    ColumnNameShape(c1);
    ColumnNameShape(c2);
    LettersThenDigits(ColumnName(c1), NatToString(r1), ColumnName(c2), NatToString(r2));
    ColumnNameInjective(c1, c2);
    NatToStringInjective(r1, r2);
  }
}
