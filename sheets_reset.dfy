/** The test-fixture utility utils/sheets_reset_verify.py: it resets a
    runtime spreadsheet from a template (copy every template sheet over,
    delete the old sheets, give the copies the template titles) and
    verifies that the two spreadsheets hold the same data once the grids
    are normalised. The Sheets API is scripted: each read's answer is an
    input and each call is logged. */
module SheetsReset {
  import opened Results
  import opened Strings

  // ---- normalize_values ----

  /** A cell as the API returns it with UNFORMATTED_VALUE: missing
      (`None`), a string, or another value (a number or a boolean) with
      its `str()`. */
  datatype Cell = NoneCell | StrCell(text: string) | ValueCell(repr: string)

  function CellText(c: Cell): string {
    match c
    case NoneCell => ""
    case StrCell(s) => Strip(s)
    case ValueCell(r) => r
  }

  function RowText(row: seq<Cell>): (r: seq<string>)
    ensures |r| == |row| && forall j :: 0 <= j < |row| ==> r[j] == CellText(row[j])
  {
    seq(|row|, j requires 0 <= j < |row| => CellText(row[j]))
  }

  /** The grid of cell texts, before anything is dropped or padded. */
  function Texts(values: seq<seq<Cell>>): (r: seq<seq<string>>)
    ensures |r| == |values| && forall i :: 0 <= i < |values| ==> r[i] == RowText(values[i])
  {
    seq(|values|, i requires 0 <= i < |values| => RowText(values[i]))
  }

  predicate Blank(row: seq<string>) {
    forall j :: 0 <= j < |row| ==> row[j] == ""
  }

  /** One past the last non-empty cell of a row (0 for a blank row). */
  function Extent(row: seq<string>): (n: nat)
    ensures n <= |row|
  {
    if row == [] then 0 else if row[|row| - 1] == "" then Extent(row[..|row| - 1]) else |row|
  }

  /** One past the last row that is not blank (0 when all are blank). */
  function RowCount(rows: seq<seq<string>>): (n: nat)
    ensures n <= |rows|
  {
    if rows == [] then 0 else if Blank(rows[|rows| - 1]) then RowCount(rows[..|rows| - 1]) else |rows|
  }

  /** The largest extent of any row. */
  function Width(rows: seq<seq<string>>): nat {
    if rows == [] then 0
    else
      var w := Width(rows[..|rows| - 1]);
      var e := Extent(rows[|rows| - 1]);
      if e > w then e else w
  }

  /** Cell (i, j) of the ragged grid, "" beyond the end of its row. */
  function At(rows: seq<seq<string>>, i: nat, j: nat): string
    requires i < |rows|
  {
    if j < |rows[i]| then rows[i][j] else ""
  }

  /** The normalised grid, cell by cell: as many rows as reach the last
      row holding a non-empty cell, as many columns as reach the last
      non-empty cell of any row, and each cell the text of the input cell
      there, or "" where the input row is shorter. */
  function Normalize(values: seq<seq<Cell>>): (r: seq<seq<string>>)
    ensures |r| <= |values|
    ensures forall i :: 0 <= i < |r| ==> |r[i]| == Width(Texts(values))
  {
    var rows := Texts(values);
    var w := Width(rows);
    seq(RowCount(rows), i requires 0 <= i < RowCount(rows) =>
      seq(w, j requires 0 <= j < w => At(rows, i, j)))
  }

  /** `r` is the grid of `n` rows and `w` columns read off `rows` by `At`. */
  predicate IsGrid(r: seq<seq<string>>, rows: seq<seq<string>>, n: nat, w: nat)
    requires n <= |rows|
  {
    && |r| == n
    && (forall i :: 0 <= i < n ==> |r[i]| == w)
    && (forall i, j :: 0 <= i < n && 0 <= j < w ==> r[i][j] == At(rows, i, j))
  }

  lemma GridUnique(a: seq<seq<string>>, b: seq<seq<string>>, rows: seq<seq<string>>, n: nat, w: nat)
    requires n <= |rows| && IsGrid(a, rows, n, w) && IsGrid(b, rows, n, w)
    ensures a == b
  {
    forall i | 0 <= i < n ensures a[i] == b[i] {
      assert forall j :: 0 <= j < w ==> a[i][j] == b[i][j];
    }
  }

  lemma NormalizeGrid(values: seq<seq<Cell>>)
    ensures var rows := Texts(values);
      IsGrid(Normalize(values), rows, RowCount(rows), Width(rows))
  {
  }

  lemma {:induction false} ExtentBound(row: seq<string>)
    ensures forall j :: Extent(row) <= j < |row| ==> row[j] == ""
    ensures Extent(row) > 0 ==> row[Extent(row) - 1] != ""
    ensures Extent(row) == 0 <==> Blank(row)
  {
    if row != [] && row[|row| - 1] == "" {
      var p := row[..|row| - 1];
      ExtentBound(p);
      assert forall j :: 0 <= j < |p| ==> row[j] == p[j];
    }
  }

  lemma {:induction false} RowCountBound(rows: seq<seq<string>>)
    ensures forall k :: RowCount(rows) <= k < |rows| ==> Blank(rows[k])
    ensures RowCount(rows) > 0 ==> !Blank(rows[RowCount(rows) - 1])
  {
    if rows != [] && Blank(rows[|rows| - 1]) {
      var p := rows[..|rows| - 1];
      RowCountBound(p);
      assert forall k :: 0 <= k < |p| ==> rows[k] == p[k];
    }
  }

  lemma {:induction false} WidthBound(rows: seq<seq<string>>)
    ensures forall k :: 0 <= k < |rows| ==> Extent(rows[k]) <= Width(rows)
    ensures Width(rows) > 0 ==> exists k :: 0 <= k < |rows| && Extent(rows[k]) == Width(rows)
  {
    if rows != [] {
      var p := rows[..|rows| - 1];
      WidthBound(p);
      assert forall k :: 0 <= k < |p| ==> rows[k] == p[k];
    }
  }

  /** Each output cell is the text of the input cell at the same place:
      "" for None, the stripped string, or the value's `str()`; and "" where
      the input row is shorter. */
  lemma NormalizeCells(values: seq<seq<Cell>>, i: nat, j: nat)
    requires i < |Normalize(values)| && j < |Normalize(values)[i]|
    ensures i < |values|
    ensures Normalize(values)[i][j] == if j < |values[i]| then CellText(values[i][j]) else ""
  {
    NormalizeGrid(values);
  }

  /** Every cell of the input is kept where it was: the normalised grid
      only drops trailing blank rows and trailing empty cells, and pads
      with "". */
  lemma NormalizeKeepsCells(values: seq<seq<Cell>>, i: nat, j: nat)
    requires i < |values| && j < |values[i]|
    ensures var r := Normalize(values);
      CellText(values[i][j]) != "" ==> i < |r| && j < |r[i]| && r[i][j] == CellText(values[i][j])
  {
    var rows := Texts(values);
    if CellText(values[i][j]) != "" {
      RowCountBound(rows);
      ExtentBound(rows[i]);
      WidthBound(rows);
      assert !Blank(rows[i]);
    }
  }

  /** The grid is rectangular, every dropped row is blank, the last row
      kept is not blank, and an all-blank input gives []. */
  lemma NormalizeShape(values: seq<seq<Cell>>)
    ensures var r := Normalize(values);
      var rows := Texts(values);
      && (forall i :: 0 <= i < |r| ==> |r[i]| == Width(rows))
      && (forall k :: |r| <= k < |values| ==> Blank(rows[k]))
      && (r != [] ==> !Blank(r[|r| - 1]))
      && (r == [] <==> forall k :: 0 <= k < |values| ==> Blank(rows[k]))
  {
    NormalizeGrid(values);
    GridShape(Normalize(values), Texts(values));
  }

  /** The width is not padding: a kept row has a non-empty last cell. */
  lemma NormalizeWidthReached(values: seq<seq<Cell>>) returns (k: nat)
    requires Normalize(values) != []
    ensures Width(Texts(values)) > 0 && k < |Normalize(values)|
    ensures Normalize(values)[k][Width(Texts(values)) - 1] != ""
  {
    NormalizeGrid(values);
    k := GridReachesWidth(Normalize(values), Texts(values));
  }

  /** The same facts for any grid read off the rows by `At`. */
  lemma GridShape(r: seq<seq<string>>, rows: seq<seq<string>>)
    requires RowCount(rows) <= |rows| && IsGrid(r, rows, RowCount(rows), Width(rows))
    ensures forall i :: 0 <= i < |r| ==> |r[i]| == Width(rows)
    ensures forall k :: |r| <= k < |rows| ==> Blank(rows[k])
    ensures r != [] ==> !Blank(r[|r| - 1])
    ensures r == [] <==> forall k :: 0 <= k < |rows| ==> Blank(rows[k])
  {
    AllBlankNoRows(rows);
    RowCountBound(rows);
    if r != [] {
      var n := |r| - 1;
      var e := LastRowKept(rows);
      assert r[n][e - 1] == rows[n][e - 1];
    }
  }

  /** The last row counted has a non-empty cell. */
  lemma LastRowKept(rows: seq<seq<string>>) returns (e: nat)
    requires RowCount(rows) > 0
    ensures e == Extent(rows[RowCount(rows) - 1]) && 0 < e <= Width(rows)
    ensures rows[RowCount(rows) - 1][e - 1] != ""
  {
    RowCountBound(rows);
    WidthBound(rows);
    e := Extent(rows[RowCount(rows) - 1]);
    ExtentBound(rows[RowCount(rows) - 1]);
  }

  lemma GridReachesWidth(r: seq<seq<string>>, rows: seq<seq<string>>) returns (k: nat)
    requires RowCount(rows) <= |rows| && IsGrid(r, rows, RowCount(rows), Width(rows)) && r != []
    ensures Width(rows) > 0 && k < |r| && r[k][Width(rows) - 1] != ""
  {
    RowCountBound(rows);
    WidthBound(rows);
    var n := RowCount(rows) - 1;
    ExtentBound(rows[n]);
    assert Extent(rows[n]) > 0;
    assert Width(rows) > 0;
    k :| 0 <= k < |rows| && Extent(rows[k]) == Width(rows);
    var w := Width(rows);
    LastCell(rows[k], w);
    assert k < |r|;
    assert r[k][w - 1] == rows[k][w - 1];
  }

  lemma LastCell(row: seq<string>, w: nat)
    requires Extent(row) == w > 0
    ensures row[w - 1] != "" && !Blank(row)
  {
    ExtentBound(row);
  }

  lemma AllBlankNoRows(rows: seq<seq<string>>)
    ensures RowCount(rows) == 0 <==> forall k :: 0 <= k < |rows| ==> Blank(rows[k])
  {
    RowCountBound(rows);
  }

  /** `normalize_values`: cell texts row by row, then trailing blank rows
      popped, then trailing empty cells popped from every row while the
      widest row is measured, then every row padded to that width. */
  method NormalizeValues(values: seq<seq<Cell>>) returns (r: seq<seq<string>>)
    ensures r == Normalize(values)
  {
    if values == [] {
      return [];
    }
    var normalized := [];
    for i := 0 to |values|
      invariant normalized == Texts(values)[..i]
    {
      var row := NormalizeRow(values[i]);
      normalized := normalized + [row];
    }
    assert normalized == Texts(values);
    var kept := DropBlankRows(normalized);
    if kept == [] {
      return [];
    }
    var trimmed, maxCol := TrimRows(kept);
    WidthBound(kept);
    r := PadRows(trimmed, maxCol);
    PaddedIsNormal(values, kept, trimmed, maxCol, r);
  }

  /** The three passes together give the normalised grid. */
  lemma PaddedIsNormal(values: seq<seq<Cell>>, kept: seq<seq<string>>, trimmed: seq<seq<string>>,
                       width: nat, r: seq<seq<string>>)
    requires kept == Texts(values)[..RowCount(Texts(values))]
    requires |trimmed| == |kept| && forall i :: 0 <= i < |kept| ==> trimmed[i] == kept[i][..Extent(kept[i])]
    requires width == Width(kept)
    requires |r| == |trimmed| && forall i :: 0 <= i < |trimmed| ==> |r[i]| == width
    requires forall i, j :: 0 <= i < |trimmed| && 0 <= j < width ==>
      r[i][j] == if j < |trimmed[i]| then trimmed[i][j] else ""
    ensures r == Normalize(values)
  {
    var rows := Texts(values);
    RowCountBound(rows);
    WidthOfPrefix(rows, |kept|);
    forall i, j | 0 <= i < |r| && 0 <= j < width ensures r[i][j] == At(rows, i, j) {
      assert kept[i] == rows[i];
      TrimmedCell(rows[i], trimmed[i], j);
    }
    assert IsGrid(r, rows, RowCount(rows), Width(rows));
    NormalizeGrid(values);
    GridUnique(r, Normalize(values), rows, RowCount(rows), Width(rows));
  }

  /** Padding a trimmed row gives back the row's cells, and "" past them. */
  lemma TrimmedCell(row: seq<string>, t: seq<string>, j: nat)
    requires t == row[..Extent(row)]
    ensures (if j < |t| then t[j] else "") == (if j < |row| then row[j] else "")
  {
    ExtentBound(row);
  }

  /** The cell texts of one row. */
  method NormalizeRow(row: seq<Cell>) returns (norm: seq<string>)
    ensures norm == RowText(row)
  {
    norm := [];
    for j := 0 to |row|
      invariant norm == RowText(row)[..j]
    {
      norm := norm + [CellText(row[j])];
    }
  }

  /** `while normalized and all(c == "" for c in normalized[-1]): normalized.pop()`. */
  method DropBlankRows(rows: seq<seq<string>>) returns (kept: seq<seq<string>>)
    ensures kept == rows[..RowCount(rows)]
  {
    kept := rows;
    while kept != [] && Blank(kept[|kept| - 1])
      invariant |kept| <= |rows| && kept == rows[..|kept|]
      invariant RowCount(kept) == RowCount(rows)
    {
      assert kept[..|kept| - 1] == rows[..|kept| - 1];
      kept := kept[..|kept| - 1];
    }
  }

  /** A row's trailing empty cells popped. */
  method TrimRow(row: seq<string>) returns (t: seq<string>)
    ensures t == row[..Extent(row)]
  {
    t := row;
    while t != [] && t[|t| - 1] == ""
      invariant |t| <= |row| && t == row[..|t|]
      invariant Extent(t) == Extent(row)
    {
      assert t[..|t| - 1] == row[..|t| - 1];
      t := t[..|t| - 1];
    }
  }

  /** Every row trimmed, and the widest trimmed row measured. */
  method TrimRows(rows: seq<seq<string>>) returns (trimmed: seq<seq<string>>, maxCol: nat)
    ensures |trimmed| == |rows|
    ensures forall i :: 0 <= i < |rows| ==> trimmed[i] == rows[i][..Extent(rows[i])]
    ensures maxCol == Width(rows)
  {
    trimmed := [];
    maxCol := 0;
    for i := 0 to |rows|
      invariant |trimmed| == i
      invariant forall k :: 0 <= k < i ==> trimmed[k] == rows[k][..Extent(rows[k])]
      invariant maxCol == Width(rows[..i])
    {
      var t := TrimRow(rows[i]);
      trimmed := trimmed + [t];
      assert rows[..i + 1][..i] == rows[..i];
      if |t| > maxCol {
        maxCol := |t|;
      }
    }
    assert rows[..|rows|] == rows;
  }

  /** Every row padded with "" to the width. */
  method PadRows(rows: seq<seq<string>>, width: nat) returns (padded: seq<seq<string>>)
    requires forall i :: 0 <= i < |rows| ==> |rows[i]| <= width
    ensures |padded| == |rows|
    ensures forall i :: 0 <= i < |rows| ==> |padded[i]| == width
    ensures forall i, j :: 0 <= i < |rows| && 0 <= j < width ==>
      padded[i][j] == if j < |rows[i]| then rows[i][j] else ""
  {
    padded := [];
    for i := 0 to |rows|
      invariant |padded| == i
      invariant forall k :: 0 <= k < i ==> |padded[k]| == width
      invariant forall k, j :: 0 <= k < i && 0 <= j < width ==>
        padded[k][j] == if j < |rows[k]| then rows[k][j] else ""
    {
      var row := PadRow(rows[i], width);
      padded := padded + [row];
    }
  }

  method PadRow(row: seq<string>, width: nat) returns (p: seq<string>)
    requires |row| <= width
    ensures |p| == width
    ensures forall j :: 0 <= j < width ==> p[j] == if j < |row| then row[j] else ""
  {
    p := row;
    while |p| < width
      invariant |row| <= |p| <= width
      invariant forall j :: 0 <= j < |p| ==> p[j] == if j < |row| then row[j] else ""
    {
      p := p + [""];
    }
  }

  /** Blank rows past the kept ones do not widen the grid. */
  lemma {:induction false} WidthOfPrefix(rows: seq<seq<string>>, n: nat)
    requires n <= |rows|
    requires forall k :: n <= k < |rows| ==> Blank(rows[k])
    ensures Width(rows[..n]) == Width(rows)
    decreases |rows|
  {
    if n < |rows| {
      var p := rows[..|rows| - 1];
      assert forall k :: n <= k < |p| ==> p[k] == rows[k];
      WidthOfPrefix(p, n);
      assert p[..n] == rows[..n];
      ExtentBound(rows[|rows| - 1]);
    } else {
      assert rows[..n] == rows;
    }
  }

  // ---- reset_runtime and verify_match ----

  /** The `properties(sheetId,title)` of one sheet. */
  datatype SheetProps = SheetProps(sheetId: int, title: string)

  /** A copied sheet and the template title it is to be given. */
  datatype NewSheet = NewSheet(sheetId: int, desiredTitle: string)

  /** One entry of the batch update: `deleteSheet`, or
      `updateSheetProperties` setting the title (fields "title"). */
  datatype BatchRequest = DeleteSheet(sheetId: int) | RenameSheet(sheetId: int, title: string)

  /** A call made to the Sheets API. */
  datatype SheetsCall =
    | GetSheets(spreadsheetId: string)
    | CopyTo(spreadsheetId: string, sheetId: int, destination: string)
    | BatchUpdate(spreadsheetId: string, requests: seq<BatchRequest>)
    | GetValues(spreadsheetId: string, title: string)

  /** The ids of the sheets listed, in order. */
  function SheetIds(sheets: seq<SheetProps>): (r: seq<int>)
    ensures |r| == |sheets| && forall i :: 0 <= i < |sheets| ==> r[i] == sheets[i].sheetId
  {
    seq(|sheets|, i requires 0 <= i < |sheets| => sheets[i].sheetId)
  }

  /** The set of titles listed. */
  function Titles(sheets: seq<SheetProps>): set<string> {
    set s | s in sheets :: s.title
  }

  /** The batch of a reset: first one delete per old sheet id, then one
      rename per copied sheet, both in the order given. */
  function ResetBatch(oldIds: seq<int>, newSheets: seq<NewSheet>): (r: seq<BatchRequest>)
    ensures |r| == |oldIds| + |newSheets|
    ensures forall i :: 0 <= i < |oldIds| ==> r[i] == DeleteSheet(oldIds[i])
    ensures forall k :: 0 <= k < |newSheets| ==>
      r[|oldIds| + k] == RenameSheet(newSheets[k].sheetId, newSheets[k].desiredTitle)
  {
    seq(|oldIds|, i requires 0 <= i < |oldIds| => DeleteSheet(oldIds[i]))
      + seq(|newSheets|, k requires 0 <= k < |newSheets| =>
              RenameSheet(newSheets[k].sheetId, newSheets[k].desiredTitle))
  }

  /** Every delete comes before every rename, the deletes name exactly the
      old ids and the renames exactly the copies. */
  lemma ResetBatchOrder(oldIds: seq<int>, newSheets: seq<NewSheet>)
    ensures var r := ResetBatch(oldIds, newSheets);
      && (forall i, k :: 0 <= i < k < |r| && r[k].DeleteSheet? ==> r[i].DeleteSheet?)
      && (set i | 0 <= i < |r| && r[i].DeleteSheet? :: r[i].sheetId) == set x | x in oldIds
      && (forall i :: 0 <= i < |r| && r[i].RenameSheet? ==>
            RenameSheet(r[i].sheetId, r[i].title) == r[i] && i >= |oldIds|
            && r[i] == RenameSheet(newSheets[i - |oldIds|].sheetId, newSheets[i - |oldIds|].desiredTitle))
  {
    var r := ResetBatch(oldIds, newSheets);
    forall x | x in oldIds ensures x in set i | 0 <= i < |r| && r[i].DeleteSheet? :: r[i].sheetId {
      var i :| 0 <= i < |oldIds| && oldIds[i] == x;
      assert r[i].DeleteSheet? && r[i].sheetId == x;
    }
  }

  /** The copies made from the template sheets, numbered by the call that
      made each. */
  function Copied(copies: nat -> int, template: seq<SheetProps>, n: nat): (r: seq<NewSheet>)
    ensures |r| == |template|
    ensures forall i :: 0 <= i < |template| ==> r[i] == NewSheet(copies(n + i), template[i].title)
  {
    seq(|template|, i requires 0 <= i < |template| => NewSheet(copies(n + i), template[i].title))
  }

  /** The `copyTo` calls, one per template sheet. */
  function CopyCalls(templateId: string, template: seq<SheetProps>, runtimeId: string): (r: seq<SheetsCall>)
    ensures |r| == |template|
    ensures forall i :: 0 <= i < |template| ==> r[i] == CopyTo(templateId, template[i].sheetId, runtimeId)
  {
    seq(|template|, i requires 0 <= i < |template| => CopyTo(templateId, template[i].sheetId, runtimeId))
  }

  /** The Sheets service, scripted: the sheet list answered by the call
      that asks for it, the id of the sheet a copy creates likewise, and
      the values of a sheet by spreadsheet and title (`None` when the read
      raises or the answer has no "values"). Every call is logged. */
  class SheetsService {
    const listings: nat -> seq<SheetProps>
    const copies: nat -> int
    const values: (string, string) -> Option<seq<seq<Cell>>>
    var calls: seq<SheetsCall>

    constructor (listings: nat -> seq<SheetProps>, copies: nat -> int,
                 values: (string, string) -> Option<seq<seq<Cell>>>)
      ensures this.listings == listings && this.copies == copies && this.values == values
      ensures calls == []
    {
      this.listings := listings;
      this.copies := copies;
      this.values := values;
      calls := [];
    }

    /** `get_spreadsheet_sheets`. */
    method GetSpreadsheetSheets(spreadsheetId: string) returns (sheets: seq<SheetProps>)
      modifies this
      ensures sheets == listings(|old(calls)|)
      ensures calls == old(calls) + [GetSheets(spreadsheetId)]
    {
      sheets := listings(|calls|);
      calls := calls + [GetSheets(spreadsheetId)];
    }

    /** `sheets().copyTo(...)`: the id of the new sheet. */
    method CopySheet(spreadsheetId: string, sheetId: int, destination: string) returns (newId: int)
      modifies this
      ensures newId == copies(|old(calls)|)
      ensures calls == old(calls) + [CopyTo(spreadsheetId, sheetId, destination)]
    {
      newId := copies(|calls|);
      calls := calls + [CopyTo(spreadsheetId, sheetId, destination)];
    }

    method SendBatch(spreadsheetId: string, requests: seq<BatchRequest>)
      modifies this
      ensures calls == old(calls) + [BatchUpdate(spreadsheetId, requests)]
    {
      calls := calls + [BatchUpdate(spreadsheetId, requests)];
    }

    /** `get_sheet_values`: a failing read, or one without values, is []. */
    method GetSheetValues(spreadsheetId: string, title: string) returns (v: seq<seq<Cell>>)
      modifies this
      ensures v == ValuesOr(values(spreadsheetId, title))
      ensures calls == old(calls) + [GetValues(spreadsheetId, title)]
    {
      v := ValuesOr(values(spreadsheetId, title));
      calls := calls + [GetValues(spreadsheetId, title)];
    }
  }

  function ValuesOr(answer: Option<seq<seq<Cell>>>): seq<seq<Cell>> {
    if answer.Some? then answer.value else []
  }

  /** The `copyTo` loop: one copy per template sheet, in order. */
  method CopyAll(service: SheetsService, templateId: string, template: seq<SheetProps>, runtimeId: string)
    returns (newSheets: seq<NewSheet>)
    modifies service
    ensures newSheets == Copied(service.copies, template, |old(service.calls)|)
    ensures service.calls == old(service.calls) + CopyCalls(templateId, template, runtimeId)
  {
    ghost var n := |service.calls|;
    newSheets := [];
    for i := 0 to |template|
      invariant |service.calls| == n + i
      invariant newSheets == Copied(service.copies, template[..i], n)
      invariant service.calls == old(service.calls) + CopyCalls(templateId, template[..i], runtimeId)
    {
      var id := service.CopySheet(templateId, template[i].sheetId, runtimeId);
      newSheets := newSheets + [NewSheet(id, template[i].title)];
      assert template[..i + 1][..i] == template[..i];
    }
    assert template[..|template|] == template;
  }

  /** The request list of `reset_runtime`, built by appending. */
  method BuildRequests(oldIds: seq<int>, newSheets: seq<NewSheet>) returns (requests: seq<BatchRequest>)
    ensures requests == ResetBatch(oldIds, newSheets)
  {
    requests := [];
    for i := 0 to |oldIds|
      invariant requests == ResetBatch(oldIds[..i], [])
    {
      requests := requests + [DeleteSheet(oldIds[i])];
    }
    assert oldIds[..|oldIds|] == oldIds;
    for k := 0 to |newSheets|
      invariant requests == ResetBatch(oldIds, newSheets[..k])
    {
      requests := requests + [RenameSheet(newSheets[k].sheetId, newSheets[k].desiredTitle)];
    }
    assert newSheets[..|newSheets|] == newSheets;
  }

  /** `reset_runtime`: both sheet lists are read; an empty template stops
      there with failure; otherwise every template sheet is copied over,
      one batch deletes the old sheets and renames the copies, and the
      runtime list is read once more. */
  method ResetRuntime(service: SheetsService, templateId: string, runtimeId: string) returns (ok: bool)
    modifies service
    ensures var n := |old(service.calls)|;
      var template := service.listings(n);
      var runtime := service.listings(n + 1);
      var start := old(service.calls) + [GetSheets(templateId), GetSheets(runtimeId)];
      && (ok <==> template != [])
      && (template == [] ==> service.calls == start)
      && (template != [] ==>
            service.calls == start + CopyCalls(templateId, template, runtimeId)
              + [BatchUpdate(runtimeId, ResetBatch(SheetIds(runtime), Copied(service.copies, template, n + 2))),
                 GetSheets(runtimeId)])
  {
    var templateSheets := service.GetSpreadsheetSheets(templateId);
    var runtimeSheets := service.GetSpreadsheetSheets(runtimeId);
    if templateSheets == [] {
      return false;
    }
    ghost var start := service.calls;
    assert start == old(service.calls) + [GetSheets(templateId), GetSheets(runtimeId)];
    var oldIds := SheetIds(runtimeSheets);
    var newSheets := CopyAll(service, templateId, templateSheets, runtimeId);
    ghost var copied := service.calls;
    assert copied == start + CopyCalls(templateId, templateSheets, runtimeId);
    ApplyBatch(service, runtimeId, oldIds, newSheets);
    assert service.calls == copied + [BatchUpdate(runtimeId, ResetBatch(oldIds, newSheets)), GetSheets(runtimeId)];
    ok := true;
  }

  /** The end of `reset_runtime`: the batch (never empty here, since at
      least one sheet was copied) and the final read of the runtime list. */
  method ApplyBatch(service: SheetsService, runtimeId: string, oldIds: seq<int>, newSheets: seq<NewSheet>)
    requires newSheets != []
    modifies service
    ensures service.calls == old(service.calls)
      + [BatchUpdate(runtimeId, ResetBatch(oldIds, newSheets)), GetSheets(runtimeId)]
  {
    var requests := BuildRequests(oldIds, newSheets);
    if requests != [] {
      service.SendBatch(runtimeId, requests);
    }
    var finalSheets := service.GetSpreadsheetSheets(runtimeId);
  }

  /** Whether sheet `title` holds the same normalised data in both. */
  predicate SameData(values: (string, string) -> Option<seq<seq<Cell>>>, templateId: string,
                     runtimeId: string, title: string)
  {
    Normalize(ValuesOr(values(templateId, title))) == Normalize(ValuesOr(values(runtimeId, title)))
  }

  /** `verify_match`: both sheet lists are read; differing title sets fail
      at once, before any values are read; otherwise each title's values
      are read from both and the check passes exactly when every sheet's
      normalised data agree. */
  method VerifyMatch(service: SheetsService, templateId: string, runtimeId: string) returns (ok: bool)
    modifies service
    ensures var n := |old(service.calls)|;
      var titles := Titles(service.listings(n));
      var start := old(service.calls) + [GetSheets(templateId), GetSheets(runtimeId)];
      && (titles != Titles(service.listings(n + 1)) ==> !ok && service.calls == start)
      && (titles == Titles(service.listings(n + 1)) ==>
            && |service.calls| == |start| + 2 * |titles|
            && service.calls[..|start|] == start
            && (ok <==> forall t :: t in titles ==> SameData(service.values, templateId, runtimeId, t)))
  {
    var templateSheets := service.GetSpreadsheetSheets(templateId);
    var runtimeSheets := service.GetSpreadsheetSheets(runtimeId);
    var templateTitles := Titles(templateSheets);
    if templateTitles != Titles(runtimeSheets) {
      return false;
    }
    ghost var start := service.calls;
    ghost var log: seq<SheetsCall> := [];
    var remaining := templateTitles;
    ghost var checked: set<string> := {};
    ok := true;
    while remaining != {}
      invariant remaining <= templateTitles && checked == templateTitles - remaining
      invariant service.calls == start + log && |log| == 2 * |checked|
      invariant ok <==> forall t :: t in checked ==> SameData(service.values, templateId, runtimeId, t)
      decreases |remaining|
    {
      var title :| title in remaining;
      var same := CompareSheet(service, templateId, runtimeId, title);
      ok := ok && same;
      AppendAssoc(start, log, [GetValues(templateId, title), GetValues(runtimeId, title)]);
      log := log + [GetValues(templateId, title), GetValues(runtimeId, title)];
      TakeOne(templateTitles, remaining, checked, title);
      remaining := remaining - {title};
      checked := checked + {title};
    }
    assert service.calls[..|start|] == start;
  }

  lemma AppendAssoc<T>(a: seq<T>, b: seq<T>, c: seq<T>)
    ensures (a + b) + c == a + (b + c)
  {
  }

  lemma TakeOne(all: set<string>, remaining: set<string>, checked: set<string>, x: string)
    requires x in remaining && remaining <= all && checked == all - remaining
    ensures checked + {x} == all - (remaining - {x}) && x !in checked
    ensures |checked + {x}| == |checked| + 1 && |remaining - {x}| < |remaining|
  {
  }

  /** One sheet of `verify_match`: its values read from both spreadsheets
      and compared once normalised. */
  method CompareSheet(service: SheetsService, templateId: string, runtimeId: string, title: string)
    returns (same: bool)
    modifies service
    ensures same == SameData(service.values, templateId, runtimeId, title)
    ensures service.calls == old(service.calls) + [GetValues(templateId, title), GetValues(runtimeId, title)]
  {
    var templateValues := service.GetSheetValues(templateId, title);
    var runtimeValues := service.GetSheetValues(runtimeId, title);
    var templateNorm := NormalizeValues(templateValues);
    var runtimeNorm := NormalizeValues(runtimeValues);
    same := templateNorm == runtimeNorm;
  }
}
