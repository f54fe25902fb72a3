/** The spreadsheet as a grid of cell texts, the cell writes the Google
    Sheets repository (adapters/google_sheets_repository.py) sends in one
    batch, what a batch does to the grid, and the write plans of
    `update_task_status`, `increment_attempts` and `_mark_row_failed`. */
module SheetWrites {
  import opened Results
  import opened Strings
  import opened Models
  import opened SheetHeader
  import opened SheetRows
  import SheetColumns

  /** The sheet's rows, each a list of cell texts. */
  type Grid = seq<seq<string>>

  /** The text of the cell at a 0-based row and column; blank beyond the
      grid. */
  function CellAt(grid: Grid, row: nat, column: nat): string {
    if row < |grid| && column < |grid[row]| then grid[row][column] else ""
  }

  /** One entry of a batch: the A1 range, the 0-based column and the
      1-based sheet row it names, and the value written there. */
  datatype CellWrite = CellWrite(range: string, column: nat, row: int, value: string)

  /** The grid with one cell set, rows and cells added as needed. */
  function SetCell(grid: Grid, row: nat, column: nat, value: string): Grid {
    var rows := if row < |grid| then grid else grid + seq(row + 1 - |grid|, _ => []);
    var line := Pad(rows[row], column + 1);
    rows[row := line[column := value]]
  }

  /** Setting a cell changes that cell and no other, and keeps every other
      row as it was. */
  lemma SetCellEffect(grid: Grid, row: nat, column: nat, value: string)
    ensures var r := SetCell(grid, row, column, value);
      && (forall i: nat, j: nat :: CellAt(r, i, j) == if i == row && j == column then value else CellAt(grid, i, j))
      && (forall i :: 0 <= i < |grid| && i != row ==> i < |r| && r[i] == grid[i])
      && |r| >= |grid|
  {
    var rows := if row < |grid| then grid else grid + seq(row + 1 - |grid|, _ => []);
    assert forall i :: 0 <= i < |grid| ==> rows[i] == grid[i];
    assert forall i :: |grid| <= i < |rows| ==> rows[i] == [];
  }

  /** A write to a sheet row below 1 names no cell and changes nothing. */
  function ApplyWrite(grid: Grid, w: CellWrite): Grid {
    if w.row >= 1 then SetCell(grid, w.row - 1, w.column, w.value) else grid
  }

  /** The writes of a batch, applied in order. */
  function ApplyBatch(grid: Grid, data: seq<CellWrite>): Grid
    decreases |data|
  {
    if data == [] then grid else ApplyBatch(ApplyWrite(grid, data[0]), data[1..])
  }

  predicate Addresses(w: CellWrite, row: nat, column: nat) {
    w.row == row + 1 && w.column == column
  }

  /** A cell no write of the batch names keeps its text. */
  lemma {:induction false} UnwrittenCell(grid: Grid, data: seq<CellWrite>, row: nat, column: nat)
    requires forall q :: 0 <= q < |data| ==> !Addresses(data[q], row, column)
    ensures CellAt(ApplyBatch(grid, data), row, column) == CellAt(grid, row, column)
    decreases |data|
  {
    if data != [] {
      assert !Addresses(data[0], row, column);
      if data[0].row >= 1 {
        SetCellEffect(grid, data[0].row - 1, data[0].column, data[0].value);
      }
      UnwrittenCell(ApplyWrite(grid, data[0]), data[1..], row, column);
    }
  }

  /** The last write of a batch to a cell decides its text. */
  lemma {:induction false} LastWriteWins(grid: Grid, data: seq<CellWrite>, p: nat, row: nat, column: nat)
    requires p < |data| && Addresses(data[p], row, column)
    requires forall q :: p < q < |data| ==> !Addresses(data[q], row, column)
    ensures CellAt(ApplyBatch(grid, data), row, column) == data[p].value
    decreases |data|
  {
    if p == 0 {
      SetCellEffect(grid, row, column, data[0].value);
      UnwrittenCell(ApplyWrite(grid, data[0]), data[1..], row, column);
    } else {
      LastWriteWins(ApplyWrite(grid, data[0]), data[1..], p - 1, row, column);
    }
  }

  /** A batch none of whose writes names a sheet row leaves that row as it
      was. */
  lemma {:induction false} BatchKeepsRow(grid: Grid, data: seq<CellWrite>, row: nat)
    requires row < |grid|
    requires forall q :: 0 <= q < |data| ==> data[q].row != row + 1
    ensures row < |ApplyBatch(grid, data)| && ApplyBatch(grid, data)[row] == grid[row]
    decreases |data|
  {
    if data != [] {
      assert data[0].row != row + 1;
      if data[0].row >= 1 {
        SetCellEffect(grid, data[0].row - 1, data[0].column, data[0].value);
      }
      BatchKeepsRow(ApplyWrite(grid, data[0]), data[1..], row);
    }
  }

  /** The entries of a batch for one sheet row: each planned value goes to
      the column its lookup gave. */
  function Writes(sheet: string, row: int, indices: seq<nat>, plan: seq<(Column, string)>): (r: seq<CellWrite>)
    requires |indices| <= |plan|
    ensures |r| == |indices|
  {
    seq(|indices|, q requires 0 <= q < |indices| =>
      CellWrite(SheetColumns.CellAddress(sheet, indices[q], row), indices[q], row, plan[q].1))
  }

  /** Entry q of the batch writes plan entry q's value to the q-th looked-up
      column of the row, at that cell's A1 address. */
  lemma WritesAt(sheet: string, row: int, indices: seq<nat>, plan: seq<(Column, string)>)
    requires |indices| <= |plan|
    ensures forall q :: 0 <= q < |indices| ==>
      Writes(sheet, row, indices, plan)[q]
        == CellWrite(SheetColumns.CellAddress(sheet, indices[q], row), indices[q], row, plan[q].1)
  {
  }

  /** One more looked-up column adds one entry at the end of the batch. */
  lemma WritesAppend(sheet: string, row: int, indices: seq<nat>, index: nat, plan: seq<(Column, string)>)
    requires |indices| < |plan|
    ensures Writes(sheet, row, indices + [index], plan) ==
      Writes(sheet, row, indices, plan)
        + [CellWrite(SheetColumns.CellAddress(sheet, index, row), index, row, plan[|indices|].1)]
  {
    WritesAt(sheet, row, indices, plan);
    WritesAt(sheet, row, indices + [index], plan);
  }

  /** The columns of a plan, in order. */
  function Columns(plan: seq<(Column, string)>): (r: seq<Column>)
    ensures |r| == |plan| && forall q :: 0 <= q < |plan| ==> r[q] == plan[q].0
  {
    seq(|plan|, q requires 0 <= q < |plan| => plan[q].0)
  }

  /** The status shown in the sheet: the domain status IN_PROGRESS is
      written as the display label UPLOADING, every other status as
      given. */
  function DisplayStatus(status: string): (r: string)
    ensures r != status <==> status == StatusValue(InProgress)
    ensures r != status ==> r == "UPLOADING"
  {
    if status == StatusValue(InProgress) then "UPLOADING" else status
  }

  /** The one-cell plan for an optional argument: empty when it is None. */
  function Optional(c: Column, value: Option<string>): (r: seq<(Column, string)>)
    ensures |r| == Count(value)
    ensures forall v :: (c, v) in r <==> value == Some(v)
    ensures forall x :: x in r ==> x.0 == c
  {
    if value.Some? then [(c, value.value)] else []
  }

  function Count(value: Option<string>): nat {
    if value.Some? then 1 else 0
  }

  /** The order in which `update_task_status` plans its cells. */
  function Rank(c: Column): nat {
    match c
    case StatusColumn => 0
    case YoutubeVideoIdColumn => 1
    case ErrorMessageColumn => 2
    case VideoFilePathColumn => 3
    case _ => 4
  }

  /** `update_task_status`'s plan: the status cell, the three optional
      cells, the updated_at stamp. */
  function StatusPlan(status: string, videoId: Option<string>, errorMessage: Option<string>,
                      videoPath: Option<string>, stamp: string): (r: seq<(Column, string)>)
    ensures |r| == 2 + Count(videoId) + Count(errorMessage) + Count(videoPath)
  {
    [(StatusColumn, DisplayStatus(status))] + Optional(YoutubeVideoIdColumn, videoId)
      + Optional(ErrorMessageColumn, errorMessage) + Optional(VideoFilePathColumn, videoPath)
      + [(UpdatedAtColumn, stamp)]
  }

  /** The status cell comes first, then one cell per optional argument that
      is not None, holding that argument, and the updated_at stamp last; the
      columns appear in a fixed order, so none twice. */
  lemma StatusPlanShape(status: string, videoId: Option<string>, errorMessage: Option<string>,
                        videoPath: Option<string>, stamp: string)
    ensures var r := StatusPlan(status, videoId, errorMessage, videoPath, stamp);
      && r[0] == (StatusColumn, DisplayStatus(status)) && r[|r| - 1] == (UpdatedAtColumn, stamp)
      && (forall v :: (YoutubeVideoIdColumn, v) in r <==> videoId == Some(v))
      && (forall v :: (ErrorMessageColumn, v) in r <==> errorMessage == Some(v))
      && (forall v :: (VideoFilePathColumn, v) in r <==> videoPath == Some(v))
      && (forall p, q :: 0 <= p < q < |r| ==> Rank(r[p].0) < Rank(r[q].0))
  {
    StatusPlanOrder(status, videoId, errorMessage, videoPath, stamp);
    var h := (StatusColumn, DisplayStatus(status));
    var a := Optional(YoutubeVideoIdColumn, videoId);
    var b := Optional(ErrorMessageColumn, errorMessage);
    var c := Optional(VideoFilePathColumn, videoPath);
    var t := (UpdatedAtColumn, stamp);
    var r := StatusPlan(status, videoId, errorMessage, videoPath, stamp);
    forall v ensures (YoutubeVideoIdColumn, v) in r <==> videoId == Some(v) {
      PlanMember(YoutubeVideoIdColumn, v, h, a, b, c, t);
    }
    forall v ensures (ErrorMessageColumn, v) in r <==> errorMessage == Some(v) {
      PlanMember(ErrorMessageColumn, v, h, a, b, c, t);
    }
    forall v ensures (VideoFilePathColumn, v) in r <==> videoPath == Some(v) {
      PlanMember(VideoFilePathColumn, v, h, a, b, c, t);
    }
  }

  lemma PlanMember(col: Column, v: string, h: (Column, string), a: seq<(Column, string)>,
                   b: seq<(Column, string)>, c: seq<(Column, string)>, t: (Column, string))
    requires h.0 != col && t.0 != col
    ensures (col, v) in [h] + a + b + c + [t] <==> (col, v) in a || (col, v) in b || (col, v) in c
  {
  }

  lemma StatusPlanOrder(status: string, videoId: Option<string>, errorMessage: Option<string>,
                        videoPath: Option<string>, stamp: string)
    ensures var r := StatusPlan(status, videoId, errorMessage, videoPath, stamp);
      forall p, q :: 0 <= p < q < |r| ==> Rank(r[p].0) < Rank(r[q].0)
  {
    var m := Optional(YoutubeVideoIdColumn, videoId) + Optional(ErrorMessageColumn, errorMessage)
      + Optional(VideoFilePathColumn, videoPath);
    MiddleRanks(videoId, errorMessage, videoPath);
    RanksBetween((StatusColumn, DisplayStatus(status)), m, (UpdatedAtColumn, stamp));
    assert StatusPlan(status, videoId, errorMessage, videoPath, stamp)
      == [(StatusColumn, DisplayStatus(status))] + m + [(UpdatedAtColumn, stamp)];
  }

  /** Cells ranked 1 to 3 in increasing order stay in increasing order
      between a first cell of rank 0 and a last of rank 4. */
  lemma RanksBetween(h: (Column, string), m: seq<(Column, string)>, t: (Column, string))
    requires Rank(h.0) == 0 && Rank(t.0) == 4
    requires forall p :: 0 <= p < |m| ==> 1 <= Rank(m[p].0) <= 3
    requires forall p, q :: 0 <= p < q < |m| ==> Rank(m[p].0) < Rank(m[q].0)
    ensures var r := [h] + m + [t];
      forall p, q :: 0 <= p < q < |r| ==> Rank(r[p].0) < Rank(r[q].0)
  {
    var r := [h] + m + [t];
    forall p, q | 0 <= p < q < |r| ensures Rank(r[p].0) < Rank(r[q].0) {
      if 0 < p { assert r[p] == m[p - 1]; }
      if q < |r| - 1 { assert r[q] == m[q - 1]; }
    }
  }

  /** The optional cells rank between the status cell and the stamp, in
      increasing order. */
  lemma MiddleRanks(videoId: Option<string>, errorMessage: Option<string>, videoPath: Option<string>)
    ensures var m := Optional(YoutubeVideoIdColumn, videoId) + Optional(ErrorMessageColumn, errorMessage)
      + Optional(VideoFilePathColumn, videoPath);
      && (forall p :: 0 <= p < |m| ==> 1 <= Rank(m[p].0) <= 3)
      && (forall p, q :: 0 <= p < q < |m| ==> Rank(m[p].0) < Rank(m[q].0))
  {
    var a := Optional(YoutubeVideoIdColumn, videoId);
    var b := Optional(ErrorMessageColumn, errorMessage);
    var c := Optional(VideoFilePathColumn, videoPath);
    var m := a + b + c;
    forall p | 0 <= p < |m|
      ensures Rank(m[p].0) == if p < |a| then 1 else if p < |a| + |b| then 2 else 3
    {
      if p < |a| { assert m[p] in a; }
      else if p < |a| + |b| { assert m[p] == b[p - |a|]; assert m[p] in b; }
      else { assert m[p] == c[p - |a| - |b|]; assert m[p] in c; }
    }
  }

  /** `increment_attempts`'s plan: the incremented counter, then the
      last-attempt stamp. */
  function AttemptsPlan(attempts: int, stamp: string): seq<(Column, string)> {
    [(AttemptsColumn, IntToString(attempts + 1)), (LastAttemptAtColumn, stamp)]
  }

  /** The counter `increment_attempts` writes reads back, through the row
      parser's attempts check, as the incremented count. */
  lemma AttemptsRoundTrip(attempts: int, stamp: string)
    requires attempts >= 0
    ensures AttemptsPlan(attempts, stamp)[0].0 == AttemptsColumn
    ensures ParseAttempts(AttemptsPlan(attempts, stamp)[0].1) == Ok(attempts + 1)
  {
    ParseIntRoundTrip(attempts + 1);
  }

  /** `_mark_row_failed`'s plan: FAILED in the status cell, then the
      message in the error cell. */
  function FailedPlan(message: string): seq<(Column, string)> {
    [(StatusColumn, StatusValue(Failed)), (ErrorMessageColumn, message)]
  }
}
