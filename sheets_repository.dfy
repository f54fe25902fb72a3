/** The Google Sheets metadata repository
    (adapters/google_sheets_repository.py) as an object over a modelled
    spreadsheet: the header-map cache, the column lookups that fill it, the
    batched writes of `update_task_status`, `increment_attempts` and
    `_mark_row_failed`, and the ready-task scan of `get_ready_tasks`. The
    spreadsheet API is the grid plus a log of requests; `failures` says
    which request numbers fail with an HttpError, and with what text. */
module SheetsRepository {
  import opened Results
  import opened Strings
  import opened Models
  import opened SheetHeader
  import opened SheetRows
  import opened SheetWrites
  import SheetColumns

  /** One call of the spreadsheet API: a read of the configured range, or
      a batch of cell writes. */
  datatype Request = ReadValues | BatchUpdate(data: seq<CellWrite>)

  function Reads(k: nat): seq<Request> {
    seq(k, _ => ReadValues)
  }

  /** The HttpError text of the request with a given number, if it fails. */
  function Failure(failures: map<nat, string>, n: nat): Option<string> {
    if n in failures then Some(failures[n]) else None
  }

  /** What reading the header gives: an empty sheet resolves like a
      header without known names. */
  function Resolve(grid: Grid): HeaderOutcome {
    if grid == [] then Positional else ResolveHeader(grid[0])
  }

  /** Why `_ensure_header_map` failed: the read raised an HttpError, or
      the header lacks required columns. */
  datatype LookupError = FetchFailed(http: string) | SchemaFailed(missing: set<string>, found: set<string>)

  /** The text of the MetadataRepositoryError `_ensure_header_map` raises. */
  function LookupText(e: LookupError): string {
    match e
    case FetchFailed(http) => "Failed to fetch header: " + http
    case SchemaFailed(missing, found) => "Failed to ensure header_map: " + MissingRequired(missing, found).Message()
  }

  /** The result of `_ensure_header_map`: its error, the cache afterwards,
      and the number of reads it made. */
  datatype Ensured = Ensured(error: Option<LookupError>, cache: Option<HeaderMap>, readCount: nat)

  /** `_ensure_header_map`: nothing to do when a map is cached; otherwise
      one read, whose HttpError or schema error leaves the cache empty. A
      header without a usable map also leaves it empty, so the next lookup
      reads again. */
  function EnsureStep(resolved: HeaderOutcome, cache: Option<HeaderMap>, failure: Option<string>): Ensured {
    if cache.Some? then Ensured(None, cache, 0)
    else if failure.Some? then Ensured(Some(FetchFailed(failure.value)), None, 1)
    else if resolved.MissingRequired? then Ensured(Some(SchemaFailed(resolved.missing, resolved.found)), None, 1)
    else Ensured(None, resolved.Map(), 1)
  }

  /** A sequence of column lookups: the indices found, the first error,
      the cache afterwards and the reads made. */
  datatype LookupRun = LookupRun(indices: seq<nat>, error: Option<LookupError>, cache: Option<HeaderMap>, readCount: nat)

  /** `_get_column_index` for each column in turn, starting at request
      number `n`, stopping at the first error; every read of the unchanging
      sheet resolves to `resolved`. */
  function Lookups(resolved: HeaderOutcome, cache: Option<HeaderMap>, failures: map<nat, string>, n: nat,
                   cols: seq<Column>): LookupRun
  {
    if cols == [] then LookupRun([], None, cache, 0)
    else
      var prev := Lookups(resolved, cache, failures, n, cols[..|cols| - 1]);
      if prev.error.Some? then prev
      else
        var e := EnsureStep(resolved, prev.cache, Failure(failures, n + prev.readCount));
        if e.error.Some? then LookupRun(prev.indices, e.error, e.cache, prev.readCount + e.readCount)
        else LookupRun(prev.indices + [CellIndex(cols[|cols| - 1], e.cache)], None, e.cache, prev.readCount + e.readCount)
  }

  /** The map the lookups of a run read: the cached one, otherwise the one
      the header resolves to. */
  function Effective(resolved: HeaderOutcome, cache: Option<HeaderMap>): Option<HeaderMap> {
    if cache.Some? then cache else resolved.Map()
  }

  predicate RunFacts(run: LookupRun, resolved: HeaderOutcome, cache: Option<HeaderMap>, cols: seq<Column>) {
    && run.readCount <= |cols|
    && |run.indices| <= |cols|
    && (run.error.None? ==> |run.indices| == |cols|)
    && (forall q :: 0 <= q < |run.indices| ==> run.indices[q] == CellIndex(cols[q], Effective(resolved, cache)))
    && (cache.Some? ==> run.readCount == 0 && run.error.None? && run.cache == cache)
    && (run.error.None? && cols != [] ==> run.cache == Effective(resolved, cache))
  }

  /** Every lookup of a run finds the index of its column in the same map,
      a cached map costs no read, and a run without error finds an index
      for every column. */
  lemma {:induction false} LookupsFacts(resolved: HeaderOutcome, cache: Option<HeaderMap>, failures: map<nat, string>,
                                        n: nat, cols: seq<Column>)
    ensures RunFacts(Lookups(resolved, cache, failures, n, cols), resolved, cache, cols)
  {
    if cols != [] {
      var init := cols[..|cols| - 1];
      LookupsFacts(resolved, cache, failures, n, init);
      var prev := Lookups(resolved, cache, failures, n, init);
      if prev.error.None? {
        var e := EnsureStep(resolved, prev.cache, Failure(failures, n + prev.readCount));
        if init != [] {
          assert prev.cache == Effective(resolved, cache);
        }
        assert e.error.None? ==> e.cache == Effective(resolved, cache);
      }
    }
  }

  /** Without a usable header map nothing is cached, so every lookup reads
      the sheet again and falls back to the positional layout. */
  lemma {:induction false} FallbackRereads(resolved: HeaderOutcome, failures: map<nat, string>, n: nat, cols: seq<Column>)
    requires resolved.Positional?
    requires forall q :: n <= q < n + |cols| ==> q !in failures
    ensures Lookups(resolved, None, failures, n, cols).error.None?
    ensures Lookups(resolved, None, failures, n, cols).readCount == |cols|
    ensures |Lookups(resolved, None, failures, n, cols).indices| == |cols|
    ensures Lookups(resolved, None, failures, n, cols).cache.None?
    ensures forall q :: 0 <= q < |cols| ==> Lookups(resolved, None, failures, n, cols).indices[q] == Position(cols[q])
  {
    LookupsFacts(resolved, None, failures, n, cols);
    if cols != [] {
      FallbackRereads(resolved, failures, n, cols[..|cols| - 1]);
      ColumnMapPosition(cols[|cols| - 1]);
    }
    forall q | 0 <= q < |cols| ensures CellIndex(cols[q], None) == Position(cols[q]) {
    }
  }

  /** With nothing cached, the first lookup reads the sheet; an HttpError
      or a schema error there ends the run with its message. */
  lemma FirstLookupFails(resolved: HeaderOutcome, failures: map<nat, string>, n: nat, cols: seq<Column>)
    requires cols != []
    requires n in failures || resolved.MissingRequired?
    ensures Lookups(resolved, None, failures, n, cols).indices == []
    ensures Lookups(resolved, None, failures, n, cols).readCount == 1
    ensures Lookups(resolved, None, failures, n, cols).cache.None?
    ensures Lookups(resolved, None, failures, n, cols).error ==
      if n in failures then Some(FetchFailed(failures[n]))
      else Some(SchemaFailed(resolved.missing, resolved.found))
  {
    LookupsStop(resolved, None, failures, n, cols, 1);
    assert cols[..1][..0] == [];
  }

  /** Once a run has failed, looking up further columns changes nothing. */
  lemma {:induction false} LookupsStop(resolved: HeaderOutcome, cache: Option<HeaderMap>, failures: map<nat, string>,
                                       n: nat, cols: seq<Column>, i: nat)
    requires i <= |cols|
    requires Lookups(resolved, cache, failures, n, cols[..i]).error.Some?
    ensures Lookups(resolved, cache, failures, n, cols) == Lookups(resolved, cache, failures, n, cols[..i])
    decreases |cols| - i
  {
    if i < |cols| {
      var next := cols[..i + 1];
      assert next[..|next| - 1] == cols[..i];
      LookupsStop(resolved, cache, failures, n, cols, i + 1);
    } else {
      assert cols[..i] == cols;
    }
  }

  /** One more lookup extends a run that has not failed by one step. */
  lemma LookupsNext(resolved: HeaderOutcome, cache: Option<HeaderMap>,
                    failures: map<nat, string>, n: nat, cols: seq<Column>, i: nat)
    requires i < |cols|
    requires Lookups(resolved, cache, failures, n, cols[..i]).error.None?
    ensures var prev := Lookups(resolved, cache, failures, n, cols[..i]);
      var e := EnsureStep(resolved, prev.cache, Failure(failures, n + prev.readCount));
      Lookups(resolved, cache, failures, n, cols[..i + 1]) ==
        if e.error.Some? then LookupRun(prev.indices, e.error, e.cache, prev.readCount + e.readCount)
        else LookupRun(prev.indices + [CellIndex(cols[i], e.cache)], None, e.cache, prev.readCount + e.readCount)
  {
    assert cols[..i + 1][..i] == cols[..i];
  }

  lemma ReadsAdd(s: seq<Request>, a: nat, b: nat)
    ensures s + Reads(a) + Reads(b) == s + Reads(a + b)
  {
  }

  /** One more lookup after a run without error, in terms of the step it
      makes. */
  lemma LookupsStep(resolved: HeaderOutcome, cache: Option<HeaderMap>,
                    failures: map<nat, string>, n: nat, cols: seq<Column>, i: nat, prev: LookupRun, e: Ensured)
    requires i < |cols|
    requires prev == Lookups(resolved, cache, failures, n, cols[..i]) && prev.error.None?
    requires e == EnsureStep(resolved, prev.cache, Failure(failures, n + prev.readCount))
    ensures Lookups(resolved, cache, failures, n, cols[..i + 1]).cache == e.cache
    ensures Lookups(resolved, cache, failures, n, cols[..i + 1]).error == e.error
    ensures Lookups(resolved, cache, failures, n, cols[..i + 1]).readCount == prev.readCount + e.readCount
    ensures e.error.None? ==>
      Lookups(resolved, cache, failures, n, cols[..i + 1]).indices == prev.indices + [CellIndex(cols[i], e.cache)]
  {
    LookupsNext(resolved, cache, failures, n, cols, i);
  }

  /** How a planned row write ended. */
  datatype WriteOutcome = Written | LookupFailed(error: LookupError) | BatchFailed(message: string)

  /** The observable state of the spreadsheet and the cache. */
  datatype SheetState = SheetState(grid: Grid, cache: Option<HeaderMap>, requests: seq<Request>)

  /** A row write as a value: the lookups for the plan's columns, then, if
      they all succeeded, one batch with a cell per planned value in sheet
      row `row`, applied only if the request succeeds. */
  function WriteRowSpec(s: SheetState, failures: map<nat, string>, sheet: string, row: int,
                        plan: seq<(Column, string)>): (SheetState, WriteOutcome)
  {
    var run := Lookups(Resolve(s.grid), s.cache, failures, |s.requests|, Columns(plan));
    LookupsFacts(Resolve(s.grid), s.cache, failures, |s.requests|, Columns(plan));
    WriteAfter(s, failures, sheet, row, plan, run)
  }

  /** The rest of a row write once the lookups have run. */
  function WriteAfter(s: SheetState, failures: map<nat, string>, sheet: string, row: int,
                      plan: seq<(Column, string)>, run: LookupRun): (SheetState, WriteOutcome)
    requires |run.indices| <= |plan|
  {
    if run.error.Some? then
      (SheetState(s.grid, run.cache, s.requests + Reads(run.readCount)), LookupFailed(run.error.value))
    else
      var data := Writes(sheet, row, run.indices, plan);
      var requests := s.requests + Reads(run.readCount) + [BatchUpdate(data)];
      match Failure(failures, |s.requests| + run.readCount)
      case Some(e) => (SheetState(s.grid, run.cache, requests), BatchFailed(e))
      case None => (SheetState(ApplyBatch(s.grid, data), run.cache, requests), Written)
  }

  /** A row write changes the grid only when it is written, and then
      exactly by the batch it sent: one cell per planned value, each in the
      given row and in the column the shared map gives, after every read
      the lookups made, with no other request. */
  lemma WriteRowEffect(s: SheetState, failures: map<nat, string>, sheet: string, row: int,
                       plan: seq<(Column, string)>)
    ensures var (t, w) := WriteRowSpec(s, failures, sheet, row, plan);
      && (!w.Written? ==> t.grid == s.grid)
      && |s.requests| <= |t.requests| <= |s.requests| + |plan| + 1
      && t.requests[..|s.requests|] == s.requests
      && (s.cache.Some? ==> t.cache == s.cache)
      && (w.Written? ==>
        && t.requests[|t.requests| - 1].BatchUpdate?
        && var data := t.requests[|t.requests| - 1].data;
        && t.grid == ApplyBatch(s.grid, data)
        && |data| == |plan|
        && forall q :: 0 <= q < |plan| ==>
          && data[q].row == row && data[q].value == plan[q].1
          && data[q].column == CellIndex(plan[q].0, Effective(Resolve(s.grid), s.cache))
          && data[q].range == SheetColumns.CellAddress(sheet, data[q].column, row))
  {
    var run := Lookups(Resolve(s.grid), s.cache, failures, |s.requests|, Columns(plan));
    LookupsFacts(Resolve(s.grid), s.cache, failures, |s.requests|, Columns(plan));
    if run.error.None? {
      WritesAt(sheet, row, run.indices, plan);
    }
  }

  /** After a successful write, the cell of the plan's last column holds
      the last planned value. */
  lemma WrittenLastValue(s: SheetState, failures: map<nat, string>, sheet: string, row: nat,
                         plan: seq<(Column, string)>)
    requires row >= 1 && plan != []
    requires WriteRowSpec(s, failures, sheet, row, plan).1.Written?
    ensures CellAt(WriteRowSpec(s, failures, sheet, row, plan).0.grid, row - 1,
                   CellIndex(plan[|plan| - 1].0, Effective(Resolve(s.grid), s.cache))) == plan[|plan| - 1].1
  {
    WriteRowEffect(s, failures, sheet, row, plan);
    var t := WriteRowSpec(s, failures, sheet, row, plan).0;
    var data := t.requests[|t.requests| - 1].data;
    LastWriteWins(s.grid, data, |plan| - 1, row - 1, CellIndex(plan[|plan| - 1].0, Effective(Resolve(s.grid), s.cache)));
  }

  /** The error text of `update_task_status`. */
  function UpdateMessage(w: WriteOutcome): Option<string> {
    match w
    case Written => None
    case LookupFailed(e) => Some("Update failed: " + LookupText(e))
    case BatchFailed(m) => Some("Failed to update task status: " + m)
  }

  /** The error text of `increment_attempts`. */
  function IncrementMessage(w: WriteOutcome): Option<string> {
    match w
    case Written => None
    case LookupFailed(e) => Some("Increment failed: " + LookupText(e))
    case BatchFailed(m) => Some("Failed to increment attempts: " + m)
  }

  /** The task after `increment_attempts`: the counter and the last-attempt
      time change only when the batch went through. */
  function Incremented(task: Task, w: WriteOutcome, now: DateTime): (r: Task)
    ensures w.Written? ==> r == task.(attempts := task.attempts + 1, lastAttemptAt := Some(now))
    ensures !w.Written? ==> r == task
  {
    if w.Written? then task.(attempts := task.attempts + 1, lastAttemptAt := Some(now)) else task
  }

  /** The padding length of the scan: one past the largest mapped index
      with a header map, 16 without. */
  ghost function PadLength(headerMap: Option<HeaderMap>): nat {
    if headerMap.None? then |ColumnMap|
    else if headerMap.value == map[] then 0
    else MaxOf(headerMap.value.Values) + 1
  }

  ghost function MaxOf(s: set<nat>): (r: nat)
    requires s != {}
    ensures r in s && forall v :: v in s ==> v <= r
  {
    var x :| x in s;
    if s == {x} then x
    else
      assert s == (s - {x}) + {x};
      var m := MaxOf(s - {x});
      if x < m then m else x
  }

  /** A member of a set that bounds every member is its maximum. */
  lemma MaxOfBound(s: set<nat>, top: nat)
    requires top in s && forall v :: v in s ==> v <= top
    ensures MaxOf(s) == top
  {
  }

  /** The rows marked FAILED one after the other, each with its
      validation error's message. */
  ghost function MarkAll(s: SheetState, failures: map<nat, string>, sheet: string,
                         rejected: seq<(int, RowError)>): SheetState
    decreases |rejected|
  {
    if rejected == [] then s
    else
      var k := |rejected| - 1;
      var before := MarkAll(s, failures, sheet, rejected[..k]);
      WriteRowSpec(before, failures, sheet, rejected[k].0, FailedPlan(rejected[k].1.Message())).0
  }

  /** The `_mark_row_failed` calls of a scan: row and message. */
  function Marks(rejected: seq<(int, RowError)>): (r: seq<(int, string)>)
    ensures |r| == |rejected|
  {
    seq(|rejected|, i requires 0 <= i < |rejected| => (rejected[i].0, rejected[i].1.Message()))
  }

  /** The outcome of every data row of a fetched sheet whose header is
      usable: padded to PadLength of the header's map. */
  ghost function ScanOutcomes(values: Grid, readyStatus: string, iso: IsoParser): seq<RowOutcome>
    requires values != [] && !ResolveHeader(values[0]).MissingRequired?
  {
    var hm := ResolveHeader(values[0]).Map();
    Outcomes(values[1..], PadLength(hm), hm, readyStatus, iso)
  }

  /** The rows a scan rejects: none when the scan stops before its loop. */
  ghost function ScanRejected(s: SheetState, failures: map<nat, string>, readyStatus: string,
                              iso: IsoParser): seq<(int, RowError)>
  {
    if Failure(failures, |s.requests|).Some? || s.grid == [] || ResolveHeader(s.grid[0]).MissingRequired? then []
    else RejectedRows(ScanOutcomes(s.grid, readyStatus, iso))
  }

  /** `get_ready_tasks` as a value: one read of the sheet; an HttpError, an
      empty sheet and a header missing required columns end the scan before
      its loop; otherwise the header's map is cached, the ready rows are
      parsed and every rejected row is marked FAILED in turn. */
  ghost function ReadyScan(s: SheetState, failures: map<nat, string>, sheet: string,
                           readyStatus: string, iso: IsoParser): (SheetState, Result<seq<Task>, string>)
  {
    var fetched := s.(requests := s.requests + [ReadValues]);
    match Failure(failures, |s.requests|)
    case Some(e) => (fetched, Err("Google Sheets API error: " + e))
    case None =>
      if s.grid == [] then (fetched, Ok([]))
      else
        var res := ResolveHeader(s.grid[0]);
        if res.MissingRequired? then (fetched, Err(res.Message()))
        else
          var outcomes := ScanOutcomes(s.grid, readyStatus, iso);
          (MarkAll(fetched.(cache := res.Map()), failures, sheet, RejectedRows(outcomes)), Ok(ParsedTasks(outcomes)))
  }

  lemma MarkAllAppend(s: SheetState, failures: map<nat, string>, sheet: string,
                      rejected: seq<(int, RowError)>, x: (int, RowError))
    ensures MarkAll(s, failures, sheet, rejected + [x])
      == WriteRowSpec(MarkAll(s, failures, sheet, rejected), failures, sheet, x.0, FailedPlan(x.1.Message())).0
  {
    assert (rejected + [x])[..|rejected|] == rejected;
  }

  lemma MarksAppend(rejected: seq<(int, RowError)>, x: (int, RowError))
    ensures Marks(rejected + [x]) == Marks(rejected) + [(x.0, x.1.Message())]
  {
  }

  /** Marking one more rejected row extends the marks so far by it. */
  lemma RejectStep(s1: SheetState, failures: map<nat, string>, sheet: string, rejected: seq<(int, RowError)>,
                   x: (int, RowError), before: SheetState, after: SheetState,
                   m0: seq<(int, string)>, markedBefore: seq<(int, string)>, markedAfter: seq<(int, string)>)
    requires before == MarkAll(s1, failures, sheet, rejected)
    requires after == WriteRowSpec(before, failures, sheet, x.0, FailedPlan(x.1.Message())).0
    requires markedBefore == m0 + Marks(rejected) && markedAfter == markedBefore + [(x.0, x.1.Message())]
    ensures after == MarkAll(s1, failures, sheet, rejected + [x])
    ensures markedAfter == m0 + Marks(rejected + [x])
  {
    MarkAllAppend(s1, failures, sheet, rejected, x);
    MarksAppend(rejected, x);
  }

  /** One more row of the scan adds its task, or its rejection, or
      nothing. */
  lemma ScanStep(outcomes: seq<RowOutcome>, k: nat, o: RowOutcome)
    requires k < |outcomes| && o == outcomes[k]
    ensures ParsedTasks(outcomes[..k + 1]) == ParsedTasks(outcomes[..k]) + if o.Parsed? then [o.task] else []
    ensures RejectedRows(outcomes[..k + 1]) == RejectedRows(outcomes[..k]) + if o.Rejected? then [(k + 2, o.error)] else []
  {
    assert outcomes[..k + 1][..k] == outcomes[..k];
  }

  /** A FAILED mark in a data row leaves the header row as it was. */
  lemma MarkKeepsHeader(s: SheetState, failures: map<nat, string>, sheet: string, row: int, message: string)
    requires s.grid != [] && row >= 2
    ensures var t := WriteRowSpec(s, failures, sheet, row, FailedPlan(message)).0;
      t.grid != [] && t.grid[0] == s.grid[0]
  {
    WriteRowEffect(s, failures, sheet, row, FailedPlan(message));
    var (t, w) := WriteRowSpec(s, failures, sheet, row, FailedPlan(message));
    if w.Written? {
      var data := t.requests[|t.requests| - 1].data;
      BatchKeepsRow(s.grid, data, 0);
    }
  }

  /** Marking rejected data rows never touches the header row. */
  lemma {:induction false} MarkAllKeepsHeader(s: SheetState, failures: map<nat, string>, sheet: string,
                                              rejected: seq<(int, RowError)>)
    requires s.grid != []
    requires forall i :: 0 <= i < |rejected| ==> rejected[i].0 >= 2
    ensures MarkAll(s, failures, sheet, rejected).grid != []
    ensures MarkAll(s, failures, sheet, rejected).grid[0] == s.grid[0]
    decreases |rejected|
  {
    if rejected != [] {
      var k := |rejected| - 1;
      MarkAllKeepsHeader(s, failures, sheet, rejected[..k]);
      MarkKeepsHeader(MarkAll(s, failures, sheet, rejected[..k]), failures, sheet, rejected[k].0, rejected[k].1.Message());
    }
  }

  /** The scan leaves the header row as it found it, and the request log
      only grows: one read first, then the marks' requests. */
  lemma ScanKeepsHeader(s: SheetState, failures: map<nat, string>, sheet: string,
                        readyStatus: string, iso: IsoParser)
    requires s.grid != []
    ensures var t := ReadyScan(s, failures, sheet, readyStatus, iso).0;
      t.grid != [] && t.grid[0] == s.grid[0]
  {
    if Failure(failures, |s.requests|).None? && !ResolveHeader(s.grid[0]).MissingRequired? {
      var outcomes := ScanOutcomes(s.grid, readyStatus, iso);
      RejectedRowsSpec(outcomes);
      var fetched := s.(requests := s.requests + [ReadValues], cache := ResolveHeader(s.grid[0]).Map());
      MarkAllKeepsHeader(fetched, failures, sheet, RejectedRows(outcomes));
    }
  }

  /** A header missing required columns aborts the scan with the schema
      error: no task is returned, nothing is cached and no row is marked. */
  lemma ScanSchemaFailure(s: SheetState, failures: map<nat, string>, sheet: string,
                          readyStatus: string, iso: IsoParser)
    requires Failure(failures, |s.requests|).None? && s.grid != []
    requires ResolveHeader(s.grid[0]).MissingRequired?
    ensures ReadyScan(s, failures, sheet, readyStatus, iso)
      == (s.(requests := s.requests + [ReadValues]), Err(ResolveHeader(s.grid[0]).Message()))
    ensures ScanRejected(s, failures, readyStatus, iso) == []
  {
  }

  /** On a usable header the scan returns the parsed ready rows of its one
      read, in sheet order, each numbered by its sheet row; every rejected
      row is marked, in order, and no other. */
  lemma ScanResult(s: SheetState, failures: map<nat, string>, sheet: string,
                   readyStatus: string, iso: IsoParser)
    requires Failure(failures, |s.requests|).None? && s.grid != []
    requires !ResolveHeader(s.grid[0]).MissingRequired?
    ensures var outcomes := ScanOutcomes(s.grid, readyStatus, iso);
      && |outcomes| == |s.grid| - 1
      && ReadyScan(s, failures, sheet, readyStatus, iso).1 == Ok(ParsedTasks(outcomes))
      && ScanRejected(s, failures, readyStatus, iso) == RejectedRows(outcomes)
      && (forall i :: 0 <= i < |ParsedTasks(outcomes)| ==>
            && 2 <= ParsedTasks(outcomes)[i].rowIndex <= |s.grid|
            && StatusValue(ParsedTasks(outcomes)[i].status) == readyStatus
            && outcomes[ParsedTasks(outcomes)[i].rowIndex - 2] == Parsed(ParsedTasks(outcomes)[i]))
      && (forall i, j :: 0 <= i < j < |ParsedTasks(outcomes)| ==>
            ParsedTasks(outcomes)[i].rowIndex < ParsedTasks(outcomes)[j].rowIndex)
  {
    var outcomes := ScanOutcomes(s.grid, readyStatus, iso);
    ParsedTasksSpec(outcomes);
  }

  /** The updated_at cell of `update_task_status` is its status cell: a
      complete header without an updated_at column, whose status column is
      COLUMN_MAP's updated_at position, makes `_get_column_index` fall back
      to that position. */
  predicate StampOnStatus(hm: Option<HeaderMap>) {
    hm.Some? && "updated_at" !in hm.value && "status" in hm.value && hm.value["status"] == Position(UpdatedAtColumn)
  }

  /** Under a usable header the video id cell is never the status cell, and
      the updated_at cell is the status cell exactly in the case above. */
  lemma StatusCellShared(header: seq<string>)
    requires !ResolveHeader(header).MissingRequired?
    ensures var hm := ResolveHeader(header).Map();
      && CellIndex(YoutubeVideoIdColumn, hm) != CellIndex(StatusColumn, hm)
      && (CellIndex(UpdatedAtColumn, hm) == CellIndex(StatusColumn, hm) <==> StampOnStatus(hm))
  {
    var res := ResolveHeader(header);
    if res.ByName? {
      var names := Names(header);
      assert res.columns == IndexMap(names);
      assert "status" in RequiredColumns && "youtube_video_id" in RequiredColumns;
      IndexMapDistinct(names, "status", "youtube_video_id");
      if "updated_at" in res.columns {
        IndexMapDistinct(names, "status", "updated_at");
      }
    }
  }

  /** A read of a column is the stripped text of its cell in the grid. */
  lemma TextCellAt(grid: Grid, i: nat, c: Column, hm: Option<HeaderMap>)
    requires i < |grid|
    ensures SheetRows.Text(grid[i], c, "", hm) == Strip(CellAt(grid, i, CellIndex(c, hm)))
  {
    GetCellReads(grid[i], c, Some(""), hm);
    assert Strip("") == "";
  }

  /** A row write below the header keeps the header row. */
  lemma WriteKeepsHeader(s: SheetState, failures: map<nat, string>, sheet: string, row: int,
                         plan: seq<(Column, string)>)
    requires s.grid != [] && row >= 2
    ensures var t := WriteRowSpec(s, failures, sheet, row, plan).0;
      t.grid != [] && t.grid[0] == s.grid[0]
  {
    WriteRowEffect(s, failures, sheet, row, plan);
    var (t, w) := WriteRowSpec(s, failures, sheet, row, plan);
    if w.Written? {
      var data := t.requests[|t.requests| - 1].data;
      BatchKeepsRow(s.grid, data, 0);
    }
  }

  /** After a successful row write, a cell holds the value of the last
      planned entry whose column lands on it. */
  lemma WrittenCell(s: SheetState, failures: map<nat, string>, sheet: string, row: int,
                    plan: seq<(Column, string)>, p: nat, column: nat)
    requires row >= 1 && p < |plan|
    requires WriteRowSpec(s, failures, sheet, row, plan).1.Written?
    requires CellIndex(plan[p].0, Effective(Resolve(s.grid), s.cache)) == column
    requires forall q :: p < q < |plan| ==> CellIndex(plan[q].0, Effective(Resolve(s.grid), s.cache)) != column
    ensures CellAt(WriteRowSpec(s, failures, sheet, row, plan).0.grid, row - 1, column) == plan[p].1
  {
    WriteRowEffect(s, failures, sheet, row, plan);
    var t := WriteRowSpec(s, failures, sheet, row, plan).0;
    PlannedLastWins(s.grid, t.requests[|t.requests| - 1].data, plan, Effective(Resolve(s.grid), s.cache), row, p, column);
  }

  /** A batch that writes the plan's values, in order, to one row: the
      last value planned for a column is what its cell holds. */
  lemma PlannedLastWins(grid: Grid, data: seq<CellWrite>, plan: seq<(Column, string)>,
                        hm: Option<map<string, nat>>, row: int, p: nat, column: nat)
    requires row >= 1 && p < |plan| && |data| == |plan|
    requires forall q :: 0 <= q < |plan| ==>
      data[q].row == row && data[q].value == plan[q].1 && data[q].column == CellIndex(plan[q].0, hm)
    requires CellIndex(plan[p].0, hm) == column
    requires forall q :: p < q < |plan| ==> CellIndex(plan[q].0, hm) != column
    ensures CellAt(ApplyBatch(grid, data), row - 1, column) == plan[p].1
  {
    LastWriteWins(grid, data, p, row - 1, column);
  }

  /** The cells `update_task_status` plans for SCHEDULED with a video id. */
  lemma ScheduledPlan(videoId: string, stamp: string)
    ensures StatusPlan("SCHEDULED", Some(videoId), None, None, stamp)
      == [(StatusColumn, "SCHEDULED"), (YoutubeVideoIdColumn, videoId), (UpdatedAtColumn, stamp)]
  {
  }

  /** Writing SCHEDULED and a video id to a data row under the header map
      of the sheet keeps the header and leaves SCHEDULED in the status cell,
      unless the updated_at cell is the status cell: the stamp, written
      last, is then what it holds. */
  lemma ScheduledStatusCell(s: SheetState, failures: map<nat, string>, sheet: string, row: int,
                            videoId: string, stamp: string)
    requires s.grid != [] && !ResolveHeader(s.grid[0]).MissingRequired?
    requires s.cache.Some? ==> s.cache == ResolveHeader(s.grid[0]).Map()
    requires 2 <= row <= |s.grid|
    requires WriteRowSpec(s, failures, sheet, row, StatusPlan("SCHEDULED", Some(videoId), None, None, stamp)).1.Written?
    ensures var t := WriteRowSpec(s, failures, sheet, row, StatusPlan("SCHEDULED", Some(videoId), None, None, stamp)).0;
      var hm := ResolveHeader(s.grid[0]).Map();
      && t.grid != [] && t.grid[0] == s.grid[0]
      && Strip(CellAt(t.grid, row - 1, CellIndex(StatusColumn, hm)))
           == (if StampOnStatus(hm) then Strip(stamp) else "SCHEDULED")
  {
    var plan := StatusPlan("SCHEDULED", Some(videoId), None, None, stamp);
    ScheduledPlan(videoId, stamp);
    var hm := ResolveHeader(s.grid[0]).Map();
    assert Resolve(s.grid) == ResolveHeader(s.grid[0]);
    assert Effective(Resolve(s.grid), s.cache) == hm;
    StatusCellShared(s.grid[0]);
    WriteKeepsHeader(s, failures, sheet, row, plan);
    var si := CellIndex(StatusColumn, hm);
    if StampOnStatus(hm) {
      WrittenCell(s, failures, sheet, row, plan, 2, si);
    } else {
      WrittenCell(s, failures, sheet, row, plan, 0, si);
      StripStripped("SCHEDULED");
    }
  }

  /** A data row classified as parsed holds the ready status in its status
      cell. */
  lemma ParsedCell(data: Grid, width: nat, hm: Option<HeaderMap>, readyStatus: string, iso: IsoParser, k: nat)
    requires k < |data| && Outcomes(data, width, hm, readyStatus, iso)[k].Parsed?
    ensures Strip(CellAt(data, k, CellIndex(StatusColumn, hm))) == readyStatus
  {
    PadNeutral(data[k], width, StatusColumn, Some(""), hm);
    TextCellAt(data, k, StatusColumn, hm);
  }

  /** Every task parsed from the data rows below the header comes from a
      row that holds the ready status in its status cell. */
  lemma ParsedRowStatus(grid: Grid, width: nat, hm: Option<HeaderMap>, readyStatus: string, iso: IsoParser, i: nat)
    requires grid != [] && i < |ParsedTasks(Outcomes(grid[1..], width, hm, readyStatus, iso))|
    ensures var task := ParsedTasks(Outcomes(grid[1..], width, hm, readyStatus, iso))[i];
      && 2 <= task.rowIndex <= |grid|
      && Strip(CellAt(grid, task.rowIndex - 1, CellIndex(StatusColumn, hm))) == readyStatus
  {
    var outcomes := Outcomes(grid[1..], width, hm, readyStatus, iso);
    ParsedTasksSpec(outcomes);
    var k := ParsedTasks(outcomes)[i].rowIndex - 2;
    ParsedCell(grid[1..], width, hm, readyStatus, iso, k);
    CellAtTail(grid, k, CellIndex(StatusColumn, hm));
  }

  /** No task is parsed from a data row whose status cell does not read
      the ready status. */
  lemma ParsedLeaveOut(grid: Grid, width: nat, hm: Option<HeaderMap>, readyStatus: string, iso: IsoParser, row: int)
    requires grid != [] && 2 <= row && Strip(CellAt(grid, row - 1, CellIndex(StatusColumn, hm))) != readyStatus
    ensures forall i :: 0 <= i < |ParsedTasks(Outcomes(grid[1..], width, hm, readyStatus, iso))| ==>
      ParsedTasks(Outcomes(grid[1..], width, hm, readyStatus, iso))[i].rowIndex != row
  {
    forall i | 0 <= i < |ParsedTasks(Outcomes(grid[1..], width, hm, readyStatus, iso))|
      ensures ParsedTasks(Outcomes(grid[1..], width, hm, readyStatus, iso))[i].rowIndex != row
    {
      ParsedRowStatus(grid, width, hm, readyStatus, iso, i);
    }
  }

  /** The data rows are the grid below its header. */
  lemma CellAtTail(grid: Grid, k: nat, column: nat)
    requires grid != []
    ensures CellAt(grid[1..], k, column) == CellAt(grid, k + 1, column)
  {
  }

  /** What the scan returns: the second half of ReadyScan, written out so
      that a proof about it does not unfold the marks of the first half. */
  ghost function ScanReturn(s: SheetState, failures: map<nat, string>,
                            readyStatus: string, iso: IsoParser): Result<seq<Task>, string>
  {
    match Failure(failures, |s.requests|)
    case Some(e) => Err("Google Sheets API error: " + e)
    case None =>
      if s.grid == [] then Ok([])
      else if ResolveHeader(s.grid[0]).MissingRequired? then Err(ResolveHeader(s.grid[0]).Message())
      else Ok(ParsedTasks(ScanOutcomes(s.grid, readyStatus, iso)))
  }

  /** ScanReturn is what ReadyScan returns. */
  lemma ScanReturnAgrees(s: SheetState, failures: map<nat, string>, sheet: string,
                         readyStatus: string, iso: IsoParser)
    ensures ReadyScan(s, failures, sheet, readyStatus, iso).1 == ScanReturn(s, failures, readyStatus, iso)
  {
  }

  /** No row outcome of the scan is a task of a row whose status cell does
      not read the ready status. */
  lemma OutcomesLeaveOut(grid: Grid, readyStatus: string, iso: IsoParser, row: int)
    requires grid != [] && !ResolveHeader(grid[0]).MissingRequired?
    requires 2 <= row && Strip(CellAt(grid, row - 1, CellIndex(StatusColumn, ResolveHeader(grid[0]).Map()))) != readyStatus
    ensures forall i :: 0 <= i < |ParsedTasks(ScanOutcomes(grid, readyStatus, iso))| ==>
      ParsedTasks(ScanOutcomes(grid, readyStatus, iso))[i].rowIndex != row
  {
    var hm := ResolveHeader(grid[0]).Map();
    ScanOutcomesUnfold(grid, readyStatus, iso);
    ParsedLeaveOut(grid, PadLength(hm), hm, readyStatus, iso, row);
  }

  /** The outcomes of the scan are those of the data rows, padded to the
      header map's length. */
  lemma ScanOutcomesUnfold(grid: Grid, readyStatus: string, iso: IsoParser)
    requires grid != [] && !ResolveHeader(grid[0]).MissingRequired?
    ensures ScanOutcomes(grid, readyStatus, iso)
      == Outcomes(grid[1..], PadLength(ResolveHeader(grid[0]).Map()), ResolveHeader(grid[0]).Map(), readyStatus, iso)
  {
  }

  /** RowLeftOut, for ScanReturn. */
  lemma ReturnLeavesOut(s: SheetState, failures: map<nat, string>, readyStatus: string, iso: IsoParser, row: int)
    requires s.grid != [] && !ResolveHeader(s.grid[0]).MissingRequired?
    requires 2 <= row && Strip(CellAt(s.grid, row - 1, CellIndex(StatusColumn, ResolveHeader(s.grid[0]).Map()))) != readyStatus
    ensures var scan := ScanReturn(s, failures, readyStatus, iso);
      scan.Ok? ==> forall i :: 0 <= i < |scan.value| ==> scan.value[i].rowIndex != row
  {
    OutcomesLeaveOut(s.grid, readyStatus, iso, row);
  }

  /** A scan returns no task of a data row whose status cell, under the
      header's map, does not read the ready status. */
  lemma RowLeftOut(s: SheetState, failures: map<nat, string>, sheet: string,
                   readyStatus: string, iso: IsoParser, row: int)
    requires s.grid != [] && !ResolveHeader(s.grid[0]).MissingRequired?
    requires 2 <= row && Strip(CellAt(s.grid, row - 1, CellIndex(StatusColumn, ResolveHeader(s.grid[0]).Map()))) != readyStatus
    ensures var scan := ReadyScan(s, failures, sheet, readyStatus, iso).1;
      scan.Ok? ==> forall i :: 0 <= i < |scan.value| ==> scan.value[i].rowIndex != row
  {
    ScanReturnAgrees(s, failures, sheet, readyStatus, iso);
    ReturnLeavesOut(s, failures, readyStatus, iso, row);
  }

  /** The write-back round trip of `update_task_status` and
      `get_ready_tasks`: once SCHEDULED and a video id are written to data
      row `row` under the header map the scan caches, giving state `t`, a
      later scan for another ready status returns no task of that row,
      unless the updated_at cell is the status cell and the stamp reads as
      the ready status. */
  lemma ScheduledLeavesReady(s: SheetState, failures: map<nat, string>, sheet: string, row: int,
                             videoId: string, stamp: string, t: SheetState, readyStatus: string, iso: IsoParser)
    requires s.grid != [] && !ResolveHeader(s.grid[0]).MissingRequired?
    requires s.cache.Some? ==> s.cache == ResolveHeader(s.grid[0]).Map()
    requires 2 <= row <= |s.grid|
    requires WriteRowSpec(s, failures, sheet, row, StatusPlan("SCHEDULED", Some(videoId), None, None, stamp)) == (t, Written)
    requires readyStatus != "SCHEDULED"
    ensures var scan := ReadyScan(t, failures, sheet, readyStatus, iso).1;
      scan.Ok? ==> forall i :: 0 <= i < |scan.value| && scan.value[i].rowIndex == row ==>
        StampOnStatus(ResolveHeader(s.grid[0]).Map()) && readyStatus == Strip(stamp)
  {
    ScheduledStatusCell(s, failures, sheet, row, videoId, stamp);
    var hm := ResolveHeader(s.grid[0]).Map();
    assert ResolveHeader(t.grid[0]).Map() == hm;
    if !(StampOnStatus(hm) && readyStatus == Strip(stamp)) {
      RowLeftOut(t, failures, sheet, readyStatus, iso, row);
    }
  }

  class GoogleSheetsRepository {
    const rangeName: string
    const readyStatus: string
    /** The request numbers whose API call fails, with the HttpError text. */
    const failures: map<nat, string>
    /** The spreadsheet's rows. */
    var grid: Grid
    /** `_header_map`; None means nothing is cached. */
    var headerCache: Option<HeaderMap>
    /** Every API call made, in order. */
    var requests: seq<Request>
    /** The rows `_mark_row_failed` was called for, with their messages. */
    ghost var marked: seq<(int, string)>

    constructor(rangeName: string, readyStatus: string, failures: map<nat, string>, grid: Grid)
      ensures this.rangeName == rangeName && this.readyStatus == readyStatus
      ensures this.failures == failures && this.grid == grid
      ensures headerCache.None? && requests == [] && marked == []
    {
      this.rangeName := rangeName;
      this.readyStatus := readyStatus;
      this.failures := failures;
      this.grid := grid;
      headerCache := None;
      requests := [];
      marked := [];
    }

    function State(): SheetState
      reads this
    {
      SheetState(grid, headerCache, requests)
    }

    /** `_sheet_name`. */
    function SheetName(): string {
      SheetColumns.SheetName(rangeName)
    }

    /** The API read of the configured range. */
    method FetchValues() returns (r: Result<Grid, string>)
      modifies this`requests
      ensures requests == old(requests) + [ReadValues]
      ensures r == match Failure(failures, |old(requests)|)
        case Some(e) => Err(e)
        case None => Ok(grid)
    {
      var n := |requests|;
      requests := requests + [ReadValues];
      if n in failures {
        return Err(failures[n]);
      }
      return Ok(grid);
    }

    /** The API batch update. */
    method SendBatch(data: seq<CellWrite>) returns (err: Option<string>)
      modifies this`requests, this`grid
      ensures requests == old(requests) + [BatchUpdate(data)]
      ensures err == Failure(failures, |old(requests)|)
      ensures grid == if err.None? then ApplyBatch(old(grid), data) else old(grid)
    {
      err := Failure(failures, |requests|);
      requests := requests + [BatchUpdate(data)];
      if err.None? {
        grid := ApplyBatch(grid, data);
      }
    }

    /** `_ensure_header_map`. */
    method EnsureHeaderMap(ghost res: HeaderOutcome) returns (err: Option<LookupError>)
      modifies this`requests, this`headerCache
      requires res == Resolve(grid)
      ensures var e := EnsureStep(res, old(headerCache), Failure(failures, |old(requests)|));
        err == e.error && headerCache == e.cache && requests == old(requests) + Reads(e.readCount)
    {
      if headerCache.Some? {
        assert requests == requests + Reads(0);
        return None;
      }
      var rows := FetchValues();
      assert requests == old(requests) + Reads(1);
      match rows
      case Err(e) =>
        return Some(FetchFailed(e));
      case Ok(values) =>
        if values == [] {
          headerCache := None;
          return None;
        }
        var outcome := BuildHeaderMap(values[0]);
        if outcome.MissingRequired? {
          return Some(SchemaFailed(outcome.missing, outcome.found));
        }
        headerCache := outcome.Map();
        return None;
    }

    /** `_get_column_index`: the cached or freshly read header map's index
      for the column, otherwise its positional one. */
    method ColumnIndex(c: Column, ghost res: HeaderOutcome) returns (r: Result<nat, LookupError>)
      modifies this`requests, this`headerCache
      requires res == Resolve(grid)
      ensures var e := EnsureStep(res, old(headerCache), Failure(failures, |old(requests)|));
        && headerCache == e.cache && requests == old(requests) + Reads(e.readCount)
        && r == if e.error.Some? then Err(e.error.value) else Ok(CellIndex(c, e.cache))
    {
      var err := EnsureHeaderMap(res);
      if err.Some? {
        return Err(err.value);
      }
      return Ok(CellIndex(c, headerCache));
    }

    /** The common body of the three row writers: one column lookup per
      planned cell, each building the cell's A1 range, then one batch. */
    method WriteRow(row: int, plan: seq<(Column, string)>) returns (w: WriteOutcome)
      modifies this`requests, this`headerCache, this`grid
      ensures (State(), w) == WriteRowSpec(old(State()), failures, SheetName(), row, plan)
    {
      ghost var s0 := State();
      ghost var res := Resolve(grid);
      ghost var all := Lookups(res, s0.cache, failures, |s0.requests|, Columns(plan));
      LookupsFacts(res, s0.cache, failures, |s0.requests|, Columns(plan));
      assert WriteRowSpec(s0, failures, SheetName(), row, plan) == WriteAfter(s0, failures, SheetName(), row, plan, all);
      var updates, err := RowCells(row, plan, res);
      if err.Some? {
        return LookupFailed(err.value);
      }
      w := SendRow(row, plan, updates, s0, all);
    }

    /** The batch that ends a row write whose lookups all succeeded. */
    method SendRow(row: int, plan: seq<(Column, string)>, updates: seq<CellWrite>,
                   ghost s0: SheetState, ghost all: LookupRun) returns (w: WriteOutcome)
      modifies this`requests, this`grid
      requires all.error.None? && |all.indices| == |plan|
      requires grid == s0.grid && headerCache == all.cache && requests == s0.requests + Reads(all.readCount)
      requires updates == Writes(SheetName(), row, all.indices, plan)
      ensures (State(), w) == WriteAfter(s0, failures, SheetName(), row, plan, all)
    {
      assert |requests| == |s0.requests| + all.readCount;
      var failure := SendBatch(updates);
      assert failure == Failure(failures, |s0.requests| + all.readCount);
      if failure.Some? {
        return BatchFailed(failure.value);
      }
      return Written;
    }

    /** One step of the row writers' loop: the column's index, then the
      cell write for `value` in that column of sheet row `row`. */
    method CellFor(c: Column, value: string, row: int, ghost res: HeaderOutcome, ghost e: Ensured)
      returns (r: Result<CellWrite, LookupError>)
      modifies this`requests, this`headerCache
      requires res == Resolve(grid)
      requires e == EnsureStep(res, headerCache, Failure(failures, |requests|))
      ensures headerCache == e.cache && requests == old(requests) + Reads(e.readCount)
      ensures r == if e.error.Some? then Err(e.error.value)
                else var index := CellIndex(c, e.cache);
                  Ok(CellWrite(SheetColumns.CellAddress(SheetName(), index, row), index, row, value))
    {
      var index := ColumnIndex(c, res);
      if index.Err? {
        return Err(index.error);
      }
      var letters := SheetColumns.ColumnLetter(index.value);
      return Ok(CellWrite(SheetName() + "!" + letters + IntToString(row), index.value, row, value));
    }

    /** One pass of the row writers' loop: the cell for plan entry `i`,
      with the lookup run extended by that column. */
    method NextCell(row: int, plan: seq<(Column, string)>, i: nat, ghost res: HeaderOutcome,
                    ghost s0: SheetState, ghost run: LookupRun)
      returns (cell: Result<CellWrite, LookupError>, ghost next: LookupRun)
      modifies this`requests, this`headerCache
      requires res == Resolve(grid) && i < |plan|
      requires run == Lookups(res, s0.cache, failures, |s0.requests|, Columns(plan)[..i])
      requires run.error.None? && |run.indices| == i
      requires headerCache == run.cache && requests == s0.requests + Reads(run.readCount)
      ensures next == Lookups(res, s0.cache, failures, |s0.requests|, Columns(plan)[..i + 1])
      ensures headerCache == next.cache && requests == s0.requests + Reads(next.readCount)
      ensures cell.Err? ==> next.error == Some(cell.error)
      ensures cell.Ok? ==> (next.error.None? && |next.indices| == i + 1
        && Writes(SheetName(), row, next.indices, plan) == Writes(SheetName(), row, run.indices, plan) + [cell.value])
    {
      ghost var cols := Columns(plan);
      ghost var e := EnsureStep(res, run.cache, Failure(failures, |s0.requests| + run.readCount));
      LookupsStep(res, s0.cache, failures, |s0.requests|, cols, i, run, e);
      next := Lookups(res, s0.cache, failures, |s0.requests|, cols[..i + 1]);
      assert |requests| == |s0.requests| + run.readCount;
      cell := CellFor(plan[i].0, plan[i].1, row, res, e);
      ReadsAdd(s0.requests, run.readCount, e.readCount);
      if cell.Ok? {
        assert next.indices == run.indices + [CellIndex(cols[i], e.cache)];
        WritesAppend(SheetName(), row, run.indices, CellIndex(cols[i], e.cache), plan);
      }
    }

    /** The loop of the row writers: one cell per planned value, until a
      column lookup fails. */
    method RowCells(row: int, plan: seq<(Column, string)>, ghost res: HeaderOutcome)
      returns (updates: seq<CellWrite>, err: Option<LookupError>)
      modifies this`requests, this`headerCache
      requires res == Resolve(grid)
      ensures var run := Lookups(res, old(headerCache), failures, |old(requests)|, Columns(plan));
        && err == run.error && headerCache == run.cache && requests == old(requests) + Reads(run.readCount)
        && (err.None? ==> |run.indices| == |plan| && updates == Writes(SheetName(), row, run.indices, plan))
    {
      ghost var s0 := State();
      assert s0.cache == old(headerCache) && s0.requests == old(requests);
      ghost var cols := Columns(plan);
      ghost var run := Lookups(res, s0.cache, failures, |s0.requests|, cols[..0]);
      updates := [];
      var i := 0;
      while i < |plan|
        invariant 0 <= i <= |plan|
        invariant run == Lookups(res, s0.cache, failures, |s0.requests|, cols[..i])
        invariant run.error.None? && |run.indices| == i
        invariant headerCache == run.cache && requests == s0.requests + Reads(run.readCount)
        invariant updates == Writes(SheetName(), row, run.indices, plan)
      {
        var cell;
        cell, run := NextCell(row, plan, i, res, s0, run);
        if cell.Err? {
          LookupsStop(res, s0.cache, failures, |s0.requests|, cols, i + 1);
          assert Lookups(res, s0.cache, failures, |s0.requests|, cols) == run;
          return [], Some(cell.error);
        }
        updates := updates + [cell.value];
        i := i + 1;
      }
      assert cols[..|plan|] == cols;
      assert Lookups(res, s0.cache, failures, |s0.requests|, cols) == run;
      err := None;
    }

    /** `update_task_status`: writes the plan of StatusPlan in the task's
      row; None on success, otherwise the MetadataRepositoryError text. */
    method UpdateTaskStatus(task: Task, status: string, videoId: Option<string>,
                            errorMessage: Option<string>, videoPath: Option<string>, stamp: string)
      returns (err: Option<string>)
      modifies this`requests, this`headerCache, this`grid
      ensures var (s, w) := WriteRowSpec(old(State()), failures, SheetName(), task.rowIndex,
                                         StatusPlan(status, videoId, errorMessage, videoPath, stamp));
        State() == s && err == UpdateMessage(w)
    {
      var w := WriteRow(task.rowIndex, StatusPlan(status, videoId, errorMessage, videoPath, stamp));
      err := UpdateMessage(w);
    }

    /** `increment_attempts`: writes attempts + 1 and the stamp, and returns
      the task with the counter and time updated only after the batch
      succeeded. */
    method IncrementAttempts(task: Task, stamp: string, now: DateTime) returns (t: Task, err: Option<string>)
      modifies this`requests, this`headerCache, this`grid
      ensures var (s, w) := WriteRowSpec(old(State()), failures, SheetName(), task.rowIndex,
                                         AttemptsPlan(task.attempts, stamp));
        State() == s && err == IncrementMessage(w) && t == Incremented(task, w, now)
    {
      var w := WriteRow(task.rowIndex, AttemptsPlan(task.attempts, stamp));
      err := IncrementMessage(w);
      t := Incremented(task, w, now);
    }

    /** `max(header_map.values()) + 1`, or 0 for an empty map, or the
      width of COLUMN_MAP in fallback mode. */
    method PadWidth(headerMap: Option<HeaderMap>) returns (n: nat)
      ensures n == PadLength(headerMap)
    {
      if headerMap.None? {
        return |ColumnMap|;
      }
      if headerMap.value == map[] {
        return 0;
      }
      var rest := headerMap.value.Values;
      var top :| top in rest;
      ghost var seen := {top};
      rest := rest - {top};
      while rest != {}
        invariant seen + rest == headerMap.value.Values && top in seen
        invariant forall v :: v in seen ==> v <= top
        decreases rest
      {
        var v :| v in rest;
        if v > top {
          top := v;
        }
        seen := seen + {v};
        rest := rest - {v};
      }
      MaxOfBound(headerMap.value.Values, top);
      n := top + 1;
    }

    /** `get_ready_tasks`: one read of the sheet, the header map built and
      cached, then the rows of that one read scanned in order; a rejected
      row is marked FAILED and the scan goes on. */
    method GetReadyTasks(iso: IsoParser) returns (r: Result<seq<Task>, string>)
      modifies this`requests, this`headerCache, this`grid, this`marked
      ensures (State(), r) == ReadyScan(old(State()), failures, SheetName(), readyStatus, iso)
      ensures marked == old(marked) + Marks(ScanRejected(old(State()), failures, readyStatus, iso))
    {
      ghost var s0 := State();
      var rows := FetchValues();
      if rows.Err? {
        return Err("Google Sheets API error: " + rows.error);
      }
      var values := rows.value;
      if values == [] {
        return Ok([]);
      }
      var outcome := BuildHeaderMap(values[0]);
      if outcome.MissingRequired? {
        return Err(outcome.Message());
      }
      var headerMap := outcome.Map();
      headerCache := headerMap;
      var width := PadWidth(headerMap);
      var tasks := ScanRows(values[1..], width, headerMap, iso);
      return Ok(tasks);
    }

    /** The loop of `get_ready_tasks` over the rows of the one read. */
    method ScanRows(data: Grid, width: nat, headerMap: Option<HeaderMap>, iso: IsoParser)
      returns (tasks: seq<Task>)
      modifies this`requests, this`headerCache, this`grid, this`marked
      ensures var outcomes := Outcomes(data, width, headerMap, readyStatus, iso);
        && tasks == ParsedTasks(outcomes)
        && State() == MarkAll(old(State()), failures, SheetName(), RejectedRows(outcomes))
        && marked == old(marked) + Marks(RejectedRows(outcomes))
    {
      ghost var outcomes := Outcomes(data, width, headerMap, readyStatus, iso);
      ghost var s1 := State();
      ghost var m0 := marked;
      ghost var rejected: seq<(int, RowError)> := [];
      tasks := [];
      var k := 0;
      while k < |data|
        invariant 0 <= k <= |data|
        invariant tasks == ParsedTasks(outcomes[..k])
        invariant rejected == RejectedRows(outcomes[..k])
        invariant State() == MarkAll(s1, failures, SheetName(), rejected)
        invariant marked == m0 + Marks(rejected)
      {
        ghost var before := State();
        ghost var markedBefore := marked;
        var o := ScanRow(Pad(data[k], width), k + 2, headerMap, iso);
        ScanStep(outcomes, k, o);
        if o.Parsed? {
          tasks := tasks + [o.task];
        } else if o.Rejected? {
          RejectStep(s1, failures, SheetName(), rejected, (k + 2, o.error), before, State(), m0, markedBefore, marked);
          rejected := rejected + [(k + 2, o.error)];
        }
        k := k + 1;
      }
      assert outcomes[..k] == outcomes;
    }

    /** One pass of the scan's loop: a ready row is parsed, and a row that
      fails validation is marked FAILED with the error's message. */
    method ScanRow(row: seq<string>, rowIndex: int, headerMap: Option<HeaderMap>, iso: IsoParser)
      returns (o: RowOutcome)
      modifies this`requests, this`headerCache, this`grid, this`marked
      ensures o == ClassifyRow(row, rowIndex, headerMap, readyStatus, iso)
      ensures o.Rejected? ==>
        && State() == WriteRowSpec(old(State()), failures, SheetName(), rowIndex, FailedPlan(o.error.Message())).0
        && marked == old(marked) + [(rowIndex, o.error.Message())]
      ensures !o.Rejected? ==> State() == old(State()) && marked == old(marked)
    {
      o := ClassifyRow(row, rowIndex, headerMap, readyStatus, iso);
      if o.Rejected? {
        MarkRowFailed(rowIndex, o.error.Message());
      }
    }

    /** `_mark_row_failed`: best effort, so every failure is swallowed. */
    method MarkRowFailed(row: int, message: string)
      modifies this`requests, this`headerCache, this`grid, this`marked
      ensures State() == WriteRowSpec(old(State()), failures, SheetName(), row, FailedPlan(message)).0
      ensures marked == old(marked) + [(row, message)]
    {
      var _ := WriteRow(row, FailedPlan(message));
      marked := marked + [(row, message)];
    }
  }
}
