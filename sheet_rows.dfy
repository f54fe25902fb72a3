/** Reading rows of the Google Sheets repository
    (adapters/google_sheets_repository.py): cell lookup through the header
    map, validation of one row into a Task, and the ready-task scan over the
    data rows. */
module SheetRows {
  import opened Results
  import opened Strings
  import opened Models
  import opened SheetHeader

  /** The index `_get_cell` and `_get_column_index` read a column from:
      the header map's for the column's name when the map has it,
      otherwise the positional one (COLUMN_MAP holds every column, see
      ColumnMapPosition). Both normalise the name first; the names are
      lower-case identifiers, which normalising leaves unchanged
      (ColumnNameIdentifier, IdentifierNormal). */
  function CellIndex(c: Column, headerMap: Option<HeaderMap>): nat
  {
    var name := ColumnName(c);
    if headerMap.Some? && name in headerMap.value then headerMap.value[name]
    else Position(c)
  }

  /** `_get_cell`: the stripped cell, or the default when the row is too
      short or the cell is blank. */
  function GetCell(row: seq<string>, c: Column, default: Option<string>,
                   headerMap: Option<HeaderMap>): (r: Option<string>)
    ensures r == default || (r.Some? && r.value != "" && Stripped(r.value))
  {
    var index := CellIndex(c, headerMap);
    if index >= |row| then default
    else
      var value := Strip(row[index]);
      if value != "" then Some(value) else default
  }

  /** `_get_cell` with a string default, which it never replaces by `None`. */
  function Text(row: seq<string>, c: Column, default: string,
                headerMap: Option<HeaderMap>): (r: string)
    ensures r == default || (r != "" && Stripped(r))
  {
    GetCell(row, c, Some(default), headerMap).GetOr(default)
  }

  /** A lookup reads the header map's index for a column it names and the
      positional index otherwise, and gives the stripped content of that
      cell when it is not blank, the default in every other case. */
  lemma GetCellReads(row: seq<string>, c: Column, default: Option<string>,
                     headerMap: Option<HeaderMap>)
    ensures var name := ColumnName(c);
      headerMap.Some? && name in headerMap.value ==> CellIndex(c, headerMap) == headerMap.value[name]
    ensures var name := ColumnName(c);
      headerMap.None? || name !in headerMap.value ==> CellIndex(c, headerMap) == ColumnMap[name]
    ensures var i := CellIndex(c, headerMap);
      GetCell(row, c, default, headerMap) ==
        if i < |row| && Strip(row[i]) != "" then Some(Strip(row[i])) else default
  {
    ColumnMapPosition(c);
  }

  /** The row padded with blank cells to length `n`, as the scan does. */
  function Pad(row: seq<string>, n: nat): (r: seq<string>)
    ensures |r| >= n && |r| >= |row| && r[..|row|] == row
    ensures forall i :: |row| <= i < |r| ==> r[i] == ""
  {
    if |row| < n then row + seq(n - |row|, _ => "") else row
  }

  /** Padding a row with blank cells changes no lookup. */
  lemma PadNeutral(row: seq<string>, n: nat, c: Column, default: Option<string>,
                   headerMap: Option<HeaderMap>)
    ensures GetCell(Pad(row, n), c, default, headerMap) == GetCell(row, c, default, headerMap)
  {
    var p := Pad(row, n);
    var i := CellIndex(c, headerMap);
    if |row| <= i < |p| {
      assert p[i] == "";
      assert Strip("") == "";
    }
    if i < |row| {
      assert p[i] == row[i];
    }
  }

  /** Writing a non-blank stripped value into the cell a column is read from
      makes the lookup return that value. */
  lemma GetCellAfterWrite(row: seq<string>, c: Column, default: Option<string>,
                          headerMap: Option<HeaderMap>, value: string)
    requires CellIndex(c, headerMap) < |row|
    requires value != "" && Stripped(value)
    ensures GetCell(row[CellIndex(c, headerMap) := value], c, default, headerMap) == Some(value)
  {
    StripStripped(value);
  }

  /** The validation failures of `_parse_row`, each a ValidationError. */
  datatype RowError =
    | TaskIdRequired
    | TitleRequired
    | MediaRequired
    | StatusRequired
    | TitleTooLong(titleLength: nat)
    | DescriptionTooLong(descriptionLength: nat)
    | TagsTooLong(tagsLength: nat)
    | BadDatetime(datetimeText: string)
    | BadPrivacy(privacyText: string)
    | BadStatus(statusText: string)
    | BadInteger(integerText: string)
    | NegativeAttempts(attemptsValue: int)
  {
    /** The error's message, written to the row's error cell. */
    function Message(): string {
      match this
      case TaskIdRequired => "task_id is required"
      case TitleRequired => "title is required"
      case MediaRequired => "video_file_path (media_reference) is required"
      case StatusRequired => "status is required"
      case TitleTooLong(n) => "title exceeds 100 characters: " + NatToString(n)
      case DescriptionTooLong(n) => "description exceeds 5000 characters: " + NatToString(n)
      case TagsTooLong(n) => "tags exceed 500 characters: " + NatToString(n)
      case BadDatetime(v) => "Invalid datetime format: " + v + ". Use ISO 8601 format."
      case BadPrivacy(v) => "Invalid privacy_status: " + v + ". Must be one of: public, unlisted, private"
      case BadStatus(v) => "Invalid status: " + v
      case BadInteger(v) => "Invalid integer: " + v
      case NegativeAttempts(n) => "attempts must be non-negative: " + IntToString(n)
    }
  }

  /** `datetime.fromisoformat`, supplied by the caller: `None` where it
      raises ValueError. */
  type IsoParser = string -> Option<DateTime>

  /** `_parse_datetime`: blank or absent gives no time, one trailing 'Z' is
      dropped before parsing, and a text the parser rejects is an error
      quoting the original text. */
  function ParseDatetime(value: Option<string>, iso: IsoParser): (r: Result<Option<DateTime>, RowError>)
    ensures value.None? || value == Some("") ==> r == Ok(None)
    ensures r.Err? ==> r.error == BadDatetime(value.value)
  {
    if value.None? || value.value == "" then Ok(None)
    else
      var v := value.value;
      var text := if v[|v| - 1] == 'Z' then v[..|v| - 1] else v;
      match iso(text)
      case Some(d) => Ok(Some(d))
      case None => Err(BadDatetime(v))
  }

  /** `_parse_int`: blank is 0, otherwise Python's `int()`. */
  function ParseAttempts(value: string): (r: Result<int, RowError>)
    ensures r.Err? ==> r.error == BadInteger(value)
    ensures value == "" ==> r == Ok(0)
  {
    if value == "" then Ok(0)
    else match ParseInt(value)
      case Some(n) => Ok(n)
      case None => Err(BadInteger(value))
  }

  /** The four required texts of a row. */
  datatype Heading = Heading(taskId: string, title: string, mediaReference: string, status: string)

  /** The required cells of `_parse_row`, checked in order, then the title
      length. */
  function ReadHeading(row: seq<string>, headerMap: Option<HeaderMap>): (r: Result<Heading, RowError>)
    ensures r.Ok? ==>
      && r.value == Heading(Text(row, TaskIdColumn, "", headerMap), Text(row, TitleColumn, "", headerMap),
                            Text(row, VideoFilePathColumn, "", headerMap), Text(row, StatusColumn, "", headerMap))
      && r.value.taskId != "" && Stripped(r.value.taskId)
      && r.value.title != "" && Stripped(r.value.title) && |r.value.title| <= 100
      && r.value.mediaReference != "" && Stripped(r.value.mediaReference)
      && r.value.status != "" && Stripped(r.value.status)
  {
    var taskId := Text(row, TaskIdColumn, "", headerMap);
    var title := Text(row, TitleColumn, "", headerMap);
    var mediaReference := Text(row, VideoFilePathColumn, "", headerMap);
    var status := Text(row, StatusColumn, "", headerMap);
    if taskId == "" then Err(TaskIdRequired)
    else if title == "" then Err(TitleRequired)
    else if mediaReference == "" then Err(MediaRequired)
    else if status == "" then Err(StatusRequired)
    else if |title| > 100 then Err(TitleTooLong(|title|))
    else Ok(Heading(taskId, title, mediaReference, status))
  }

  /** The tags cell split on commas, the pieces trimmed and the empty ones
      dropped; an empty cell gives no tags. */
  function ParseTags(tagsText: string): (r: seq<string>)
    ensures forall g :: g in r ==> g != "" && Stripped(g) && ',' !in g
  {
    if tagsText != "" then SplitStripped(tagsText, ',') else []
  }

  /** The description and the tags, with their length limits. */
  function ReadBody(row: seq<string>, headerMap: Option<HeaderMap>): (r: Result<(string, seq<string>), RowError>)
    ensures r.Ok? ==>
      && r.value.0 == Text(row, DescriptionColumn, "", headerMap)
      && r.value.1 == ParseTags(Text(row, TagsColumn, "", headerMap))
      && Stripped(r.value.0) && |r.value.0| <= 5000
      && |Text(row, TagsColumn, "", headerMap)| <= 500
  {
    var description := Text(row, DescriptionColumn, "", headerMap);
    if |description| > 5000 then Err(DescriptionTooLong(|description|))
    else
      var tagsText := Text(row, TagsColumn, "", headerMap);
      var tags := ParseTags(tagsText);
      if |tagsText| > 500 then Err(TagsTooLong(|tagsText|))
      else Ok((description, tags))
  }

  /** The privacy cell (default "private") and the status text, each an
      exact enum value. */
  function ReadEnums(status: string, row: seq<string>, headerMap: Option<HeaderMap>):
    (r: Result<(PrivacyStatus, TaskStatus), RowError>)
    ensures r.Ok? ==>
      && PrivacyValue(r.value.0) == Text(row, PrivacyStatusColumn, "private", headerMap)
      && StatusValue(r.value.1) == status
  {
    var privacyText := Text(row, PrivacyStatusColumn, "private", headerMap);
    match (ParsePrivacy(privacyText), ParseStatus(status))
    case (None, _) => Err(BadPrivacy(privacyText))
    case (_, None) => Err(BadStatus(status))
    case (Some(privacy), Some(taskStatus)) => Ok((privacy, taskStatus))
  }

  /** The attempts cell (default "0") as a non-negative integer. */
  function ReadAttempts(row: seq<string>, headerMap: Option<HeaderMap>): (r: Result<int, RowError>)
    ensures r.Ok? ==> r.value >= 0 && ParseAttempts(Text(row, AttemptsColumn, "0", headerMap)) == r
  {
    var attempts :- ParseAttempts(Text(row, AttemptsColumn, "0", headerMap));
    if attempts < 0 then Err(NegativeAttempts(attempts)) else Ok(attempts)
  }

  /** `_parse_row`: the required cells, then the length limits, the tags,
      the defaults, the times, the enums and the attempts counter, failing
      at the first check that does not hold. A parsed row keeps its row
      number and satisfies SheetValid, and its status and privacy are the
      members whose values the cells spell. */
  function ParseRow(row: seq<string>, rowIndex: int, headerMap: Option<HeaderMap>,
                    iso: IsoParser): (r: Result<Task, RowError>)
    ensures r.Ok? ==> r.value.rowIndex == rowIndex && SheetValid(r.value)
    ensures r.Ok? ==>
      && StatusValue(r.value.status) == Text(row, StatusColumn, "", headerMap)
      && PrivacyValue(r.value.privacyStatus) == Text(row, PrivacyStatusColumn, "private", headerMap)
  {
    var heading :- ReadHeading(row, headerMap);
    var body :- ReadBody(row, headerMap);
    var categoryId := Text(row, CategoryIdColumn, "22", headerMap);
    var thumbnail := GetCell(row, ThumbnailPathColumn, None, headerMap);
    var publishAt :- ParseDatetime(GetCell(row, PublishAtColumn, None, headerMap), iso);
    var enums :- ReadEnums(heading.status, row, headerMap);
    var mediaId := GetCell(row, YoutubeVideoIdColumn, None, headerMap);
    var errorMessage := GetCell(row, ErrorMessageColumn, None, headerMap);
    var attempts :- ReadAttempts(row, headerMap);
    var lastAttemptAt :- ParseDatetime(GetCell(row, LastAttemptAtColumn, None, headerMap), iso);
    var createdAt :- ParseDatetime(GetCell(row, CreatedAtColumn, None, headerMap), iso);
    var updatedAt :- ParseDatetime(GetCell(row, UpdatedAtColumn, None, headerMap), iso);
    Ok(Assemble(heading, rowIndex, body, categoryId, thumbnail, publishAt, enums,
                mediaId, errorMessage, attempts, lastAttemptAt, createdAt, updatedAt))
  }

  /** The Task built from the checked pieces of a row. */
  function Assemble(heading: Heading, rowIndex: int, body: (string, seq<string>), categoryId: string,
                    thumbnail: Option<string>, publishAt: Option<DateTime>,
                    enums: (PrivacyStatus, TaskStatus), mediaId: Option<string>,
                    errorMessage: Option<string>, attempts: int, lastAttemptAt: Option<DateTime>,
                    createdAt: Option<DateTime>, updatedAt: Option<DateTime>): (t: Task)
    requires heading.taskId != "" && Stripped(heading.taskId)
    requires heading.title != "" && Stripped(heading.title) && |heading.title| <= 100
    requires heading.mediaReference != "" && Stripped(heading.mediaReference)
    requires Stripped(body.0) && |body.0| <= 5000
    requires forall g :: g in body.1 ==> g != "" && Stripped(g) && ',' !in g
    requires categoryId != "" && Stripped(categoryId)
    requires Filled(thumbnail) && Filled(mediaId) && Filled(errorMessage)
    requires attempts >= 0
    ensures t.rowIndex == rowIndex && SheetValid(t)
    ensures t.status == enums.1 && t.privacyStatus == enums.0
  {
    Task(heading.taskId, rowIndex, heading.mediaReference, heading.title, thumbnail,
         body.0, body.1, categoryId, publishAt, enums.0, enums.1, mediaId, errorMessage,
         attempts, lastAttemptAt, createdAt, updatedAt)
  }

  /** A present optional text is never blank. */
  predicate Filled(o: Option<string>) {
    o.Some? ==> o.value != "" && Stripped(o.value)
  }

  /** What every task read from the sheet satisfies. */
  predicate SheetValid(t: Task) {
    && t.taskId != "" && Stripped(t.taskId)
    && t.title != "" && Stripped(t.title) && |t.title| <= 100
    && t.mediaReference != "" && Stripped(t.mediaReference)
    && Stripped(t.description) && |t.description| <= 5000
    && (forall g :: g in t.tags ==> g != "" && Stripped(g) && ',' !in g)
    && t.categoryId != "" && Stripped(t.categoryId)
    && Filled(t.thumbnailReference) && Filled(t.platformMediaId) && Filled(t.errorMessage)
    && t.attempts >= 0
  }

  /** What the scan does with one data row. */
  datatype RowOutcome = NotReady | Parsed(task: Task) | Rejected(error: RowError)

  /** One iteration of the scan: a row whose status cell is not the ready
      status is skipped; a ready row is parsed, and a validation error
      rejects it. */
  function ClassifyRow(row: seq<string>, rowIndex: int, headerMap: Option<HeaderMap>,
                       readyStatus: string, iso: IsoParser): (r: RowOutcome)
    ensures r.NotReady? <==> Text(row, StatusColumn, "", headerMap) != readyStatus
    ensures r.Parsed? ==> r.task.rowIndex == rowIndex && SheetValid(r.task)
                          && StatusValue(r.task.status) == readyStatus
    ensures r.Parsed? <==> Text(row, StatusColumn, "", headerMap) == readyStatus
                           && ParseRow(row, rowIndex, headerMap, iso).Ok?
  {
    if Text(row, StatusColumn, "", headerMap) != readyStatus then NotReady
    else match ParseRow(row, rowIndex, headerMap, iso)
      case Ok(t) => Parsed(t)
      case Err(e) => Rejected(e)
  }

  /** The outcome of every data row below the header, the first of which is
      sheet row 2; each row is padded to `width` cells first. */
  function Outcomes(data: seq<seq<string>>, width: nat, headerMap: Option<HeaderMap>,
                    readyStatus: string, iso: IsoParser): (r: seq<RowOutcome>)
    ensures |r| == |data| && Numbered(r)
  {
    seq(|data|, k requires 0 <= k < |data| =>
      ClassifyRow(Pad(data[k], width), k + 2, headerMap, readyStatus, iso))
  }

  /** A parsed row carries its sheet row number, 2 plus its position. */
  predicate Numbered(outcomes: seq<RowOutcome>) {
    forall k :: 0 <= k < |outcomes| && outcomes[k].Parsed? ==> outcomes[k].task.rowIndex == k + 2
  }

  /** The tasks the scan returns. */
  function ParsedTasks(outcomes: seq<RowOutcome>): seq<Task>
  {
    if outcomes == [] then []
    else
      var k := |outcomes| - 1;
      ParsedTasks(outcomes[..k]) + if outcomes[k].Parsed? then [outcomes[k].task] else []
  }

  /** The rows the scan marks FAILED, with their sheet row numbers and
      validation errors. */
  function RejectedRows(outcomes: seq<RowOutcome>): seq<(int, RowError)>
  {
    if outcomes == [] then []
    else
      var k := |outcomes| - 1;
      RejectedRows(outcomes[..k]) + if outcomes[k].Rejected? then [(k + 2, outcomes[k].error)] else []
  }

  /** The scan returns exactly the parsed rows, in sheet order: each task is
      the one parsed from the row its number names, the numbers increase,
      and no parsed row is missing. */
  lemma {:induction false} ParsedTasksSpec(outcomes: seq<RowOutcome>)
    requires Numbered(outcomes)
    ensures forall i :: 0 <= i < |ParsedTasks(outcomes)| ==>
      && 2 <= ParsedTasks(outcomes)[i].rowIndex < |outcomes| + 2
      && outcomes[ParsedTasks(outcomes)[i].rowIndex - 2] == Parsed(ParsedTasks(outcomes)[i])
    ensures forall i, j :: 0 <= i < j < |ParsedTasks(outcomes)| ==>
      ParsedTasks(outcomes)[i].rowIndex < ParsedTasks(outcomes)[j].rowIndex
    ensures forall k :: 0 <= k < |outcomes| && outcomes[k].Parsed? ==>
      outcomes[k].task in ParsedTasks(outcomes)
  {
    if outcomes != [] {
      var k := |outcomes| - 1;
      var init := outcomes[..k];
      assert Numbered(init) by {
        forall j | 0 <= j < k && init[j].Parsed? ensures init[j].task.rowIndex == j + 2 {
          assert init[j] == outcomes[j];
        }
      }
      ParsedTasksSpec(init);
      var r0 := ParsedTasks(init);
      var r := ParsedTasks(outcomes);
      assert r == r0 + if outcomes[k].Parsed? then [outcomes[k].task] else [];
      forall j | 0 <= j < k ensures outcomes[j] == init[j] {
      }
      forall i | 0 <= i < |r|
        ensures 2 <= r[i].rowIndex < |outcomes| + 2 && outcomes[r[i].rowIndex - 2] == Parsed(r[i])
      {
        if i < |r0| {
          assert r[i] == r0[i];
          assert outcomes[r0[i].rowIndex - 2] == init[r0[i].rowIndex - 2];
        }
      }
    }
  }

  /** Every rejected row is a row whose outcome is that rejection, the row
      numbers increase, and no rejected row is missing. */
  lemma {:induction false} RejectedRowsSpec(outcomes: seq<RowOutcome>)
    ensures forall i :: 0 <= i < |RejectedRows(outcomes)| ==>
      && 2 <= RejectedRows(outcomes)[i].0 < |outcomes| + 2
      && outcomes[RejectedRows(outcomes)[i].0 - 2] == Rejected(RejectedRows(outcomes)[i].1)
    ensures forall i, j :: 0 <= i < j < |RejectedRows(outcomes)| ==>
      RejectedRows(outcomes)[i].0 < RejectedRows(outcomes)[j].0
    ensures forall k :: 0 <= k < |outcomes| && outcomes[k].Rejected? ==>
      (k + 2, outcomes[k].error) in RejectedRows(outcomes)
  {
    if outcomes != [] {
      var k := |outcomes| - 1;
      var init := outcomes[..k];
      RejectedRowsSpec(init);
      var r0 := RejectedRows(init);
      var r := RejectedRows(outcomes);
      assert r == r0 + if outcomes[k].Rejected? then [(k + 2, outcomes[k].error)] else [];
      forall j | 0 <= j < k ensures outcomes[j] == init[j] {
      }
      forall i | 0 <= i < |r|
        ensures 2 <= r[i].0 < |outcomes| + 2 && outcomes[r[i].0 - 2] == Rejected(r[i].1)
      {
        if i < |r0| {
          assert r[i] == r0[i];
          assert outcomes[r0[i].0 - 2] == init[r0[i].0 - 2];
        }
      }
    }
  }

  /** Every data row is returned, rejected or skipped, and exactly one of
      these. */
  lemma {:induction false} ScanPartition(outcomes: seq<RowOutcome>)
    ensures |ParsedTasks(outcomes)| + |RejectedRows(outcomes)| + Skipped(outcomes) == |outcomes|
  {
    if outcomes != [] {
      var k := |outcomes| - 1;
      ScanPartition(outcomes[..k]);
    }
  }

  /** The number of rows that are not ready. */
  function Skipped(outcomes: seq<RowOutcome>): nat
  {
    if outcomes == [] then 0
    else
      var k := |outcomes| - 1;
      Skipped(outcomes[..k]) + if outcomes[k].NotReady? then 1 else 0
  }
}
