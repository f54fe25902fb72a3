# Spreadsheet-to-YouTube publisher, modelled in Dafny

The modelled system reads upload tasks from the rows of a Google Sheets spreadsheet. It moves each task's media file into an IN_PROGRESS stage directory, uploads the video to YouTube, and writes the outcome back into the row.

This project models the core of that system in Dafny 4 and proves properties of the model. The Google and YouTube services, the clock and the local filesystem are all values the model is given. A service is a grid of cells plus a log of requests, with scripted failures. The filesystem is a map from paths to entries.

The Dafny modules follow the program's structure:

- `Models` (domain/models.py): the closed enums, the Task record with its defaults and enum coercion, and PublishResult. Task is built as adapters/google_sheets_repository.py builds it, with `media_reference`, `platform_media_id` and `thumbnail_reference`. The status enum includes IN_PROGRESS, which the service and the repository use.
- `AdapterErrors` (ports/adapter_error.py): the error record and its string form.
- `SheetColumns`, `SheetHeader`, `SheetRows`, `SheetWrites` and `SheetsRepository` (adapters/google_sheets_repository.py), in five layers:
  - A1 addresses;
  - header resolution and the COLUMN_MAP fallback;
  - cell lookup, row validation and the ready-task scan;
  - the cell plans of the three writers and the effect of a batch update on the grid;
  - the repository as an object. Its fields are the grid, the cached header map and the request log. Its methods are `get_ready_tasks`, `update_task_status`, `increment_attempts` and `_mark_row_failed`.
- `PublishServices` (domain/services.py): the orchestrator as an object with a log of collaborator calls.
  - The repository, the media store and the uploader answer from a script, indexed by call number.
  - `publish_task` is specified by one function, `PublishRun`. The batch loop is specified by `RunAll` and `Tally`.
- `FileSystems` and `MediaStores` (adapters/local_media_store.py, adapters/local_media_file_store.py, adapters/local_storage.py):
  - the files and directories are a map that a `Disk` object updates in place;
  - `transition` is a guarded move, with its checks in a fixed order;
  - the query methods are functions over that map.
- `YouTubeApi` (adapters/youtube_media_uploader.py, adapters/youtube_backend.py): the HTTP-status mapping, the request body, the schedule format, and the exception mapping of an upload.
- `AppConfig`, `YouTubeClient` and `UploadCli` (src/core/config.py, src/adapters/youtube/uploader.py, src/cli/upload_video.py): the stand-alone uploader.
  - scope parsing and the cached configuration object;
  - argument checks, the request body and the cached API client;
  - tag splitting and the exit status.
- `SheetsReset` (utils/sheets_reset_verify.py): grid normalisation, the reset batch and the verification of the two spreadsheets, over a scripted Sheets service.
- `FakeUploaders` (tests/acceptance/fake_youtube_uploader.py): the scripted uploader of the acceptance tests.
- `Strings` and `Results`: Python's string built-ins as used here (`strip`, `split`, `lower`, `int()`, `str()` of integers), and the Option and Result types.

The orchestrator is modelled as written:

- It makes one upload attempt per task. `max_retries` is stored but read nowhere, and `PublishRun` does not take it.
- The IN_PROGRESS write to the repository comes before the media-store call (`ProgressFirst`).
- It never moves a file to the UPLOADED stage: the call log has no such call.

## Model

| member | source | states |
|---|---|---|
| Models.ParseStatus | domain/models.py:8-15 | a status string coerces only to the member whose value it is |
| Models.StatusClosed | domain/models.py:8-15 | the status enum is closed: a string coerces exactly when some member has that value, and each member's value coerces back to it |
| Models.ParsePrivacy | domain/models.py:18-22 | privacy coercion succeeds exactly on "public", "unlisted" and "private", giving the member with that value |
| Models.PrivacyRoundTrip | domain/models.py:18-22 | each privacy member's value coerces back to that member |
| Models.StageValuesDistinct | domain/models.py:25-28 | the two media stages have different values |
| Models.NewTask | domain/models.py:44-81 | the record constructor succeeds exactly when the status and privacy arguments are members or coercible strings, and keeps the required fields and the coerced enums; otherwise the ValueError names the first rejected value by its `repr` |
| Models.TaskDefaults | domain/models.py:50-74 | with only the required fields given: empty description and tags, category "22", PRIVATE, READY, no attempts, all optional fields unset |
| Models.FailedResult | domain/models.py:84-99 | a failed result is coherent (an error message, no id, status or times), carries the given message and no thumbnail |
| Models.FailedResultUnique | domain/models.py:84-99 | conversely, every coherent failure without a thumbnail is the failed result of its own message: the defaults fix every other field |
| Models.ScheduledResult | domain/models.py:84-99 | a successful result is coherent (a media id, SCHEDULED and no error) and carries the given id, schedule and upload time |
| Models.ScheduledResultUnique | domain/models.py:84-99 | conversely, every coherent success with an upload time and no thumbnail is the scheduled result of its own id, schedule and time |
| AdapterErrors.ToString | ports/adapter_error.py:21-24 | the string form starts with "[code] message" and is longer exactly when the details are truthy; the details print as `str(dict)`, each key and value through `repr` |
| AdapterErrors.ShortForm | ports/adapter_error.py:19-24 | with no details, or empty ones, the string form is exactly "[code] message" |
| AdapterErrors.LongForm | ports/adapter_error.py:22-23 | with truthy details the string form is "[code] message (details: {...})", the dict printed with `repr` of each key and value, and ends in ')' |
| AdapterErrors.CodeRoundTrip | ports/adapter_error.py:21-24 | the code can be read back from the string form, whatever the message and details |
| SheetColumns.Letter | adapters/google_sheets_repository.py:680 | one base-26 digit becomes the capital that many letters after 'A' |
| SheetColumns.ColumnLetter | adapters/google_sheets_repository.py:676-682 | the loop gives "" for a negative index and otherwise the bijective base-26 name of the index |
| SheetColumns.ColumnNameShape | adapters/google_sheets_repository.py:676-682 | every column name is non-empty and made of capitals only |
| SheetColumns.ColumnNumberOfName | adapters/google_sheets_repository.py:676-682 | reading a column name back as a base-26 numeral gives the index plus one |
| SheetColumns.ColumnNameOfNumber | adapters/google_sheets_repository.py:676-682 | every non-empty string of capitals is the name of exactly the column its number designates |
| SheetColumns.ColumnNameInjective | adapters/google_sheets_repository.py:676-682 | distinct column indices get distinct names |
| SheetColumns.SheetName | adapters/google_sheets_repository.py:672-674 | the sheet name holds no '!', and is "Sheet1" when the range has no '!' |
| SheetColumns.SheetNameOfRange | adapters/google_sheets_repository.py:672-674 | the sheet part of "Sheet!cells" is recovered exactly |
| SheetColumns.CellAddressInjective | adapters/google_sheets_repository.py:335-370 | two cell addresses "Sheet!<column><row>" of one sheet are equal only for the same column and row |
| SheetHeader.ColumnMapPosition | adapters/google_sheets_repository.py:33-59 | every column the repository uses is an expected header, and COLUMN_MAP holds its position |
| SheetHeader.ColumnNameIdentifier | adapters/google_sheets_repository.py:53-59 | every column name is a lower-case identifier, so the strip-and-lowercase lookups leave it unchanged |
| SheetHeader.ColumnsDistinct | adapters/google_sheets_repository.py:33-50 | distinct columns have distinct names and distinct positions |
| SheetHeader.ColumnLayout | adapters/google_sheets_repository.py:33-61 | COLUMN_MAP covers exactly EXPECTED_HEADERS, and every required column is expected |
| SheetHeader.SortedExpectedAscending | adapters/google_sheets_repository.py:53-59 | the listed order of the expected names is Python's ascending string order and holds exactly those names |
| SheetHeader.SortedNames | adapters/google_sheets_repository.py:231-233 | `sorted` of a set of expected names holds exactly its members, in ascending order |
| SheetHeader.IndexMapKey | adapters/google_sheets_repository.py:214-218 | the loop keys exactly the non-blank normalised names, each to the last index carrying it |
| SheetHeader.HeaderKeys | adapters/google_sheets_repository.py:214-218 | the raw header map's keys are the non-blank stripped, lower-cased cells, each mapped to its last position |
| SheetHeader.ResolveHeader | adapters/google_sheets_repository.py:196-236 | a header resolved by name maps every required column; a schema error lists a non-empty set of missing required columns and a non-empty set of found expected ones (the three lemmas below say exactly when each outcome arises) |
| SheetHeader.PositionalWhenUnrecognised | adapters/google_sheets_repository.py:209-224 | the COLUMN_MAP fallback is taken exactly when no normalised cell names an expected column, an empty header included |
| SheetHeader.MissingWhenIncomplete | adapters/google_sheets_repository.py:228-234 | the schema error lists exactly the required names no cell carries and the expected names some cell carries, both non-empty |
| SheetHeader.ByNameWhenComplete | adapters/google_sheets_repository.py:214-236 | a usable header covers every required column and maps each non-blank name to the last position carrying it |
| SheetHeader.MissingMessage | adapters/google_sheets_repository.py:231-234 | the error text is "Missing required columns: [...]; found columns: [...]" with both lists sorted |
| SheetHeader.BuildHeaderMap | adapters/google_sheets_repository.py:196-236 | the loop and the two checks give the header outcome that the lemmas above describe |
| SheetRows.GetCell | adapters/google_sheets_repository.py:561-597 | a lookup gives either the default or a non-blank stripped text |
| SheetRows.Text | adapters/google_sheets_repository.py:561-597 | with a string default the lookup gives that default or a non-blank stripped text |
| SheetRows.GetCellReads | adapters/google_sheets_repository.py:583-597 | the header map's index is used when the map names the column, the COLUMN_MAP index otherwise; the stripped cell is returned unless the row is too short or the cell blank, when the default is |
| SheetRows.Pad | adapters/google_sheets_repository.py:163-167 | the padded row starts with the row, is at least the pad length, and adds only blank cells |
| SheetRows.PadNeutral | adapters/google_sheets_repository.py:163-170 | padding a row with blank cells changes no lookup |
| SheetRows.GetCellAfterWrite | adapters/google_sheets_repository.py:586-597 | once a non-blank stripped value is in the cell a column is read from, the lookup returns that value |
| SheetRows.ParseDatetime | adapters/google_sheets_repository.py:599-622 | absent or empty gives no time; a failure is the ValidationError quoting the original text |
| SheetRows.ParseAttempts | adapters/google_sheets_repository.py:624-640 | an empty text is 0; a failure is "Invalid integer" quoting the text |
| SheetRows.ReadHeading | adapters/google_sheets_repository.py:461-479 | on success the four required cells are the looked-up texts, each non-blank and stripped, and the title is at most 100 characters |
| SheetRows.ParseTags | adapters/google_sheets_repository.py:487 | every tag is non-empty, stripped and free of commas |
| SheetRows.ReadBody | adapters/google_sheets_repository.py:482-489 | on success the description is the looked-up text of at most 5000 characters, the raw tags text is at most 500, and the tags are that text split |
| SheetRows.ReadEnums | adapters/google_sheets_repository.py:501-516 | on success privacy (default "private") and status are the members whose values the texts spell exactly |
| SheetRows.ReadAttempts | adapters/google_sheets_repository.py:525-529 | on success the attempts cell (default "0") parses to that count, which is non-negative |
| SheetRows.ParseRow | adapters/google_sheets_repository.py:440-559 | a parsed row keeps its row number, has non-blank required fields within the length limits and clean tags, and its status and privacy are the members its cells spell |
| SheetRows.Assemble | adapters/google_sheets_repository.py:541-559 | the Task built from checked pieces keeps the row number and the enums, and satisfies every sheet invariant |
| SheetRows.ClassifyRow | adapters/google_sheets_repository.py:163-182 | a row is skipped exactly when its status cell is not the ready status; it is parsed exactly when it is ready and parses, and the task then has the ready status; otherwise it is rejected |
| SheetRows.Outcomes | adapters/google_sheets_repository.py:159-176 | one outcome per data row, and each parsed row carries sheet row number 2 plus its position |
| SheetRows.ParsedTasksSpec | adapters/google_sheets_repository.py:159-176 | the scan returns exactly the parsed rows, in increasing row order, each the task parsed from the row its number names, and none is missing |
| SheetRows.RejectedRowsSpec | adapters/google_sheets_repository.py:178-181 | exactly the rows rejected by validation are marked, in increasing row order, each with its own error |
| SheetRows.ScanPartition | adapters/google_sheets_repository.py:159-184 | every data row is returned, rejected or skipped, and only one of these |
| SheetWrites.SetCellEffect | adapters/google_sheets_repository.py:378-381 | writing one cell (RAW input) changes that cell and no other, and keeps every other row |
| SheetWrites.UnwrittenCell | adapters/google_sheets_repository.py:378-381 | a cell no entry of a values batch update names keeps its text |
| SheetWrites.LastWriteWins | adapters/google_sheets_repository.py:378-381 | the last entry of a batch that names a cell decides its text |
| SheetWrites.BatchKeepsRow | adapters/google_sheets_repository.py:378-381 | a batch with no entry for a sheet row leaves that row as it was |
| SheetWrites.WritesAt | adapters/google_sheets_repository.py:335-375 | each batch entry writes its planned value to the looked-up column of the task's row, at that cell's A1 range |
| SheetWrites.WritesAppend | adapters/google_sheets_repository.py:332-375 | each further looked-up column appends exactly one entry at the end of the batch |
| SheetWrites.DisplayStatus | adapters/google_sheets_repository.py:325-327 | the written status differs from the given one exactly when that is IN_PROGRESS, and then it is "UPLOADING" |
| SheetWrites.Optional | adapters/google_sheets_repository.py:343-367 | an optional argument contributes a cell in its own column exactly when it is not None, holding that argument |
| SheetWrites.StatusPlan | adapters/google_sheets_repository.py:332-375 | the plan has two cells plus one per optional argument that is not None |
| SheetWrites.StatusPlanShape | adapters/google_sheets_repository.py:332-375 | the display status comes first and the updated_at stamp last; the video id, error and media reference cells appear exactly when given, with their values; no column appears twice, in a fixed order |
| SheetWrites.AttemptsRoundTrip | adapters/google_sheets_repository.py:401-415 | the counter increment_attempts writes is the attempts column, and the row parser reads it back as attempts + 1 |
| SheetsRepository.LookupsFacts | adapters/google_sheets_repository.py:270-295 | every column lookup of a run finds its column's index in one and the same map, a cached map costs no read, and a run without error finds an index for every column |
| SheetsRepository.FallbackRereads | adapters/google_sheets_repository.py:238-263 | without a usable header map nothing is cached, so every lookup reads the sheet again and takes the COLUMN_MAP position |
| SheetsRepository.FirstLookupFails | adapters/google_sheets_repository.py:229-234 | with nothing cached, an HttpError or a missing required column on the first read ends the run after that one read, with that error and nothing cached |
| SheetsRepository.LookupsStop | adapters/google_sheets_repository.py:283 | once a lookup has raised, the row write looks up no further column |
| SheetsRepository.LookupsNext | adapters/google_sheets_repository.py:283-291 | one more lookup after a run without error makes one ensure-header step and, if that succeeds, adds the index of the column in the map it leaves |
| SheetsRepository.WriteRowEffect | adapters/google_sheets_repository.py:332-381 | a row write changes the grid only when written, and then exactly by its one batch: one cell per planned value, in the task's row and the column the shared map gives, at that cell's A1 range, after the lookups' reads and with no other request; a cached map stays |
| SheetsRepository.WrittenLastValue | adapters/google_sheets_repository.py:369-381 | after a successful write the cell of the plan's last column holds its planned value |
| SheetsRepository.Incremented | adapters/google_sheets_repository.py:431-433 | the counter and the last-attempt time of the task change only when the batch went through, to attempts + 1 and the given time |
| SheetsRepository.MaxOf | adapters/google_sheets_repository.py:153 | the maximum is a member of the set and bounds every member |
| SheetsRepository.MarkAllKeepsHeader | adapters/google_sheets_repository.py:642-665 | marking rejected data rows FAILED never touches the header row |
| SheetsRepository.ScanKeepsHeader | adapters/google_sheets_repository.py:114-187 | a scan leaves the header row as it found it |
| SheetsRepository.ScanSchemaFailure | adapters/google_sheets_repository.py:229-234 | a header missing required columns aborts the scan after its one read with the schema error: no task, nothing cached, no row marked |
| SheetsRepository.ScanResult | adapters/google_sheets_repository.py:142-187 | on a usable header the scan returns the parsed ready rows of its one read, in increasing row order, each numbered by its sheet row and holding the ready status; exactly the rejected rows are marked, in order |
| SheetHeader.IndexMapDistinct | adapters/google_sheets_repository.py:213-217 | two different names of the header map sit at different columns |
| SheetsRepository.StatusCellShared | adapters/google_sheets_repository.py:270-295 | under a usable header the video id and status cells are different columns, and the updated_at lookup lands on the status column exactly when updated_at is not in the header and status sits at updated_at's fixed column P |
| SheetsRepository.WrittenCell | adapters/google_sheets_repository.py:332-381 | after a successful write, a cell holds the value of the last planned entry whose column lands on it |
| SheetsRepository.ScheduledStatusCell | adapters/google_sheets_repository.py:332-381 | writing SCHEDULED and a video id keeps the header row and leaves SCHEDULED in the row's status cell, or the stamp when the updated_at write falls back onto the status column |
| SheetsRepository.ParsedRowStatus | adapters/google_sheets_repository.py:159-175 | every parsed task is numbered by a data row of the grid, and that row's status cell reads the ready status |
| SheetsRepository.RowLeftOut | adapters/google_sheets_repository.py:142-187 | a data row whose status cell does not read the ready status is not among the tasks of a successful scan |
| SheetsRepository.ScheduledLeavesReady | adapters/google_sheets_repository.py:297-388 | after SCHEDULED and a video id are written to a data row, a fresh scan for another ready status returns no task of that row, except when updated_at is absent, status sits at updated_at's fixed column and the stamp reads as the ready status |
| SheetsRepository.GoogleSheetsRepository.FetchValues | adapters/google_sheets_repository.py:128-135 | one read request is logged; it gives the grid, or the HttpError text of a failing request |
| SheetsRepository.GoogleSheetsRepository.SendBatch | adapters/google_sheets_repository.py:378-381 | one batch request is logged; the grid takes the batch unless the request fails |
| SheetsRepository.GoogleSheetsRepository.EnsureHeaderMap | adapters/google_sheets_repository.py:238-268 | a cached map costs nothing; otherwise one read, whose failure or schema error or empty sheet leaves the cache empty, the new map cached otherwise |
| SheetsRepository.GoogleSheetsRepository.ColumnIndex | adapters/google_sheets_repository.py:270-295 | the index of the column in the map the ensure step leaves, or that step's error |
| SheetsRepository.GoogleSheetsRepository.WriteRow | adapters/google_sheets_repository.py:332-381 | the new sheet, cache and request log, and the outcome, are those of the row-write specification |
| SheetsRepository.GoogleSheetsRepository.RowCells | adapters/google_sheets_repository.py:335-375 | the loop looks the columns up in turn until one fails, and on success has one cell write per planned value |
| SheetsRepository.GoogleSheetsRepository.UpdateTaskStatus | adapters/google_sheets_repository.py:297-388 | the status plan is written to the task's row, and the error text is the update's MetadataRepositoryError message; ScheduledLeavesReady states what a re-read of the sheet then returns |
| SheetsRepository.GoogleSheetsRepository.IncrementAttempts | adapters/google_sheets_repository.py:390-438 | attempts + 1 and the stamp are written to the task's row, and the task is updated only after the batch went through |
| SheetsRepository.GoogleSheetsRepository.PadWidth | adapters/google_sheets_repository.py:151-155 | one past the largest mapped index, 0 for an empty map, the width of COLUMN_MAP without a map |
| SheetsRepository.GoogleSheetsRepository.GetReadyTasks | adapters/google_sheets_repository.py:114-194 | the new state and result are those of the scan specification, and the marks are the rejected rows' messages in order |
| SheetsRepository.GoogleSheetsRepository.ScanRows | adapters/google_sheets_repository.py:159-187 | the tasks are the parsed rows, and the state is that of marking every rejected row in turn |
| SheetsRepository.GoogleSheetsRepository.ScanRow | adapters/google_sheets_repository.py:161-184 | the row's outcome is ClassifyRow's; a rejected row is marked FAILED with its error's message, any other leaves the state unchanged |
| SheetsRepository.GoogleSheetsRepository.MarkRowFailed | adapters/google_sheets_repository.py:642-670 | FAILED and the message are written to the row, and every failure is swallowed |
| SheetsRepository.GoogleSheetsRepository.constructor | adapters/google_sheets_repository.py:63-112 | a new repository caches no header map and has made no request |
| PublishServices.UploadResult | domain/services.py:207-244 | a returned result is passed on as it is; every exception becomes a coherent failure with no thumbnail whose message ends with `str(e)`, and is exactly `str(e)` precisely for a MediaUploaderError; any other exception is prefixed "Unexpected error during upload: " |
| PublishServices.FailureText | domain/services.py:191 | the FAILED message is never empty: the result's own error message when it is truthy, "Unknown error" otherwise |
| PublishServices.PublishRun | domain/services.py:96-192 | a task is skipped exactly when it has a truthy platform id, and then nothing is called and the task is unchanged; any other run starts with the IN_PROGRESS write; only `media_reference` of the task can change (SkipGate, ProgressFirst, StageFailure and DryRunNoUpload state the branches) |
| PublishServices.AttemptRun | domain/services.py:160-244 | an upload attempt keeps the task, begins with the attempts increment and the one `publish_media` call, and succeeds exactly when the upload result is successful; otherwise the task fails (SuccessPath and FailurePath state the final writes) |
| PublishServices.RunAllStep | domain/services.py:69-71 | one more task of the batch adds one more run, starting where the calls so far end |
| PublishServices.TallyStep | domain/services.py:70-84 | each run adds one to processed and one to the counter of its outcome, an escaped exception counting as failed |
| PublishServices.TallyCounts | domain/services.py:62-94 | every fetched task is processed, and lands in exactly one of succeeded, failed and skipped |
| PublishServices.RunAllAt | domain/services.py:69-71 | run k of the batch is `publish_task` on task k, started where the runs before it ended |
| PublishServices.SkippedCount | domain/services.py:74-75 | the skipped counter counts exactly the tasks that already carry a platform id, whatever the collaborators answer |
| PublishServices.SkipGate | domain/services.py:116-120 | a task is skipped exactly when it already has a truthy platform id, and then no collaborator is called and the task is unchanged |
| PublishServices.ProgressFirst | domain/services.py:123-147 | a task not skipped is first marked IN_PROGRESS in the repository; the media store is called only after that write succeeded; when it raised, the task fails with one FAILED write and neither the store nor the uploader called |
| PublishServices.StageFailure | domain/services.py:145-155 | an AdapterError from the media store fails the task with a FAILED write naming the stage mark, any other exception escapes, and the uploader is never called |
| PublishServices.DryRunNoUpload | domain/services.py:158-164 | in a dry run or without an uploader a staged task succeeds after a DRY_RUN_OK write, whatever that write does, and nothing is uploaded |
| PublishServices.SingleAttempt | domain/services.py:207-219 | a task reaches the uploader at most once, right after one attempts increment, and with the media reference the store returned |
| PublishServices.SuccessPath | domain/services.py:170-188 | a successful upload sends the thumbnail exactly when the task has one, writes SCHEDULED with the upload's media id last, and succeeds whatever the thumbnail and that write answer |
| PublishServices.FailurePath | domain/services.py:189-192 | an unsuccessful upload fails the task with a FAILED write of the result's message or "Unknown error" |
| PublishServices.OnlyMediaReference | domain/services.py:96-192 | `publish_task` changes no field of the task but `media_reference` |
| PublishServices.SwallowedAnswers | domain/services.py:160-188 | the outcome and the task depend on no answer the orchestrator swallows: the attempts increment, the thumbnail upload and the later writes |
| PublishServices.PublishService.RepoFetch | domain/services.py:59 | one `get_ready_tasks` call is logged and its scripted answer returned |
| PublishServices.PublishService.RepoUpdate | domain/services.py:124 | one `update_task_status` call is logged and its scripted answer returned |
| PublishServices.PublishService.RepoIncrement | domain/services.py:212 | one `increment_attempts` call is logged and its scripted answer returned |
| PublishServices.PublishService.StoreMark | domain/services.py:146 | one `mark_in_progress` call is logged and its scripted answer returned |
| PublishServices.PublishService.UploaderPublish | domain/services.py:219 | one `publish_media` call is logged and its scripted answer returned |
| PublishServices.PublishService.UploaderThumbnail | domain/services.py:260 | one `upload_thumbnail` call is logged and its scripted answer returned |
| PublishServices.PublishService.MarkFailed | domain/services.py:271-286 | exactly one FAILED write with the message, whatever it answers |
| PublishServices.PublishService.UploadMedia | domain/services.py:194-244 | the attempts increment and one `publish_media` call with the task's media reference, in that order; the result is the upload's, or the failed result built from its exception |
| PublishServices.PublishService.UploadThumbnailFor | domain/services.py:246-269 | one thumbnail upload exactly when the task has a truthy thumbnail reference, nothing otherwise |
| PublishServices.PublishService.PublishTask | domain/services.py:96-192 | the outcome, the task and the calls made are those of the `publish_task` specification |
| PublishServices.PublishService.Attempt | domain/services.py:166-192 | the outcome and calls are those of the upload-attempt specification |
| PublishServices.PublishService.PublishAllReadyTasks | domain/services.py:51-94 | a fetch error propagates after the one fetch; otherwise every task runs in order, the calls are those runs' calls after the fetch, and the counters are their tally |
| PublishServices.PublishService.constructor | domain/services.py:27-49 | the collaborators and settings are stored and no call has been made |
| FileSystems.ParsePath | adapters/local_media_store.py:55 | every path parsed from a text is well formed (parts non-empty, not "." and free of separators), and absolute exactly when the text starts with a separator |
| FileSystems.TextRoundTrip | adapters/local_media_store.py:107 | printing a well-formed path and parsing the text gives the path back, so the returned reference names the file moved |
| FileSystems.Div | adapters/local_media_store.py:72 | an absolute right side replaces the path and a relative one extends its parts; joining well-formed paths gives a well-formed path |
| FileSystems.DivText | adapters/local_media_store.py:72-73 | `str(p / q)` is `str(p)`, a separator and `str(q)` for a relative `q` with parts |
| FileSystems.NameChild | adapters/local_media_store.py:71-72 | the destination is the stage directory plus exactly the source's last part, and its parent is that directory |
| FileSystems.MakeDirs | adapters/local_media_store.py:33-34 | a failed creation names the directory and is EEXIST exactly when the directory itself is a file (ENOTDIR otherwise); a successful one keeps every existing entry (MakeDirsEffect states the rest) |
| FileSystems.MakeDirsEffect | adapters/local_media_store.py:33-34 | a directory creation fails exactly when some path of the lineage is a file; otherwise the directory and all its ancestors are directories, every existing entry keeps what it held, and only lineage paths are added |
| FileSystems.Rename | adapters/local_media_store.py:84-85 | a missing destination directory is ENOENT, and one that is a file ENOTDIR, both naming the two paths; a successful rename puts the source's content at the destination and adds no other path (RenameEffect states the rest) |
| FileSystems.RenameEffect | adapters/local_media_store.py:84-85 | a rename of an existing file to an absent path succeeds exactly when the destination's directory exists and the system does not refuse; it then moves the one file and changes nothing else |
| FileSystems.Resolve | adapters/local_media_file_store.py:190-205 | the resolved path is absolute; an absolute path resolves to itself, and a relative one ends in its own parts |
| FileSystems.ResolveCases | adapters/local_media_file_store.py:190-205 | an absolute path resolves to itself, a relative one below the base directory, itself made absolute against the working directory |
| FileSystems.Disk.MakeDirectories | adapters/local_media_store.py:33-34 | the disk becomes the result of the directory creation, or is unchanged with its error |
| FileSystems.Disk.RenameFile | adapters/local_media_store.py:85 | the disk becomes the result of the rename, or is unchanged with its error |
| MediaStores.Move | adapters/local_media_store.py:55-107 | a failed transition leaves the filesystem as it was and raises one of FILE_NOT_FOUND, NOT_A_FILE, FILE_EXISTS, PERMISSION_DENIED and MOVE_FAILED; a successful one returns the text of the stage directory joined with the source's name (MoveCheckOrder, MoveSuccess and MoveRefused state which and what moves) |
| MediaStores.MoveCheckOrder | adapters/local_media_store.py:55-82 | the first failing check decides the error code: FILE_NOT_FOUND exactly when the source is missing, NOT_A_FILE exactly when it exists but is no file, FILE_EXISTS exactly when it is a file and the destination exists |
| MediaStores.MoveErrorUnchanged | adapters/local_media_store.py:55-105 | a failed transition leaves the filesystem as it was |
| MediaStores.MoveSuccess | adapters/local_media_store.py:71-107 | a successful transition returns the stage directory joined with the source's name; the source is gone, the destination holds its content and no other path changed |
| MediaStores.MoveRefused | adapters/local_media_store.py:84-105 | a rename the system refuses is PERMISSION_DENIED exactly for EPERM and EACCES, and MOVE_FAILED exactly otherwise |
| MediaStores.LocalMediaStore.constructor | adapters/local_media_store.py:28-31 | both stages are mapped to their directories |
| MediaStores.LocalMediaStore.Open | adapters/local_media_store.py:18-34 | on success both stages have a directory, and each exists on disk as a directory |
| MediaStores.LocalMediaStore.Transition | adapters/local_media_store.py:36-107 | the result and the new filesystem are those of the move into the target stage's directory |
| MediaStores.FileStoreStages | adapters/local_media_file_store.py:39-43 | a stage is configured exactly when its directory argument is non-empty, and then maps to that path |
| MediaStores.LocalMediaFileStore.constructor | adapters/local_media_file_store.py:37-43 | the base path is the argument or the working directory, and the stages are the configured ones |
| MediaStores.LocalMediaFileStore.Open | adapters/local_media_file_store.py:18-46 | on success the configured stages only, each existing on disk as a directory |
| MediaStores.LocalMediaFileStore.QueriesAgree | adapters/local_media_file_store.py:48-111 | `exists` holds exactly when `get_path` succeeds, which gives the resolved path of a regular file; `get_size` is then its length, and otherwise raises the same FILE_NOT_FOUND or NOT_A_FILE error |
| MediaStores.LocalMediaFileStore.Transition | adapters/local_media_file_store.py:113-188 | an unconfigured stage is STAGE_NOT_CONFIGURED before any filesystem check, changing nothing; otherwise the move into the stage's directory |
| MediaStores.NewStorage | adapters/local_storage.py:19-27 | the base path is the given non-empty one, the working directory otherwise |
| MediaStores.StorageQueriesAgree | adapters/local_storage.py:30-83 | `exists` holds exactly when `get_path` succeeds; `get_size` then is the file's length and otherwise fails with `get_path`'s message; a missing path and a directory get their own messages naming the resolved path |
| YouTubeApi.PermanentPrefix | adapters/youtube_media_uploader.py:314-319 | a fixed prefix exists exactly for the four listed codes 400, 401, 403 and 404 |
| YouTubeApi.HandleHttpError | adapters/youtube_media_uploader.py:290-326 | the error raised is RetryableError exactly for the retryable codes, with the code and body; otherwise PermanentError, with the listed prefix for the four listed codes and "HTTP error" with the code for any other |
| YouTubeApi.HttpErrorCarriesBody | adapters/youtube_media_uploader.py:305-326 | every HTTP error message ends with ": " and the decoded response body |
| YouTubeApi.PortsAgree | adapters/youtube_backend.py:37 | the uploader and the backend classify every status code alike, and their messages differ only for 400 |
| YouTubeApi.RetryableNamesCode | adapters/youtube_media_uploader.py:310-312 | distinct retryable codes give distinct errors, so the message names its code |
| YouTubeApi.LookupAt | adapters/youtube_media_uploader.py:259-266 | the first field with a key decides the lookup of that key |
| YouTubeApi.LookupAbsent | adapters/youtube_media_uploader.py:265-266 | a key no field carries is absent |
| YouTubeApi.Digits | adapters/youtube_media_uploader.py:273 | a zero-padded field has exactly its width, all decimal digits |
| YouTubeApi.FormatTimestamp | adapters/youtube_media_uploader.py:273 | the formatted schedule is 24 characters long |
| YouTubeApi.ParseTimestamp | adapters/youtube_media_uploader.py:273 | only a 24-character text ending in the literal ".000Z" is read back |
| YouTubeApi.TimestampRoundTrip | adapters/youtube_media_uploader.py:273 | reading the formatted schedule back gives the task's time to the second, the microseconds dropped |
| YouTubeApi.PrepareMetadata | adapters/youtube_media_uploader.py:249-288 | the body has the keys snippet and status, in that order, each an object (MetadataKeys and MetadataRoundTrip state their contents) |
| YouTubeApi.MetadataKeys | adapters/youtube_media_uploader.py:249-288 | the body's keys are snippet then status, so the `part` argument is "snippet,status"; the snippet has title, description and categoryId, and tags only when the task has some; the status object has the privacy value, and publishAt only when the task is scheduled |
| YouTubeApi.MetadataRoundTrip | adapters/youtube_media_uploader.py:249-288 | the body carries the task's title, description, category, tags, own privacy value and schedule, nothing lost but the schedule's microseconds |
| YouTubeApi.UploadOutcome | adapters/youtube_media_uploader.py:177-202 | a returned id gives the SCHEDULED result echoing the task's schedule; an HttpError goes through the HTTP mapping, a FileNotFoundError is PermanentError naming the path, anything else the port's base error with its own prefix |
| YouTubeApi.SuccessResult | adapters/youtube_backend.py:178-191 | a successful upload reports SCHEDULED, with the returned id and the task's own schedule, on either port |
| YouTubeApi.HttpErrorRaises | adapters/youtube_backend.py:193-194 | an HttpError never yields a result: it is always raised, retryable exactly for the retryable codes |
| YouTubeApi.PublishVideo | adapters/youtube_backend.py:134-201 | the call succeeds exactly when the insert returns an id, and then gives a coherent result with that id and the task's own schedule; a missing file is PermanentError "Video file not found: <path>" |
| YouTubeApi.PublishMediaAsWritten | adapters/youtube_media_uploader.py:131-202 | as written, the call fails in its own handler exactly when the media store raises FileNotFoundError for the reference; otherwise it succeeds exactly when the reference resolves and the insert returns |
| YouTubeApi.UnboundPathOnMissingReference | adapters/youtube_media_uploader.py:153-197 | when the media store raises FileNotFoundError for the reference, the handler as written fails itself instead of raising PermanentError |
| YouTubeApi.PublishMedia | adapters/youtube_media_uploader.py:131-202 | the corrected call succeeds exactly when the reference resolves and the insert returns an id, with a coherent result carrying that id and the task's schedule; a reference the store cannot find is PermanentError "Media file not found: <reference>" |
| YouTubeApi.PublishMediaCorrected | adapters/youtube_media_uploader.py:131-202 | the corrected mapping agrees with the code wherever that reaches its handlers; a missing reference is PermanentError naming it; the call succeeds exactly when the reference resolved and the upload returned, and no upload answer matters when resolution failed |
| YouTubeApi.UploadThumbnail | adapters/youtube_media_uploader.py:204-247 | True exactly when the path resolved and the API call returned; every exception becomes False |
| AppConfig.LoadDotenv | src/core/config.py:56 | the `.env` variables are added, but a variable already set in the environment keeps its value |
| AppConfig.ParseScopes | src/core/config.py:61 | no scope is empty or has whitespace at either end (ScopesAreWords and ScopesShape state the pieces exactly) |
| AppConfig.ScopesAreWords | src/core/config.py:61 | the strip-and-filter of the comprehension changes nothing: the scopes are the whitespace-separated words once commas count as whitespace |
| AppConfig.ScopesShape | src/core/config.py:61 | no scope is empty or holds whitespace or a comma, and together the scopes keep every other character of the setting, in order |
| AppConfig.SingleScope | src/core/config.py:59-61 | a setting with no whitespace and no comma is one scope |
| AppConfig.DefaultScopesPlain | src/core/config.py:59 | the default scope URL holds no whitespace and no comma |
| AppConfig.LoadSettings | src/core/config.py:59-65 | each credential file setting is the variable when it is set and "credentials.json" or "token.json" otherwise; without YT_SCOPES the upload scope alone |
| AppConfig.SettingsDefaults | src/core/config.py:59-65 | with none of the three variables set: the upload scope alone, "credentials.json" and "token.json" |
| AppConfig.SettingsOverride | src/core/config.py:59-65 | a set variable is taken verbatim, the scopes through the split |
| AppConfig.Config.constructor | src/core/config.py:13-25 | the three fields hold the given settings |
| AppConfig.ConfigCache.constructor | src/core/config.py:29 | nothing is cached at first |
| AppConfig.ConfigCache.GetConfig | src/core/config.py:32-73 | the first call loads `.env`, reads the environment and caches a new Config; every later call returns that same object |
| YouTubeClient.CheckArguments | src/adapters/youtube/uploader.py:130-140 | an invalid privacy value is a ValueError, checked first; then a missing file is FileNotFoundError naming it; otherwise there is no error |
| YouTubeClient.UploadBodyShape | src/adapters/youtube/uploader.py:146-158 | the body's keys are snippet and status; the snippet has title and description, and a tags entry exactly when a list was passed, even an empty one, carrying that list; the privacy value goes as given |
| YouTubeClient.YouTubeUploader.constructor | src/adapters/youtube/uploader.py:29-37 | the config is stored and no client is cached yet |
| YouTubeClient.YouTubeUploader.GetService | src/adapters/youtube/uploader.py:89-101 | a cached client is returned without a build; otherwise the credentials are obtained, or their exception escapes with nothing cached, and one new client is built and cached |
| YouTubeClient.YouTubeUploader.UploadVideo | src/adapters/youtube/uploader.py:103-180 | a failed argument check returns its error before the client is needed; a credentials failure escapes with no request; otherwise exactly one insert request with part "snippet,status" and the body, on the cached client, and its answer is returned, an HttpError unchanged |
| UploadCli.ParseTags | src/cli/upload_video.py:82-84 | no list exactly when the option is absent or empty; every tag is non-empty, stripped and free of commas |
| UploadCli.TagsRoundTrip | src/cli/upload_video.py:82-84 | a non-empty list of clean tags, written comma-separated, is split back into itself |
| UploadCli.Report | src/cli/upload_video.py:103-114 | exit status 0 with two printed lines exactly on success; otherwise one error line and status 1 |
| UploadCli.SuccessNamesId | src/cli/upload_video.py:103-104 | both success lines name the returned id, the second as a watch link |
| UploadCli.RunMain | src/cli/upload_video.py:71-114 | the one upload receives the split tags in its body, and the report is that of the argument check's error, the credentials' error or the upload's answer |
| SheetsReset.RowText | utils/sheets_reset_verify.py:71-79 | one text per cell, in order: "" for None, the stripped string, or the value's `str()` |
| SheetsReset.ExtentBound | utils/sheets_reset_verify.py:89-90 | everything past a row's extent is empty, the cell before it is not, and the extent is 0 exactly for a blank row |
| SheetsReset.RowCountBound | utils/sheets_reset_verify.py:81-82 | every row past the row count is blank and the last row counted is not |
| SheetsReset.WidthBound | utils/sheets_reset_verify.py:87-91 | the width bounds every row's extent and, when positive, is reached by some row |
| SheetsReset.Normalize | utils/sheets_reset_verify.py:64-97 | the normalised grid has no more rows than the input and every row has the width of the widest trimmed row (the lemmas below state its cells) |
| SheetsReset.NormalizeCells | utils/sheets_reset_verify.py:64-97 | each cell of the normalised grid is the text of the input cell at the same place, or "" where the input row is shorter |
| SheetsReset.NormalizeKeepsCells | utils/sheets_reset_verify.py:64-97 | every non-empty input cell is kept, at the same place |
| SheetsReset.NormalizeShape | utils/sheets_reset_verify.py:81-97 | the grid is rectangular, every dropped row is blank, the last kept row is not, and an all-blank input gives [] |
| SheetsReset.NormalizeWidthReached | utils/sheets_reset_verify.py:87-95 | the width is not padding: some kept row has a non-empty last cell |
| SheetsReset.NormalizeValues | utils/sheets_reset_verify.py:64-97 | the in-order passes give exactly the normalised grid |
| SheetsReset.DropBlankRows | utils/sheets_reset_verify.py:81-82 | the trailing blank rows, and only they, are popped |
| SheetsReset.TrimRows | utils/sheets_reset_verify.py:87-91 | every row has its trailing empty cells popped, and the maximum is the width of the rows |
| SheetsReset.PadRows | utils/sheets_reset_verify.py:93-95 | every row is padded with "" to the width, its own cells kept |
| SheetsReset.ResetBatch | utils/sheets_reset_verify.py:137-151 | one delete per old sheet id, then one title rename per copy, each in the order given |
| SheetsReset.ResetBatchOrder | utils/sheets_reset_verify.py:137-151 | every delete precedes every rename, the deletes name exactly the old ids and the renames exactly the copies with their template titles |
| SheetsReset.Copied | utils/sheets_reset_verify.py:120-131 | one new sheet per template sheet, with the id its copy returned and the template sheet's title |
| SheetsReset.CopyCalls | utils/sheets_reset_verify.py:121-127 | one copy call per template sheet, from the template into the runtime spreadsheet |
| SheetsReset.SheetsService.GetSpreadsheetSheets | utils/sheets_reset_verify.py:39-48 | one listing call is logged and its answer returned |
| SheetsReset.SheetsService.CopySheet | utils/sheets_reset_verify.py:123-127 | one copy call is logged and the new sheet's id returned |
| SheetsReset.SheetsService.SendBatch | utils/sheets_reset_verify.py:154-157 | one batch update is logged |
| SheetsReset.SheetsService.GetSheetValues | utils/sheets_reset_verify.py:51-61 | one values read is logged; a failing read or an answer without values gives [] |
| SheetsReset.CopyAll | utils/sheets_reset_verify.py:120-131 | one copy per template sheet, in order, each recorded with its template title |
| SheetsReset.BuildRequests | utils/sheets_reset_verify.py:137-151 | the appended requests are exactly the reset batch |
| SheetsReset.ResetRuntime | utils/sheets_reset_verify.py:100-163 | both lists are read; it succeeds exactly when the template has sheets; an empty template stops after the reads; otherwise the copies, one batch deleting the old sheets and renaming the copies, and a final read, in that order |
| SheetsReset.ApplyBatch | utils/sheets_reset_verify.py:153-159 | a non-empty batch is sent, then the runtime list is read again |
| SheetsReset.VerifyMatch | utils/sheets_reset_verify.py:166-221 | differing title sets fail right after the two listings; otherwise two values reads per title, and success exactly when every sheet's normalised data agree |
| SheetsReset.CompareSheet | utils/sheets_reset_verify.py:196-202 | the values of one title are read from both, in order, and compared once normalised |
| FakeUploaders.LastIndex | tests/acceptance/fake_youtube_uploader.py:55-58 | the index is -1 or holds the character, and no later position does |
| FakeUploaders.Suffix | tests/acceptance/fake_youtube_uploader.py:55-58 | the suffix is empty or one dot-led extension with no further dot, it ends the name, and it is never the whole name |
| FakeUploaders.SuffixOfExtension | tests/acceptance/fake_youtube_uploader.py:55-58 | a name of a non-empty stem and a dot-led extension without further dots has that extension as its suffix |
| FakeUploaders.NoDotNoSuffix | tests/acceptance/fake_youtube_uploader.py:55-58 | a name with no dot past its first character has no suffix |
| FakeUploaders.ExtensionDecides | tests/acceptance/fake_youtube_uploader.py:55-58 | on a plain file name the extension alone decides acceptance, compared in lower case against .mp4 and .mov |
| FakeUploaders.MediaId | tests/acceptance/fake_youtube_uploader.py:63 | an id names the call that made it: reading back the digits after its last underscore gives the call count, whatever the task id holds |
| FakeUploaders.MediaIdsDistinct | tests/acceptance/fake_youtube_uploader.py:53-63 | ids made on different calls differ |
| FakeUploaders.FakeYouTubeUploader.constructor | tests/acceptance/fake_youtube_uploader.py:26-35 | nothing uploaded and no call counted |
| FakeUploaders.FakeYouTubeUploader.PublishMedia | tests/acceptance/fake_youtube_uploader.py:37-72 | every call is counted; an unaccepted suffix is a PermanentError in every mode and FAIL mode another; otherwise the upload is recorded under an id not used before and reported SCHEDULED with the task's schedule |
| FakeUploaders.FakeYouTubeUploader.UploadThumbnail | tests/acceptance/fake_youtube_uploader.py:74-85 | the thumbnail upload always succeeds |
| Strings.Strip | adapters/google_sheets_repository.py:596 | the stripped text has no whitespace at either end and is no longer than the input |
| Strings.StripSlice | adapters/google_sheets_repository.py:596 | stripping removes whitespace at the two ends and nothing else |
| Strings.StripIdempotent | adapters/google_sheets_repository.py:596 | stripping twice is stripping once |
| Strings.Words | src/core/config.py:61 | every word of `split()` is non-empty and holds no whitespace |
| Strings.WordsKeepCharacters | src/core/config.py:61 | the words, concatenated, are exactly the non-whitespace characters of the input, in order |
| Strings.ReplaceChar | src/core/config.py:61 | every comma becomes a space and every other character stays |
| Strings.JoinSplit | src/cli/upload_video.py:84 | joining the pieces of a split with the separator gives the text back |
| Strings.SplitJoin | src/cli/upload_video.py:84 | splitting a join of separator-free pieces gives the pieces back |
| Strings.Repr | ports/adapter_error.py:23 | `repr` opens and closes with one quote, double exactly when the text holds a single quote and no double quote |
| Strings.ReprRoundTrip | ports/adapter_error.py:23 | the literal `repr` writes reads back as the original text, whatever quotes, backslashes and control characters it holds |
| Strings.ReprInjective | ports/adapter_error.py:23 | different texts print differently |
| Strings.ReprPlain | adapters/local_media_store.py:86-94 | a text without backslashes or control characters prints verbatim: in single quotes, or in double quotes when it holds single quotes and no double quote, as an OSError text naming quoted paths does |
| Strings.ParseIntRoundTrip | adapters/google_sheets_repository.py:638 | `int()` reads back the decimal text of every integer |
| Strings.NatToStringInjective | tests/acceptance/fake_youtube_uploader.py:63 | distinct counts print differently |
| Strings.LowerAt | tests/acceptance/fake_youtube_uploader.py:57 | lower-casing maps each character on its own, ASCII letters to lower case |

## Left out

- OAuth flows, token files, building the API clients, `.execute()`, and the chunked upload loop are left out. The request each call would send is modelled; its answer is an input.
- `datetime.utcnow()` and the `updated_at`/`last_attempt_at` stamps are parameters. `datetime.fromisoformat` is a parameter too: a partial function from text to DateTime. Only its wrapping is modelled: a trailing "Z" is stripped, an empty value gives no time, and a rejected text gives a ValidationError.
- Python's `str.strip`, `split` and `lower` are modelled on ASCII whitespace and ASCII letters. Unicode whitespace and case mapping are left out.
- Strings.Repr: the quote choice and every ASCII escape of `repr` are modelled, but characters above ASCII are printed as themselves. Python escapes the non-printable ones among them, and the model does not.
- Bytes are decoded as UTF-8 when an HTTP error body is read. The model is handed that body already decoded.
- Logging is left out everywhere, and so is all console output, except the CLI's printed lines and exit status, which `UploadCli.Report` models.
- `reset_runtime` and `verify_match` print progress and diff lines; that printing is left out. The `main` functions of utils/sheets_reset_verify.py and app/main.py are argument parsing and wiring, and are not modelled.
- `argparse` in src/cli/upload_video.py is not modelled. `UploadCli.RunMain` starts from the parsed options.
- SheetsReset.VerifyMatch visits the titles of the set in an arbitrary order rather than sorted order. Sorting does not change the verdict or the number of reads: only the order of the reads in the log is left open.
- SheetsReset.SheetsService answers by call number for the sheet listings and copy ids, and by (spreadsheet, title) for the values.
- SheetsReset.SheetsService: the sheet listing, `copyTo` and `batchUpdate` calls of utils/sheets_reset_verify.py:39-48, 123-127 and 154-157 always return in the model; the exceptions they can raise, which end the script, are left out. Only the values read models a failure, which gives an empty grid as the code does.
- The `sheetId` of a copy is scripted. The title the copy first gets ("Copy of ...") is not modelled.
- `pathlib`'s `resolve()`, symlinks and ".." are not modelled. A relative path is joined onto the base directory and made absolute against the working directory, with its "." and empty parts dropped. A text starting with exactly two separators ("//a") keeps both in `pathlib`; FileSystems.ParsePath folds it into the one root "/".
- The filesystem is a map from paths to entries. Permissions, devices and other reasons for a failed rename are one scripted input, the `refuse` function.
- `stat().st_size` is taken to be the length of the file's content.
- `get_local_file_path`, which YouTubeMediaUploader calls on its media store, is not defined by any store shown. Its outcome is an input of `YouTubeApi.PublishMediaAsWritten` and `YouTubeApi.PublishMedia`.
- Task is a value, so the orchestrator returns the task with its new `media_reference`. Sharing of the caller's Task object is not modelled. Neither is the in-place update of `task.attempts` by `increment_attempts`: `SheetsRepository.Incremented` returns the changed task instead.
- Exceptions other than ValidationError cannot arise while rows are parsed in the model, because every lookup is total. The branch of `get_ready_tasks` that skips such a row is therefore not modelled.
- `get_ready_tasks` can also fail with "Failed to fetch tasks: ...", a catch-all that the model has no way to trigger. It is not modelled.
- YouTubeApi.FormatTimestamp: `%Y` is modelled as four digits, which matches `strftime` only for years 1000 and later.
- The privacy value of a scheduled upload is logged as "set to private" but never changed in the body. The model sends it unchanged, as the code does.
- app/main.py, domain/file_workflow_service.py (every method raises NotImplementedError), the Drive utilities and tests/acceptance/fake_youtube_backend.py are not part of this model.
- The ports' abstract classes are used only for their error taxonomy:
  - RetryableError and PermanentError are MediaUploaderError;
  - ValidationError is a MetadataRepositoryError;
  - `mark_in_progress` is one more scripted call of the media store.
- YouTubeClient.YouTubeUploader.UploadVideo: no parameter has a default. In src/adapters/youtube/uploader.py, `description` defaults to "" and `privacy_status` to "unlisted"; the constructor's `config=None` fallback to `get_config()` (lines 28-35) is not modelled either. The CLI passes every argument and a config, so nothing here depends on those defaults.
- AppConfig.Config: the dataclass is a class, so that the cache returns one and the same object. Dataclass equality by value is not modelled.
- AppConfig.LoadDotenv reads the `.env` file as a given map. Parsing the file is not modelled.

## Findings

| source | as written | input that shows it | evidently intended | confidence | as-written member | corrected member |
|---|---|---|---|---|---|---|
| adapters/youtube_media_uploader.py:194-197 | the FileNotFoundError handler of `publish_media` formats `video_path`. That name is bound only after `get_local_file_path` returns. When that lookup itself raises FileNotFoundError, the handler raises UnboundLocalError, not PermanentError | a media store whose `get_local_file_path(media_ref)` raises FileNotFoundError | PermanentError("Media file not found: <media_ref>") | not executed | YouTubeApi.UnboundPathOnMissingReference | YouTubeApi.PublishMediaCorrected |
