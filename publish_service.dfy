/** The publish orchestrator of domain/services.py (`PublishService`): one
    task at a time it checks the idempotency gate, marks the task
    IN_PROGRESS in the metadata repository, marks its media IN_PROGRESS in
    the media store, then either stops (dry run, no uploader) or makes one
    upload attempt and records the outcome; the batch driver tallies the
    outcomes. The three collaborators are scripted: each call is appended
    to the service's call log and answered by the script according to its
    position in that log. */
module PublishServices {
  import opened Results
  import opened Models
  import AdapterErrors

  /** An exception a collaborator raises, by the class the orchestrator
      tells apart: MetadataRepositoryError (ValidationError included),
      AdapterError, MediaUploaderError (RetryableError and PermanentError
      included), or any other Exception. */
  datatype Fault =
    | MetadataFault(text: string)
    | AdapterFault(error: AdapterErrors.AdapterError)
    | UploaderFault(text: string)
    | OtherFault(text: string)
  {
    /** `str(e)`. */
    function Text(): string {
      match this
      case MetadataFault(t) => t
      case AdapterFault(e) => AdapterErrors.ToString(e)
      case UploaderFault(t) => t
      case OtherFault(t) => t
    }
  }

  /** Python truthiness of an optional string: None and "" are false. */
  predicate Truthy(o: Option<string>) {
    o.Some? && o.value != ""
  }

  /** One collaborator call, with the arguments the orchestrator passes. */
  datatype Call =
    | FetchReadyTasks
    | UpdateStatus(task: Task, status: TaskStatus, videoId: Option<string>, errorMessage: Option<string>)
    | IncrementAttempts(task: Task)
    | MarkInProgress(mediaReference: string)
    | PublishMedia(task: Task, mediaReference: string)
    | UploadThumbnail(mediaId: Option<string>, thumbnailReference: string)

  /** The collaborators' answers, by the number of the call in the log:
      `get_ready_tasks`; the repository writes (`update_task_status` and
      `increment_attempts`), which return nothing or raise; the store's
      `mark_in_progress`; the uploader's `publish_media` and
      `upload_thumbnail`. */
  datatype Script = Script(
    ready: nat -> Result<seq<Task>, Fault>,
    repo: nat -> Option<Fault>,
    store: nat -> Result<string, Fault>,
    upload: nat -> Result<PublishResult, Fault>,
    thumbnail: nat -> Result<bool, Fault>)

  /** What `publish_task` ends with: one of its three return values, or an
      exception it lets escape (one raised by `mark_in_progress` that is
      not an AdapterError). */
  datatype TaskOutcome = Skipped | Succeeded | TaskFailed | Escaped(fault: Fault)

  /** One `publish_task` call as a value: how it ended, the task after it
      (only `media_reference` may differ) and the calls it made, in order. */
  datatype Run = Run(outcome: TaskOutcome, task: Task, calls: seq<Call>)

  /** `_upload_media`'s result for what `publish_media` did: its own result,
      or a failed result built from the exception. */
  function UploadResult(reply: Result<PublishResult, Fault>): (r: PublishResult)
    ensures reply.Ok? ==> r == reply.value
    ensures reply.Err? ==> Coherent(r) && !r.success && !r.thumbnailUploaded
    ensures reply.Err? ==>
      var m := r.errorMessage.value;
      var t := reply.error.Text();
      |t| <= |m| && m[|m| - |t|..] == t
    ensures reply.Err? ==> (r.errorMessage == Some(reply.error.Text()) <==> reply.error.UploaderFault?)
    ensures reply.Err? && !reply.error.UploaderFault? ==>
      r.errorMessage == Some("Unexpected error during upload: " + reply.error.Text())
  {
    match reply
    case Ok(p) => p
    case Err(f) =>
      if f.UploaderFault? then FailedResult(f.Text())
      else FailedResult("Unexpected error during upload: " + f.Text())
  }

  /** `result.error_message or "Unknown error"`. */
  function FailureText(r: PublishResult): (m: string)
    ensures m != ""
    ensures Truthy(r.errorMessage) ==> m == r.errorMessage.value
    ensures !Truthy(r.errorMessage) ==> m == "Unknown error"
  {
    if Truthy(r.errorMessage) then r.errorMessage.value else "Unknown error"
  }

  /** The message written when the IN_PROGRESS write raised. */
  function ProgressFailureText(f: Fault): string {
    if f.MetadataFault? then "Failed to mark task as IN_PROGRESS in metadata repository: " + f.Text()
    else "Unexpected error marking task as IN_PROGRESS: " + f.Text()
  }

  /** `_mark_failed`'s one write. */
  function FailedWrite(task: Task, message: string): Call {
    UpdateStatus(task, Failed, None, Some(message))
  }

  /** `publish_task` as a value, its first call being call number `n`. */
  function PublishRun(sc: Script, dryRun: bool, hasUploader: bool, task: Task, n: nat): (r: Run)
    ensures r.outcome.Skipped? <==> Truthy(task.platformMediaId)
    ensures r.outcome.Skipped? ==> r.calls == [] && r.task == task
    ensures !r.outcome.Skipped? ==> |r.calls| >= 2 && r.calls[0] == UpdateStatus(task, InProgress, None, None)
    ensures r.task == task.(mediaReference := r.task.mediaReference)
  {
    if Truthy(task.platformMediaId) then Run(Skipped, task, [])
    else
      var progress := UpdateStatus(task, InProgress, None, None);
      match sc.repo(n)
      case Some(f) => Run(TaskFailed, task, [progress, FailedWrite(task, ProgressFailureText(f))])
      case None =>
        var mark := MarkInProgress(task.mediaReference);
        match sc.store(n + 1)
        case Err(f) =>
          if f.AdapterFault? then
            Run(TaskFailed, task, [progress, mark,
                FailedWrite(task, "Failed to mark media as IN_PROGRESS: " + f.Text())])
          else Run(Escaped(f), task, [progress, mark])
        case Ok(ref) =>
          var t := task.(mediaReference := ref);
          if dryRun || !hasUploader then
            Run(Succeeded, t, [progress, mark, UpdateStatus(t, DryRunOk, None, None)])
          else
            var a := AttemptRun(sc, t, n + 2);
            Run(a.outcome, t, [progress, mark] + a.calls)
  }

  /** The upload attempt of a staged task, its first call (the attempts
      increment) being call number `n`. */
  function AttemptRun(sc: Script, t: Task, n: nat): (r: Run)
    ensures r.task == t
    ensures r.outcome.Succeeded? <==> UploadResult(sc.upload(n + 1)).success
    ensures r.outcome.Succeeded? || r.outcome.TaskFailed?
    ensures |r.calls| >= 3 && r.calls[0] == IncrementAttempts(t) && r.calls[1] == PublishMedia(t, t.mediaReference)
  {
    var attempt := [IncrementAttempts(t), PublishMedia(t, t.mediaReference)];
    var result := UploadResult(sc.upload(n + 1));
    if result.success then
      var thumb := if Truthy(t.thumbnailReference)
                   then [UploadThumbnail(result.mediaId, t.thumbnailReference.value)] else [];
      Run(Succeeded, t, attempt + thumb + [UpdateStatus(t, Scheduled, result.mediaId, None)])
    else
      Run(TaskFailed, t, attempt + [FailedWrite(t, FailureText(result))])
  }

  /** The batch counters of `publish_all_ready_tasks`. */
  datatype Stats = Stats(processed: nat, succeeded: nat, failed: nat, skipped: nat)

  /** The counters after these runs: every run is processed; an escaped
      exception counts as failed. */
  function Tally(runs: seq<Run>): Stats
    decreases |runs|
  {
    if runs == [] then Stats(0, 0, 0, 0)
    else
      var s := Tally(runs[..|runs| - 1]);
      match runs[|runs| - 1].outcome
      case Skipped => s.(processed := s.processed + 1, skipped := s.skipped + 1)
      case Succeeded => s.(processed := s.processed + 1, succeeded := s.succeeded + 1)
      case _ => s.(processed := s.processed + 1, failed := s.failed + 1)
  }

  /** The calls of these runs, one run after the other. */
  function AllCalls(runs: seq<Run>): seq<Call>
    decreases |runs|
  {
    if runs == [] then [] else AllCalls(runs[..|runs| - 1]) + runs[|runs| - 1].calls
  }

  /** `publish_task` as the step of the batch loop: the run of a task
      whose first call is call number `n`. */
  function Publisher(sc: Script, dryRun: bool, hasUploader: bool): (Task, nat) -> Run {
    (task: Task, n: nat) => PublishRun(sc, dryRun, hasUploader, task, n)
  }

  /** The runs of the batch loop over `tasks` with `step` per task, the
      first call of the first being call number `n`; each run starts where
      the previous one ended. */
  function RunAll(step: (Task, nat) -> Run, tasks: seq<Task>, n: nat): (r: seq<Run>)
    ensures |r| == |tasks|
    decreases |tasks|
  {
    if tasks == [] then []
    else
      var k := |tasks| - 1;
      Extend(step, RunAll(step, tasks[..k], n), tasks[k], n)
  }

  /** The runs so far and the run of one more task, which starts where the
      calls so far end. */
  function Extend(step: (Task, nat) -> Run, runs: seq<Run>, task: Task, n: nat): seq<Run> {
    runs + [step(task, n + |AllCalls(runs)|)]
  }

  /** One more task of the batch: one more run, starting where the calls
      so far end. */
  lemma RunAllStep(step: (Task, nat) -> Run, tasks: seq<Task>, i: nat, n: nat)
    requires i < |tasks|
    ensures RunAll(step, tasks[..i + 1], n) == Extend(step, RunAll(step, tasks[..i], n), tasks[i], n)
  {
    var t := tasks[..i + 1];
    assert t[..|t| - 1] == tasks[..i];
  }

  /** One more run, starting where the calls so far end. */
  lemma ExtendStep(step: (Task, nat) -> Run, runs: seq<Run>, task: Task, n: nat)
    ensures Extend(step, runs, task, n) == runs + [step(task, n + |AllCalls(runs)|)]
  {
  }

  lemma PublisherApply(sc: Script, dryRun: bool, hasUploader: bool, task: Task, n: nat)
    ensures Publisher(sc, dryRun, hasUploader)(task, n) == PublishRun(sc, dryRun, hasUploader, task, n)
  {
  }

  /** The log after one more run. */
  lemma LogStep(start: seq<Call>, runs: seq<Run>, run: Run, before: seq<Call>, after: seq<Call>)
    requires before == start + AllCalls(runs) && after == before + run.calls
    ensures after == start + AllCalls(runs + [run])
  {
    assert (runs + [run])[..|runs|] == runs;
  }

  lemma TallyStep(runs: seq<Run>, run: Run)
    ensures var s := Tally(runs);
      Tally(runs + [run]) == match run.outcome
        case Skipped => s.(processed := s.processed + 1, skipped := s.skipped + 1)
        case Succeeded => s.(processed := s.processed + 1, succeeded := s.succeeded + 1)
        case _ => s.(processed := s.processed + 1, failed := s.failed + 1)
  {
    assert (runs + [run])[..|runs|] == runs;
  }

  /** Every fetched task is processed, and lands in exactly one counter. */
  lemma {:induction false} TallyCounts(runs: seq<Run>)
    ensures Tally(runs).processed == |runs|
    ensures Tally(runs).processed == Tally(runs).succeeded + Tally(runs).failed + Tally(runs).skipped
    decreases |runs|
  {
    if runs != [] {
      TallyCounts(runs[..|runs| - 1]);
    }
  }

  /** The number of tasks whose platform id is set. */
  function CountUploaded(tasks: seq<Task>): nat
    decreases |tasks|
  {
    if tasks == [] then 0
    else CountUploaded(tasks[..|tasks| - 1]) + if Truthy(tasks[|tasks| - 1].platformMediaId) then 1 else 0
  }

  /** Run `k` of the batch is `publish_task` on task `k`, started where
      the runs before it ended. */
  lemma {:induction false} RunAllAt(step: (Task, nat) -> Run, tasks: seq<Task>, n: nat, k: nat)
    requires k < |tasks|
    ensures var runs := RunAll(step, tasks, n);
      runs[k] == step(tasks[k], n + |AllCalls(runs[..k])|)
    decreases |tasks|
  {
    var m := |tasks| - 1;
    var before := RunAll(step, tasks[..m], n);
    var runs := RunAll(step, tasks, n);
    if k < m {
      RunAllAt(step, tasks[..m], n, k);
      assert runs[..k] == before[..k];
    } else {
      assert runs[..k] == before;
    }
  }

  /** Runs whose outcome is Skipped exactly for the tasks carrying a
      platform id have as many skips as such tasks. */
  lemma {:induction false} SkippedTally(runs: seq<Run>, tasks: seq<Task>)
    requires |runs| == |tasks|
    requires forall k :: 0 <= k < |runs| ==> (runs[k].outcome.Skipped? <==> Truthy(tasks[k].platformMediaId))
    ensures Tally(runs).skipped == CountUploaded(tasks)
    decreases |runs|
  {
    if runs != [] {
      var m := |runs| - 1;
      SkippedTally(runs[..m], tasks[..m]);
    }
  }

  lemma SkippedAt(sc: Script, dryRun: bool, hasUploader: bool, tasks: seq<Task>, n: nat, k: nat)
    requires k < |tasks|
    ensures var runs := RunAll(Publisher(sc, dryRun, hasUploader), tasks, n);
      runs[k].outcome.Skipped? <==> Truthy(tasks[k].platformMediaId)
  {
    var runs := RunAll(Publisher(sc, dryRun, hasUploader), tasks, n);
    RunAllAt(Publisher(sc, dryRun, hasUploader), tasks, n, k);
    PublisherSkips(sc, dryRun, hasUploader, tasks[k], n + |AllCalls(runs[..k])|);
  }

  lemma PublisherSkips(sc: Script, dryRun: bool, hasUploader: bool, task: Task, n: nat)
    ensures Publisher(sc, dryRun, hasUploader)(task, n).outcome.Skipped? <==> Truthy(task.platformMediaId)
  {
    SkipGate(sc, dryRun, hasUploader, task, n);
  }

  /** The skipped counter counts exactly the tasks that already carry a
      platform id, whatever the collaborators answer. */
  lemma SkippedCount(sc: Script, dryRun: bool, hasUploader: bool, tasks: seq<Task>, n: nat)
    ensures Tally(RunAll(Publisher(sc, dryRun, hasUploader), tasks, n)).skipped == CountUploaded(tasks)
  {
    var runs := RunAll(Publisher(sc, dryRun, hasUploader), tasks, n);
    forall k | 0 <= k < |runs|
      ensures runs[k].outcome.Skipped? <==> Truthy(tasks[k].platformMediaId)
    {
      SkippedAt(sc, dryRun, hasUploader, tasks, n, k);
    }
    SkippedTally(runs, tasks);
  }

  /** No `publish_media` call in a log. */
  predicate NoUpload(calls: seq<Call>) {
    forall i :: 0 <= i < |calls| ==> !calls[i].PublishMedia?
  }

  /** At most one `publish_media` call in a log. */
  predicate AtMostOneUpload(calls: seq<Call>) {
    forall i, j :: 0 <= i < j < |calls| && calls[i].PublishMedia? ==> !calls[j].PublishMedia?
  }

  /** Idempotency gate: a task is skipped exactly when it already has a
      platform id, and then no collaborator is called. */
  lemma SkipGate(sc: Script, dryRun: bool, hasUploader: bool, task: Task, n: nat)
    ensures var r := PublishRun(sc, dryRun, hasUploader, task, n);
      && (r.outcome.Skipped? <==> Truthy(task.platformMediaId))
      && (r.outcome.Skipped? ==> r.calls == [] && r.task == task)
  {
  }

  /** A task that is not skipped is first marked IN_PROGRESS in the
      repository; the media store is called only after that write
      succeeded, and when it raised the task fails with the uploader and
      the store never called. */
  lemma ProgressFirst(sc: Script, dryRun: bool, hasUploader: bool, task: Task, n: nat)
    requires !Truthy(task.platformMediaId)
    ensures var r := PublishRun(sc, dryRun, hasUploader, task, n);
      && |r.calls| >= 2
      && r.calls[0] == UpdateStatus(task, InProgress, None, None)
      && (sc.repo(n).None? ==> r.calls[1] == MarkInProgress(task.mediaReference))
      && (sc.repo(n).Some? ==>
            && r.outcome == TaskFailed
            && r.calls == [r.calls[0], FailedWrite(task, ProgressFailureText(sc.repo(n).value))]
            && forall i :: 0 <= i < |r.calls| ==> !r.calls[i].MarkInProgress? && !r.calls[i].PublishMedia?)
  {
  }

  /** An AdapterError from the media store fails the task with a FAILED
      write whose message names the stage mark; the uploader is never
      called. Any other exception escapes `publish_task`. */
  lemma StageFailure(sc: Script, dryRun: bool, hasUploader: bool, task: Task, n: nat)
    requires !Truthy(task.platformMediaId) && sc.repo(n).None? && sc.store(n + 1).Err?
    ensures var r := PublishRun(sc, dryRun, hasUploader, task, n);
      var f := sc.store(n + 1).error;
      && (f.AdapterFault? ==>
            && r.outcome == TaskFailed
            && r.calls[|r.calls| - 1] == FailedWrite(task, "Failed to mark media as IN_PROGRESS: " + f.Text()))
      && (!f.AdapterFault? ==> r.outcome == Escaped(f))
      && NoUpload(r.calls)
  {
  }

  /** In a dry run, or without an uploader, a staged task succeeds after a
      DRY_RUN_OK write, whatever that write does, and nothing is uploaded. */
  lemma DryRunNoUpload(sc: Script, dryRun: bool, hasUploader: bool, task: Task, n: nat)
    requires dryRun || !hasUploader
    requires !Truthy(task.platformMediaId) && sc.repo(n).None? && sc.store(n + 1).Ok?
    ensures var r := PublishRun(sc, dryRun, hasUploader, task, n);
      && r.outcome == Succeeded
      && r.calls[|r.calls| - 1] == UpdateStatus(r.task, DryRunOk, None, None)
      && forall i :: 0 <= i < |r.calls| ==> !r.calls[i].PublishMedia? && !r.calls[i].UploadThumbnail?
  {
  }

  /** One upload attempt: a task reaches the uploader at most once, after
      one attempts increment, with the media reference the store
      returned. */
  lemma SingleAttempt(sc: Script, dryRun: bool, hasUploader: bool, task: Task, n: nat)
    ensures var r := PublishRun(sc, dryRun, hasUploader, task, n);
      AtMostOneUpload(r.calls)
    ensures var r := PublishRun(sc, dryRun, hasUploader, task, n);
      && !Truthy(task.platformMediaId) && sc.repo(n).None? && sc.store(n + 1).Ok? && !dryRun && hasUploader
      ==> && r.calls[2] == IncrementAttempts(r.task)
          && r.calls[3] == PublishMedia(r.task, sc.store(n + 1).value)
          && r.task.mediaReference == sc.store(n + 1).value
  {
  }

  /** After a successful upload the thumbnail is sent exactly when the task
      has a thumbnail, the SCHEDULED write carries the upload's media id,
      and the task succeeds whatever the thumbnail upload and that write
      answer. */
  lemma SuccessPath(sc: Script, dryRun: bool, hasUploader: bool, task: Task, n: nat)
    requires !Truthy(task.platformMediaId) && sc.repo(n).None? && sc.store(n + 1).Ok? && !dryRun && hasUploader
    requires UploadResult(sc.upload(n + 3)).success
    ensures var r := PublishRun(sc, dryRun, hasUploader, task, n);
      var result := UploadResult(sc.upload(n + 3));
      && r.outcome == Succeeded
      && r.calls[|r.calls| - 1] == UpdateStatus(r.task, Scheduled, result.mediaId, None)
      && (|r.calls| == 6 <==> Truthy(task.thumbnailReference))
      && (Truthy(task.thumbnailReference) ==>
            r.calls[4] == UploadThumbnail(result.mediaId, task.thumbnailReference.value))
  {
  }

  /** An unsuccessful upload, or one that raised, fails the task with a
      FAILED write of the result's message, or "Unknown error". */
  lemma FailurePath(sc: Script, dryRun: bool, hasUploader: bool, task: Task, n: nat)
    requires !Truthy(task.platformMediaId) && sc.repo(n).None? && sc.store(n + 1).Ok? && !dryRun && hasUploader
    requires !UploadResult(sc.upload(n + 3)).success
    ensures var r := PublishRun(sc, dryRun, hasUploader, task, n);
      && r.outcome == TaskFailed
      && r.calls[|r.calls| - 1] == FailedWrite(r.task, FailureText(UploadResult(sc.upload(n + 3))))
      && |r.calls| == 5
  {
  }

  /** `publish_task` assigns no field of the task but `media_reference`. */
  lemma OnlyMediaReference(sc: Script, dryRun: bool, hasUploader: bool, task: Task, n: nat)
    ensures var r := PublishRun(sc, dryRun, hasUploader, task, n);
      r.task == task.(mediaReference := r.task.mediaReference)
  {
  }

  /** The outcome of a task depends on no answer that the orchestrator
      swallows: two scripts that agree on the IN_PROGRESS write, the stage
      mark and the upload give the same outcome and the same task, whatever
      the attempts increment, the thumbnail upload and the later writes
      answer. */
  lemma SwallowedAnswers(a: Script, b: Script, dryRun: bool, hasUploader: bool, task: Task, n: nat)
    requires a.repo(n) == b.repo(n) && a.store(n + 1) == b.store(n + 1) && a.upload(n + 3) == b.upload(n + 3)
    ensures PublishRun(a, dryRun, hasUploader, task, n) == PublishRun(b, dryRun, hasUploader, task, n)
  {
  }

  class PublishService {
    const script: Script
    /** `max_retries`: stored and never read. */
    const maxRetries: int
    const dryRun: bool
    /** Whether `media_uploader` is not None. */
    const hasUploader: bool
    /** Every collaborator call made, in order. */
    var calls: seq<Call>

    constructor(script: Script, maxRetries: int, dryRun: bool, hasUploader: bool)
      ensures this.script == script && this.maxRetries == maxRetries
      ensures this.dryRun == dryRun && this.hasUploader == hasUploader
      ensures calls == []
    {
      this.script := script;
      this.maxRetries := maxRetries;
      this.dryRun := dryRun;
      this.hasUploader := hasUploader;
      calls := [];
    }

    method RepoFetch() returns (r: Result<seq<Task>, Fault>)
      modifies this`calls
      ensures calls == old(calls) + [FetchReadyTasks] && r == script.ready(|old(calls)|)
    {
      r := script.ready(|calls|);
      calls := calls + [FetchReadyTasks];
    }

    method RepoUpdate(task: Task, status: TaskStatus, videoId: Option<string>, errorMessage: Option<string>)
      returns (f: Option<Fault>)
      modifies this`calls
      ensures calls == old(calls) + [UpdateStatus(task, status, videoId, errorMessage)]
      ensures f == script.repo(|old(calls)|)
    {
      f := script.repo(|calls|);
      calls := calls + [UpdateStatus(task, status, videoId, errorMessage)];
    }

    method RepoIncrement(task: Task) returns (f: Option<Fault>)
      modifies this`calls
      ensures calls == old(calls) + [IncrementAttempts(task)] && f == script.repo(|old(calls)|)
    {
      f := script.repo(|calls|);
      calls := calls + [IncrementAttempts(task)];
    }

    method StoreMark(mediaReference: string) returns (r: Result<string, Fault>)
      modifies this`calls
      ensures calls == old(calls) + [MarkInProgress(mediaReference)] && r == script.store(|old(calls)|)
    {
      r := script.store(|calls|);
      calls := calls + [MarkInProgress(mediaReference)];
    }

    method UploaderPublish(task: Task, mediaReference: string) returns (r: Result<PublishResult, Fault>)
      modifies this`calls
      ensures calls == old(calls) + [PublishMedia(task, mediaReference)] && r == script.upload(|old(calls)|)
    {
      r := script.upload(|calls|);
      calls := calls + [PublishMedia(task, mediaReference)];
    }

    method UploaderThumbnail(mediaId: Option<string>, thumbnailReference: string) returns (r: Result<bool, Fault>)
      modifies this`calls
      ensures calls == old(calls) + [UploadThumbnail(mediaId, thumbnailReference)]
      ensures r == script.thumbnail(|old(calls)|)
    {
      r := script.thumbnail(|calls|);
      calls := calls + [UploadThumbnail(mediaId, thumbnailReference)];
    }

    /** `_mark_failed`: one FAILED write; whatever it raises is swallowed. */
    method MarkFailed(task: Task, message: string)
      modifies this`calls
      ensures calls == old(calls) + [FailedWrite(task, message)]
    {
      var _ := RepoUpdate(task, Failed, None, Some(message));
    }

    /** `_upload_media`: the attempts increment, its failure ignored, then
      one `publish_media` call; an exception becomes a failed result. */
    method UploadMedia(task: Task) returns (result: PublishResult)
      modifies this`calls
      ensures calls == old(calls) + [IncrementAttempts(task), PublishMedia(task, task.mediaReference)]
      ensures result == UploadResult(script.upload(|old(calls)| + 1))
    {
      var _ := RepoIncrement(task);
      var reply := UploaderPublish(task, task.mediaReference);
      match reply
      case Ok(p) =>
        result := p;
      case Err(f) =>
        if f.UploaderFault? {
          result := FailedResult(f.Text());
        } else {
          result := FailedResult("Unexpected error during upload: " + f.Text());
        }
    }

    /** `_upload_thumbnail`: best effort, only for a truthy thumbnail. */
    method UploadThumbnailFor(task: Task, mediaId: Option<string>)
      modifies this`calls
      ensures calls == old(calls) + if Truthy(task.thumbnailReference)
        then [UploadThumbnail(mediaId, task.thumbnailReference.value)] else []
    {
      if !Truthy(task.thumbnailReference) {
        return;
      }
      var _ := UploaderThumbnail(mediaId, task.thumbnailReference.value);
    }

    /** `publish_task`; the task it returns is the caller's task after the
      assignment of `media_reference`. */
    method PublishTask(task: Task) returns (outcome: TaskOutcome, t: Task)
      modifies this`calls
      ensures var r := PublishRun(script, dryRun, hasUploader, task, |old(calls)|);
        outcome == r.outcome && t == r.task && calls == old(calls) + r.calls
    {
      ghost var n := |calls|;
      ghost var progressCall := UpdateStatus(task, InProgress, None, None);
      t := task;
      if Truthy(task.platformMediaId) {
        return Skipped, t;
      }
      var progress := RepoUpdate(task, InProgress, None, None);
      if progress.Some? {
        MarkFailed(task, ProgressFailureText(progress.value));
        assert script.repo(n) == progress;
        return TaskFailed, t;
      }
      ghost var markCall := MarkInProgress(task.mediaReference);
      var staged := StoreMark(task.mediaReference);
      assert script.repo(n).None? && script.store(n + 1) == staged;
      if staged.Err? {
        if staged.error.AdapterFault? {
          MarkFailed(task, "Failed to mark media as IN_PROGRESS: " + staged.error.Text());
          return TaskFailed, t;
        }
        return Escaped(staged.error), t;
      }
      t := t.(mediaReference := staged.value);
      if dryRun || !hasUploader {
        var _ := RepoUpdate(t, DryRunOk, None, None);
        return Succeeded, t;
      }
      assert calls == old(calls) + [progressCall, markCall];
      outcome := Attempt(t);
    }

    /** The upload branch of `publish_task`, after staging. */
    method Attempt(t: Task) returns (outcome: TaskOutcome)
      modifies this`calls
      ensures var a := AttemptRun(script, t, |old(calls)|);
        outcome == a.outcome && calls == old(calls) + a.calls
    {
      var result := UploadMedia(t);
      if result.success {
        UploadThumbnailFor(t, result.mediaId);
        var _ := RepoUpdate(t, Scheduled, result.mediaId, None);
        return Succeeded;
      }
      MarkFailed(t, FailureText(result));
      return TaskFailed;
    }

    /** Task `i` of the batch loop, as the next run after `runs`. */
    method PublishNext(tasks: seq<Task>, i: nat, ghost start: seq<Call>, ghost runs: seq<Run>)
      returns (outcome: TaskOutcome, ghost run: Run)
      modifies this`calls
      requires i < |tasks| && calls == start + AllCalls(runs)
      ensures runs + [run] == Extend(Publisher(script, dryRun, hasUploader), runs, tasks[i], |start|)
      ensures outcome == run.outcome && calls == start + AllCalls(runs + [run])
    {
      ghost var before := calls;
      ghost var n := |before|;
      assert n == |start| + |AllCalls(runs)|;
      run := PublishRun(script, dryRun, hasUploader, tasks[i], n);
      var after;
      outcome, after := PublishTask(tasks[i]);
      assert outcome == run.outcome && calls == before + run.calls;
      LogStep(start, runs, run, before, calls);
      ExtendStep(Publisher(script, dryRun, hasUploader), runs, tasks[i], |start|);
      PublisherApply(script, dryRun, hasUploader, tasks[i], n);
    }

    /** `publish_all_ready_tasks`: the fetch, whose exception propagates,
      then every task in order, each counted once. */
    method PublishAllReadyTasks() returns (r: Result<Stats, Fault>)
      modifies this`calls
      ensures match script.ready(|old(calls)|)
        case Err(f) => r == Err(f) && calls == old(calls) + [FetchReadyTasks]
        case Ok(tasks) =>
          var runs := RunAll(Publisher(script, dryRun, hasUploader), tasks, |old(calls)| + 1);
          r == Ok(Tally(runs)) && calls == old(calls) + [FetchReadyTasks] + AllCalls(runs)
    {
      var fetched := RepoFetch();
      if fetched.Err? {
        return Err(fetched.error);
      }
      var tasks := fetched.value;
      ghost var start := calls;
      ghost var runs: seq<Run> := [];
      var stats := Stats(0, 0, 0, 0);
      var i := 0;
      while i < |tasks|
        invariant 0 <= i <= |tasks|
        invariant runs == RunAll(Publisher(script, dryRun, hasUploader), tasks[..i], |start|)
        invariant calls == start + AllCalls(runs)
        invariant stats == Tally(runs)
      {
        var outcome;
        ghost var run;
        outcome, run := PublishNext(tasks, i, start, runs);
        RunAllStep(Publisher(script, dryRun, hasUploader), tasks, i, |start|);
        TallyStep(runs, run);
        if outcome.Skipped? {
          stats := stats.(processed := stats.processed + 1, skipped := stats.skipped + 1);
        } else if outcome.Succeeded? {
          stats := stats.(processed := stats.processed + 1, succeeded := stats.succeeded + 1);
        } else {
          stats := stats.(processed := stats.processed + 1, failed := stats.failed + 1);
        }
        runs := runs + [run];
        i := i + 1;
      }
      assert tasks[..i] == tasks;
      return Ok(stats);
    }
  }
}
