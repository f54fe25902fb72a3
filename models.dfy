/** The entity and enum model of domain/models.py: task status, privacy and
    media stage enumerations, the Task record with its defaults, and the
    PublishResult value object. */
module Models {
  import opened Results
  import Strings

  /** Task lifecycle status. The values of domain/models.py plus IN_PROGRESS,
      which the orchestrator and the sheet repository use. */
  datatype TaskStatus = Ready | InProgress | Uploading | Scheduled | Failed | Validated | DryRunOk

  function StatusValue(s: TaskStatus): string {
    match s
    case Ready => "READY"
    case InProgress => "IN_PROGRESS"
    case Uploading => "UPLOADING"
    case Scheduled => "SCHEDULED"
    case Failed => "FAILED"
    case Validated => "VALIDATED"
    case DryRunOk => "DRY_RUN_OK"
  }

  /** `TaskStatus(text)`: exact match on a member's value, `None` where
      Python raises ValueError. */
  function ParseStatus(text: string): (r: Option<TaskStatus>)
    ensures r.Some? ==> StatusValue(r.value) == text
  {
    if text == "READY" then Some(Ready)
    else if text == "IN_PROGRESS" then Some(InProgress)
    else if text == "UPLOADING" then Some(Uploading)
    else if text == "SCHEDULED" then Some(Scheduled)
    else if text == "FAILED" then Some(Failed)
    else if text == "VALIDATED" then Some(Validated)
    else if text == "DRY_RUN_OK" then Some(DryRunOk)
    else None
  }

  /** The status enum is closed: a string coerces exactly when it is one of
      the members' values, and then to that member. */
  lemma StatusClosed(text: string)
    ensures ParseStatus(text).Some? <==> exists s: TaskStatus :: StatusValue(s) == text
    ensures forall s: TaskStatus :: ParseStatus(StatusValue(s)) == Some(s)
  {
    if ParseStatus(text).None? {
      forall s: TaskStatus ensures StatusValue(s) != text {
        match s
        case Ready =>
        case InProgress =>
        case Uploading =>
        case Scheduled =>
        case Failed =>
        case Validated =>
        case DryRunOk =>
      }
    }
  }

  datatype PrivacyStatus = Public | Unlisted | Private

  function PrivacyValue(p: PrivacyStatus): string {
    match p
    case Public => "public"
    case Unlisted => "unlisted"
    case Private => "private"
  }

  function ParsePrivacy(text: string): (r: Option<PrivacyStatus>)
    ensures r.Some? ==> PrivacyValue(r.value) == text
    ensures r.None? <==> text !in {"public", "unlisted", "private"}
  {
    if text == "public" then Some(Public)
    else if text == "unlisted" then Some(Unlisted)
    else if text == "private" then Some(Private)
    else None
  }

  lemma PrivacyRoundTrip(p: PrivacyStatus)
    ensures ParsePrivacy(PrivacyValue(p)) == Some(p)
  {
  }

  /** Physical stage of a media file, distinct from the task status. */
  datatype MediaStage = StageInProgress | StageUploaded

  function StageValue(s: MediaStage): string {
    match s
    case StageInProgress => "IN_PROGRESS"
    case StageUploaded => "UPLOADED"
  }

  lemma StageValuesDistinct(a: MediaStage, b: MediaStage)
    ensures StageValue(a) == StageValue(b) <==> a == b
  {
  }

  /** A point in time as `datetime` holds it; parsing and the clock are
      outside the model and supply these values. */
  datatype DateTime = DateTime(year: nat, month: nat, day: nat,
                               hour: nat, minute: nat, second: nat, microsecond: nat)

  /** A task as the sheet repository builds it. */
  datatype Task = Task(
    taskId: string,
    rowIndex: int,
    mediaReference: string,
    title: string,
    thumbnailReference: Option<string>,
    description: string,
    tags: seq<string>,
    categoryId: string,
    publishAt: Option<DateTime>,
    privacyStatus: PrivacyStatus,
    status: TaskStatus,
    platformMediaId: Option<string>,
    errorMessage: Option<string>,
    attempts: int,
    lastAttemptAt: Option<DateTime>,
    createdAt: Option<DateTime>,
    updatedAt: Option<DateTime>)

  /** A constructor argument for an enum field: the dataclass accepts either a
      member or its string value, and `__post_init__` coerces the string. */
  datatype EnumArg<E> = Member(member: E) | Text(text: string)

  function CoerceStatus(a: EnumArg<TaskStatus>): Option<TaskStatus> {
    match a
    case Member(s) => Some(s)
    case Text(t) => ParseStatus(t)
  }

  function CoercePrivacy(a: EnumArg<PrivacyStatus>): Option<PrivacyStatus> {
    match a
    case Member(p) => Some(p)
    case Text(t) => ParsePrivacy(t)
  }

  /** The dataclass constructor with only the required fields given: every
      other field takes its declared default, and a string status or
      privacy is coerced to the enum or rejected with ValueError. */
  function NewTask(taskId: string, rowIndex: int, mediaReference: string, title: string,
                   status: EnumArg<TaskStatus> := Member(Ready),
                   privacy: EnumArg<PrivacyStatus> := Member(Private)): (r: Result<Task, string>)
    ensures r.Ok? <==> CoerceStatus(status).Some? && CoercePrivacy(privacy).Some?
    ensures r.Ok? ==>
      && r.value.status == CoerceStatus(status).value
      && r.value.privacyStatus == CoercePrivacy(privacy).value
      && r.value.taskId == taskId && r.value.rowIndex == rowIndex
      && r.value.mediaReference == mediaReference && r.value.title == title
    ensures CoerceStatus(status).None? ==>
      r == Err(Strings.Repr(status.text) + " is not a valid TaskStatus")
    ensures CoerceStatus(status).Some? && CoercePrivacy(privacy).None? ==>
      r == Err(Strings.Repr(privacy.text) + " is not a valid PrivacyStatus")
  {
    match (CoerceStatus(status), CoercePrivacy(privacy))
    case (Some(s), Some(p)) =>
      Ok(Task(taskId, rowIndex, mediaReference, title, None, "", [], "22", None, p, s,
              None, None, 0, None, None, None))
    case (None, _) => Err(Strings.Repr(status.text) + " is not a valid TaskStatus")
    case (_, None) => Err(Strings.Repr(privacy.text) + " is not a valid PrivacyStatus")
  }

  /** The declared defaults: empty description and tags, category "22",
      private, READY, no attempts, every optional field unset. */
  lemma TaskDefaults(taskId: string, rowIndex: int, mediaReference: string, title: string)
    ensures NewTask(taskId, rowIndex, mediaReference, title).Ok?
    ensures var t := NewTask(taskId, rowIndex, mediaReference, title).value;
      && t.description == "" && t.tags == [] && t.categoryId == "22"
      && t.privacyStatus == Private && t.status == Ready && t.attempts == 0
      && t.thumbnailReference.None? && t.publishAt.None? && t.platformMediaId.None?
      && t.errorMessage.None? && t.lastAttemptAt.None? && t.createdAt.None? && t.updatedAt.None?
  {
  }

  /** Result of one upload attempt. */
  datatype PublishResult = PublishResult(
    success: bool,
    mediaId: Option<string>,
    status: Option<TaskStatus>,
    publishAt: Option<DateTime>,
    errorMessage: Option<string>,
    uploadTime: Option<DateTime>,
    thumbnailUploaded: bool)

  /** The two shapes of a result the uploaders and the orchestrator build:
      a success carries a media id and the SCHEDULED status and no error;
      a failure carries an error message and no media id, status or
      times. */
  predicate Coherent(r: PublishResult) {
    if r.success then r.mediaId.Some? && r.status == Some(Scheduled) && r.errorMessage.None?
    else r.errorMessage.Some? && r.mediaId.None? && r.status.None? && r.publishAt.None? && r.uploadTime.None?
  }

  /** `PublishResult(success=False, error_message=msg)`: a coherent
      failure carrying `msg`, with no thumbnail uploaded. */
  function FailedResult(msg: string): (r: PublishResult)
    ensures Coherent(r) && !r.success && r.errorMessage == Some(msg) && !r.thumbnailUploaded
  {
    PublishResult(false, None, None, None, Some(msg), None, false)
  }

  /** Conversely, a coherent failure without a thumbnail is the failed
      result of its own message: the constructor's defaults fix the rest. */
  lemma FailedResultUnique(r: PublishResult)
    requires Coherent(r) && !r.success && !r.thumbnailUploaded
    ensures r == FailedResult(r.errorMessage.value)
  {
  }

  /** `PublishResult(success=True, media_id=..., status=SCHEDULED, publish_at=...,
      upload_time=...)`, the shape every uploader returns on success: a
      coherent success with that id, schedule and upload time. */
  function ScheduledResult(mediaId: string, publishAt: Option<DateTime>, uploadTime: DateTime): (r: PublishResult)
    ensures Coherent(r) && r.success && !r.thumbnailUploaded
    ensures r.mediaId == Some(mediaId) && r.publishAt == publishAt && r.uploadTime == Some(uploadTime)
  {
    PublishResult(true, Some(mediaId), Some(Scheduled), publishAt, None, Some(uploadTime), false)
  }

  /** Conversely, a coherent success with an upload time and no thumbnail
      is the scheduled result of its own id, schedule and time. */
  lemma ScheduledResultUnique(r: PublishResult)
    requires Coherent(r) && r.success && r.uploadTime.Some? && !r.thumbnailUploaded
    ensures r == ScheduledResult(r.mediaId.value, r.publishAt, r.uploadTime.value)
  {
  }
}
