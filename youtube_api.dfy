/** The pure parts of the two YouTube Data API adapters:
    adapters/youtube_media_uploader.py (the MediaUploader port) and
    adapters/youtube_backend.py (the older VideoBackend port). Both map an
    HTTP failure to an error class, shape the request body from the task's
    metadata, build the result of a successful upload, map the other
    exceptions, and swallow every thumbnail failure. The API and the file
    system are scripted: each call's answer is an input. */
module YouTubeApi {
  import opened Results
  import opened Models
  import opened Strings

  /** Which port the adapter implements. */
  datatype Port = MediaUploaderPort | VideoBackendPort

  /** An exception the adapter raises: RetryableError and PermanentError,
      or the port's base error class itself (MediaUploaderError,
      VideoBackendError). */
  datatype UploadError =
    | Retryable(message: string)
    | Permanent(message: string)
    | Unexpected(message: string)

  /** An exception raised while the adapter works: an HttpError with its
      status code and body (given decoded; `None` for no body), a
      FileNotFoundError, or any other exception, each with `str(e)`. */
  datatype Raised =
    | HttpError(status: int, content: Option<string>)
    | FileNotFound(text: string)
    | OtherException(text: string)

  /** `RETRYABLE_STATUS_CODES`. */
  const RetryableStatusCodes: set<int> := {429, 500, 502, 503, 504}

  /** The fixed prefix of `permanent_errors`, for the four codes it lists. */
  function PermanentPrefix(port: Port, status: int): (r: Option<string>)
    ensures r.Some? <==> status in {400, 401, 403, 404}
  {
    if status == 400 then
      Some(if port.MediaUploaderPort? then "Invalid request (check media format, metadata)"
           else "Invalid request (check video format, metadata)")
    else if status == 401 then Some("Authentication failed (check credentials)")
    else if status == 403 then Some("Forbidden (check quota, permissions)")
    else if status == 404 then Some("Resource not found")
    else None
  }

  /** `error.content.decode("utf-8") if error.content else ""`. */
  function ContentText(content: Option<string>): string {
    if content.Some? then content.value else ""
  }

  /** `_handle_http_error`: it never returns normally, so its value is the
      exception it raises. */
  function HandleHttpError(port: Port, status: int, content: Option<string>): (e: UploadError)
    ensures !e.Unexpected?
    ensures e.Retryable? <==> status in RetryableStatusCodes
    ensures e.Retryable? ==> e.message == "Temporary error " + IntToString(status) + ": " + ContentText(content)
    ensures e.Permanent? && status in {400, 401, 403, 404} ==>
      e.message == PermanentPrefix(port, status).value + ": " + ContentText(content)
    ensures e.Permanent? && status !in {400, 401, 403, 404} ==>
      e.message == "HTTP error " + IntToString(status) + ": " + ContentText(content)
  {
    var text := ContentText(content);
    if status in RetryableStatusCodes then
      Retryable("Temporary error " + IntToString(status) + ": " + text)
    else
      match PermanentPrefix(port, status)
      case Some(prefix) => Permanent(prefix + ": " + text)
      case None => Permanent("HTTP error " + IntToString(status) + ": " + text)
  }

  /** Every HTTP error message ends with the response body. */
  lemma HttpErrorCarriesBody(port: Port, status: int, content: Option<string>)
    ensures var m := HandleHttpError(port, status, content).message;
      var tail := ": " + ContentText(content);
      |m| >= |tail| && m[|m| - |tail|..] == tail
  {
    var c := ContentText(content);
    var head :=
      if status in RetryableStatusCodes then "Temporary error " + IntToString(status)
      else if status in {400, 401, 403, 404} then PermanentPrefix(port, status).value
      else "HTTP error " + IntToString(status);
    assert HandleHttpError(port, status, content).message == head + ": " + c;
    assert head + ": " + c == head + (": " + c);
    assert (head + (": " + c))[|head|..] == ": " + c;
  }

  /** The two ports classify every status code the same way; their messages
      differ only for 400, where one says "media" and the other "video". */
  lemma PortsAgree(status: int, content: Option<string>)
    ensures var a := HandleHttpError(MediaUploaderPort, status, content);
      var b := HandleHttpError(VideoBackendPort, status, content);
      && (a.Retryable? <==> b.Retryable?) && (a.Permanent? <==> b.Permanent?)
      && (a == b <==> status != 400)
  {
    if status == 400 {
      var a := HandleHttpError(MediaUploaderPort, status, content);
      var b := HandleHttpError(VideoBackendPort, status, content);
      assert a.message[23] == 'm' && b.message[23] == 'v';
    }
  }

  /** Distinct retryable codes give distinct messages, so the code can be
      told from the message. */
  lemma RetryableNamesCode(port: Port, s1: int, s2: int, content: Option<string>)
    requires s1 in RetryableStatusCodes && s2 in RetryableStatusCodes
    requires HandleHttpError(port, s1, content) == HandleHttpError(port, s2, content)
    ensures s1 == s2
  {
    var p, c := "Temporary error ", ContentText(content);
    assert HandleHttpError(port, s1, content).message == p + IntToString(s1) + ": " + c;
    assert HandleHttpError(port, s2, content).message == p + IntToString(s2) + ": " + c;
    CancelAround(p, IntToString(s1), IntToString(s2), ": ", c);
    NatToStringInjective(s1, s2);
  }

  lemma CancelAround(p: string, x: string, y: string, q: string, c: string)
    requires p + x + q + c == p + y + q + c
    ensures x == y
  {
    assert |x| == |y|;
    assert (p + x + q + c)[|p|..|p| + |x|] == x;
    assert (p + y + q + c)[|p|..|p| + |y|] == y;
  }

  // ---- request body ----

  /** A JSON value of the request body. Objects keep their keys in
      insertion order, as Python dicts do. */
  datatype Json =
    | JString(text: string)
    | JList(items: seq<string>)
    | JObject(fields: seq<(string, Json)>)

  function Keys(fields: seq<(string, Json)>): (r: seq<string>)
    ensures |r| == |fields|
    ensures forall i :: 0 <= i < |r| ==> r[i] == fields[i].0
  {
    if fields == [] then [] else [fields[0].0] + Keys(fields[1..])
  }

  /** `d.get(key)`: the value of the first field with that key. */
  function Lookup(fields: seq<(string, Json)>, key: string): Option<Json> {
    if fields == [] then None
    else if fields[0].0 == key then Some(fields[0].1)
    else Lookup(fields[1..], key)
  }

  /** The first field with the key decides the lookup. */
  lemma {:induction false} LookupAt(fields: seq<(string, Json)>, i: nat, key: string)
    requires i < |fields| && fields[i].0 == key
    requires forall j :: 0 <= j < i ==> fields[j].0 != key
    ensures Lookup(fields, key) == Some(fields[i].1)
  {
    if i > 0 {
      LookupAt(fields[1..], i - 1, key);
    }
  }

  /** A key no field has is absent. */
  lemma {:induction false} LookupAbsent(fields: seq<(string, Json)>, key: string)
    requires forall j :: 0 <= j < |fields| ==> fields[j].0 != key
    ensures Lookup(fields, key).None?
  {
    if fields != [] {
      LookupAbsent(fields[1..], key);
    }
  }

  /** The calendar ranges `datetime` enforces, which the format relies on. */
  predicate InRange(d: DateTime) {
    && 1 <= d.year <= 9999 && 1 <= d.month <= 12 && 1 <= d.day <= 31
    && d.hour < 24 && d.minute < 60 && d.second < 60 && d.microsecond < 1000000
  }

  function Pow10(w: nat): nat {
    if w == 0 then 1 else 10 * Pow10(w - 1)
  }

  /** `n` in exactly `w` decimal digits, zero-padded on the left. */
  function Digits(n: nat, w: nat): (r: string)
    ensures |r| == w
    ensures forall i :: 0 <= i < |r| ==> IsDigit(r[i])
  {
    if w == 0 then "" else Digits(n / 10, w - 1) + [DigitChar(n % 10)]
  }

  lemma {:induction false} DigitsValue(n: nat, w: nat)
    requires n < Pow10(w)
    ensures DecimalValue(Digits(n, w)) == n
  {
    if w > 0 {
      DigitsValue(n / 10, w - 1);
      var s := Digits(n, w);
      assert s[..|s| - 1] == Digits(n / 10, w - 1);
    }
  }

  /** `publish_at.strftime("%Y-%m-%dT%H:%M:%S.000Z")`: the fraction is the
      literal ".000", whatever the microseconds. */
  function FormatTimestamp(d: DateTime): (r: string)
    ensures |r| == 24
  {
    Digits(d.year, 4) + "-" + Digits(d.month, 2) + "-" + Digits(d.day, 2) + "T"
      + Digits(d.hour, 2) + ":" + Digits(d.minute, 2) + ":" + Digits(d.second, 2) + ".000Z"
  }

  predicate AllDigits(s: string) {
    forall i :: 0 <= i < |s| ==> IsDigit(s[i])
  }

  /** Reads a timestamp in that format back, to the second. */
  function ParseTimestamp(s: string): (r: Option<DateTime>)
    ensures r.Some? ==> |s| == 24 && s[19..] == ".000Z"
  {
    if |s| == 24 && s[4] == '-' && s[7] == '-' && s[10] == 'T' && s[13] == ':' && s[16] == ':'
       && s[19..] == ".000Z"
       && AllDigits(s[..4]) && AllDigits(s[5..7]) && AllDigits(s[8..10])
       && AllDigits(s[11..13]) && AllDigits(s[14..16]) && AllDigits(s[17..19])
    then
      Some(DateTime(DecimalValue(s[..4]), DecimalValue(s[5..7]), DecimalValue(s[8..10]),
                    DecimalValue(s[11..13]), DecimalValue(s[14..16]), DecimalValue(s[17..19]), 0))
    else None
  }

  /** The format keeps everything but the microseconds. */
  lemma TimestampRoundTrip(d: DateTime)
    requires InRange(d)
    ensures ParseTimestamp(FormatTimestamp(d)) == Some(d.(microsecond := 0))
  {
    var s := FormatTimestamp(d);
    assert s[..4] == Digits(d.year, 4);
    assert s[5..7] == Digits(d.month, 2);
    assert s[8..10] == Digits(d.day, 2);
    assert s[11..13] == Digits(d.hour, 2);
    assert s[14..16] == Digits(d.minute, 2);
    assert s[17..19] == Digits(d.second, 2);
    DigitsValue(d.year, 4);
    DigitsValue(d.month, 2);
    DigitsValue(d.day, 2);
    DigitsValue(d.hour, 2);
    DigitsValue(d.minute, 2);
    DigitsValue(d.second, 2);
  }

  /** The `snippet` object: title, description and category always, tags
      only when the task has some. */
  function Snippet(task: Task): seq<(string, Json)> {
    [("title", JString(task.title)), ("description", JString(task.description)),
     ("categoryId", JString(task.categoryId))]
      + (if task.tags != [] then [("tags", JList(task.tags))] else [])
  }

  /** The `status` object: the task's own privacy value, and `publishAt`
      only when the task is scheduled. The privacy is left as it is even
      for a scheduled task. */
  function StatusObject(task: Task): seq<(string, Json)> {
    [("privacyStatus", JString(PrivacyValue(task.privacyStatus)))]
      + (if task.publishAt.Some? then [("publishAt", JString(FormatTimestamp(task.publishAt.value)))] else [])
  }

  /** `_prepare_metadata`, the same in both adapters. */
  function PrepareMetadata(task: Task): (r: seq<(string, Json)>)
    ensures Keys(r) == ["snippet", "status"] && r[0].1.JObject? && r[1].1.JObject?
  {
    [("snippet", JObject(Snippet(task))), ("status", JObject(StatusObject(task)))]
  }

  /** The keys of the body and of its two objects, in order; the `part`
      argument of the insert call is their comma join. */
  lemma MetadataKeys(task: Task)
    ensures Keys(PrepareMetadata(task)) == ["snippet", "status"]
    ensures Join(Keys(PrepareMetadata(task)), ',') == "snippet,status"
    ensures Keys(Snippet(task)) == ["title", "description", "categoryId"]
                                 + (if task.tags != [] then ["tags"] else [])
    ensures Keys(StatusObject(task)) == ["privacyStatus"] + (if task.publishAt.Some? then ["publishAt"] else [])
  {
    assert Keys(PrepareMetadata(task)) == ["snippet", "status"];
    assert Join(["snippet", "status"], ',') == "snippet" + [','] + Join(["status"], ',');
  }

  /** The metadata the body carries, with the schedule to the second. */
  datatype Metadata = Metadata(
    title: string, description: string, categoryId: string, tags: seq<string>,
    privacy: PrivacyStatus, publishAt: Option<DateTime>)

  function MetadataOf(task: Task): Metadata {
    Metadata(task.title, task.description, task.categoryId, task.tags, task.privacyStatus,
             if task.publishAt.Some? then Some(task.publishAt.value.(microsecond := 0)) else None)
  }

  function StringField(fields: seq<(string, Json)>, key: string): Option<string> {
    match Lookup(fields, key)
    case Some(JString(s)) => Some(s)
    case _ => None
  }

  function ObjectField(fields: seq<(string, Json)>, key: string): Option<seq<(string, Json)>> {
    match Lookup(fields, key)
    case Some(JObject(f)) => Some(f)
    case _ => None
  }

  /** How the API reads a body back: an absent `tags` key means no tags,
      an absent `publishAt` means unscheduled. */
  function ReadMetadata(body: seq<(string, Json)>): Option<Metadata> {
    var snippet := ObjectField(body, "snippet");
    var status := ObjectField(body, "status");
    if snippet.None? || status.None? then None
    else
      var title := StringField(snippet.value, "title");
      var description := StringField(snippet.value, "description");
      var category := StringField(snippet.value, "categoryId");
      var tags := ReadTags(snippet.value);
      var privacy := ReadPrivacy(status.value);
      var publishAt := ReadSchedule(status.value);
      if title.Some? && description.Some? && category.Some? && tags.Some? && privacy.Some? && publishAt.Some?
      then Some(Metadata(title.value, description.value, category.value, tags.value, privacy.value, publishAt.value))
      else None
  }

  function ReadTags(snippet: seq<(string, Json)>): Option<seq<string>> {
    match Lookup(snippet, "tags")
    case None => Some([])
    case Some(JList(ts)) => Some(ts)
    case Some(_) => None
  }

  function ReadPrivacy(status: seq<(string, Json)>): Option<PrivacyStatus> {
    match StringField(status, "privacyStatus")
    case Some(p) => ParsePrivacy(p)
    case None => None
  }

  function ReadSchedule(status: seq<(string, Json)>): Option<Option<DateTime>> {
    match Lookup(status, "publishAt")
    case None => Some(None)
    case Some(JString(s)) => if ParseTimestamp(s).Some? then Some(ParseTimestamp(s)) else None
    case Some(_) => None
  }

  /** The body carries the task's metadata and nothing is lost but the
      microseconds of the schedule. */
  lemma MetadataRoundTrip(task: Task)
    requires task.publishAt.Some? ==> InRange(task.publishAt.value)
    ensures ReadMetadata(PrepareMetadata(task)) == Some(MetadataOf(task))
  {
    var body := PrepareMetadata(task);
    LookupAt(body, 0, "snippet");
    LookupAt(body, 1, "status");
    var snippet := Snippet(task);
    var status := StatusObject(task);
    LookupAt(snippet, 0, "title");
    LookupAt(snippet, 1, "description");
    LookupAt(snippet, 2, "categoryId");
    SnippetTags(task);
    StatusFields(task);
    var m := MetadataOf(task);
    assert ReadTags(snippet) == Some(m.tags);
    assert ReadPrivacy(status) == Some(m.privacy);
    assert ReadSchedule(status) == Some(m.publishAt);
  }

  lemma SnippetTags(task: Task)
    ensures ReadTags(Snippet(task)) == Some(task.tags)
  {
    if task.tags != [] {
      LookupAt(Snippet(task), 3, "tags");
    } else {
      LookupAbsent(Snippet(task), "tags");
    }
  }

  lemma StatusFields(task: Task)
    requires task.publishAt.Some? ==> InRange(task.publishAt.value)
    ensures ReadPrivacy(StatusObject(task)) == Some(task.privacyStatus)
    ensures ReadSchedule(StatusObject(task)) == Some(MetadataOf(task).publishAt)
  {
    var status := StatusObject(task);
    LookupAt(status, 0, "privacyStatus");
    PrivacyRoundTrip(task.privacyStatus);
    if task.publishAt.Some? {
      LookupAt(status, 1, "publishAt");
      TimestampRoundTrip(task.publishAt.value);
    } else {
      LookupAbsent(status, "publishAt");
    }
  }

  // ---- publish and thumbnail ----

  /** The exception mapping of `publish_media`/`publish_video` once the
      file path is known: an HttpError goes through `_handle_http_error`,
      a FileNotFoundError becomes PermanentError naming the path, anything
      else the port's base error. A successful upload gives the SCHEDULED
      result with the schedule echoed from the task. */
  function UploadOutcome(port: Port, task: Task, path: string, reply: Result<string, Raised>, now: DateTime)
    : (r: Result<PublishResult, UploadError>)
    ensures reply.Ok? <==> r.Ok?
    ensures reply.Ok? ==> r.value == ScheduledResult(reply.value, task.publishAt, now)
    ensures reply.Err? && reply.error.HttpError? ==>
      r == Err(HandleHttpError(port, reply.error.status, reply.error.content))
    ensures reply.Err? && reply.error.FileNotFound? ==>
      r == Err(Permanent((if port.MediaUploaderPort? then "Media file not found: " else "Video file not found: ") + path))
    ensures reply.Err? && reply.error.OtherException? ==>
      r == Err(Unexpected((if port.MediaUploaderPort? then "Unexpected error during upload: " else "Upload failed: ")
                          + reply.error.text))
  {
    match reply
    case Ok(id) => Ok(ScheduledResult(id, task.publishAt, now))
    case Err(HttpError(status, content)) => Err(HandleHttpError(port, status, content))
    case Err(FileNotFound(_)) =>
      Err(Permanent((if port.MediaUploaderPort? then "Media file not found: " else "Video file not found: ") + path))
    case Err(OtherException(text)) =>
      Err(Unexpected((if port.MediaUploaderPort? then "Unexpected error during upload: " else "Upload failed: ") + text))
  }

  /** `YouTubeApiBackend.publish_video`: the caller passes the file path. */
  function PublishVideo(task: Task, videoPath: string, reply: Result<string, Raised>, now: DateTime)
    : (r: Result<PublishResult, UploadError>)
    ensures r.Ok? <==> reply.Ok?
    ensures r.Ok? ==> Coherent(r.value) && r.value.mediaId == Some(reply.value) && r.value.publishAt == task.publishAt
    ensures reply.Err? && reply.error.FileNotFound? ==> r == Err(Permanent("Video file not found: " + videoPath))
  {
    UploadOutcome(VideoBackendPort, task, videoPath, reply, now)
  }

  /** `YouTubeMediaUploader.publish_media` as it is written: the media
      store resolves the reference first, inside the same `try`. When that
      resolution raises FileNotFoundError, the handler formats
      `video_path`, which was never bound, so the call ends in
      UnboundLocalError (`None` here) instead of PermanentError. */
  function PublishMediaAsWritten(task: Task, mediaRef: string, resolve: Result<string, Raised>,
                                 reply: Result<string, Raised>, now: DateTime)
    : (r: Option<Result<PublishResult, UploadError>>)
    ensures r.None? <==> resolve.Err? && resolve.error.FileNotFound?
    ensures r.Some? ==> (r.value.Ok? <==> resolve.Ok? && reply.Ok?)
  {
    match resolve
    case Ok(path) => Some(UploadOutcome(MediaUploaderPort, task, path, reply, now))
    case Err(FileNotFound(_)) => None
    case Err(e) => Some(UploadOutcome(MediaUploaderPort, task, mediaRef, Err(e), now))
  }

  /** The input that shows it: a store that raises FileNotFoundError for
      the reference makes the handler itself fail. */
  lemma UnboundPathOnMissingReference(task: Task, mediaRef: string, reply: Result<string, Raised>, now: DateTime)
    ensures PublishMediaAsWritten(task, mediaRef, Err(FileNotFound("missing")), reply, now).None?
  {
  }

  /** `publish_media` with the handler naming the reference when no path
      was resolved: every exception becomes one of the port's errors. */
  function PublishMedia(task: Task, mediaRef: string, resolve: Result<string, Raised>,
                        reply: Result<string, Raised>, now: DateTime)
    : (r: Result<PublishResult, UploadError>)
    ensures r.Ok? <==> resolve.Ok? && reply.Ok?
    ensures r.Ok? ==> Coherent(r.value) && r.value.mediaId == Some(reply.value) && r.value.publishAt == task.publishAt
    ensures resolve.Err? && resolve.error.FileNotFound? ==> r == Err(Permanent("Media file not found: " + mediaRef))
  {
    match resolve
    case Ok(path) => UploadOutcome(MediaUploaderPort, task, path, reply, now)
    case Err(e) => UploadOutcome(MediaUploaderPort, task, mediaRef, Err(e), now)
  }

  /** The corrected mapping agrees with the code wherever the code reaches
      its handlers, a missing reference is a PermanentError naming it, and
      an upload is attempted only once the reference resolved. */
  lemma PublishMediaCorrected(task: Task, mediaRef: string, resolve: Result<string, Raised>,
                              reply: Result<string, Raised>, now: DateTime)
    ensures var r := PublishMedia(task, mediaRef, resolve, reply, now);
      && (PublishMediaAsWritten(task, mediaRef, resolve, reply, now).Some? ==>
            PublishMediaAsWritten(task, mediaRef, resolve, reply, now).value == r)
      && (resolve.Err? && resolve.error.FileNotFound? ==> r == Err(Permanent("Media file not found: " + mediaRef)))
      && (r.Ok? <==> resolve.Ok? && reply.Ok?)
      && (resolve.Err? ==> r == PublishMedia(task, mediaRef, resolve, Ok("unused"), now))
  {
  }

  /** A successful upload reports SCHEDULED with the returned id and the
      task's own schedule, on either port. */
  lemma SuccessResult(port: Port, task: Task, path: string, id: string, now: DateTime)
    ensures var r := UploadOutcome(port, task, path, Ok(id), now);
      && r.Ok? && r.value.success && r.value.mediaId == Some(id)
      && r.value.status == Some(Scheduled) && r.value.publishAt == task.publishAt
  {
  }

  /** An HttpError never yields a result: it is always raised, retryable
      exactly for the retryable codes. */
  lemma HttpErrorRaises(port: Port, task: Task, path: string, status: int, content: Option<string>, now: DateTime)
    ensures var r := UploadOutcome(port, task, path, Err(HttpError(status, content)), now);
      && r.Err? && (r.error.Retryable? <==> status in RetryableStatusCodes) && !r.error.Unexpected?
  {
  }

  /** `upload_thumbnail`: True only when the path resolved and the API call
      returned; every exception is swallowed into False. The backend has
      no resolution step (`resolve` is the path it was given). */
  function UploadThumbnail(resolve: Result<string, Raised>, reply: Result<(), Raised>): (ok: bool)
    ensures ok <==> resolve.Ok? && reply.Ok?
  {
    match resolve
    case Err(_) => false
    case Ok(_) => reply.Ok?
  }
}
