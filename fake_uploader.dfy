/** The scripted media uploader of the acceptance tests
    (tests/acceptance/fake_youtube_uploader.py, `FakeYouTubeUploader`): it
    counts every call, accepts only `.mp4` and `.mov` references, fails on
    demand, and otherwise records the upload under a fresh id. The clock
    is a parameter. */
module FakeUploaders {
  import opened Results
  import opened Strings
  import opened Models
  import FileSystems
  import YouTubeApi

  /** `FakeYouTubeMode`. */
  datatype FakeMode = SuccessPublic | SuccessScheduled | Fail

  /** Index of the last `c` in `s`, or -1: `str.rfind`. */
  function LastIndex(s: string, c: char): (r: int)
    ensures -1 <= r < |s|
    ensures r >= 0 ==> s[r] == c
    ensures forall i :: r < i < |s| ==> s[i] != c
  {
    if s == [] then -1 else if s[|s| - 1] == c then |s| - 1 else LastIndex(s[..|s| - 1], c)
  }

  /** `PurePath.suffix` of a final component: from the last dot on, when
      that dot is neither the first nor the last character; else "". */
  function Suffix(name: string): (r: string)
    ensures r == "" || (|r| >= 2 && r[0] == '.' && '.' !in r[1..])
    ensures |r| < |name| || r == ""
    ensures r == name[|name| - |r|..]
  {
    var i := LastIndex(name, '.');
    if 0 < i < |name| - 1 then
      assert forall k :: 0 <= k < |name[i..][1..]| ==> name[i..][1..][k] == name[i + 1 + k];
      name[i..]
    else ""
  }

  /** A name made of a non-empty stem and a dot-led extension without
      further dots has that extension as its suffix. */
  lemma SuffixOfExtension(stem: string, ext: string)
    requires stem != "" && |ext| >= 2 && ext[0] == '.' && '.' !in ext[1..]
    ensures Suffix(stem + ext) == ext
  {
    var name := stem + ext;
    var i := |stem|;
    assert name[i] == '.';
    forall k | i < k < |name| ensures name[k] != '.' {
      assert name[k] == ext[1..][k - i - 1];
    }
    LastIndexIs(name, '.', i);
    assert name[i..] == ext;
  }

  lemma LastIndexIs(s: string, c: char, i: nat)
    requires i < |s| && s[i] == c && forall k :: i < k < |s| ==> s[k] != c
    ensures LastIndex(s, c) == i
  {
  }

  /** A name with no dot past its first character has no suffix. */
  lemma NoDotNoSuffix(name: string)
    requires forall k :: 0 < k < |name| ==> name[k] != '.'
    ensures Suffix(name) == ""
  {
  }

  /** `Path(media_ref).suffix.lower() in {'.mp4', '.mov'}`. */
  predicate Accepted(mediaRef: string) {
    Lower(Suffix(FileSystems.Name(FileSystems.ParsePath(mediaRef)))) in {".mp4", ".mov"}
  }

  /** `f"fake_{task.task_id}_{self.call_count}"`: an id names the call
      that made it, whatever the task id holds. */
  function MediaId(taskId: string, count: nat): (r: string)
    ensures IdCount(r) == count
  {
    var d := NatToString(count);
    assert "fake_" + taskId + "_" + d == ("fake_" + taskId) + ['_'] + d;
    AfterSeparator("fake_" + taskId, '_', d);
    DecimalValueOfNat(count);
    "fake_" + taskId + "_" + d
  }

  /** What follows the last `c` of `s` (all of `s` when there is none). */
  function After(s: string, c: char): (r: string)
    ensures c !in r
  {
    if s == [] then [] else if s[|s| - 1] == c then [] else After(s[..|s| - 1], c) + [s[|s| - 1]]
  }

  lemma {:induction false} AfterSeparator(p: string, c: char, d: string)
    requires c !in d
    ensures After(p + [c] + d, c) == d
    decreases |d|
  {
    var s := p + [c] + d;
    if d == [] {
      assert s[..|s| - 1] == p;
    } else {
      var d' := d[..|d| - 1];
      assert s[..|s| - 1] == p + [c] + d';
      AfterSeparator(p, c, d');
      assert d == d' + [d[|d| - 1]];
    }
  }

  /** The call number an id ends with: the decimal value of the digits
      after its last underscore (0 when they are not all digits). */
  function IdCount(id: string): nat {
    var t := After(id, '_');
    if forall i :: 0 <= i < |t| ==> IsDigit(t[i]) then DecimalValue(t) else 0
  }

  /** Ids made on different calls differ. */
  lemma MediaIdsDistinct(t1: string, c1: nat, t2: string, c2: nat)
    requires c1 != c2
    ensures MediaId(t1, c1) != MediaId(t2, c2)
  {
  }

  class FakeYouTubeUploader {
    const mode: FakeMode
    var uploadedVideos: map<string, (Task, string)>
    var callCount: nat

    /** Every recorded id was made by one of the calls counted so far. */
    predicate Valid()
      reads this
    {
      forall id :: id in uploadedVideos ==> IdCount(id) <= callCount
    }

    constructor (mode: FakeMode)
      ensures this.mode == mode && uploadedVideos == map[] && callCount == 0
      ensures Valid()
    {
      this.mode := mode;
      uploadedVideos := map[];
      callCount := 0;
    }

    /** `publish_media`: the call is counted first; an unaccepted suffix
        is a PermanentError whatever the mode; FAIL mode is a
        PermanentError; otherwise the upload is recorded under a new id
        and reported SCHEDULED with the task's publish time. */
    method PublishMedia(task: Task, mediaRef: string, now: DateTime)
      returns (r: Result<PublishResult, YouTubeApi.UploadError>)
      requires Valid()
      modifies this
      ensures Valid()
      ensures callCount == old(callCount) + 1
      ensures !Accepted(mediaRef) ==>
        r == Err(YouTubeApi.Permanent("Incorrect media format")) && uploadedVideos == old(uploadedVideos)
      ensures Accepted(mediaRef) && mode == Fail ==>
        && r == Err(YouTubeApi.Permanent("Upload failed (fake): Invalid media format"))
        && uploadedVideos == old(uploadedVideos)
      ensures Accepted(mediaRef) && mode != Fail ==>
        var id := MediaId(task.taskId, callCount);
        && id !in old(uploadedVideos)
        && uploadedVideos == old(uploadedVideos)[id := (task, mediaRef)]
        && r == Ok(ScheduledResult(id, task.publishAt, now))
    {
      callCount := callCount + 1;
      if !Accepted(mediaRef) {
        return Err(YouTubeApi.Permanent("Incorrect media format"));
      }
      if mode == Fail {
        return Err(YouTubeApi.Permanent("Upload failed (fake): Invalid media format"));
      }
      var mediaId := MediaId(task.taskId, callCount);
      uploadedVideos := uploadedVideos[mediaId := (task, mediaRef)];
      r := Ok(ScheduledResult(mediaId, task.publishAt, now));
    }

    /** `upload_thumbnail`: always succeeds and changes nothing. */
    method UploadThumbnail(videoId: string, thumbnailRef: string) returns (ok: bool)
      ensures ok
    {
      ok := true;
    }
  }

  /** A plain file name is its own final component. */
  lemma NameOfPlain(name: string)
    requires FileSystems.ValidPart(name)
    ensures FileSystems.Name(FileSystems.ParsePath(name)) == name
  {
    SplitNoSep(name, '/');
  }

  /** On a plain file name with a dot-led extension, the extension alone
      decides, compared in lower case. */
  lemma ExtensionDecides(stem: string, ext: string)
    requires stem != "" && |ext| >= 2 && ext[0] == '.' && '.' !in ext[1..]
    requires '/' !in stem && '/' !in ext
    ensures Accepted(stem + ext) <==> Lower(ext) in {".mp4", ".mov"}
  {
    var name := stem + ext;
    assert name[0] == stem[0];
    NameOfPlain(name);
    SuffixOfExtension(stem, ext);
  }
}
