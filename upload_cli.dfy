/** The command-line entry point of src/cli/upload_video.py: it splits the
    `--tags` option into a list, makes one upload, and turns the outcome
    into printed lines and an exit status. Argument parsing itself is
    outside the model: it starts from the parsed options. */
module UploadCli {
  import opened Results
  import opened Strings
  import AppConfig
  import YouTubeClient

  /** The parsed options. */
  datatype Args = Args(file: string, title: string, description: string, tags: Option<string>,
                       privacyStatus: string)

  /** `tags = None; if args.tags: tags = [t.strip() for t in args.tags.split(",") if t.strip()]`. */
  function ParseTags(arg: Option<string>): (r: Option<seq<string>>)
    ensures r.None? <==> arg.None? || arg.value == ""
    ensures r.Some? ==> forall t :: t in r.value ==> t != "" && Stripped(t) && ',' !in t
  {
    if arg.None? || arg.value == "" then None else Some(SplitStripped(arg.value, ','))
  }

  /** A list of clean tags survives being written comma-separated and
      split again. */
  lemma TagsRoundTrip(tags: seq<string>)
    requires tags != []
    requires forall t :: t in tags ==> t != "" && Stripped(t) && ',' !in t
    ensures ParseTags(Some(Join(tags, ','))) == Some(tags)
  {
    SplitJoin(tags, ',');
    JoinNonEmpty(tags, ',');
    StripPiecesOfClean(tags);
  }

  lemma JoinNonEmpty(parts: seq<string>, sep: char)
    requires parts != [] && parts[0] != ""
    ensures Join(parts, sep) != ""
  {
  }

  lemma {:induction false} StripPiecesOfClean(ts: seq<string>)
    requires forall t :: t in ts ==> t != "" && Stripped(t)
    ensures StripPieces(ts) == ts
  {
    if ts != [] {
      assert ts[0] in ts;
      StripStripped(ts[0]);
      assert forall t :: t in ts[1..] ==> t in ts;
      StripPiecesOfClean(ts[1..]);
      assert ts == [ts[0]] + ts[1..];
    }
  }

  /** What `main` prints and how it exits. */
  datatype Exit = Exit(stdout: seq<string>, stderr: seq<string>, status: int)

  /** The reporting of `main`: the id and the watch link on success and a
      normal exit; one error line and status 1 for any exception, worded
      "Error:" for FileNotFoundError and ValueError and "Unexpected
      error:" otherwise. */
  function Report(outcome: Result<string, YouTubeClient.ClientError>): (e: Exit)
    ensures e.status == 0 <==> outcome.Ok?
    ensures e.status == 0 || e.status == 1
    ensures outcome.Ok? ==> e.stderr == [] && |e.stdout| == 2
    ensures outcome.Err? ==> e.stdout == [] && |e.stderr| == 1
  {
    match outcome
    case Ok(id) =>
      Exit(["Uploaded video successfully. id=" + id, "Watch at: https://youtube.com/watch?v=" + id], [], 0)
    case Err(err) =>
      if err.FileNotFoundError? || err.ValueError? then Exit([], ["Error: " + err.text], 1)
      else Exit([], ["Unexpected error: " + err.text], 1)
  }

  /** The two lines of a success name the returned id. */
  lemma SuccessNamesId(id: string)
    ensures var e := Report(Ok(id));
      && e.stdout[0] == "Uploaded video successfully. id=" + id
      && e.stdout[1] == "Watch at: https://youtube.com/watch?v=" + id
  {
  }

  /** `main`: the config from the cache, a fresh uploader over it, one
      upload with the split tags, and the report. The uploader's world
      (existing paths, credential outcome, API answers) is scripted. */
  method RunMain(args: Args, cache: AppConfig.ConfigCache, env: AppConfig.Env, dotenv: AppConfig.Env,
                 existing: set<string>, credentials: Result<(), YouTubeClient.ClientError>,
                 replies: nat -> Result<string, YouTubeClient.ClientError>)
    returns (e: Exit, uploader: YouTubeClient.YouTubeUploader)
    modifies cache
    ensures fresh(uploader)
    ensures var check := YouTubeClient.CheckArguments(args.file, args.privacyStatus, args.file in existing);
      && (check.Some? ==> e == Report(Err(check.value)))
      && (check.None? && credentials.Err? ==> e == Report(Err(credentials.error)))
      && (check.None? && credentials.Ok? ==>
            && |uploader.requests| == 1
            && uploader.requests[0].body == YouTubeClient.UploadBody(args.title, args.description,
                                                                   ParseTags(args.tags), args.privacyStatus)
            && e == Report(replies(0)))
  {
    var tags := ParseTags(args.tags);
    var config := cache.GetConfig(env, dotenv);
    uploader := new YouTubeClient.YouTubeUploader(config, existing, credentials, replies);
    var outcome := uploader.UploadVideo(args.file, args.title, args.description, tags, args.privacyStatus);
    e := Report(outcome);
  }
}
