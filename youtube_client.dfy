/** The stand-alone uploader of src/adapters/youtube/uploader.py
    (`YouTubeUploader`): it validates its arguments in a fixed order,
    builds the API client once and caches it, shapes the request body and
    returns the new video's id. OAuth and the API are scripted: the
    credential flow's outcome and each insert call's answer are inputs. */
module YouTubeClient {
  import opened Results
  import opened Strings
  import opened YouTubeApi
  import AppConfig

  /** An exception `upload_video` lets out, with `str(e)`: ValueError,
      FileNotFoundError, HttpError (re-raised with the same response), or
      any other exception. */
  datatype ClientError =
    | ValueError(text: string)
    | FileNotFoundError(text: string)
    | ApiError(status: int, text: string)
    | OtherError(text: string)

  /** `valid_privacy_statuses`, in the order the error message lists them. */
  const ValidPrivacyStatuses: seq<string> := ["public", "unlisted", "private"]

  /** The checks made before the client is needed: the privacy value
      first, then the file's existence. */
  function CheckArguments(filePath: string, privacyStatus: string, fileExists: bool): (r: Option<ClientError>)
    ensures privacyStatus !in ValidPrivacyStatuses ==> r.Some? && r.value.ValueError?
    ensures privacyStatus in ValidPrivacyStatuses && !fileExists ==>
      r == Some(FileNotFoundError("Video file not found: " + filePath))
    ensures privacyStatus in ValidPrivacyStatuses && fileExists ==> r.None?
  {
    if privacyStatus !in ValidPrivacyStatuses then
      Some(ValueError("Invalid privacy_status: " + privacyStatus
                      + ". Must be one of: public, unlisted, private"))
    else if !fileExists then Some(FileNotFoundError("Video file not found: " + filePath))
    else None
  }

  /** The request body: title and description, then tags whenever a list
      was passed, even an empty one; the privacy value as given. */
  function UploadBody(title: string, description: string, tags: Option<seq<string>>, privacyStatus: string)
    : seq<(string, Json)>
  {
    [("snippet", JObject([("title", JString(title)), ("description", JString(description))]
                         + (if tags.Some? then [("tags", JList(tags.value))] else []))),
     ("status", JObject([("privacyStatus", JString(privacyStatus))]))]
  }

  /** The body's keys, and a `tags` entry exactly when a list was passed,
      carrying that list. */
  lemma UploadBodyShape(title: string, description: string, tags: Option<seq<string>>, privacyStatus: string)
    ensures var body := UploadBody(title, description, tags, privacyStatus);
      && Keys(body) == ["snippet", "status"]
      && body[0].1.JObject? && body[1].1 == JObject([("privacyStatus", JString(privacyStatus))])
      && Keys(body[0].1.fields) == ["title", "description"] + (if tags.Some? then ["tags"] else [])
      && Lookup(body[0].1.fields, "title") == Some(JString(title))
      && Lookup(body[0].1.fields, "description") == Some(JString(description))
      && (tags.Some? <==> Lookup(body[0].1.fields, "tags").Some?)
      && (tags.Some? ==> Lookup(body[0].1.fields, "tags") == Some(JList(tags.value)))
  {
    var snippet := UploadBody(title, description, tags, privacyStatus)[0].1.fields;
    LookupAt(snippet, 0, "title");
    LookupAt(snippet, 1, "description");
    if tags.Some? {
      LookupAt(snippet, 2, "tags");
    } else {
      LookupAbsent(snippet, "tags");
    }
  }

  /** A built API client, numbered by the build that made it. */
  datatype Service = Service(build: nat)

  /** One `videos().insert(...)` request. */
  datatype InsertRequest = InsertRequest(service: Service, part: string, body: seq<(string, Json)>)

  /** `YouTubeUploader`: the config it was given, the cached `_service`,
      and the world it talks to, scripted: which paths exist, what the
      credential flow gives, and the answer to each insert request. */
  class YouTubeUploader {
    const config: AppConfig.Config
    const existing: set<string>
    const credentials: Result<(), ClientError>
    const replies: nat -> Result<string, ClientError>
    var service: Option<Service>
    var builds: nat
    var requests: seq<InsertRequest>

    constructor (config: AppConfig.Config, existing: set<string>, credentials: Result<(), ClientError>,
                 replies: nat -> Result<string, ClientError>)
      ensures this.config == config && this.existing == existing && this.credentials == credentials
      ensures this.replies == replies
      ensures service.None? && builds == 0 && requests == []
    {
      this.config := config;
      this.existing := existing;
      this.credentials := credentials;
      this.replies := replies;
      service := None;
      builds := 0;
      requests := [];
    }

    /** `_get_service`: the cached client when there is one; otherwise
        credentials are obtained (or their exception escapes) and a new
        client is built and cached. */
    method GetService() returns (r: Result<Service, ClientError>)
      modifies this
      ensures requests == old(requests)
      ensures old(service).Some? ==> r == Ok(old(service).value) && service == old(service) && builds == old(builds)
      ensures old(service).None? && credentials.Ok? ==>
        r == Ok(Service(old(builds))) && service == Some(r.value) && builds == old(builds) + 1
      ensures old(service).None? && credentials.Err? ==>
        r == Err(credentials.error) && service.None? && builds == old(builds)
    {
      if service.Some? {
        return Ok(service.value);
      }
      if credentials.Err? {
        return Err(credentials.error);
      }
      var s := Service(builds);
      builds := builds + 1;
      service := Some(s);
      r := Ok(s);
    }

    /** `upload_video`: the argument checks, then the client, then one
        insert request with the body; its id is returned and an HttpError
        is re-raised unchanged. */
    method UploadVideo(filePath: string, title: string, description: string, tags: Option<seq<string>>,
                       privacyStatus: string)
      returns (r: Result<string, ClientError>)
      modifies this
      ensures var check := CheckArguments(filePath, privacyStatus, filePath in existing);
        && (check.Some? ==> r == Err(check.value) && service == old(service) && builds == old(builds)
                            && requests == old(requests))
        && (check.None? && old(service).None? && credentials.Err? ==>
              r == Err(credentials.error) && service.None? && requests == old(requests))
        && (check.None? && (old(service).Some? || credentials.Ok?) ==>
              && service.Some?
              && (old(service).Some? ==> service == old(service))
              && requests == old(requests)
                 + [InsertRequest(service.value, "snippet,status", UploadBody(title, description, tags, privacyStatus))]
              && r == replies(|old(requests)|))
    {
      var check := CheckArguments(filePath, privacyStatus, filePath in existing);
      if check.Some? {
        return Err(check.value);
      }
      var s := GetService();
      if s.Err? {
        return Err(s.error);
      }
      var body := UploadBody(title, description, tags, privacyStatus);
      r := replies(|requests|);
      requests := requests + [InsertRequest(s.value, "snippet,status", body)];
    }
  }
}
