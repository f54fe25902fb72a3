/** The configuration of the stand-alone uploader (src/core/config.py):
    OAuth scopes and the two credential file paths, read from the
    environment with defaults, and cached in a module-level singleton. */
module AppConfig {
  import opened Strings

  type Env = map<string, string>

  /** "https://www.googleapis.com/auth/youtube.upload", written in pieces
      short enough to be checked character by character. */
  const DefaultScopes: string := "https://www." + "googleapis.c" + "om/auth/yout" + "ube.upload"
  const DefaultCredentialsFile: string := "credentials.json"
  const DefaultTokenFile: string := "token.json"

  /** `os.getenv(name, default)`: a variable that is set wins, even empty. */
  function GetEnv(env: Env, name: string, default: string): string {
    if name in env then env[name] else default
  }

  /** `load_dotenv()`: the `.env` file's variables are added, but a
      variable already set in the environment keeps its value. */
  function LoadDotenv(env: Env, dotenv: Env): (r: Env)
    ensures r.Keys == env.Keys + dotenv.Keys
    ensures forall k :: k in env ==> r[k] == env[k]
    ensures forall k :: k in dotenv && k !in env ==> r[k] == dotenv[k]
  {
    map k | k in env.Keys + dotenv.Keys :: if k in env then env[k] else dotenv[k]
  }

  /** `[s.strip() for s in text.replace(",", " ").split() if s.strip()]`. */
  function ParseScopes(text: string): (r: seq<string>)
    ensures forall s :: s in r ==> s != "" && Stripped(s)
  {
    StripPieces(Words(ReplaceChar(text, ',', ' ')))
  }

  /** The strip-and-filter of the comprehension changes nothing: the
      scopes are exactly the whitespace-separated words once commas count
      as whitespace. */
  lemma ScopesAreWords(text: string)
    ensures ParseScopes(text) == Words(ReplaceChar(text, ',', ' '))
  {
    StripPiecesOfWords(Words(ReplaceChar(text, ',', ' ')));
  }

  lemma {:induction false} StripPiecesOfWords(ws: seq<string>)
    requires forall w :: w in ws ==> w != "" && NoSpace(w)
    ensures StripPieces(ws) == ws
  {
    if ws != [] {
      assert ws[0] in ws;
      StripNoSpace(ws[0]);
      assert forall w :: w in ws[1..] ==> w in ws;
      StripPiecesOfWords(ws[1..]);
      assert ws == [ws[0]] + ws[1..];
    }
  }

  /** No scope is empty, holds whitespace or holds a comma, and together
      they keep every other character of the setting, in order. */
  lemma ScopesShape(text: string)
    ensures forall s :: s in ParseScopes(text) ==> s != "" && NoSpace(s) && ',' !in s
    ensures Concat(ParseScopes(text)) == NonSpace(ReplaceChar(text, ',', ' '))
  {
    var t := ReplaceChar(text, ',', ' ');
    ScopesAreWords(text);
    WordsKeepCharacters(t);
    forall s | s in ParseScopes(text) ensures ',' !in s {
      if ',' in s {
        InConcat(Words(t), s, ',');
        InNonSpace(t, ',');
      }
    }
  }

  lemma {:induction false} InConcat(ws: seq<string>, s: string, c: char)
    requires s in ws && c in s
    ensures c in Concat(ws)
  {
    if ws[0] != s {
      InConcat(ws[1..], s, c);
    }
  }

  lemma {:induction false} InNonSpace(t: string, c: char)
    requires c in NonSpace(t)
    ensures c in t
  {
    if t != [] && !(!IsSpace(t[0]) && c == t[0]) {
      InNonSpace(t[1..], c);
    }
  }

  /** A setting with no whitespace and no comma is a single scope. */
  lemma SingleScope(text: string)
    requires text != "" && NoSpace(text) && ',' !in text
    ensures ParseScopes(text) == [text]
  {
    assert ReplaceChar(text, ',', ' ') == text;
    SingleWord(text);
    ScopesAreWords(text);
  }

  lemma {:induction false} SingleWord(s: string)
    requires s != "" && NoSpace(s)
    ensures Words(s) == [s]
  {
    if |s| > 1 {
      SingleWord(s[1..]);
      assert !IsSpace(s[1]);
      assert [s[0]] + s[1..] == s;
    } else {
      assert s == [s[0]];
    }
  }

  /** Lower-case letters and the URL punctuation of the default scope. */
  predicate UrlChar(c: char) { 'a' <= c <= 'z' || c == ':' || c == '/' || c == '.' }

  predicate UrlFrom(s: string, k: nat)
    decreases |s| - k
  {
    k >= |s| || (UrlChar(s[k]) && UrlFrom(s, k + 1))
  }

  predicate UrlText(s: string) {
    forall i :: 0 <= i < |s| ==> UrlChar(s[i])
  }

  lemma {:induction false} UrlFromText(s: string, k: nat)
    requires UrlFrom(s, k)
    ensures forall i :: k <= i < |s| ==> UrlChar(s[i])
    decreases |s| - k
  {
    if k < |s| {
      UrlFromText(s, k + 1);
    }
  }

  lemma UrlTextJoin(a: string, b: string)
    requires UrlText(a) && UrlText(b)
    ensures UrlText(a + b)
  {
    forall i | 0 <= i < |a + b| ensures UrlChar((a + b)[i]) {
      if i >= |a| {
        assert (a + b)[i] == b[i - |a|];
      }
    }
  }

  /** The default scope is one word with no comma. */
  lemma DefaultScopesPlain()
    ensures DefaultScopes != "" && NoSpace(DefaultScopes) && ',' !in DefaultScopes
  {
    var a, b, c, d := "https://www.", "googleapis.c", "om/auth/yout", "ube.upload";
    assert UrlFrom(a, 0);
    UrlFromText(a, 0);
    assert UrlFrom(b, 0);
    UrlFromText(b, 0);
    assert UrlFrom(c, 0);
    UrlFromText(c, 0);
    assert UrlFrom(d, 0);
    UrlFromText(d, 0);
    UrlTextJoin(a, b);
    UrlTextJoin(a + b, c);
    UrlTextJoin(a + b + c, d);
    assert UrlText(DefaultScopes);
  }

  /** The three settings, as the dataclass holds them. */
  datatype Settings = Settings(youtubeScopes: seq<string>, credentialsFile: string, tokenFile: string)

  /** What `get_config` reads on its first call. */
  function LoadSettings(env: Env): (r: Settings)
    ensures "YT_SCOPES" !in env ==> r.youtubeScopes == [DefaultScopes]
    ensures "YT_CREDENTIALS_FILE" in env ==> r.credentialsFile == env["YT_CREDENTIALS_FILE"]
    ensures "YT_CREDENTIALS_FILE" !in env ==> r.credentialsFile == DefaultCredentialsFile
    ensures "YT_TOKEN_FILE" in env ==> r.tokenFile == env["YT_TOKEN_FILE"]
    ensures "YT_TOKEN_FILE" !in env ==> r.tokenFile == DefaultTokenFile
  {
    DefaultScopesPlain();
    SingleScope(DefaultScopes);
    Settings(ParseScopes(GetEnv(env, "YT_SCOPES", DefaultScopes)),
             GetEnv(env, "YT_CREDENTIALS_FILE", DefaultCredentialsFile),
             GetEnv(env, "YT_TOKEN_FILE", DefaultTokenFile))
  }

  /** With none of the variables set: the upload scope alone, and
      "credentials.json" and "token.json". */
  lemma SettingsDefaults(env: Env)
    requires "YT_SCOPES" !in env && "YT_CREDENTIALS_FILE" !in env && "YT_TOKEN_FILE" !in env
    ensures LoadSettings(env) == Settings([DefaultScopes], "credentials.json", "token.json")
  {
    DefaultScopesPlain();
    SingleScope(DefaultScopes);
  }

  /** Set variables are taken verbatim (the scopes through the split). */
  lemma SettingsOverride(env: Env)
    ensures "YT_CREDENTIALS_FILE" in env ==> LoadSettings(env).credentialsFile == env["YT_CREDENTIALS_FILE"]
    ensures "YT_TOKEN_FILE" in env ==> LoadSettings(env).tokenFile == env["YT_TOKEN_FILE"]
    ensures "YT_SCOPES" in env ==> LoadSettings(env).youtubeScopes == Words(ReplaceChar(env["YT_SCOPES"], ',', ' '))
  {
    if "YT_SCOPES" in env {
      ScopesAreWords(env["YT_SCOPES"]);
    }
  }

  /** The `Config` dataclass: an object, so the cache hands out one
      identity. */
  class Config {
    const youtubeScopes: seq<string>
    const credentialsFile: string
    const tokenFile: string

    constructor (s: Settings)
      ensures youtubeScopes == s.youtubeScopes && credentialsFile == s.credentialsFile && tokenFile == s.tokenFile
    {
      youtubeScopes := s.youtubeScopes;
      credentialsFile := s.credentialsFile;
      tokenFile := s.tokenFile;
    }

    function Values(): Settings {
      Settings(youtubeScopes, credentialsFile, tokenFile)
    }
  }

  /** The module-level `_config_instance` and `get_config`. */
  class ConfigCache {
    var instance: Config?

    constructor ()
      ensures instance == null
    {
      instance := null;
    }

    /** The first call loads `.env`, reads the environment and caches a new
        Config; every later call returns that same object and reads
        nothing. */
    method GetConfig(env: Env, dotenv: Env) returns (c: Config)
      modifies this
      ensures old(instance) != null ==> c == old(instance) && instance == old(instance)
      ensures old(instance) == null ==>
        && fresh(c) && instance == c
        && c.Values() == LoadSettings(LoadDotenv(env, dotenv))
    {
      if instance != null {
        return instance;
      }
      var settings := LoadSettings(LoadDotenv(env, dotenv));
      c := new Config(settings);
      instance := c;
    }
  }
}
