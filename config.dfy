/**
 * Application settings: the field validators that normalise raw environment values, the CORS
 * origin list and the sqlite-path reading of a database URL.
 */
module Config {
  import opened Wrappers
  import opened Strings

  /** A raw value handed to a `mode="before"` validator. */
  datatype RawValue = RNone | RBool(b: bool) | RInt(i: int) | RText(s: string)

  /** `str(value)` of a non-None raw value. */
  function Str(v: RawValue): string
    requires !v.RNone?
  {
    match v
    case RBool(b) => if b then "True" else "False"
    case RInt(i) => IntToString(i)
    case RText(s) => s
  }

  /** `str(value).strip().lower()` */
  function Normalized(v: RawValue): string
    requires !v.RNone?
  {
    Lower(Strip(Str(v)))
  }

  const TrueWords: set<string> := {"1", "true", "yes", "on"}
  const FalseWords: set<string> := {"0", "false", "no", "off"}
  const Providers: set<string> := {"openai", "ollama", "mock"}

  /** No word is both a "true" and a "false" word. */
  lemma WordListsDisjoint(w: string)
    ensures w in TrueWords ==> w !in FalseWords
  {
  }

  /** `_coerce_debug`: anything that is not a recognised "false" word turns debugging on. */
  function CoerceDebug(v: RawValue): (r: bool)
    ensures v.RBool? ==> r == v.b
    ensures v.RNone? ==> r
    ensures !v.RBool? && !v.RNone? ==> (r <==> Normalized(v) !in FalseWords)
    ensures !v.RBool? && !v.RNone? && Normalized(v) in TrueWords ==> r
  {
    match v
    case RBool(b) => b
    case RNone => true
    case _ =>
      var n := Normalized(v);
      WordListsDisjoint(n);
      if n in TrueWords then true
      else if n in FalseWords then false
      else true
  }

  /** `_normalize_provider`: one of the three known providers, "ollama" for anything else. */
  function NormalizeProvider(v: RawValue): (r: string)
    ensures r in Providers
    ensures v.RNone? ==> r == "ollama"
    ensures !v.RNone? ==> (Normalized(v) in Providers ==> r == Normalized(v)) && (Normalized(v) !in Providers ==> r == "ollama")
  {
    if v.RNone? then "ollama"
    else
      var n := Normalized(v);
      if n in Providers then n else "ollama"
  }

  /** A normalised provider name normalises to itself. */
  lemma NormalizeProviderIdempotent(v: RawValue)
    ensures NormalizeProvider(RText(NormalizeProvider(v))) == NormalizeProvider(v)
  {
    var p := NormalizeProvider(v);
    ProviderIsNormal(p);
  }

  /** A provider name is already stripped and lower-case. */
  lemma ProviderIsNormal(p: string)
    requires p in Providers
    ensures Lower(Strip(p)) == p
  {
    if p == "openai" {
      assert forall i :: 0 <= i < |p| ==> 'a' <= p[i] <= 'z';
    } else if p == "ollama" {
      assert forall i :: 0 <= i < |p| ==> 'a' <= p[i] <= 'z';
    } else {
      assert forall i :: 0 <= i < |p| ==> 'a' <= p[i] <= 'z';
    }
    LowercaseWordIsNormal(p);
  }

  /** A word of lower-case letters is left alone by `strip().lower()`. */
  lemma LowercaseWordIsNormal(p: string)
    requires forall i :: 0 <= i < |p| ==> 'a' <= p[i] <= 'z'
    ensures Lower(Strip(p)) == p
  {
    StripShape(p);
    assert Strip(p) == p;
    LowerOfLowercase(p);
  }

  /** `cors_list`: the comma-separated origins, each stripped of surrounding whitespace. */
  function CorsList(allowedOrigins: string): (r: seq<string>)
    ensures |r| == Count(allowedOrigins, ',') + 1
    ensures forall i :: 0 <= i < |r| ==> r[i] == Strip(Split(allowedOrigins, ',')[i])
  {
    var pieces := Split(allowedOrigins, ',');
    seq(|pieces|, i requires 0 <= i < |pieces| => Strip(pieces[i]))
  }

  const AsyncSqlitePrefix := "sqlite+aiosqlite:///"
  const SqlitePrefix := "sqlite:///"

  /** `_sqlite_file_path`: the file part of a sqlite URL (async form checked first), or None. */
  function SqliteFilePath(url: string): (r: Option<string>)
    ensures r.Some? <==> StartsWith(url, AsyncSqlitePrefix) || StartsWith(url, SqlitePrefix)
    ensures StartsWith(url, AsyncSqlitePrefix) ==> r == Some(url[|AsyncSqlitePrefix|..])
    ensures !StartsWith(url, AsyncSqlitePrefix) && StartsWith(url, SqlitePrefix) ==> r == Some(url[|SqlitePrefix|..])
  {
    if StartsWith(url, AsyncSqlitePrefix) then
      ReplaceFirstAtStart(url, AsyncSqlitePrefix, "");
      assert "" + url[|AsyncSqlitePrefix|..] == url[|AsyncSqlitePrefix|..];
      Some(ReplaceFirst(url, AsyncSqlitePrefix, ""))
    else if StartsWith(url, SqlitePrefix) then
      ReplaceFirstAtStart(url, SqlitePrefix, "");
      assert "" + url[|SqlitePrefix|..] == url[|SqlitePrefix|..];
      Some(ReplaceFirst(url, SqlitePrefix, ""))
    else None
  }

  /** The settings the modelled agents read. */
  datatype Settings = Settings(
    debug: bool,
    openAiApiKey: string,
    openAiBaseUrl: string,
    llmProvider: string,
    checkpointDbUrl: string,
    databaseUrl: string,
    allowedOrigins: string,
    pollinationsBaseUrl: string,
    thumbnailWidth: int,
    thumbnailHeight: int,
    accessTokenExpireMinutes: int)

  /** The declared defaults, as `Settings()` builds them from an empty environment. */
  function DefaultSettings(): (s: Settings)
    ensures s.llmProvider in Providers && !s.debug && s.openAiApiKey == ""
  {
    Settings(
      false, "", "https://api.openai.com/v1", "ollama",
      "sqlite+aiosqlite:///./data/checkpoints.db", "sqlite+aiosqlite:///./data/app.db",
      "http://localhost:5173,http://localhost:3000",
      "https://image.pollinations.ai/prompt", 1280, 720, 10080)
  }
}
