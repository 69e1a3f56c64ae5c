/**
 * The one-off patch script for the settings module: it inserts the `_ensure_async_sqlite`
 * validator in front of the `debug` validator, unless the validator is already there. The
 * inserted validator rewrites database URLs to the async sqlite driver.
 */
module FixConfig {
  import opened Wrappers
  import opened Strings
  import opened Config

  /** The name whose presence means the text is already patched. */
  const Marker := "_ensure_async_sqlite"

  /** The decorator line the validator is inserted in front of. */
  const DebugValidatorLine := "    @field_validator(\"debug\", mode=\"before\")"

  const ReplacementHead := "\n    @field_validator(\"database_url\", \"checkpoint_db_url\", mode=\"before\")\n    @classmethod\n    def "

  const ReplacementBody :=
    "(cls, value):\n"
    + "        if not value: return value\n"
    + "        v = str(value)\n"
    + "        if v.startswith(\"sqlite:///\"): return v.replace(\"sqlite:///\", \"sqlite+aiosqlite:///\", 1)\n"
    + "        if not v.startswith((\"sqlite\", \"postgresql\")):\n"
    + "            c = v.lstrip(\"./\")\n"
    + "            return f\"sqlite+aiosqlite://{c}\" if c.startswith(\"/\") else f\"sqlite+aiosqlite:///{c}\"\n"
    + "        return v\n"
    + "\n"

  /** The text the decorator line is replaced with: the new validator, then the line itself. */
  const Replacement := ReplacementHead + Marker + ReplacementBody + DebugValidatorLine

  /** The replacement names the validator and ends with the line it replaces. */
  lemma ReplacementShape()
    ensures Contains(Replacement, Marker)
    ensures EndsWith(Replacement, DebugValidatorLine) && Contains(Replacement, DebugValidatorLine)
  {
    var i := |ReplacementHead|;
    assert Replacement[i..i + |Marker|] == Marker;
    assert OccursAt(Replacement, Marker, i);
    var k := |Replacement| - |DebugValidatorLine|;
    assert Replacement[k..] == DebugValidatorLine;
    assert Replacement[k..k + |DebugValidatorLine|] == DebugValidatorLine;
    assert OccursAt(Replacement, DebugValidatorLine, k);
  }

  /**
   * The patch: an already patched text, or one without the decorator line, is left as it is;
   * otherwise every occurrence of the line is replaced and the text is then patched.
   */
  function Patched(text: string): (r: string)
    ensures Contains(text, Marker) ==> r == text
    ensures !Contains(text, DebugValidatorLine) ==> r == text
    ensures !Contains(text, Marker) && Contains(text, DebugValidatorLine) ==>
      Contains(r, Replacement) && Contains(r, Marker) && Contains(r, DebugValidatorLine)
  {
    if Contains(text, Marker) then text
    else
      var r := ReplaceAll(text, DebugValidatorLine, Replacement);
      ReplaceAllAbsent(text, DebugValidatorLine, Replacement);
      if Contains(text, DebugValidatorLine) then
        ReplaceAllPresent(text, DebugValidatorLine, Replacement);
        ReplacementShape();
        ContainsTransitive(r, Replacement, Marker);
        ContainsTransitive(r, Replacement, DebugValidatorLine);
        r
      else r
  }

  /** Running the script twice is the same as running it once. */
  lemma PatchIdempotent(text: string)
    ensures Patched(Patched(text)) == Patched(text)
  {
  }

  /** The `debug` validator survives the patch. */
  lemma PatchKeepsDebugValidator(text: string)
    ensures Contains(text, DebugValidatorLine) ==> Contains(Patched(text), DebugValidatorLine)
  {
  }

  /** Python falsiness of a raw settings value. */
  predicate Falsy(v: RawValue) {
    match v
    case RNone => true
    case RBool(b) => !b
    case RInt(i) => i == 0
    case RText(s) => s == ""
  }

  const LeadingPathChars: set<char> := {'.', '/'}

  /** A `sqlite:///` URL starts with "sqlite". */
  lemma SqliteUrlStartsWithSqlite(v: string)
    requires StartsWith(v, SqlitePrefix)
    ensures StartsWith(v, "sqlite")
  {
    assert v[..6] == v[..|SqlitePrefix|][..6];
  }

  /** What `_ensure_async_sqlite` does to `str(value)` of a truthy value. */
  function AsyncSqliteUrl(v: string): (r: string)
    ensures StartsWith(v, SqlitePrefix) ==> r == AsyncSqlitePrefix + v[|SqlitePrefix|..]
    ensures (!StartsWith(v, SqlitePrefix) && (StartsWith(v, "sqlite") || StartsWith(v, "postgresql"))) ==> r == v
    ensures !StartsWith(v, "sqlite") && !StartsWith(v, "postgresql") ==>
      r == AsyncSqlitePrefix + LStripChars(v, LeadingPathChars)
  {
    if StartsWith(v, SqlitePrefix) then
      ReplaceFirstAtStart(v, SqlitePrefix, AsyncSqlitePrefix);
      SqliteUrlStartsWithSqlite(v);
      ReplaceFirst(v, SqlitePrefix, AsyncSqlitePrefix)
    else if !StartsWith(v, "sqlite") && !StartsWith(v, "postgresql") then
      var c := LStripChars(v, LeadingPathChars);
      if StartsWith(c, "/") then "sqlite+aiosqlite://" + c else AsyncSqlitePrefix + c
    else v
  }

  /**
   * `_ensure_async_sqlite`: falsy values pass through; a `sqlite:///` URL gets the async driver;
   * other sqlite and postgresql URLs are kept; anything else is read as a file path, loses its
   * leading dots and slashes, and becomes an async sqlite URL. (The branch for a path that still
   * starts with '/' after `lstrip` is never taken.)
   */
  function EnsureAsyncSqlite(value: RawValue): (r: RawValue)
    ensures Falsy(value) ==> r == value
    ensures !Falsy(value) ==> r == RText(AsyncSqliteUrl(Str(value)))
  {
    if Falsy(value) then value else RText(AsyncSqliteUrl(Str(value)))
  }

  /**
   * A URL the validator produced is left alone by it: the async prefix starts with "sqlite" but
   * not with `sqlite:///`, and a kept URL is kept again.
   */
  lemma EnsureAsyncSqliteIdempotent(value: RawValue)
    ensures EnsureAsyncSqlite(EnsureAsyncSqlite(value)) == EnsureAsyncSqlite(value)
  {
    if !Falsy(value) {
      var v := Str(value);
      if StartsWith(v, SqlitePrefix) {
        AsyncUrlIsKept(v[|SqlitePrefix|..]);
      } else if !StartsWith(v, "sqlite") && !StartsWith(v, "postgresql") {
        AsyncUrlIsKept(LStripChars(v, LeadingPathChars));
      } else {
        assert v != [];
      }
    }
  }

  /** Any text behind the async prefix is a URL the validator keeps. */
  lemma AsyncUrlIsKept(rest: string)
    ensures var u := AsyncSqlitePrefix + rest;
      && !Falsy(RText(u)) && StartsWith(u, "sqlite") && !StartsWith(u, SqlitePrefix)
      && EnsureAsyncSqlite(RText(u)) == RText(u)
  {
    var u := AsyncSqlitePrefix + rest;
    assert u[..6] == "sqlite";
    assert u[6] == '+' && SqlitePrefix[6] == ':';
    assert u[..|SqlitePrefix|][6] == u[6];
  }

  /** The sqlite file of a `sqlite:///` URL is the same before and after the rewrite. */
  lemma RewriteKeepsSqliteFile(url: string)
    requires StartsWith(url, SqlitePrefix)
    ensures EnsureAsyncSqlite(RText(url)).RText?
    ensures SqliteFilePath(EnsureAsyncSqlite(RText(url)).s) == SqliteFilePath(url) == Some(url[|SqlitePrefix|..])
  {
    var rest := url[|SqlitePrefix|..];
    AsyncUrlIsKept(rest);
    assert (AsyncSqlitePrefix + rest)[..|AsyncSqlitePrefix|] == AsyncSqlitePrefix;
    assert (AsyncSqlitePrefix + rest)[|AsyncSqlitePrefix|..] == rest;
    assert url[6] == ':' && AsyncSqlitePrefix[6] == '+';
    assert !StartsWith(url, AsyncSqlitePrefix) by {
      if |AsyncSqlitePrefix| <= |url| {
        assert url[..|AsyncSqlitePrefix|][6] == url[6];
      }
    }
  }
}
