/** Configuration resolution (`_config` and `_ensure_env_loaded`): the
    fallback `.env` file fills environment variables that are unset, and the
    configuration record is derived from the resulting environment. The
    environment is a value here, passed in and returned. */
module Config {
  import opened Optional
  import opened Strings

  /** The resolved configuration. A string that Python holds as None is ""
      here: the client only ever tests these for truth. */
  datatype Config = Config(
    baseUrl: string,
    responsesPath: string,
    projectId: string,
    projectUuid: string,
    projectHeader: string,
    defaultModel: string,
    timeout: int,
    verifyTls: bool)

  type Env = map<string, string>

  /** `os.getenv(key, default)`. */
  function GetEnv(env: Env, key: string, default: string): string {
    if key in env then env[key] else default
  }

  /** `os.getenv(key)` is truthy: set and not empty. */
  predicate IsSet(env: Env, key: string) {
    key in env && env[key] != ""
  }

  const Quotes: set<char> := {'\'', '"'}

  /** One line of the `.env` file: blank lines, comments and lines without
      `=` are skipped; otherwise the key is the trimmed text before the first
      `=` and the value the trimmed text after it with surrounding quotes
      removed. */
  function ParseEnvLine(line: string): Option<(string, string)> {
    var stripped := Strip(line);
    if stripped == "" || stripped[0] == '#' then None
    else match SplitFirst(stripped, '=')
      case None => None
      case Some(parts) => Some((Strip(parts.0), StripChars(Strip(parts.1), Quotes)))
  }

  /** One step of the loop: the variable is assigned only if the key is not
      empty and `os.getenv(key)` is falsy, so an empty value counts as unset. */
  function ApplyLine(env: Env, line: string): Env {
    match ParseEnvLine(line)
    case None => env
    case Some(kv) => if kv.0 != "" && !IsSet(env, kv.0) then env[kv.0 := kv.1] else env
  }

  function EnvAfterLines(env: Env, lines: seq<string>): Env
    decreases |lines|
  {
    if lines == [] then env else EnvAfterLines(ApplyLine(env, lines[0]), lines[1..])
  }

  /** The environment after `_ensure_env_loaded`, given the lines of the
      fallback file (None when it does not exist). Nothing is read when both
      PROJECT_UUID and PROJECT_ID are already set. */
  function EnvLoaded(env: Env, file: Option<seq<string>>): Env {
    if IsSet(env, "PROJECT_UUID") && IsSet(env, "PROJECT_ID") then env
    else match file
      case None => env
      case Some(lines) => EnvAfterLines(env, lines)
  }

  /** `_ensure_env_loaded`, writing into the environment line by line. */
  method EnsureEnvLoaded(env: Env, file: Option<seq<string>>) returns (loaded: Env)
    ensures loaded == EnvLoaded(env, file)
  {
    loaded := env;
    if IsSet(env, "PROJECT_UUID") && IsSet(env, "PROJECT_ID") {
      return;
    }
    if file.None? {
      return;
    }
    var lines := file.value;
    for i := 0 to |lines|
      invariant EnvAfterLines(loaded, lines[i..]) == EnvAfterLines(env, lines)
    {
      assert lines[i..][1..] == lines[i + 1..];
      var stripped := Strip(lines[i]);
      if stripped == "" || stripped[0] == '#' || '=' !in stripped {
        continue;
      }
      var parts := SplitFirst(stripped, '=').value;
      var key := Strip(parts.0);
      var value := StripChars(Strip(parts.1), Quotes);
      if key != "" && !IsSet(loaded, key) {
        loaded := loaded[key := value];
      }
    }
  }

  /** A variable already set to a non-empty value is never overwritten. */
  lemma {:induction false} EnvAfterLinesKeepsSet(env: Env, lines: seq<string>, key: string)
    requires IsSet(env, key)
    ensures IsSet(EnvAfterLines(env, lines), key)
    ensures EnvAfterLines(env, lines)[key] == env[key]
    decreases |lines|
  {
    if lines != [] {
      EnvAfterLinesKeepsSet(ApplyLine(env, lines[0]), lines[1..], key);
    }
  }

  /** Explicit environment values always win over the file. */
  lemma EnvLoadedKeepsSet(env: Env, file: Option<seq<string>>, key: string)
    requires IsSet(env, key)
    ensures key in EnvLoaded(env, file) && EnvLoaded(env, file)[key] == env[key]
  {
    if file.Some? {
      EnvAfterLinesKeepsSet(env, file.value, key);
    }
  }

  /** The line parses to an assignment of `key`, whatever its value. */
  predicate NamesKey(line: string, key: string) {
    ParseEnvLine(line).Some? && ParseEnvLine(line).value.0 == key
  }

  /** A variable that no line of the file names keeps its value, and stays
      absent when it was absent. */
  lemma {:induction false} EnvAfterLinesFrame(env: Env, lines: seq<string>, key: string)
    requires forall j :: 0 <= j < |lines| ==> !NamesKey(lines[j], key)
    ensures key in EnvAfterLines(env, lines) <==> key in env
    ensures key in env ==> EnvAfterLines(env, lines)[key] == env[key]
    decreases |lines|
  {
    if lines != [] {
      var next := ApplyLine(env, lines[0]);
      assert !NamesKey(lines[0], key);
      assert (key in next <==> key in env) && (key in env ==> next[key] == env[key]);
      forall j | 0 <= j < |lines[1..]|
        ensures !NamesKey(lines[1..][j], key)
      {
        assert lines[1..][j] == lines[j + 1];
      }
      EnvAfterLinesFrame(next, lines[1..], key);
    }
  }

  /** The same for the whole of `_ensure_env_loaded`: a variable the file
      does not name is left exactly as it was. */
  lemma EnvLoadedFrame(env: Env, file: Option<seq<string>>, key: string)
    requires file.Some? ==> forall j :: 0 <= j < |file.value| ==> !NamesKey(file.value[j], key)
    ensures key in EnvLoaded(env, file) <==> key in env
    ensures key in env ==> EnvLoaded(env, file)[key] == env[key]
  {
    if file.Some? {
      EnvAfterLinesFrame(env, file.value, key);
    }
  }

  /** With AI_VERIFY_TLS absent from the environment and from the file,
      the resolved configuration verifies certificates. */
  lemma VerifyTlsOnWhenUnnamed(env: Env, file: Option<seq<string>>)
    requires "AI_VERIFY_TLS" !in env
    requires file.Some? ==> forall j :: 0 <= j < |file.value| ==> !NamesKey(file.value[j], "AI_VERIFY_TLS")
    ensures var c := ConfigFromEnv(EnvLoaded(env, file)); c.Some? ==> c.value.verifyTls
  {
    EnvLoadedFrame(env, file, "AI_VERIFY_TLS");
    assert GetEnv(EnvLoaded(env, file), "AI_VERIFY_TLS", "true") == "true";
    assert Lower("true") == "true";
  }

  /** The line sets `key` to a non-empty value. */
  predicate AssignsValue(line: string, key: string) {
    ParseEnvLine(line).Some? && ParseEnvLine(line).value.0 == key && ParseEnvLine(line).value.1 != ""
  }

  /** An unset variable takes the value of the first line that gives it a
      non-empty one (lines giving it an empty value leave it unset). */
  lemma {:induction false} EnvAfterLinesFirstValueWins(env: Env, lines: seq<string>, i: nat, key: string, value: string)
    requires !IsSet(env, key) && key != "" && value != ""
    requires i < |lines| && ParseEnvLine(lines[i]) == Some((key, value))
    requires forall j :: 0 <= j < i ==> !AssignsValue(lines[j], key)
    ensures key in EnvAfterLines(env, lines) && EnvAfterLines(env, lines)[key] == value
    decreases i
  {
    var next := ApplyLine(env, lines[0]);
    if i == 0 {
      EnvAfterLinesKeepsSet(next, lines[1..], key);
    } else {
      assert !AssignsValue(lines[0], key);
      assert !IsSet(next, key);
      forall j | 0 <= j < i - 1 ensures !AssignsValue(lines[1..][j], key) {
        assert lines[1..][j] == lines[j + 1];
      }
      EnvAfterLinesFirstValueWins(next, lines[1..], i - 1, key, value);
    }
  }

  /** Stripping the quote characters from a quoted value gives the value back
      when the value itself neither starts nor ends with a quote. */
  lemma UnquoteQuoted(value: string)
    requires value == [] || (value[0] !in Quotes && value[|value| - 1] !in Quotes)
    ensures StripChars("\"" + value + "\"", Quotes) == value
  {
    if value == [] {
      var q := "\"\"";
      assert q[1..] == "\"" && q[1..][1..] == [];
      assert TrimStart(q, Quotes) == TrimStart(q[1..], Quotes) == TrimStart([], Quotes) == [];
    } else {
      StripCharsDropsEnclosing('"', value, Quotes);
    }
  }

  /** A line written as `KEY="value"` parses back to its key and value. */
  lemma EnvLineRoundTrip(key: string, value: string)
    requires key != [] && key[0] != '#' && '=' !in key
    requires Strip(key) == key
    requires value == [] || (value[0] !in Quotes && value[|value| - 1] !in Quotes)
    ensures ParseEnvLine(key + "=\"" + value + "\"") == Some((key, value))
  {
    var quoted := "\"" + value + "\"";
    var line := key + "=\"" + value + "\"";
    assert line == key + ['='] + quoted;
    StripCharsEnds(key, Whitespace);
    assert line[0] == key[0];
    StripUnchanged(line);
    SplitFirstJoin(key, '=', quoted);
    StripUnchanged(quoted);
    UnquoteQuoted(value);
  }

  /** `_config` without its cache: None stands for the `ValueError` raised
      when AI_TIMEOUT is not an integer. */
  function ConfigFromEnv(env: Env): (c: Option<Config>)
    ensures c.Some? <==> ParseInt(GetEnv(env, "AI_TIMEOUT", "30")).Some?
    ensures c.Some? ==> c.value.timeout == ParseInt(GetEnv(env, "AI_TIMEOUT", "30")).value
    ensures c.Some? ==> (c.value.verifyTls <==> Lower(GetEnv(env, "AI_VERIFY_TLS", "true")) !in {"0", "false", "no"})
    ensures c.Some? && IsSet(env, "AI_RESPONSES_PATH") ==> c.value.responsesPath == env["AI_RESPONSES_PATH"]
    ensures c.Some? && !IsSet(env, "AI_RESPONSES_PATH") && IsSet(env, "PROJECT_ID") ==>
      c.value.responsesPath == "/projects/" + env["PROJECT_ID"] + "/ai-request"
    ensures c.Some? && !IsSet(env, "AI_RESPONSES_PATH") && !IsSet(env, "PROJECT_ID") ==> c.value.responsesPath == ""
  {
    var projectId := GetEnv(env, "PROJECT_ID", "");
    var configuredPath := GetEnv(env, "AI_RESPONSES_PATH", "");
    var responsesPath :=
      if configuredPath == "" && projectId != "" then "/projects/" + projectId + "/ai-request"
      else configuredPath;
    match ParseInt(GetEnv(env, "AI_TIMEOUT", "30"))
    case None => None
    case Some(timeout) =>
      Some(Config(
        GetEnv(env, "AI_PROXY_BASE_URL", "https://flatlogic.com"),
        responsesPath,
        projectId,
        GetEnv(env, "PROJECT_UUID", ""),
        GetEnv(env, "AI_PROJECT_HEADER", "project-uuid"),
        GetEnv(env, "AI_DEFAULT_MODEL", "gpt-5-mini"),
        timeout,
        Lower(GetEnv(env, "AI_VERIFY_TLS", "true")) !in {"0", "false", "no"}))
  }

  lemma ParseThirty()
    ensures ParseInt("30") == Some(30)
  {
    ParseIntOfIntToString(30);
    assert IntToString(30) == "30";
  }

  /** The documented defaults, for an empty environment. */
  lemma ConfigDefaults()
    ensures ConfigFromEnv(map[]) ==
      Some(Config("https://flatlogic.com", "", "", "", "project-uuid", "gpt-5-mini", 30, true))
  {
    var env: Env := map[];
    ParseThirty();
    assert ParseInt(GetEnv(env, "AI_TIMEOUT", "30")) == Some(30);
    assert Lower(GetEnv(env, "AI_VERIFY_TLS", "true")) == "true";
  }

  /** AI_TIMEOUT written as `str(n)` configures a timeout of n seconds. */
  lemma ConfigTimeoutOf(env: Env, n: int)
    requires "AI_TIMEOUT" in env && env["AI_TIMEOUT"] == IntToString(n)
    ensures ConfigFromEnv(env).Some? && ConfigFromEnv(env).value.timeout == n
  {
    ParseIntOfIntToString(n);
  }

  /** TLS verification is switched off by the spelling `setting` exactly when
      it lowers to "0", "false" or "no". */
  lemma ConfigVerifyTls(setting: string)
    ensures var c := ConfigFromEnv(map["AI_VERIFY_TLS" := setting]);
      c.Some? && (c.value.verifyTls <==> Lower(setting) !in {"0", "false", "no"})
  {
    ParseThirty();
  }

  /** "FALSE" and "No" switch verification off; " false", with a space, and
      "off" leave it on. */
  lemma ConfigVerifyTlsSpellings()
    ensures Lower("FALSE") == "false" && Lower("No") == "no"
    ensures Lower(" false") !in {"0", "false", "no"} && Lower("off") !in {"0", "false", "no"}
  {
    assert Lower(" false") == " false";
    assert Lower("off") == "off";
  }

  /** `_config()` on first use: fill the environment from the file, then
      derive the configuration. */
  method ResolveConfig(env: Env, file: Option<seq<string>>) returns (c: Option<Config>)
    ensures c == ConfigFromEnv(EnvLoaded(env, file))
    ensures c.Some? && IsSet(env, "PROJECT_UUID") ==> c.value.projectUuid == env["PROJECT_UUID"]
  {
    var loaded := EnsureEnvLoaded(env, file);
    if IsSet(env, "PROJECT_UUID") {
      EnvLoadedKeepsSet(env, file, "PROJECT_UUID");
    }
    c := ConfigFromEnv(loaded);
  }
}
