/** Application settings (config/settings.py): the settings records with
    their defaults, the two field validators, and the module-level cache
    behind `get_settings` / `reload_settings`.

    Reading the environment and the `.env` file is not modelled: what
    `AppSettings()` produces (settings or a raised error) is an input. */
module Settings {
  import opened Wrappers
  import opened Text

  const ValidLevels: seq<string> := ["DEBUG", "INFO", "WARNING", "ERROR", "CRITICAL"]
  const ValidEnvironments: seq<string> := ["development", "staging", "production"]

  /** The `ValueError` texts, with the lists printed as Python prints them. */
  const LogLevelMessage := "log_level must be one of ['DEBUG', 'INFO', 'WARNING', 'ERROR', 'CRITICAL']"
  const EnvironmentMessage := "environment must be one of ['development', 'staging', 'production']"

  datatype OpenAISettings = OpenAISettings(apiKey: string, model: string, maxTokens: int, temperature: real)

  datatype OutlookSettings = OutlookSettings(clientId: string, tenantId: string, clientSecret: string, senderAddress: string)

  datatype SharePointSettings = SharePointSettings(
    siteUrl: Option<string>, username: Option<string>, password: Option<string>, folderUrl: Option<string>)

  datatype AppSettings = AppSettings(
    debug: bool,
    logLevel: string,
    environment: string,
    openai: OpenAISettings,
    outlook: OutlookSettings,
    sharepoint: SharePointSettings,
    streamlitServerPort: int,
    streamlitTheme: string)

  /** `OpenAISettings` with only the required `api_key` given. */
  function DefaultOpenAISettings(apiKey: string): (s: OpenAISettings)
    ensures s.apiKey == apiKey
    ensures s.model == "gpt-4" && s.maxTokens == 2000 && s.temperature == 0.7
  {
    OpenAISettings(apiKey, "gpt-4", 2000, 0.7)
  }

  function DefaultSharePointSettings(): (s: SharePointSettings)
    ensures s.siteUrl == None && s.username == None && s.password == None && s.folderUrl == None
  {
    SharePointSettings(None, None, None, None)
  }

  /** `AppSettings` with every field that has a default left at it. */
  function DefaultAppSettings(openai: OpenAISettings, outlook: OutlookSettings): (s: AppSettings)
    ensures !s.debug && s.logLevel == "INFO" && s.environment == "development"
    ensures s.streamlitServerPort == 8501 && s.streamlitTheme == "light"
    ensures s.openai == openai && s.outlook == outlook && s.sharepoint == DefaultSharePointSettings()
  {
    AppSettings(false, "INFO", "development", openai, outlook, DefaultSharePointSettings(), 8501, "light")
  }

  /** `a` and `b` are equal up to the case of ASCII letters. */
  predicate EqualsIgnoringCase(a: string, b: string)
  {
    |a| == |b| && forall i :: 0 <= i < |a| ==> UpperChar(a[i]) == UpperChar(b[i])
  }

  /** The `log_level` validator: the upper-cased level, or a `ValueError`. */
  function ValidateLogLevel(v: string): (r: Result<string, string>)
    ensures r.Ok? ==> r.value in ValidLevels && EqualsIgnoringCase(r.value, v)
    ensures r.Err? ==> r.error == LogLevelMessage
  {
    if Upper(v) in ValidLevels then Ok(Upper(v)) else Err(LogLevelMessage)
  }

  /** The `environment` validator: the lower-cased name, or a `ValueError`. */
  function ValidateEnvironment(v: string): (r: Result<string, string>)
    ensures r.Ok? ==> r.value in ValidEnvironments && EqualsIgnoringCase(r.value, v)
    ensures r.Err? ==> r.error == EnvironmentMessage
  {
    if Lower(v) in ValidEnvironments then Ok(Lower(v)) else Err(EnvironmentMessage)
  }

  lemma EqualsIgnoringCaseUpper(a: string, b: string)
    ensures EqualsIgnoringCase(a, b) <==> Upper(a) == Upper(b)
  {
    if Upper(a) == Upper(b) {
      assert forall i :: 0 <= i < |a| ==> Upper(a)[i] == Upper(b)[i];
    }
  }

  /** Two characters agree once upper-cased exactly when they agree once
      lower-cased. */
  lemma CaseFoldChar(x: char, y: char)
    ensures UpperChar(x) == UpperChar(y) <==> LowerChar(x) == LowerChar(y)
  {
    if 'a' <= x <= 'z' || 'A' <= x <= 'Z' || 'a' <= y <= 'z' || 'A' <= y <= 'Z' {
      assert UpperChar(x) as int == (if 'a' <= x <= 'z' then x as int - 32 else x as int);
      assert UpperChar(y) as int == (if 'a' <= y <= 'z' then y as int - 32 else y as int);
      assert LowerChar(x) as int == (if 'A' <= x <= 'Z' then x as int + 32 else x as int);
      assert LowerChar(y) as int == (if 'A' <= y <= 'Z' then y as int + 32 else y as int);
    }
  }

  lemma EqualsIgnoringCaseLower(a: string, b: string)
    ensures EqualsIgnoringCase(a, b) <==> Lower(a) == Lower(b)
  {
    if |a| == |b| {
      forall i | 0 <= i < |a|
        ensures UpperChar(a[i]) == UpperChar(b[i]) <==> Lower(a)[i] == Lower(b)[i]
      {
        CaseFoldChar(a[i], b[i]);
      }
      if Lower(a) != Lower(b) {
        var i :| 0 <= i < |a| && Lower(a)[i] != Lower(b)[i];
      }
    }
  }

  /** A string with no lower-case ASCII letter is its own upper case. */
  lemma UpperOfUpperCase(s: string)
    requires forall i :: 0 <= i < |s| ==> !('a' <= s[i] <= 'z')
    ensures Upper(s) == s
  {
  }

  /** A string with no upper-case ASCII letter is its own lower case. */
  lemma LowerOfLowerCase(s: string)
    requires forall i :: 0 <= i < |s| ==> !('A' <= s[i] <= 'Z')
    ensures Lower(s) == s
  {
  }

  lemma LevelsAreUpperCase()
    ensures forall l :: l in ValidLevels ==> Upper(l) == l
  {
    UpperOfUpperCase("DEBUG");
    UpperOfUpperCase("INFO");
    UpperOfUpperCase("WARNING");
    UpperOfUpperCase("ERROR");
    UpperOfUpperCase("CRITICAL");
  }

  lemma EnvironmentsAreLowerCase()
    ensures forall e :: e in ValidEnvironments ==> Lower(e) == e
  {
    LowerOfLowerCase("development");
    LowerOfLowerCase("staging");
    LowerOfLowerCase("production");
  }

  /** The levels accepted are exactly the five standard names, written in
      any mix of upper and lower case. */
  lemma LogLevelAcceptsExactly(v: string)
    ensures ValidateLogLevel(v).Ok? <==> exists l :: l in ValidLevels && EqualsIgnoringCase(v, l)
  {
    LevelsAreUpperCase();
    if ValidateLogLevel(v).Ok? {
      EqualsIgnoringCaseUpper(v, Upper(v));
    } else {
      forall l | l in ValidLevels
        ensures !EqualsIgnoringCase(v, l)
      {
        EqualsIgnoringCaseUpper(v, l);
      }
    }
  }

  /** The environments accepted are exactly the three names, in any case. */
  lemma EnvironmentAcceptsExactly(v: string)
    ensures ValidateEnvironment(v).Ok? <==> exists e :: e in ValidEnvironments && EqualsIgnoringCase(v, e)
  {
    EnvironmentsAreLowerCase();
    if ValidateEnvironment(v).Ok? {
      EqualsIgnoringCaseLower(v, Lower(v));
    } else {
      forall e | e in ValidEnvironments
        ensures !EqualsIgnoringCase(v, e)
      {
        EqualsIgnoringCaseLower(v, e);
      }
    }
  }

  /** Validating an already validated level gives it back unchanged. */
  lemma ValidateLogLevelIdempotent(v: string)
    requires ValidateLogLevel(v).Ok?
    ensures ValidateLogLevel(ValidateLogLevel(v).value) == ValidateLogLevel(v)
  {
    UpperIdempotent(v);
  }

  lemma ValidateEnvironmentIdempotent(v: string)
    requires ValidateEnvironment(v).Ok?
    ensures ValidateEnvironment(ValidateEnvironment(v).value) == ValidateEnvironment(v)
  {
    LowerIdempotent(v);
  }

  /** The result depends on the level's letters only, not on their case. */
  lemma ValidateLogLevelIgnoresCase(v: string, w: string)
    requires EqualsIgnoringCase(v, w)
    ensures ValidateLogLevel(v) == ValidateLogLevel(w)
  {
    EqualsIgnoringCaseUpper(v, w);
  }

  /** What pydantic does with the two validators while building
      `AppSettings`: both fields are checked, every failing validator's
      message is collected in field order, and on success the settings
      hold the normalised values. */
  function ApplyValidators(s: AppSettings): (r: Result<AppSettings, seq<string>>)
    ensures r.Ok? <==> ValidateLogLevel(s.logLevel).Ok? && ValidateEnvironment(s.environment).Ok?
    ensures r.Ok? ==> r.value.logLevel in ValidLevels && r.value.environment in ValidEnvironments
    ensures r.Ok? ==> r.value == s.(logLevel := r.value.logLevel, environment := r.value.environment)
    ensures r.Err? ==> 1 <= |r.error| <= 2
  {
    var level := ValidateLogLevel(s.logLevel);
    var env := ValidateEnvironment(s.environment);
    if level.Ok? && env.Ok? then Ok(s.(logLevel := level.value, environment := env.value))
    else Err((if level.Err? then [level.error] else []) + (if env.Err? then [env.error] else []))
  }

  /** Validated settings are a fixed point of the validators. */
  lemma ApplyValidatorsIdempotent(s: AppSettings)
    requires ApplyValidators(s).Ok?
    ensures ApplyValidators(ApplyValidators(s).value) == ApplyValidators(s)
  {
    ValidateLogLevelIdempotent(s.logLevel);
    ValidateEnvironmentIdempotent(s.environment);
  }

  /** The defaults pass both validators unchanged. */
  lemma DefaultsAreValid(openai: OpenAISettings, outlook: OutlookSettings)
    ensures ApplyValidators(DefaultAppSettings(openai, outlook)) == Ok(DefaultAppSettings(openai, outlook))
  {
    LevelsAreUpperCase();
    EnvironmentsAreLowerCase();
  }

  /** The module-global `_settings` of settings.py. `Constructions` counts
      the calls of `AppSettings()`. */
  class SettingsCache {
    var cached: Option<AppSettings>
    ghost var Constructions: nat

    /** The module as imported: nothing cached yet. */
    constructor ()
      ensures cached == None && Constructions == 0
    {
      cached := None;
      Constructions := 0;
    }

    /** `get_settings()`. `load` is what `AppSettings()` would produce;
        it is used only when nothing is cached. A raised error leaves the
        cache empty. */
    method GetSettings(load: Result<AppSettings, string>) returns (r: Result<AppSettings, string>)
      modifies this
      ensures old(cached).Some? ==> r == Ok(old(cached).value) && cached == old(cached) && Constructions == old(Constructions)
      ensures old(cached).None? ==> r == load && Constructions == old(Constructions) + 1
      ensures old(cached).None? ==> cached == (if load.Ok? then Some(load.value) else None)
    {
      if cached.None? {
        Constructions := Constructions + 1;
        if load.Err? {
          return load;
        }
        cached := Some(load.value);
      }
      r := Ok(cached.value);
    }

    /** `reload_settings()`: always builds; the new settings replace the
        cached ones, unless building raises, which leaves the cache as it
        was. */
    method ReloadSettings(load: Result<AppSettings, string>) returns (r: Result<AppSettings, string>)
      modifies this
      ensures r == load && Constructions == old(Constructions) + 1
      ensures cached == (if load.Ok? then Some(load.value) else old(cached))
    {
      Constructions := Constructions + 1;
      if load.Err? {
        return load;
      }
      cached := Some(load.value);
      r := load;
    }
  }

  /** After a successful reload, `get_settings` returns the reloaded
      settings without building again, however often it is called. */
  method ReloadThenGet(cache: SettingsCache, load: Result<AppSettings, string>, unused: Result<AppSettings, string>)
    returns (reloaded: Result<AppSettings, string>, first: Result<AppSettings, string>, second: Result<AppSettings, string>)
    requires load.Ok?
    modifies cache
    ensures reloaded == load && first == load && second == load
    ensures cache.Constructions == old(cache.Constructions) + 1
  {
    reloaded := cache.ReloadSettings(load);
    first := cache.GetSettings(unused);
    second := cache.GetSettings(unused);
  }
}
