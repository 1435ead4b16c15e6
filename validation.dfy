/** Configuration checks (config/validation.py): the ordered issue list
    for loaded settings, the scan for unset environment variables, the
    staged setup check and the health report.

    The process environment is a map `env`; `os.getenv(name)` is falsy
    exactly when the name is absent or bound to "". Whether `.env`
    exists, and what `AppSettings()` produces (settings, or the text of
    the exception it raises), are inputs. `getattr(logging, level)`
    succeeding is the predicate `isLoggingAttr`. */
module Validation {
  import opened Wrappers
  import opened Text
  import opened Seqs
  import opened ErrorHandler
  import opened Settings

  type Env = map<string, string>

  /** `os.getenv(name)` is truthy. */
  predicate IsSet(env: Env, name: string)
  {
    name in env && env[name] != ""
  }

  // ---------------------------------------------------------------
  // validate_configuration

  /** The four attributes of `required_outlook`, in its order. */
  datatype OutlookField = ClientId | TenantId | ClientSecret | SenderAddress

  const RequiredOutlook: seq<OutlookField> := [ClientId, TenantId, ClientSecret, SenderAddress]

  function FieldName(f: OutlookField): string
  {
    match f
    case ClientId => "client_id"
    case TenantId => "tenant_id"
    case ClientSecret => "client_secret"
    case SenderAddress => "sender_address"
  }

  function FieldEnvVar(f: OutlookField): string
  {
    match f
    case ClientId => "OUTLOOK_CLIENT_ID"
    case TenantId => "OUTLOOK_TENANT_ID"
    case ClientSecret => "OUTLOOK_CLIENT_SECRET"
    case SenderAddress => "OUTLOOK_SENDER_ADDRESS"
  }

  /** `getattr(settings.outlook, attr)`. */
  function FieldValue(o: OutlookSettings, f: OutlookField): string
  {
    match f
    case ClientId => o.clientId
    case TenantId => o.tenantId
    case ClientSecret => o.clientSecret
    case SenderAddress => o.senderAddress
  }

  /** The checks `validate_configuration` makes, one per possible issue. */
  datatype Check = ApiKeyCheck | ModelCheck | OutlookCheck(field: OutlookField) | EmailCheck | LogLevelCheck

  /** The order in which the checks run, and so the order of the issues. */
  const CheckOrder: seq<Check> := [
    ApiKeyCheck, ModelCheck,
    OutlookCheck(ClientId), OutlookCheck(TenantId), OutlookCheck(ClientSecret), OutlookCheck(SenderAddress),
    EmailCheck, LogLevelCheck]

  const ApiKeyIssue := "OpenAI API key is required (OPENAI_API_KEY)"
  const ModelIssue := "OpenAI model is required (OPENAI_MODEL)"
  const EmailIssue := "Outlook sender address must be a valid email"

  function OutlookIssue(f: OutlookField): string
  {
    "Outlook " + FieldName(f) + " is required (" + FieldEnvVar(f) + ")"
  }

  function LogLevelIssue(level: string): string
  {
    "Invalid log level: " + level
  }

  /** Whether a check reports an issue for these settings. */
  predicate Fails(s: AppSettings, isLoggingAttr: string -> bool, c: Check)
  {
    match c
    case ApiKeyCheck => s.openai.apiKey == ""
    case ModelCheck => s.openai.model == ""
    case OutlookCheck(f) => FieldValue(s.outlook, f) == ""
    case EmailCheck => s.outlook.senderAddress != "" && '@' !in s.outlook.senderAddress
    case LogLevelCheck => !isLoggingAttr(s.logLevel)
  }

  /** The text a check appends when it fails. */
  function IssueText(s: AppSettings, c: Check): string
  {
    match c
    case ApiKeyCheck => ApiKeyIssue
    case ModelCheck => ModelIssue
    case OutlookCheck(f) => OutlookIssue(f)
    case EmailCheck => EmailIssue
    case LogLevelCheck => LogLevelIssue(s.logLevel)
  }

  /** Which check an issue text came from, read off a few characters. */
  function CheckOfIssue(t: string): Option<Check>
  {
    if |t| < 16 then None
    else if t[0] == 'I' then Some(LogLevelCheck)
    else if t[1] == 'p' then (if t[7] == 'A' then Some(ApiKeyCheck) else Some(ModelCheck))
    else if t[8] == 't' then Some(OutlookCheck(TenantId))
    else if t[8] == 'c' then (if t[15] == 'i' then Some(OutlookCheck(ClientId)) else Some(OutlookCheck(ClientSecret)))
    else if t[14] == '_' then Some(OutlookCheck(SenderAddress))
    else Some(EmailCheck)
  }

  /** Every issue text names its check: no two checks can report the same
      text, whatever the settings. */
  lemma CheckOfIssueText(s: AppSettings, c: Check)
    ensures CheckOfIssue(IssueText(s, c)) == Some(c)
  {
    match c
    case OutlookCheck(f) =>
      var t := IssueText(s, c);
      assert t[..8] == "Outlook ";
      assert t[8..8 + |FieldName(f)|] == FieldName(f);
    case LogLevelCheck =>
      assert IssueText(s, c)[0] == 'I';
    case _ =>
  }

  /** The issues the checks `cs` report, in the order of `cs`. */
  function IssuesFor(s: AppSettings, isLoggingAttr: string -> bool, cs: seq<Check>): (r: seq<string>)
    ensures |r| <= |cs|
  {
    if cs == [] then []
    else (if Fails(s, isLoggingAttr, cs[0]) then [IssueText(s, cs[0])] else []) + IssuesFor(s, isLoggingAttr, cs[1..])
  }

  /** What `validate_configuration` returns. */
  function ConfigIssues(s: AppSettings, isLoggingAttr: string -> bool): seq<string>
  {
    IssuesFor(s, isLoggingAttr, CheckOrder)
  }

  lemma {:induction false} IssuesForAppend(s: AppSettings, isLoggingAttr: string -> bool, a: seq<Check>, b: seq<Check>)
    ensures IssuesFor(s, isLoggingAttr, a + b) == IssuesFor(s, isLoggingAttr, a) + IssuesFor(s, isLoggingAttr, b)
  {
    if a == [] {
      assert a + b == b;
    } else {
      assert (a + b)[1..] == a[1..] + b;
      IssuesForAppend(s, isLoggingAttr, a[1..], b);
    }
  }

  /** One more check run: its issue, if any, goes at the end. */
  lemma IssuesForStep(s: AppSettings, isLoggingAttr: string -> bool, n: nat)
    requires n < |CheckOrder|
    ensures IssuesFor(s, isLoggingAttr, CheckOrder[..n + 1])
         == IssuesFor(s, isLoggingAttr, CheckOrder[..n])
            + (if Fails(s, isLoggingAttr, CheckOrder[n]) then [IssueText(s, CheckOrder[n])] else [])
  {
    assert CheckOrder[..n + 1] == CheckOrder[..n] + [CheckOrder[n]];
    IssuesForAppend(s, isLoggingAttr, CheckOrder[..n], [CheckOrder[n]]);
  }

  /** `validate_configuration(settings)`, check by check as the source
      runs them, with a loop over `required_outlook`. */
  method ValidateConfiguration(settings: AppSettings, isLoggingAttr: string -> bool) returns (issues: seq<string>)
    ensures issues == ConfigIssues(settings, isLoggingAttr)
  {
    issues := [];
    IssuesForStep(settings, isLoggingAttr, 0);
    if settings.openai.apiKey == "" {
      issues := issues + [ApiKeyIssue];
    }
    IssuesForStep(settings, isLoggingAttr, 1);
    if settings.openai.model == "" {
      issues := issues + [ModelIssue];
    }
    for k := 0 to |RequiredOutlook|
      invariant issues == IssuesFor(settings, isLoggingAttr, CheckOrder[..2 + k])
    {
      var f := RequiredOutlook[k];
      IssuesForStep(settings, isLoggingAttr, 2 + k);
      if FieldValue(settings.outlook, f) == "" {
        issues := issues + [OutlookIssue(f)];
      }
    }
    IssuesForStep(settings, isLoggingAttr, 6);
    if settings.outlook.senderAddress != "" && '@' !in settings.outlook.senderAddress {
      issues := issues + [EmailIssue];
    }
    IssuesForStep(settings, isLoggingAttr, 7);
    if !isLoggingAttr(settings.logLevel) {
      issues := issues + [LogLevelIssue(settings.logLevel)];
    }
    assert CheckOrder[..8] == CheckOrder;
  }

  /** The list is empty exactly when every check passes. */
  lemma {:induction false} IssuesForEmpty(s: AppSettings, isLoggingAttr: string -> bool, cs: seq<Check>)
    ensures IssuesFor(s, isLoggingAttr, cs) == [] <==> forall i :: 0 <= i < |cs| ==> !Fails(s, isLoggingAttr, cs[i])
  {
    if cs != [] {
      IssuesForEmpty(s, isLoggingAttr, cs[1..]);
      assert forall i :: 1 <= i < |cs| ==> cs[i] == cs[1..][i - 1];
    }
  }

  /** `validate_configuration` returns [] exactly when the API key, the
      model and the four Outlook fields are set, the sender address
      contains '@' and the log level names an attribute of `logging`. */
  lemma NoIssuesIff(s: AppSettings, isLoggingAttr: string -> bool)
    ensures ConfigIssues(s, isLoggingAttr) == [] <==>
      s.openai.apiKey != "" && s.openai.model != ""
      && s.outlook.clientId != "" && s.outlook.tenantId != "" && s.outlook.clientSecret != ""
      && s.outlook.senderAddress != "" && '@' in s.outlook.senderAddress
      && isLoggingAttr(s.logLevel)
  {
    IssuesForEmpty(s, isLoggingAttr, CheckOrder);
    if forall i :: 0 <= i < |CheckOrder| ==> !Fails(s, isLoggingAttr, CheckOrder[i]) {
      assert !Fails(s, isLoggingAttr, CheckOrder[0]) && !Fails(s, isLoggingAttr, CheckOrder[1]);
      assert !Fails(s, isLoggingAttr, CheckOrder[2]) && !Fails(s, isLoggingAttr, CheckOrder[3]);
      assert !Fails(s, isLoggingAttr, CheckOrder[4]) && !Fails(s, isLoggingAttr, CheckOrder[5]);
      assert !Fails(s, isLoggingAttr, CheckOrder[6]) && !Fails(s, isLoggingAttr, CheckOrder[7]);
    }
  }

  /** Each check's issue occurs once if the check fails and not at all
      otherwise. */
  lemma {:induction false} IssueCount(s: AppSettings, isLoggingAttr: string -> bool, cs: seq<Check>, c: Check)
    requires forall i, j :: 0 <= i < j < |cs| ==> cs[i] != cs[j]
    ensures multiset(IssuesFor(s, isLoggingAttr, cs))[IssueText(s, c)]
            == if c in cs && Fails(s, isLoggingAttr, c) then 1 else 0
  {
    if cs != [] {
      IssueCount(s, isLoggingAttr, cs[1..], c);
      CheckOfIssueText(s, c);
      CheckOfIssueText(s, cs[0]);
      assert c in cs <==> c == cs[0] || c in cs[1..];
      assert cs[0] !in cs[1..];
    }
  }

  lemma CheckOrderComplete(c: Check)
    ensures forall i, j :: 0 <= i < j < |CheckOrder| ==> CheckOrder[i] != CheckOrder[j]
    ensures c in CheckOrder
  {
    if c.OutlookCheck? {
      match c.field {
        case ClientId => assert CheckOrder[2] == c;
        case TenantId => assert CheckOrder[3] == c;
        case ClientSecret => assert CheckOrder[4] == c;
        case SenderAddress => assert CheckOrder[5] == c;
      }
    }
  }

  /** Every check contributes its issue once when it fails, and never
      otherwise. */
  lemma ConfigIssueCount(s: AppSettings, isLoggingAttr: string -> bool, c: Check)
    ensures multiset(ConfigIssues(s, isLoggingAttr))[IssueText(s, c)] == if Fails(s, isLoggingAttr, c) then 1 else 0
  {
    CheckOrderComplete(c);
    IssueCount(s, isLoggingAttr, CheckOrder, c);
  }

  /** Instances of `ConfigIssueCount`: a missing Outlook field gives
      exactly one "required" issue, and the e-mail issue appears exactly
      when the sender address is non-empty and lacks '@' (an empty one
      gives only its "required" issue). */
  lemma IssueMultiplicity(s: AppSettings, isLoggingAttr: string -> bool, f: OutlookField)
    ensures multiset(ConfigIssues(s, isLoggingAttr))[OutlookIssue(f)] == if FieldValue(s.outlook, f) == "" then 1 else 0
    ensures multiset(ConfigIssues(s, isLoggingAttr))[EmailIssue]
            == if s.outlook.senderAddress != "" && '@' !in s.outlook.senderAddress then 1 else 0
    ensures multiset(ConfigIssues(s, isLoggingAttr))[ApiKeyIssue] == if s.openai.apiKey == "" then 1 else 0
    ensures multiset(ConfigIssues(s, isLoggingAttr))[ModelIssue] == if s.openai.model == "" then 1 else 0
  {
    ConfigIssueCount(s, isLoggingAttr, OutlookCheck(f));
    ConfigIssueCount(s, isLoggingAttr, EmailCheck);
    ConfigIssueCount(s, isLoggingAttr, ApiKeyCheck);
    ConfigIssueCount(s, isLoggingAttr, ModelCheck);
  }

  /** Settings that passed the `log_level` validator raise no log-level
      issue, given that `logging` has the five standard level names. */
  lemma ValidatedLevelIsLoggingAttr(s: AppSettings, isLoggingAttr: string -> bool)
    requires forall l :: l in ValidLevels ==> isLoggingAttr(l)
    requires ApplyValidators(s).Ok?
    ensures LogLevelIssue(ApplyValidators(s).value.logLevel) !in ConfigIssues(ApplyValidators(s).value, isLoggingAttr)
  {
    var v := ApplyValidators(s).value;
    ConfigIssueCount(v, isLoggingAttr, LogLevelCheck);
  }

  // ---------------------------------------------------------------
  // check_required_environment_variables

  datatype RequiredVar = RequiredVar(name: string, description: string)

  const RequiredVars: seq<RequiredVar> := [
    RequiredVar("OPENAI_API_KEY", "OpenAI API key for AI model access"),
    RequiredVar("OUTLOOK_CLIENT_ID", "Azure AD application client ID"),
    RequiredVar("OUTLOOK_TENANT_ID", "Azure AD tenant ID"),
    RequiredVar("OUTLOOK_CLIENT_SECRET", "Azure AD application client secret"),
    RequiredVar("OUTLOOK_SENDER_ADDRESS", "Default email sender address")]

  function UnsetIn(env: Env): RequiredVar -> bool
  {
    (v: RequiredVar) => !IsSet(env, v.name)
  }

  /** What `check_required_environment_variables` returns. */
  function MissingVars(env: Env): seq<RequiredVar>
  {
    Filter(UnsetIn(env), RequiredVars)
  }

  /** The scan as the source writes it: a loop appending each unset
      variable. */
  method CheckRequiredEnvironmentVariables(env: Env) returns (missing: seq<RequiredVar>)
    ensures missing == MissingVars(env)
  {
    missing := [];
    for k := 0 to |RequiredVars|
      invariant missing == Filter(UnsetIn(env), RequiredVars[..k])
    {
      var v := RequiredVars[k];
      assert RequiredVars[..k + 1] == RequiredVars[..k] + [v];
      FilterAppend(UnsetIn(env), RequiredVars[..k], [v]);
      if !IsSet(env, v.name) {
        missing := missing + [v];
      }
    }
    assert RequiredVars[..|RequiredVars|] == RequiredVars;
  }

  /** A required variable is reported exactly when it is unset or empty,
      and the report keeps the declaration order. */
  lemma MissingVarsSpec(env: Env)
    ensures forall i :: 0 <= i < |RequiredVars| ==>
      (RequiredVars[i] in MissingVars(env) <==> !IsSet(env, RequiredVars[i].name))
    ensures IsSubsequence(MissingVars(env), RequiredVars)
    ensures MissingVars(env) == [] <==> forall i :: 0 <= i < |RequiredVars| ==> IsSet(env, RequiredVars[i].name)
  {
    FilterIsSubsequence(UnsetIn(env), RequiredVars);
    var m := MissingVars(env);
    if m != [] {
      assert m[0] in RequiredVars && UnsetIn(env)(m[0]);
    }
  }

  // ---------------------------------------------------------------
  // validate_environment_setup

  const EnvFileMessage := "Environment file .env not found. Copy .env.example to .env and fill in your configuration."

  function Bullets(lines: seq<string>): (r: seq<string>)
    ensures |r| == |lines|
    ensures forall i :: 0 <= i < |lines| ==> r[i] == "  - " + lines[i]
  {
    seq(|lines|, i requires 0 <= i < |lines| => "  - " + lines[i])
  }

  function VarLine(v: RequiredVar): string
  {
    v.name + ": " + v.description
  }

  function MissingVarsMessage(missing: seq<RequiredVar>): string
  {
    "Missing required environment variables:\n"
    + Join("\n", Bullets(seq(|missing|, i requires 0 <= i < |missing| => VarLine(missing[i]))))
    + "\n\nPlease set these variables in your .env file."
  }

  function ValidationFailedMessage(issues: seq<string>): string
  {
    "Configuration validation failed:\n" + Join("\n", Bullets(issues))
  }

  function LoadFailedMessage(error: string): string
  {
    "Failed to load configuration: " + error
  }

  /** Every missing variable's name and description are listed. */
  lemma MissingVarsMessageLists(missing: seq<RequiredVar>, i: nat)
    requires i < |missing|
    ensures Contains(MissingVarsMessage(missing), "  - " + missing[i].name + ": " + missing[i].description)
  {
    var lines := Bullets(seq(|missing|, k requires 0 <= k < |missing| => VarLine(missing[k])));
    var head := "Missing required environment variables:\n";
    var body := Join("\n", lines);
    JoinAt("\n", lines, i);
    assert lines[i] == "  - " + missing[i].name + ": " + missing[i].description;
    var msg := MissingVarsMessage(missing);
    assert msg == head + body + "\n\nPlease set these variables in your .env file.";
    assert OccursAt(msg, body, |head|) by {
      assert msg[|head|..|head| + |body|] == body;
    }
    OccursWithin(msg, body, lines[i], |head|, JoinOffset("\n", lines, i));
  }

  /** Every issue is listed in the validation failure message. */
  lemma ValidationFailedMessageLists(issues: seq<string>, i: nat)
    requires i < |issues|
    ensures Contains(ValidationFailedMessage(issues), "  - " + issues[i])
  {
    var head := "Configuration validation failed:\n";
    var body := Join("\n", Bullets(issues));
    JoinAt("\n", Bullets(issues), i);
    assert OccursAt(ValidationFailedMessage(issues), body, |head|) by {
      assert ValidationFailedMessage(issues)[|head|..|head| + |body|] == body;
    }
    OccursWithin(ValidationFailedMessage(issues), body, Bullets(issues)[i], |head|, JoinOffset("\n", Bullets(issues), i));
  }

  /** Every stage passes. */
  predicate SetupPasses(envFileExists: bool, env: Env, load: Result<AppSettings, string>, isLoggingAttr: string -> bool)
  {
    envFileExists && MissingVars(env) == [] && load.Ok? && ConfigIssues(load.value, isLoggingAttr) == []
  }

  /** `validate_environment_setup()`: the stages run in order and the
      first that fails raises validation.py's `ConfigurationError`; a
      failure to build the settings is re-raised as one. */
  method ValidateEnvironmentSetup(envFileExists: bool, env: Env, load: Result<AppSettings, string>,
                                  isLoggingAttr: string -> bool)
    returns (r: Outcome<Exc>)
    ensures r.Pass? <==> SetupPasses(envFileExists, env, load, isLoggingAttr)
    ensures r.Fail? ==> r.error.SetupConfigError?
    ensures !envFileExists ==> r == Fail(SetupConfigError(EnvFileMessage))
    ensures envFileExists && MissingVars(env) != [] ==>
      r == Fail(SetupConfigError(MissingVarsMessage(MissingVars(env))))
    ensures envFileExists && MissingVars(env) == [] && load.Err? ==>
      r == Fail(SetupConfigError(LoadFailedMessage(load.error)))
    ensures envFileExists && MissingVars(env) == [] && load.Ok? && ConfigIssues(load.value, isLoggingAttr) != [] ==>
      r == Fail(SetupConfigError(ValidationFailedMessage(ConfigIssues(load.value, isLoggingAttr))))
  {
    if !envFileExists {
      return Fail(SetupConfigError(EnvFileMessage));
    }
    var missingVars := CheckRequiredEnvironmentVariables(env);
    if missingVars != [] {
      return Fail(SetupConfigError(MissingVarsMessage(missingVars)));
    }
    if load.Err? {
      return Fail(SetupConfigError(LoadFailedMessage(load.error)));
    }
    var issues := ValidateConfiguration(load.value, isLoggingAttr);
    if issues != [] {
      return Fail(SetupConfigError(ValidationFailedMessage(issues)));
    }
    r := Pass;
  }

  // ---------------------------------------------------------------
  // get_configuration_health

  const Healthy := "healthy"
  const Unhealthy := "unhealthy"

  /** The variables whose presence the report records. */
  const ReportedVars: seq<string> := [
    "OPENAI_API_KEY", "OUTLOOK_CLIENT_ID", "OUTLOOK_TENANT_ID",
    "OUTLOOK_CLIENT_SECRET", "OUTLOOK_SENDER_ADDRESS"]

  /** The `health` dictionary. */
  datatype Health = Health(status: string, issues: seq<string>, environmentVariables: map<string, bool>, settingsLoaded: bool)

  function MissingIssues(missing: seq<RequiredVar>): (r: seq<string>)
    ensures |r| == |missing|
    ensures forall i :: 0 <= i < |missing| ==> r[i] == "Missing " + missing[i].name
  {
    seq(|missing|, i requires 0 <= i < |missing| => "Missing " + missing[i].name)
  }

  /** The issues the report ends with: the missing variables first, then
      either the validation issues or the error that building the
      settings raised. */
  function HealthIssues(env: Env, load: Result<AppSettings, string>, isLoggingAttr: string -> bool): seq<string>
  {
    MissingIssues(MissingVars(env))
    + (if load.Ok? then ConfigIssues(load.value, isLoggingAttr) else ["Configuration error: " + load.error])
  }

  /** The loop filling `health["environment_variables"]`: for every
      reported variable, whether it is set (its value is not recorded). */
  method RecordEnvironmentVariables(env: Env) returns (envVars: map<string, bool>)
    ensures forall v :: v in envVars <==> v in ReportedVars
    ensures forall v :: v in envVars ==> envVars[v] == IsSet(env, v)
  {
    envVars := map[];
    for k := 0 to |ReportedVars|
      invariant forall v :: v in envVars <==> v in ReportedVars[..k]
      invariant forall v :: v in envVars ==> envVars[v] == IsSet(env, v)
    {
      var name := ReportedVars[k];
      assert ReportedVars[..k + 1] == ReportedVars[..k] + [name];
      envVars := envVars[name := IsSet(env, name)];
    }
    assert ReportedVars[..|ReportedVars|] == ReportedVars;
  }

  /** `get_configuration_health()`, updating the report step by step. */
  method GetConfigurationHealth(env: Env, load: Result<AppSettings, string>, isLoggingAttr: string -> bool)
    returns (health: Health)
    ensures health.issues == HealthIssues(env, load, isLoggingAttr)
    ensures health.status == (if health.issues == [] then Healthy else Unhealthy)
    ensures health.settingsLoaded == load.Ok?
    ensures load.Err? ==> health.environmentVariables == map[]
    ensures load.Ok? ==> forall v :: v in health.environmentVariables <==> v in ReportedVars
    ensures forall v :: v in health.environmentVariables ==> health.environmentVariables[v] == IsSet(env, v)
  {
    health := Health(Healthy, [], map[], false);
    var missingVars := CheckRequiredEnvironmentVariables(env);
    ghost var missingIssues := MissingIssues(missingVars);
    if missingVars != [] {
      health := health.(status := Unhealthy, issues := health.issues + MissingIssues(missingVars));
    }
    assert health.issues == missingIssues;
    if load.Err? {
      health := health.(status := Unhealthy, issues := health.issues + ["Configuration error: " + load.error]);
      assert health.issues == missingIssues + ["Configuration error: " + load.error];
      return;
    }
    var settings := load.value;
    health := health.(settingsLoaded := true);
    var validationIssues := ValidateConfiguration(settings, isLoggingAttr);
    if validationIssues != [] {
      health := health.(status := Unhealthy, issues := health.issues + validationIssues);
    }
    assert health.issues == missingIssues + validationIssues;
    var envVars := RecordEnvironmentVariables(env);
    health := health.(environmentVariables := envVars);
  }

  /** With `.env` present, the setup check passes exactly when the health
      report has no issue, and so says "healthy". */
  lemma HealthyIffSetupPasses(env: Env, load: Result<AppSettings, string>, isLoggingAttr: string -> bool)
    ensures HealthIssues(env, load, isLoggingAttr) == [] <==> SetupPasses(true, env, load, isLoggingAttr)
  {
    assert |MissingIssues(MissingVars(env))| == |MissingVars(env)|;
  }

  /** Missing-variable issues come before every other issue of the
      report, one per missing variable in declaration order. */
  lemma HealthIssuesOrder(env: Env, load: Result<AppSettings, string>, isLoggingAttr: string -> bool)
    ensures |MissingVars(env)| <= |HealthIssues(env, load, isLoggingAttr)|
    ensures forall i :: 0 <= i < |MissingVars(env)| ==>
      HealthIssues(env, load, isLoggingAttr)[i] == "Missing " + MissingVars(env)[i].name
    ensures load.Err? ==> HealthIssues(env, load, isLoggingAttr)[|MissingVars(env)|..] == ["Configuration error: " + load.error]
  {
  }
}
