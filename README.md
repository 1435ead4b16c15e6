# EmailTemplatesGen core, modelled in Dafny

EmailTemplatesGen drafts business emails with an OpenAI model, answers
questions about itself from indexed documentation, sends mail through
Microsoft Graph and offers a voice page. Most of the repository is
Streamlit pages and thin wrappers over vendor SDKs. This project models
the logic the repository implements itself:

- **Configuration** (`Settings`, `Validation`):
  - the log-level and environment validators;
  - the field defaults;
  - the cached settings singleton (`SettingsCache`, a class with an optional field);
  - the ordered issue list of `validate_configuration`;
  - the scan for unset environment variables;
  - the staged `validate_environment_setup`;
  - the health report.

  The loops that build these lists are methods, proved equal to
  specification functions. The properties are proved about those functions.
- **Errors and decorators** (`ErrorHandler`, `Decorators`):
  - the `EmailTemplateError` hierarchy with its fixed service tags;
  - the exception transforms of `log_function_call`, `log_api_call` and `handle_errors`;
  - the bounded retry loop of `retry_on_failure`, as a method with invariants.
- **Prompts and streams** (`Chat`, `Generator`, `Chatbot`):
  - the prompt templates;
  - the completion requests;
  - the filter that forwards the non-empty delta contents in arrival order.
- **Outlook** (`Outlook`):
  - the credential and sender fallback, which follows Python's `or`, so an empty string also falls back;
  - the guards;
  - the silent-then-client token decision;
  - the exact `sendMail` payload, endpoint and headers.
- **Voice page** (`Speak`):
  - the `WhisperAudioProcessor` frame buffer (append, then drain and clear);
  - the append-only conversation history with its reset.

Helper modules:

- `Wrappers`: Option, Result, Outcome.
- `Text`: ASCII case mapping, `str.strip`, substring occurrence, `str.join`.
- `Seqs`: filter and subsequence.

Python exceptions are values of `ErrorHandler.Exc`. Calls to OpenAI,
MSAL, `requests`, the vector index, Whisper and text-to-speech are
function-valued parameters (oracles), each of which may return a result
or raise an exception. A streamed completion is the chunks that arrive
followed, if the stream fails, by the exception that ends it. The process environment is a `map`. The outcome
of constructing `AppSettings()` is an input.

The Outlook module reads its default sender from `OUTLOOK_SENDER`
(src/email_templates_gen/integrations/outlook.py:16). The configuration
checks require `OUTLOOK_SENDER_ADDRESS` instead
(src/email_templates_gen/config/validation.py:36,68). The model keeps
the two separate. `Outlook.SetupCheckLeavesSenderUnset` shows that the
setup check can pass while `send_email` still has no default sender.

## Model

| member | source | states |
|---|---|---|
| Settings.DefaultOpenAISettings | src/email_templates_gen/config/settings.py:11-17 | model defaults to "gpt-4", max_tokens to 2000, temperature to 0.7 |
| Settings.DefaultSharePointSettings | src/email_templates_gen/config/settings.py:37-43 | every SharePoint field defaults to None |
| Settings.DefaultAppSettings | src/email_templates_gen/config/settings.py:54-65 | debug False, log level "INFO", environment "development", port 8501, theme "light" |
| Settings.ValidateLogLevel | src/email_templates_gen/config/settings.py:71-77 | an accepted value is a valid level equal to the input up to case; a rejection carries the ValueError message |
| Settings.ValidateEnvironment | src/email_templates_gen/config/settings.py:79-85 | an accepted value is a valid environment equal to the input up to case; a rejection carries the ValueError message |
| Settings.EqualsIgnoringCaseUpper | src/email_templates_gen/config/settings.py:74-75 | comparing after upper-casing is exactly equality up to ASCII case |
| Settings.EqualsIgnoringCaseLower | src/email_templates_gen/config/settings.py:82-83 | comparing after lower-casing is exactly equality up to ASCII case |
| Settings.LevelsAreUpperCase | src/email_templates_gen/config/settings.py:73 | every valid level is its own upper-case form |
| Settings.EnvironmentsAreLowerCase | src/email_templates_gen/config/settings.py:81 | every valid environment is its own lower-case form |
| Settings.LogLevelAcceptsExactly | src/email_templates_gen/config/settings.py:72-77 | a log level is accepted if and only if it equals one of DEBUG/INFO/WARNING/ERROR/CRITICAL up to case |
| Settings.EnvironmentAcceptsExactly | src/email_templates_gen/config/settings.py:80-85 | an environment is accepted if and only if it equals development/staging/production up to case |
| Settings.ValidateLogLevelIdempotent | src/email_templates_gen/config/settings.py:74-77 | validating an accepted level again returns the same level |
| Settings.ValidateEnvironmentIdempotent | src/email_templates_gen/config/settings.py:82-85 | validating an accepted environment again returns the same value |
| Settings.ValidateLogLevelIgnoresCase | src/email_templates_gen/config/settings.py:74-77 | two levels equal up to case validate to the same outcome |
| Settings.ApplyValidators | src/email_templates_gen/config/settings.py:50-85 | the settings are accepted if and only if both validators accept; only log level and environment change, to valid values |
| Settings.ApplyValidatorsIdempotent | src/email_templates_gen/config/settings.py:71-85 | validating validated settings changes nothing |
| Settings.DefaultsAreValid | src/email_templates_gen/config/settings.py:54-85 | the default settings pass both validators unchanged |
| Settings.SettingsCache.constructor | src/email_templates_gen/config/settings.py:89 | the cache starts empty |
| Settings.SettingsCache.GetSettings | src/email_templates_gen/config/settings.py:92-97 | with a cached instance, returns it without constructing; otherwise constructs once and caches a success |
| Settings.SettingsCache.ReloadSettings | src/email_templates_gen/config/settings.py:100-104 | always constructs; a success replaces the cache |
| Settings.ReloadThenGet | src/email_templates_gen/config/settings.py:92-104 | after a successful reload, later gets return the reloaded instance with no further construction |
| Validation.CheckOfIssueText | src/email_templates_gen/config/validation.py:25-52 | every issue text names its check: the check is recovered from the text |
| Validation.IssuesForAppend | src/email_templates_gen/config/validation.py:22-54 | the issues of consecutive checks are the concatenation of each part's issues |
| Validation.ValidateConfiguration | src/email_templates_gen/config/validation.py:16-54 | the loop over the Outlook fields yields exactly the specified ordered issue list |
| Validation.IssuesForEmpty | src/email_templates_gen/config/validation.py:22-54 | a run of checks yields no issue if and only if none of them fails |
| Validation.NoIssuesIff | src/email_templates_gen/config/validation.py:17-54 | no issues exactly when API key, model and the four Outlook fields are non-empty, the sender contains '@', and the level is a logging attribute |
| Validation.IssueCount | src/email_templates_gen/config/validation.py:22-54 | over distinct checks, each failing check contributes its issue exactly once |
| Validation.CheckOrderComplete | src/email_templates_gen/config/validation.py:25-52 | the eight checks are distinct and every check is among them |
| Validation.ConfigIssueCount | src/email_templates_gen/config/validation.py:25-52 | an issue occurs once if its check fails and not at all otherwise |
| Validation.IssueMultiplicity | src/email_templates_gen/config/validation.py:32-45 | each empty Outlook field yields exactly one "required" issue; the email-format issue appears only for a non-empty sender without '@' |
| Validation.ValidatedLevelIsLoggingAttr | src/email_templates_gen/config/validation.py:47-52 | settings that passed the validators never get the invalid-log-level issue |
| Validation.CheckRequiredEnvironmentVariables | src/email_templates_gen/config/validation.py:57-76 | the loop returns exactly the unset or empty required variables |
| Validation.MissingVarsSpec | src/email_templates_gen/config/validation.py:63-76 | a variable is reported if and only if it is unset or empty; the report keeps declaration order; it is empty if and only if all are set |
| Validation.MissingVarsMessageLists | src/email_templates_gen/config/validation.py:96-99 | the missing-variables message lists every missing name with its description |
| Validation.ValidationFailedMessageLists | src/email_templates_gen/config/validation.py:107-110 | the validation-failed message lists every issue |
| Validation.ValidateEnvironmentSetup | src/email_templates_gen/config/validation.py:79-114 | passes exactly when every stage passes; otherwise fails with the first failing stage's ConfigurationError, in the order .env, variables, loading, validation |
| Validation.MissingIssues | src/email_templates_gen/config/validation.py:135 | one "Missing NAME" issue per missing variable, in order |
| Validation.RecordEnvironmentVariables | src/email_templates_gen/config/validation.py:148-153 | records each of the five variables, true exactly when it is set |
| Validation.GetConfigurationHealth | src/email_templates_gen/config/validation.py:117-159 | the issues are the specified list; status is healthy exactly when it is empty; a failed load leaves the variable map empty |
| Validation.HealthyIffSetupPasses | src/email_templates_gen/config/validation.py:79-159 | with a .env file present, the report is healthy if and only if the setup check passes |
| Validation.HealthIssuesOrder | src/email_templates_gen/config/validation.py:132-157 | missing-variable issues come first; a load failure appends exactly one "Configuration error: ..." issue |
| ErrorHandler.DetailsOrEmpty | src/email_templates_gen/utils/error_handler.py:14 | absent details become the empty mapping |
| ErrorHandler.NewEmailTemplateError | src/email_templates_gen/utils/error_handler.py:8-14 | stores the message and the details, defaulting to empty |
| ErrorHandler.NewConfigurationError | src/email_templates_gen/utils/error_handler.py:17-19 | a configuration error carries only message and details, no service |
| ErrorHandler.NewDataProcessingError | src/email_templates_gen/utils/error_handler.py:73-75 | carries only message and details, no service |
| ErrorHandler.NewTemplateGenerationError | src/email_templates_gen/utils/error_handler.py:78-80 | carries only message and details, no service |
| ErrorHandler.NewValidationError | src/email_templates_gen/utils/error_handler.py:83-85 | carries only message and details, no service |
| ErrorHandler.NewAPIError | src/email_templates_gen/utils/error_handler.py:22-34 | records service, status code (None when not given), message and details |
| ErrorHandler.NewOpenAIError | src/email_templates_gen/utils/error_handler.py:37-46 | an APIError with service "OpenAI" |
| ErrorHandler.NewOutlookIntegrationError | src/email_templates_gen/utils/error_handler.py:49-58 | an APIError with service "Outlook" |
| ErrorHandler.NewSharePointIntegrationError | src/email_templates_gen/utils/error_handler.py:61-70 | an APIError with service "SharePoint" |
| ErrorHandler.HierarchyShape | src/email_templates_gen/utils/error_handler.py:8-85 | every error is an EmailTemplateError; an error is an APIError if and only if it carries a service |
| ErrorHandler.ConstructorsWellFormed | src/email_templates_gen/utils/error_handler.py:37-70 | each subclass constructor yields the service tag its class fixes |
| Decorators.LogFunctionCall | src/email_templates_gen/utils/decorators.py:30-49 | the result is returned and the exception re-raised, both unchanged |
| Decorators.UnexpectedApiError | src/email_templates_gen/utils/decorators.py:107 | an APIError for the service, with no status code and message "Unexpected error: ..." |
| Decorators.LogApiCall | src/email_templates_gen/utils/decorators.py:74-107 | success and APIError pass unchanged; any other exception becomes the service's unexpected APIError |
| Decorators.LogApiCallIdempotent | src/email_templates_gen/utils/decorators.py:84-107 | wrapping twice behaves like wrapping once |
| Decorators.HandleErrors | src/email_templates_gen/utils/decorators.py:129-139 | a caught exception gives default_return; any other propagates unchanged; success passes |
| Decorators.HandleErrorsDefaultNeverRaises | src/email_templates_gen/utils/decorators.py:112-139 | with the default catch-all, the wrapper never raises |
| Decorators.RetryOnFailure | src/email_templates_gen/utils/decorators.py:163-188 | at most max_retries+1 calls; the first success is returned; a non-retryable error propagates at once; a retryable one only after all attempts; one sleep after each failure but the last; none when max_retries < 0 |
| Chat.ChunkContent | email_generator/generator.py:27 | a non-empty content comes from a chunk with a choice whose delta holds that content |
| Chat.StreamFragments | email_generator/generator.py:26-28 | never yields an empty fragment and never more fragments than chunks |
| Chat.Contents | email_generator/generator.py:26-28 | one content per chunk, in order |
| Chat.StreamFragmentsSpec | email_generator/generator.py:26-28 | the yielded fragments are exactly the non-empty contents in arrival order |
| Chat.StreamFragmentsInOrder | email_generator/generator.py:26-28 | the fragments are a subsequence of the chunk contents |
| Chat.StreamFragmentsAppend | email_generator/generator.py:26-28 | streaming a concatenation yields the concatenated fragments |
| Chat.SkippedChunks | email_generator/generator.py:27 | chunks with no choices, no delta, or None/empty content yield nothing |
| Chat.TextChunk | tests/test_email_generator.py:14-18 | a one-choice chunk carrying the given content |
| Generator.EmailPrompt | email_generator/generator.py:6-14 | the prompt holds the tone lower-cased, then the purpose and input text verbatim at fixed offsets, then the closing instruction |
| Generator.EmailPromptToneCaseInsensitive | email_generator/generator.py:7 | tones equal after lower-casing give the same prompt |
| Generator.EmailRequest | email_generator/generator.py:16-23 | model "gpt-4", streaming, the fixed system message then the user prompt containing the inputs |
| Generator.StreamGeneratedEmail | email_generator/generator.py:3-28 | yields exactly the non-empty delta contents of the response, in order, then raises whatever ended the stream |
| Generator.StreamYieldsTokens | tests/test_email_generator.py:23-29 | a stream of "Hello" then " World" yields exactly ["Hello", " World"] and raises nothing |
| Chat.FilterStream | email_generator/generator.py:26-28 | the fragments are the non-empty contents of the chunks that arrived; the stream's exception is raised after them unchanged |
| Chat.FailureKeepsEarlierFragments | src/email_templates_gen/learnbot/chatbot.py:32-34 | a stream failing part-way has yielded exactly the beginning of what the longer stream would yield |
| Chatbot.Context | src/email_templates_gen/learnbot/chatbot.py:9 | no chunks give the empty context; one chunk is the context itself |
| Chatbot.ContextKeepsChunksInOrder | src/email_templates_gen/learnbot/chatbot.py:9 | every chunk appears verbatim; earlier chunks, then the blank-line separator, precede later ones |
| Chatbot.AnswerPrompt | src/email_templates_gen/learnbot/chatbot.py:11-21 | the context block comes before the verbatim question, between fixed texts |
| Chatbot.AnswerRequest | src/email_templates_gen/learnbot/chatbot.py:23-30 | model "gpt-4", streaming, the fixed system message then a prompt containing the question |
| Chatbot.RetrievedChunkInPrompt | src/email_templates_gen/learnbot/chatbot.py:8-21 | each retrieved chunk reaches the prompt verbatim, before the question |
| Chatbot.EmptyRetrievalStillAsks | src/email_templates_gen/learnbot/chatbot.py:8-23 | an empty retrieval gives an empty context and the question is still asked |
| Chatbot.StreamAnswerFromDocs | src/email_templates_gen/learnbot/chatbot.py:4-34 | retrieves with k = 3; a failed retrieval raises before anything is yielded; otherwise yields exactly the non-empty delta contents, in order, then the stream's exception |
| Outlook.GetEnv | src/email_templates_gen/integrations/outlook.py:13-16 | a variable's value when present, None otherwise |
| Outlook.Or | src/email_templates_gen/integrations/outlook.py:26-28 | the argument unless it is None or empty, else the fallback; truthy if and only if either is |
| Outlook.Authority | src/email_templates_gen/integrations/outlook.py:17-35 | the login prefix followed by the tenant id |
| Outlook.ClientFor | src/email_templates_gen/integrations/outlook.py:33-37 | the client's authority is built from the resolved tenant |
| Outlook.TokenFromResult | src/email_templates_gen/integrations/outlook.py:42-45 | the access token when present; otherwise a RuntimeError with error_description or "Unknown error" |
| Outlook.CredentialGuard | src/email_templates_gen/integrations/outlook.py:30-44 | ValueError when a resolved credential is falsy; past the guard a failure is the RuntimeError of a tokenless result or an MSAL exception passed on |
| Outlook.MsalErrorPropagates | src/email_templates_gen/integrations/outlook.py:39-41 | an exception of the silent call, or of the client call after a falsy silent result, leaves get_access_token unchanged |
| Outlook.SilentTokenWins | src/email_templates_gen/integrations/outlook.py:39-45 | a silent result carrying a token is used as it is |
| Outlook.GetAccessToken | src/email_templates_gen/integrations/outlook.py:20-45 | no MSAL call before the guard; silent acquisition first; client acquisition exactly after a silent result that is falsy and not an exception |
| Outlook.Payload | src/email_templates_gen/integrations/outlook.py:71-78 | the subject, an HTML body, exactly one recipient, saveToSentItems "true" |
| Outlook.Endpoint | src/email_templates_gen/integrations/outlook.py:79 | the Graph root, "/users/", the sender, "/sendMail" |
| Outlook.EndpointNamesSender | src/email_templates_gen/integrations/outlook.py:79 | the sender is recovered from the endpoint |
| Outlook.SendMailRequest | src/email_templates_gen/integrations/outlook.py:67-80 | the bearer and JSON headers, the payload, the endpoint and a 10-second timeout |
| Outlook.RaiseForStatus | src/email_templates_gen/integrations/outlook.py:81 | fails with HTTPError exactly for a 4xx or 5xx status |
| Outlook.SendEmail | src/email_templates_gen/integrations/outlook.py:48-81 | no sender: ValueError before any token call; a token failure propagates with nothing posted; otherwise exactly one POST, whose exception propagates unchanged or whose status decides |
| Outlook.SetupCheckLeavesSenderUnset | src/email_templates_gen/integrations/outlook.py:16-61 | an environment and settings can pass every stage of the setup check yet leave send_email without a default sender |
| Text.TrimStartSpec | pages/4_Speak.py:122 | leading whitespace only is dropped, and the rest starts with a non-space |
| Text.TrimEndSpec | pages/4_Speak.py:122 | trailing whitespace only is dropped, and the rest ends with a non-space |
| Text.StripIdempotent | pages/4_Speak.py:122-136 | stripping twice is stripping once |
| Speak.Flatten | pages/4_Speak.py:83-90 | no rows flatten to nothing; a single row flattens to itself |
| Speak.FlattenAppend | pages/4_Speak.py:84-90 | flattening keeps the order of frames |
| Speak.WhisperAudioProcessor.constructor | pages/4_Speak.py:76-78 | an empty buffer and no sample rate |
| Speak.WhisperAudioProcessor.Recv | pages/4_Speak.py:80-85 | appends the flattened frame, sets the rate, returns the frame; a non-empty buffer always has a rate |
| Speak.WhisperAudioProcessor.GetWavBytes | pages/4_Speak.py:87-95 | nothing and no change on an empty buffer; otherwise every buffered sample in order at the latest rate, and the buffer is emptied |
| Speak.RecordTwoFramesAndDrain | pages/4_Speak.py:80-95 | two frames drain as one recording in arrival order; an immediate second drain gives nothing |
| Speak.Recording | pages/4_Speak.py:87-95 | a recording exists exactly when frames are buffered and a rate is set |
| Speak.MentorRequest | pages/4_Speak.py:129-135 | model "gpt-4o-mini", not streamed, the system message then exactly the stored history |
| Speak.Reply | pages/4_Speak.py:136 | the stripped content; the call's exception unchanged; AttributeError for a None content |
| Speak.AlternatesExtend | pages/4_Speak.py:125-141 | appending a user turn then an assistant turn keeps the history alternating |
| Speak.SessionState.constructor | pages/4_Speak.py:109 | a new session has no history |
| Speak.SessionState.InitHistory | pages/4_Speak.py:109-110 | the history becomes empty only when absent |
| Speak.SessionState.HandleUtterance | pages/4_Speak.py:122-141 | appends the stripped user turn, asks with the system message and the whole history, then appends the stripped reply; a failed completion leaves the user turn alone; alternation is kept exactly when the reply succeeds |
| Speak.SessionState.NewConversation | pages/4_Speak.py:155-157 | the history is reset to empty |
| Speak.PageRunOnlyAppends | pages/4_Speak.py:109-157 | at most one request; unless a finished run is reset, the history grows by at most two turns and is never truncated |
| Speak.PageRunAsksWithHistory | pages/4_Speak.py:112-135 | a run asks exactly when a recording was drained and transcribed, with the system message, the old history and the new stripped user turn |
| Speak.PageRunExchanges | pages/4_Speak.py:125-141 | from alternating history a run keeps alternation unless its completion failed, which leaves exactly one dangling user turn |
| Speak.RunPage | pages/4_Speak.py:109-158 | the new history, requests and exception are those of one page run on the drained recording; a stopped stream's processor is emptied, a playing one untouched |

## Left out

- The LangChain index (loading, splitting, embeddings, FAISS) is not part of this model. `similarity_search` is an oracle returning page contents in order.
- OpenAI chat, Whisper and TTS, MSAL and `requests.post` are oracle parameters. Constructing the OpenAI clients from an API key is not modelled.
- Outlook.GetAccessToken: assumes `msal.ConfidentialClientApplication(...)` itself does not raise; only the two token calls may.
- Playing the synthesised audio (`st.audio`) and the chat bubbles are not modelled.
- Streamlit rendering is not modelled: the pages other than the voice page, the UI components, the app entry points and `st.experimental_rerun`.
- Logging, `time.time` durations and the float backoff `delay * backoff_factor ** attempt` are not modelled. `Decorators.RetryOnFailure` records only the exponent of each sleep.
- The pydantic environment loading behind `AppSettings()` is not modelled. Its outcome, settings or an exception text, is an input.
- `getattr(logging, level)` is the predicate parameter `isLoggingAttr`, not Python's `logging` module.
- `exceptions_to_catch` and `exceptions_to_retry` are predicates on exceptions, not tuples of classes.
- The WebRTC processing thread is not modelled. `recv` and `get_wav_bytes` are sequential calls.
- numpy and soundfile WAV encoding are not modelled. A recording is its sample rate and sample sequence.
- Text.Upper: ASCII only; Python's `str.upper` also maps non-ASCII letters.
- Text.Lower: ASCII only; Python's `str.lower` also maps non-ASCII letters.
- `ErrorHandler.Str` renders an HTTP error by its reason only; the exact text `requests` produces is not modelled.
- Error `details` map strings to strings rather than to arbitrary values.
- The OpenAI temperature is a real number rather than a float.
- email_generator/outlook_integration.py (a spliced, incomplete file), both SharePoint modules, test_fixes.py (a printing smoke script) and src/email_templates_gen/utils/streamlit_error_handler.py (UI messages) are not part of this model.
