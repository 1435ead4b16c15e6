/** The application's exception hierarchy (utils/error_handler.py) and the
    other exceptions the modelled code raises or lets through.

    Python classes become one datatype: `EmailTemplateError` carries the
    message and details every class of the hierarchy has, and its `kind`
    says which subclass it is; only the API kinds carry a service tag
    and a status code. */
module ErrorHandler {
  import opened Wrappers

  /** An exception's `details` dictionary, values kept as text. */
  type Details = map<string, string>

  /** The concrete class of an API error: the base class itself or one of
      its three subclasses. */
  datatype ApiClass = PlainApi | OpenAIApi | OutlookApi | SharePointApi

  datatype ErrorKind =
    | General
    | Configuration
    | Api(cls: ApiClass, service: string, statusCode: Option<int>)
    | DataProcessing
    | TemplateGeneration
    | Validation

  datatype EmailTemplateError = EmailTemplateError(kind: ErrorKind, message: string, details: Details)

  /** The classes of the hierarchy, so that `isinstance` can be written. */
  datatype ErrorClass =
    | EmailTemplateErrorClass
    | ConfigurationErrorClass
    | APIErrorClass
    | OpenAIErrorClass
    | OutlookIntegrationErrorClass
    | SharePointIntegrationErrorClass
    | DataProcessingErrorClass
    | TemplateGenerationErrorClass
    | ValidationErrorClass

  /** The class an error was constructed as. */
  function ClassOf(e: EmailTemplateError): ErrorClass
  {
    match e.kind
    case General => EmailTemplateErrorClass
    case Configuration => ConfigurationErrorClass
    case Api(cls, _, _) =>
      (match cls
       case PlainApi => APIErrorClass
       case OpenAIApi => OpenAIErrorClass
       case OutlookApi => OutlookIntegrationErrorClass
       case SharePointApi => SharePointIntegrationErrorClass)
    case DataProcessing => DataProcessingErrorClass
    case TemplateGeneration => TemplateGenerationErrorClass
    case Validation => ValidationErrorClass
  }

  /** The class declarations' bases: `c` is `d` or derives from it. */
  predicate IsSubclass(c: ErrorClass, d: ErrorClass)
  {
    || c == d
    || d == EmailTemplateErrorClass
    || (d == APIErrorClass && c in {OpenAIErrorClass, OutlookIntegrationErrorClass, SharePointIntegrationErrorClass})
  }

  /** Python's `isinstance(e, d)`. */
  predicate IsInstance(e: EmailTemplateError, d: ErrorClass)
  {
    IsSubclass(ClassOf(e), d)
  }

  /** `details or {}`: a missing or empty dictionary becomes empty. */
  function DetailsOrEmpty(details: Option<Details>): (r: Details)
    ensures details.Some? ==> r == details.value
    ensures details.None? ==> r == map[]
  {
    if details.Some? then details.value else map[]
  }

  function NewEmailTemplateError(message: string, details: Option<Details>): (e: EmailTemplateError)
    ensures ClassOf(e) == EmailTemplateErrorClass
    ensures e.message == message && e.details == DetailsOrEmpty(details)
  {
    EmailTemplateError(General, message, DetailsOrEmpty(details))
  }

  function NewConfigurationError(message: string, details: Option<Details>): (e: EmailTemplateError)
    ensures ClassOf(e) == ConfigurationErrorClass && !e.kind.Api?
    ensures e.message == message && e.details == DetailsOrEmpty(details)
  {
    EmailTemplateError(Configuration, message, DetailsOrEmpty(details))
  }

  function NewDataProcessingError(message: string, details: Option<Details>): (e: EmailTemplateError)
    ensures ClassOf(e) == DataProcessingErrorClass && !e.kind.Api?
    ensures e.message == message && e.details == DetailsOrEmpty(details)
  {
    EmailTemplateError(DataProcessing, message, DetailsOrEmpty(details))
  }

  function NewTemplateGenerationError(message: string, details: Option<Details>): (e: EmailTemplateError)
    ensures ClassOf(e) == TemplateGenerationErrorClass && !e.kind.Api?
    ensures e.message == message && e.details == DetailsOrEmpty(details)
  {
    EmailTemplateError(TemplateGeneration, message, DetailsOrEmpty(details))
  }

  function NewValidationError(message: string, details: Option<Details>): (e: EmailTemplateError)
    ensures ClassOf(e) == ValidationErrorClass && !e.kind.Api?
    ensures e.message == message && e.details == DetailsOrEmpty(details)
  {
    EmailTemplateError(Validation, message, DetailsOrEmpty(details))
  }

  /** `APIError(service, message, status_code=None, details=None)`. */
  function NewAPIError(service: string, message: string, statusCode: Option<int>, details: Option<Details>): (e: EmailTemplateError)
    ensures ClassOf(e) == APIErrorClass
    ensures e.kind.Api? && e.kind.service == service && e.kind.statusCode == statusCode
    ensures e.message == message && e.details == DetailsOrEmpty(details)
  {
    EmailTemplateError(Api(PlainApi, service, statusCode), message, DetailsOrEmpty(details))
  }

  function NewOpenAIError(message: string, statusCode: Option<int>, details: Option<Details>): (e: EmailTemplateError)
    ensures IsInstance(e, APIErrorClass) && ClassOf(e) == OpenAIErrorClass
    ensures e.kind.Api? && e.kind.service == "OpenAI" && e.kind.statusCode == statusCode
    ensures e.message == message && e.details == DetailsOrEmpty(details)
  {
    EmailTemplateError(Api(OpenAIApi, "OpenAI", statusCode), message, DetailsOrEmpty(details))
  }

  function NewOutlookIntegrationError(message: string, statusCode: Option<int>, details: Option<Details>): (e: EmailTemplateError)
    ensures IsInstance(e, APIErrorClass) && ClassOf(e) == OutlookIntegrationErrorClass
    ensures e.kind.Api? && e.kind.service == "Outlook" && e.kind.statusCode == statusCode
    ensures e.message == message && e.details == DetailsOrEmpty(details)
  {
    EmailTemplateError(Api(OutlookApi, "Outlook", statusCode), message, DetailsOrEmpty(details))
  }

  function NewSharePointIntegrationError(message: string, statusCode: Option<int>, details: Option<Details>): (e: EmailTemplateError)
    ensures IsInstance(e, APIErrorClass) && ClassOf(e) == SharePointIntegrationErrorClass
    ensures e.kind.Api? && e.kind.service == "SharePoint" && e.kind.statusCode == statusCode
    ensures e.message == message && e.details == DetailsOrEmpty(details)
  {
    EmailTemplateError(Api(SharePointApi, "SharePoint", statusCode), message, DetailsOrEmpty(details))
  }

  /** The errors the hierarchy's constructors can build: a subclass of
      `APIError` always carries its own fixed service tag. */
  ghost predicate WellFormed(e: EmailTemplateError)
  {
    e.kind.Api? ==>
      match e.kind.cls
      case PlainApi => true
      case OpenAIApi => e.kind.service == "OpenAI"
      case OutlookApi => e.kind.service == "Outlook"
      case SharePointApi => e.kind.service == "SharePoint"
  }

  /** Every class of the hierarchy is an `EmailTemplateError`; exactly the
      API classes are `APIError`s, and only they carry a service and a
      status code. */
  lemma HierarchyShape(e: EmailTemplateError)
    ensures IsInstance(e, EmailTemplateErrorClass)
    ensures IsInstance(e, APIErrorClass) <==> e.kind.Api?
    ensures IsInstance(e, ConfigurationErrorClass) <==> e.kind == Configuration
  {
  }

  /** What the constructors build is well formed: the service tag is
      determined by the subclass. */
  lemma ConstructorsWellFormed(message: string, statusCode: Option<int>, details: Option<Details>, service: string)
    ensures WellFormed(NewAPIError(service, message, statusCode, details))
    ensures WellFormed(NewOpenAIError(message, statusCode, details))
    ensures WellFormed(NewOutlookIntegrationError(message, statusCode, details))
    ensures WellFormed(NewSharePointIntegrationError(message, statusCode, details))
    ensures WellFormed(NewConfigurationError(message, details))
  {
  }

  /** A Python exception as the modelled code sees it. */
  datatype Exc =
      /** an instance of the hierarchy above */
    | AppErr(err: EmailTemplateError)
      /** `ConfigurationError` of config/validation.py: a class of its own,
          derived from `Exception` and not from `EmailTemplateError` */
    | SetupConfigError(message: string)
      /** `requests.HTTPError` from `raise_for_status` */
    | HTTPError(statusCode: int, message: string)
      /** any other built-in or library exception (`ValueError`,
          `RuntimeError`, ...) with its message */
    | Builtin(typeName: string, message: string)

  /** `isinstance(e, APIError)`. */
  predicate IsAPIError(e: Exc)
  {
    e.AppErr? && IsInstance(e.err, APIErrorClass)
  }

  /** `str(e)`. */
  function Str(e: Exc): string
  {
    match e
    case AppErr(err) => err.message
    case SetupConfigError(m) => m
    case HTTPError(_, m) => m
    case Builtin(_, m) => m
  }

  function ValueError(message: string): Exc
  {
    Builtin("ValueError", message)
  }

  function RuntimeError(message: string): Exc
  {
    Builtin("RuntimeError", message)
  }
}
