/** Sending mail through Microsoft Graph (integrations/outlook.py): the
    credential and sender fallbacks, the token decision, and the exact
    `sendMail` request.

    MSAL and `requests` are oracles: `acquireSilent` and
    `acquireForClient` give the dictionary the two MSAL calls return for
    a client application (`acquire_token_silent` may return `None`), and
    `post` gives the response to a request; each may instead raise. The module-level variables
    are read from the environment the module was imported in. */
module Outlook {
  import opened Wrappers
  import opened ErrorHandler
  import opened Settings
  import opened Validation

  const GraphEndpoint := "https://graph.microsoft.com/v1.0"
  const Scopes: seq<string> := ["https://graph.microsoft.com/.default"]
  const AuthorityPrefix := "https://login.microsoftonline.com/"

  const CredentialsMessage := "Client ID, tenant ID and client secret are required"
  const SenderMessage := "Sender email address must be provided"
  const TokenFailurePrefix := "Failed to obtain access token: "

  /** `os.getenv(name)`: `None` when the name is absent. */
  function GetEnv(env: Env, name: string): (r: Option<string>)
    ensures r.Some? <==> name in env
    ensures r.Some? ==> r.value == env[name]
  {
    if name in env then Some(env[name]) else None
  }

  /** `CLIENT_ID`, `TENANT_ID`, `CLIENT_SECRET` and `SENDER_ADDRESS`. */
  datatype ModuleConfig = ModuleConfig(
    clientId: Option<string>, tenantId: Option<string>, clientSecret: Option<string>, senderAddress: Option<string>)

  /** The module-level reads; the sender comes from OUTLOOK_SENDER, not
      from the OUTLOOK_SENDER_ADDRESS that config/validation.py checks. */
  function ModuleConfigFrom(env: Env): ModuleConfig
  {
    ModuleConfig(GetEnv(env, "OUTLOOK_CLIENT_ID"), GetEnv(env, "OUTLOOK_TENANT_ID"),
                 GetEnv(env, "OUTLOOK_CLIENT_SECRET"), GetEnv(env, "OUTLOOK_SENDER"))
  }

  /** Python truthiness of an optional string. */
  predicate Truthy(v: Option<string>)
  {
    v.Some? && v.value != ""
  }

  /** Python's `a or b` on optional strings: `a` unless it is `None` or
      empty, so an empty argument also falls back. */
  function Or(a: Option<string>, b: Option<string>): (r: Option<string>)
    ensures Truthy(a) ==> r == a
    ensures !Truthy(a) ==> r == b
    ensures Truthy(r) <==> Truthy(a) || Truthy(b)
  {
    if Truthy(a) then a else b
  }

  datatype Credentials = Credentials(clientId: Option<string>, tenantId: Option<string>, clientSecret: Option<string>)

  /** Each argument, or its module-level value when the argument is falsy. */
  function ResolveCredentials(mod: ModuleConfig, clientId: Option<string>, clientSecret: Option<string>,
                              tenantId: Option<string>): Credentials
  {
    Credentials(Or(clientId, mod.clientId), Or(tenantId, mod.tenantId), Or(clientSecret, mod.clientSecret))
  }

  /** `all([client_id, tenant_id, client_secret])`. */
  predicate Complete(c: Credentials)
  {
    Truthy(c.clientId) && Truthy(c.tenantId) && Truthy(c.clientSecret)
  }

  /** `AUTHORITY_TEMPLATE.format(tenant_id=...)`. */
  function Authority(tenantId: string): (a: string)
    ensures |a| == |AuthorityPrefix| + |tenantId|
    ensures a[..|AuthorityPrefix|] == AuthorityPrefix && a[|AuthorityPrefix|..] == tenantId
  {
    AuthorityPrefix + tenantId
  }

  /** The arguments of `msal.ConfidentialClientApplication`. */
  datatype ConfidentialClient = ConfidentialClient(clientId: string, authority: string, clientCredential: string)

  function ClientFor(c: Credentials): (app: ConfidentialClient)
    requires Complete(c)
    ensures app.authority == Authority(c.tenantId.value)
  {
    ConfidentialClient(c.clientId.value, Authority(c.tenantId.value), c.clientSecret.value)
  }

  type TokenDict = map<string, string>

  /** The two MSAL calls, with their arguments. */
  datatype TokenCall =
    | AcquireSilent(app: ConfidentialClient, scopes: seq<string>, account: Option<string>)
    | AcquireForClient(app: ConfidentialClient, scopes: seq<string>)

  /** `not result`: `None` or an empty dictionary. */
  predicate Falsy(d: Option<TokenDict>)
  {
    d.None? || d.value == map[]
  }

  /** `result.get("error_description", "Unknown error")`. */
  function ErrorDescription(d: TokenDict): string
  {
    if "error_description" in d then d["error_description"] else "Unknown error"
  }

  /** The last step of `get_access_token`: the token, or a `RuntimeError`
      carrying the error description. */
  function TokenFromResult(d: TokenDict): (r: Result<string, Exc>)
    ensures r.Ok? <==> "access_token" in d
    ensures r.Ok? ==> r.value == d["access_token"]
    ensures r.Err? ==> r.error == RuntimeError(TokenFailurePrefix + ErrorDescription(d))
  {
    if "access_token" in d then Ok(d["access_token"])
    else Err(RuntimeError(TokenFailurePrefix + ErrorDescription(d)))
  }

  /** The MSAL oracles: for a client, what `acquire_token_silent` returns
      (`None` or a dictionary) and what `acquire_token_for_client`
      returns, or the exception each raises. */
  type SilentCall = ConfidentialClient -> Result<Option<TokenDict>, Exc>
  type ClientCall = ConfidentialClient -> Result<TokenDict, Exc>

  /** What `get_access_token` returns or raises. */
  function TokenOutcome(c: Credentials, acquireSilent: SilentCall, acquireForClient: ClientCall): Result<string, Exc>
  {
    if !Complete(c) then Err(ValueError(CredentialsMessage))
    else
      var app := ClientFor(c);
      match acquireSilent(app)
      case Err(e) => Err(e)
      case Ok(silent) =>
        if !Falsy(silent) then TokenFromResult(silent.value)
        else
          match acquireForClient(app)
          case Err(e) => Err(e)
          case Ok(d) => TokenFromResult(d)
  }

  /** The credential guard: `ValueError` when a credential is still falsy
      after the fallback. Past the guard, a failure is the `RuntimeError`
      of a result without a token, or an exception of an MSAL call passed
      on unchanged. */
  lemma CredentialGuard(c: Credentials, acquireSilent: SilentCall, acquireForClient: ClientCall)
    ensures !Complete(c) ==> TokenOutcome(c, acquireSilent, acquireForClient) == Err(ValueError(CredentialsMessage))
    ensures Complete(c) && TokenOutcome(c, acquireSilent, acquireForClient).Err? ==>
      var e := TokenOutcome(c, acquireSilent, acquireForClient).error;
      || (e.Builtin? && e.typeName == "RuntimeError")
      || acquireSilent(ClientFor(c)) == Err(e)
      || acquireForClient(ClientFor(c)) == Err(e)
  {
  }

  /** An exception raised inside MSAL leaves `get_access_token` as it is:
      from the silent call at once, from the client call only when the
      silent result was falsy. */
  lemma MsalErrorPropagates(c: Credentials, acquireSilent: SilentCall, acquireForClient: ClientCall)
    requires Complete(c)
    ensures acquireSilent(ClientFor(c)).Err? ==>
      TokenOutcome(c, acquireSilent, acquireForClient) == Err(acquireSilent(ClientFor(c)).error)
    ensures acquireSilent(ClientFor(c)).Ok? && Falsy(acquireSilent(ClientFor(c)).value) && acquireForClient(ClientFor(c)).Err? ==>
      TokenOutcome(c, acquireSilent, acquireForClient) == Err(acquireForClient(ClientFor(c)).error)
    ensures acquireSilent(ClientFor(c)).Ok? && !Falsy(acquireSilent(ClientFor(c)).value) ==>
      TokenOutcome(c, acquireSilent, acquireForClient) == TokenFromResult(acquireSilent(ClientFor(c)).value.value)
  {
  }

  /** A truthy silent result is used as it is: the token it carries is
      returned. */
  lemma SilentTokenWins(c: Credentials, acquireSilent: SilentCall, acquireForClient: ClientCall)
    requires Complete(c)
    requires acquireSilent(ClientFor(c)).Ok? && acquireSilent(ClientFor(c)).value.Some?
    requires "access_token" in acquireSilent(ClientFor(c)).value.value
    ensures TokenOutcome(c, acquireSilent, acquireForClient) == Ok(acquireSilent(ClientFor(c)).value.value["access_token"])
  {
    assert acquireSilent(ClientFor(c)).value.value != map[];
  }

  /** `get_access_token(client_id, client_secret, tenant_id)`, with the
      MSAL calls it makes in `calls`. */
  method GetAccessToken(mod: ModuleConfig, clientId: Option<string>, clientSecret: Option<string>, tenantId: Option<string>,
                        acquireSilent: SilentCall, acquireForClient: ClientCall)
    returns (r: Result<string, Exc>, calls: seq<TokenCall>)
    ensures r == TokenOutcome(ResolveCredentials(mod, clientId, clientSecret, tenantId), acquireSilent, acquireForClient)
    // No MSAL call before the guard passes.
    ensures !Complete(ResolveCredentials(mod, clientId, clientSecret, tenantId)) ==> calls == []
    // Silent first; the client-credential call only after a falsy silent result.
    ensures Complete(ResolveCredentials(mod, clientId, clientSecret, tenantId)) ==>
      var app := ClientFor(ResolveCredentials(mod, clientId, clientSecret, tenantId));
      && 1 <= |calls| <= 2
      && calls[0] == AcquireSilent(app, Scopes, None)
      && (|calls| == 2 <==> acquireSilent(app).Ok? && Falsy(acquireSilent(app).value))
      && (|calls| == 2 ==> calls[1] == AcquireForClient(app, Scopes))
  {
    var cid := Or(clientId, mod.clientId);
    var tid := Or(tenantId, mod.tenantId);
    var secret := Or(clientSecret, mod.clientSecret);
    if !(Truthy(cid) && Truthy(tid) && Truthy(secret)) {
      return Err(ValueError(CredentialsMessage)), [];
    }
    var app := ConfidentialClient(cid.value, Authority(tid.value), secret.value);
    var silent := acquireSilent(app);
    calls := [AcquireSilent(app, Scopes, None)];
    if silent.Err? {
      return Err(silent.error), calls;
    }
    var result: TokenDict;
    if Falsy(silent.value) {
      var forClient := acquireForClient(app);
      calls := calls + [AcquireForClient(app, Scopes)];
      if forClient.Err? {
        return Err(forClient.error), calls;
      }
      result := forClient.value;
    } else {
      result := silent.value.value;
    }
    if "access_token" !in result {
      return Err(RuntimeError(TokenFailurePrefix + ErrorDescription(result))), calls;
    }
    r := Ok(result["access_token"]);
  }

  // ---------------------------------------------------------------
  // send_email

  datatype EmailAddress = EmailAddress(address: string)
  datatype Recipient = Recipient(emailAddress: EmailAddress)
  datatype ItemBody = ItemBody(contentType: string, content: string)
  datatype GraphMessage = GraphMessage(subject: string, body: ItemBody, toRecipients: seq<Recipient>)

  /** The JSON body of `sendMail`. */
  datatype SendMailPayload = SendMailPayload(message: GraphMessage, saveToSentItems: string)

  /** The arguments of `requests.post`. */
  datatype PostRequest = PostRequest(url: string, headers: map<string, string>, json: SendMailPayload, timeout: int)

  datatype Response = Response(statusCode: int, reason: string)

  function Payload(recipient: string, subject: string, body: string): (p: SendMailPayload)
    ensures p.message.subject == subject
    ensures p.message.body.contentType == "HTML" && p.message.body.content == body
    ensures |p.message.toRecipients| == 1 && p.message.toRecipients[0].emailAddress.address == recipient
    ensures p.saveToSentItems == "true"
  {
    SendMailPayload(GraphMessage(subject, ItemBody("HTML", body), [Recipient(EmailAddress(recipient))]), "true")
  }

  const EndpointUsers := GraphEndpoint + "/users/"
  const EndpointSuffix := "/sendMail"

  /** `{GRAPH_ENDPOINT}/users/{sender}/sendMail`. */
  function Endpoint(sender: string): (e: string)
    ensures |e| == |EndpointUsers| + |sender| + |EndpointSuffix|
    ensures e[..|EndpointUsers|] == EndpointUsers
    ensures e[|EndpointUsers|..|e| - |EndpointSuffix|] == sender
    ensures e[|e| - |EndpointSuffix|..] == EndpointSuffix
  {
    var e := EndpointUsers + sender + EndpointSuffix;
    assert e[|EndpointUsers|..|e| - |EndpointSuffix|] == sender;
    e
  }

  /** The sender named by an endpoint. */
  function SenderOf(e: string): string
  {
    if |e| < |EndpointUsers| + |EndpointSuffix| then "" else e[|EndpointUsers|..|e| - |EndpointSuffix|]
  }

  /** Different senders post to different endpoints. */
  lemma EndpointNamesSender(sender: string)
    ensures SenderOf(Endpoint(sender)) == sender
  {
  }

  function SendMailRequest(sender: string, token: string, recipient: string, subject: string, body: string): (req: PostRequest)
    ensures req.url == Endpoint(sender) && req.timeout == 10
    ensures req.headers == map["Authorization" := "Bearer " + token, "Content-Type" := "application/json"]
    ensures req.json == Payload(recipient, subject, body)
  {
    PostRequest(Endpoint(sender), map["Authorization" := "Bearer " + token, "Content-Type" := "application/json"],
                Payload(recipient, subject, body), 10)
  }

  /** `response.raise_for_status()`: a 4xx or 5xx status raises. */
  function RaiseForStatus(resp: Response): (r: Outcome<Exc>)
    ensures r.Fail? <==> 400 <= resp.statusCode < 600
    ensures r.Fail? ==> r.error == HTTPError(resp.statusCode, resp.reason)
  {
    if 400 <= resp.statusCode < 600 then Fail(HTTPError(resp.statusCode, resp.reason)) else Pass
  }

  /** `send_email(recipient, subject, body, sender=..., client_id=...,
      client_secret=..., tenant_id=...)`, with the MSAL calls and the POST
      requests it makes. `post` gives the response `requests.post`
      returns, or the exception it raises (a timeout, a refused
      connection). */
  method SendEmail(mod: ModuleConfig, recipient: string, subject: string, body: string,
                   sender: Option<string>, clientId: Option<string>, clientSecret: Option<string>, tenantId: Option<string>,
                   acquireSilent: SilentCall, acquireForClient: ClientCall,
                   post: PostRequest -> Result<Response, Exc>)
    returns (r: Outcome<Exc>, tokenCalls: seq<TokenCall>, posts: seq<PostRequest>)
    // No sender: ValueError before any token request.
    ensures !Truthy(Or(sender, mod.senderAddress)) ==>
      r == Fail(ValueError(SenderMessage)) && tokenCalls == [] && posts == []
    // A token failure propagates and nothing is posted.
    ensures (Truthy(Or(sender, mod.senderAddress))
             && TokenOutcome(ResolveCredentials(mod, clientId, clientSecret, tenantId), acquireSilent, acquireForClient).Err?) ==>
      r == Fail(TokenOutcome(ResolveCredentials(mod, clientId, clientSecret, tenantId), acquireSilent, acquireForClient).error)
      && posts == []
    // Otherwise exactly one POST of the sendMail request: an exception it
    // raises propagates unchanged, else the response status decides.
    ensures (Truthy(Or(sender, mod.senderAddress))
             && TokenOutcome(ResolveCredentials(mod, clientId, clientSecret, tenantId), acquireSilent, acquireForClient).Ok?) ==>
      var token := TokenOutcome(ResolveCredentials(mod, clientId, clientSecret, tenantId), acquireSilent, acquireForClient).value;
      && posts == [SendMailRequest(Or(sender, mod.senderAddress).value, token, recipient, subject, body)]
      && (post(posts[0]).Err? ==> r == Fail(post(posts[0]).error))
      && (post(posts[0]).Ok? ==> r == RaiseForStatus(post(posts[0]).value))
    ensures |tokenCalls| <= 2 && |posts| <= 1
  {
    var from := Or(sender, mod.senderAddress);
    if !Truthy(from) {
      return Fail(ValueError(SenderMessage)), [], [];
    }
    var token;
    token, tokenCalls := GetAccessToken(mod, clientId, clientSecret, tenantId, acquireSilent, acquireForClient);
    if token.Err? {
      return Fail(token.error), tokenCalls, [];
    }
    var request := SendMailRequest(from.value, token.value, recipient, subject, body);
    var response := post(request);
    posts := [request];
    if response.Err? {
      return Fail(response.error), tokenCalls, posts;
    }
    r := RaiseForStatus(response.value);
  }

  /** The setup check of config/validation.py can pass while `send_email`
      has no default sender: it checks OUTLOOK_SENDER_ADDRESS, and the
      default sender is read from OUTLOOK_SENDER. In such an environment
      a call without an explicit sender raises `ValueError`. */
  lemma SetupCheckLeavesSenderUnset(env: Env, load: Result<AppSettings, string>, isLoggingAttr: string -> bool)
    requires forall i :: 0 <= i < |RequiredVars| ==> IsSet(env, RequiredVars[i].name)
    requires "OUTLOOK_SENDER" !in env
    requires load.Ok? && ConfigIssues(load.value, isLoggingAttr) == []
    ensures SetupPasses(true, env, load, isLoggingAttr)
    ensures !Truthy(Or(None, ModuleConfigFrom(env).senderAddress))
  {
    MissingVarsSpec(env);
  }
}
