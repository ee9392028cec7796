/**
 * The client of The Factory HKA web service (`HKAConnector`): environment selection,
 * the cached authentication token with its renewal rule, and the request bodies of
 * the send and download calls.
 *
 * The network is replaced by inputs: each call that would post receives the reply it
 * gets (a decoded body, or the exception the post raised). The clock is an integer
 * `now`; the expiry date the service returns is given already parsed.
 */
module HkaClient {
  import opened Wrappers
  import opened Text
  import opened HkaPayload

  const TEST_URL := "http://demoint.thefactoryhka.com.pe/clients/ServiceClients.svc"
  const PROD_URL := "http://prod.thefactoryhka.com.pe/clients/ServiceClients.svc"
  /** `tipoAplicacion` sent when authenticating against the test environment. */
  const TEST_APP_TYPE := "I"
  /** `tipoAplicacion` sent when authenticating against production. */
  const PROD_APP_TYPE := "P"

  /** The company settings the client reads when it is created. */
  datatype CompanySettings = CompanySettings(
    vat: Option<string>,
    hkaUser: Option<string>,
    hkaPassword: Option<string>,
    hkaTestMode: bool)

  /** A token and the instant it expires; `None` stands for an unset value. */
  datatype TokenCache = TokenCache(token: Option<string>, expiry: Option<int>)

  /**
   * The `fechaExpiracion` of an authentication reply: absent (a `KeyError`), not in
   * the `%Y-%m-%d %H:%M:%S` format (a `ValueError` with its text), or the instant it names.
   */
  datatype ExpiryField = ExpiryAbsent | ExpiryInvalid(error: string) | ExpiryAt(instant: int)

  /**
   * The `token` of an authentication reply: absent (a `KeyError`), JSON `null` (read as
   * Python's `None`, and stored as an unset field), or a text.
   */
  datatype TokenField = TokenAbsent | TokenNull | TokenText(text: string)

  /** The body of an authentication reply. */
  datatype AuthBody = AuthBody(token: TokenField, fechaExpiracion: ExpiryField)

  type AuthResponse = Reply<AuthBody>

  /** A base64 text in a reply; `defect` is the decoder's error message when it is not valid base64. */
  datatype Blob = Blob(text: string, defect: Option<string>)

  /** The body of a send reply: `estatus` as Python's truth value, and the optional fields. */
  datatype SendResponse = SendResponse(
    estatus: bool,
    mensaje: Option<string>,
    numeracion: Option<string>,
    xml: Option<Blob>)

  /** The body of a download reply; `codigo` is `None` when absent or not an integer. */
  datatype DownloadResponse = DownloadResponse(
    codigo: Option<int>,
    mensaje: Option<string>,
    archivo: Option<Blob>)

  datatype AuthRequest = AuthRequest(
    url: string,
    usuario: Option<string>,
    clave: Option<string>,
    ruc: Option<string>,
    tipoAplicacion: string)

  datatype SendRequest = SendRequest(
    url: string,
    documentoElectronico: Payload,
    ruc: Option<string>,
    token: Option<string>)

  datatype DownloadRequest = DownloadRequest(
    url: string,
    ruc: Option<string>,
    token: Option<string>,
    documento: string,
    tipoArchivo: string)

  /** A token and expiry accepted from a reply; a `null` token is accepted as an unset one. */
  datatype Credential = Credential(token: Option<string>, expiry: int)

  /** The value a token field is stored as, once it is present. */
  function TokenValue(t: TokenField): Option<string>
    requires !t.TokenAbsent?
  {
    if t.TokenText? then Some(t.text) else None
  }

  /**
   * What `authenticate` reads from a reply body, in the source's order: the expiry
   * first (`KeyError` or `ValueError`), then the token (`KeyError`). The reply's
   * `codigo` is never looked at.
   */
  function ReadCredential(b: AuthBody): (r: Result<Credential>)
    ensures r.Success? <==> !b.token.TokenAbsent? && b.fechaExpiracion.ExpiryAt?
    ensures r.Success? ==>
      && r.value.expiry == b.fechaExpiracion.instant
      && (r.value.token.Some? <==> b.token.TokenText?)
      && (b.token.TokenText? ==> r.value.token == Some(b.token.text))
    ensures r.Failure? ==>
      r.error == (match b.fechaExpiracion
                  case ExpiryAbsent => "'fechaExpiracion'"
                  case ExpiryInvalid(e) => e
                  case ExpiryAt(_) => "'token'")
  {
    match b.fechaExpiracion
    case ExpiryAbsent => Failure("'fechaExpiracion'")
    case ExpiryInvalid(e) => Failure(e)
    case ExpiryAt(t) => if b.token.TokenAbsent? then Failure("'token'") else Success(Credential(TokenValue(b.token), t))
  }

  /** The credential an authentication call yields, or the text of what it raises. */
  function AuthOutcome(resp: AuthResponse): Result<Credential>
  {
    match resp
    case Raised(e) => Failure(e)
    case Replied(b) => ReadCredential(b)
  }

  /** A reply as the caller of `requests.post(...).json()` sees it. */
  function ReplyResult<T>(r: Reply<T>): Result<T>
  {
    match r
    case Replied(b) => Success(b)
    case Raised(e) => Failure(e)
  }

  /** Python's truth value of a text field: set and not empty. */
  predicate Truthy(o: Option<string>) { o.Some? && o.value != "" }

  /** The renewal rule of `_ensure_token`: no token, no expiry, or the expiry has been reached. */
  predicate NeedsAuth(c: TokenCache, now: int)
  {
    !Truthy(c.token) || c.expiry.None? || now >= c.expiry.value
  }

  /** The cache after one `_ensure_token`, what it raised, and whether it authenticated. */
  datatype TokenStep = TokenStep(cache: TokenCache, error: Option<string>, authenticated: bool)

  /**
   * `_ensure_token` at time `now`, with `resp` the reply an authentication would get.
   * It authenticates exactly when the rule says so; a failed authentication leaves
   * the cache as it was; after a step that raised nothing there is a token and an expiry.
   */
  function EnsureStep(c: TokenCache, now: int, resp: AuthResponse): (r: TokenStep)
    ensures r.authenticated <==> NeedsAuth(c, now)
    ensures !r.authenticated ==> r.cache == c && r.error.None?
    ensures r.error.Some? ==> r.cache == c && r.authenticated
    ensures r.error.None? ==> r.cache.expiry.Some?
    ensures r.authenticated && r.error.None? ==>
      AuthOutcome(resp).Success? && r.cache == TokenCache(AuthOutcome(resp).value.token, Some(AuthOutcome(resp).value.expiry))
  {
    if !NeedsAuth(c, now) then TokenStep(c, None, false)
    else
      match AuthOutcome(resp)
      case Failure(e) => TokenStep(c, Some(e), true)
      case Success(cred) => TokenStep(TokenCache(cred.token, Some(cred.expiry)), None, true)
  }

  /** The request `authenticate` posts. */
  function AuthRequestFor(baseUrl: string, user: Option<string>, password: Option<string>,
                          ruc: Option<string>, appType: string): AuthRequest
  {
    AuthRequest(baseUrl + "/Autenticacion", user, password, ruc, appType)
  }

  /** How an f-string prints a text field: its value, or "False" when it is unset. */
  function FieldText(o: Option<string>): string
  {
    if o.Some? then o.value else "False"
  }

  /** The document id `download_file` asks for: the company's RUC, a hyphen, the document number. */
  function DocumentId(ruc: Option<string>, documentNumber: Option<string>): string
  {
    FieldText(ruc) + "-" + FieldText(documentNumber)
  }

  // ---------------------------------------------------------------- properties

  /**
   * The document id names both parts: when the RUC has no hyphen, splitting the id at
   * its first hyphen gives the RUC and the document number back.
   */
  lemma DocumentIdSplits(ruc: Option<string>, documentNumber: Option<string>)
    requires '-' !in FieldText(ruc)
    ensures SplitFirst(DocumentId(ruc, documentNumber), '-') == Some((FieldText(ruc), FieldText(documentNumber)))
  {
    SplitFirstOfJoin(FieldText(ruc), FieldText(documentNumber), '-');
  }

  /**
   * A token obtained at one call is reused at the next: once an authentication has
   * returned a non-empty token expiring after `later`, a second `_ensure_token` at
   * `later` authenticates no more and keeps the cache.
   */
  lemma FreshTokenReused(c: TokenCache, now: int, later: int, first: AuthResponse, second: AuthResponse)
    requires NeedsAuth(c, now)
    requires AuthOutcome(first).Success?
    requires Truthy(AuthOutcome(first).value.token) && later < AuthOutcome(first).value.expiry
    ensures EnsureStep(c, now, first).authenticated
    ensures var after := EnsureStep(c, now, first).cache;
      !EnsureStep(after, later, second).authenticated && EnsureStep(after, later, second).cache == after
  {
  }

  /**
   * A token past its expiry is renewed once before use: the step authenticates, and on
   * success the cache holds the new token and expiry.
   */
  lemma ExpiredTokenRenewed(c: TokenCache, now: int, resp: AuthResponse)
    requires c.expiry.Some? && now >= c.expiry.value
    ensures EnsureStep(c, now, resp).authenticated
    ensures AuthOutcome(resp).Success? ==>
      EnsureStep(c, now, resp).cache == TokenCache(AuthOutcome(resp).value.token, Some(AuthOutcome(resp).value.expiry))
  {
  }

  /** The authentication calls made by successive `_ensure_token` steps, one per clock reading. */
  function AuthCalls(c: TokenCache, clocks: seq<int>, replies: seq<AuthResponse>): (n: nat)
    requires |clocks| == |replies|
    ensures n <= |clocks|
    decreases |clocks|
  {
    if clocks == [] then 0
    else
      var step := EnsureStep(c, clocks[0], replies[0]);
      (if step.authenticated then 1 else 0) + AuthCalls(step.cache, clocks[1..], replies[1..])
  }

  /**
   * Within a token's validity window no call authenticates: from a cache holding a
   * non-empty token that expires after every clock reading, any number of steps make
   * no authentication call.
   */
  lemma {:induction false} NoAuthWhileValid(c: TokenCache, clocks: seq<int>, replies: seq<AuthResponse>)
    requires |clocks| == |replies|
    requires Truthy(c.token) && c.expiry.Some?
    requires forall k :: 0 <= k < |clocks| ==> clocks[k] < c.expiry.value
    ensures AuthCalls(c, clocks, replies) == 0
  {
    if clocks != [] {
      NoAuthWhileValid(c, clocks[1..], replies[1..]);
    }
  }

  /**
   * Sends within one validity window cost exactly one authentication: starting from a
   * cache that needs renewal, if the first renewal succeeds with a non-empty token
   * expiring after every later clock reading, the whole run authenticates once.
   */
  lemma OneAuthPerWindow(c: TokenCache, clocks: seq<int>, replies: seq<AuthResponse>)
    requires |clocks| == |replies| >= 1
    requires NeedsAuth(c, clocks[0])
    requires AuthOutcome(replies[0]).Success? && Truthy(AuthOutcome(replies[0]).value.token)
    requires forall k :: 1 <= k < |clocks| ==> clocks[k] < AuthOutcome(replies[0]).value.expiry
    ensures AuthCalls(c, clocks, replies) == 1
  {
    var after := EnsureStep(c, clocks[0], replies[0]).cache;
    assert forall k :: 0 <= k < |clocks| - 1 ==> clocks[1..][k] == clocks[k + 1];
    NoAuthWhileValid(after, clocks[1..], replies[1..]);
  }

  // ---------------------------------------------------------------- state

  /** The persisted token slot (`hka.connector.config`), shared by every client created. */
  class ConnectorConfig {
    var token: Option<string>
    var tokenExpiry: Option<int>

    /** The slot as first created: nothing stored. */
    constructor ()
      ensures token == None && tokenExpiry == None
    {
      token := None;
      tokenExpiry := None;
    }

    function Cache(): TokenCache
      reads this
    {
      TokenCache(token, tokenExpiry)
    }
  }

  class HkaConnector {
    const ruc: Option<string>
    const user: Option<string>
    const password: Option<string>
    const baseUrl: string
    const appType: string
    const config: ConnectorConfig
    var token: Option<string>
    var tokenExpiry: Option<int>
    /** How many times this client has called the authentication endpoint. */
    ghost var authCalls: nat

    /**
     * `__init__`: credentials from the company, the test or production endpoint and
     * application type, and the token and expiry last persisted.
     */
    constructor (company: CompanySettings, config: ConnectorConfig)
      ensures this.config == config
      ensures ruc == company.vat && user == company.hkaUser && password == company.hkaPassword
      ensures company.hkaTestMode ==> baseUrl == TEST_URL && appType == TEST_APP_TYPE
      ensures !company.hkaTestMode ==> baseUrl == PROD_URL && appType == PROD_APP_TYPE
      ensures Synced()
      ensures authCalls == 0
    {
      ruc := company.vat;
      user := company.hkaUser;
      password := company.hkaPassword;
      if company.hkaTestMode {
        baseUrl := TEST_URL;
        appType := TEST_APP_TYPE;
      } else {
        baseUrl := PROD_URL;
        appType := PROD_APP_TYPE;
      }
      this.config := config;
      token := config.token;
      tokenExpiry := config.tokenExpiry;
      authCalls := 0;
    }

    function Cache(): TokenCache
      reads this
    {
      TokenCache(token, tokenExpiry)
    }

    /**
     * The client holds the token and expiry last stored, as it does when created; the
     * next client created then starts from the token this one holds.
     */
    predicate Synced()
      reads this, config
    {
      Cache() == config.Cache()
    }

    /**
     * The state after one `_ensure_token` at `now` from the cache `before`, the stored
     * slot `storedBefore` and `callsBefore` authentication calls: the in-memory cache
     * follows `EnsureStep`, the stored slot changes only when an authentication succeeds.
     */
    ghost predicate AfterEnsure(before: TokenCache, storedBefore: TokenCache, callsBefore: nat,
                                now: int, auth: AuthResponse)
      reads this, config
    {
      var step := EnsureStep(before, now, auth);
      && Cache() == step.cache
      && authCalls == callsBefore + (if step.authenticated then 1 else 0)
      && config.Cache() == (if step.authenticated && step.error.None? then step.cache else storedBefore)
    }

    /**
     * `authenticate`: posts the credentials and, only when the reply carries a token and
     * a well-formed expiry, writes both to the stored slot and to the client.
     */
    method Authenticate(resp: AuthResponse) returns (request: AuthRequest, error: Option<string>)
      modifies this, config
      ensures request == AuthRequestFor(baseUrl, user, password, ruc, appType)
      ensures authCalls == old(authCalls) + 1
      ensures AuthOutcome(resp).Success? ==>
        && error.None?
        && Cache() == config.Cache()
        && Cache() == TokenCache(AuthOutcome(resp).value.token, Some(AuthOutcome(resp).value.expiry))
      ensures AuthOutcome(resp).Failure? ==>
        && error == Some(AuthOutcome(resp).error)
        && Cache() == old(Cache()) && config.Cache() == old(config.Cache())
    {
      request := AuthRequestFor(baseUrl, user, password, ruc, appType);
      authCalls := authCalls + 1;
      if resp.Raised? {
        return request, Some(resp.error);
      }
      var body := resp.body;
      if body.fechaExpiracion.ExpiryAbsent? {
        return request, Some("'fechaExpiracion'");
      }
      if body.fechaExpiracion.ExpiryInvalid? {
        return request, Some(body.fechaExpiracion.error);
      }
      var expiry := body.fechaExpiracion.instant;
      if body.token.TokenAbsent? {
        return request, Some("'token'");
      }
      var value := if body.token.TokenText? then Some(body.token.text) else None;
      config.token := value;
      config.tokenExpiry := Some(expiry);
      token := value;
      tokenExpiry := Some(expiry);
      error := None;
    }

    /** `_ensure_token`: authenticates when there is no token, no expiry, or it has expired. */
    method EnsureToken(now: int, auth: AuthResponse) returns (error: Option<string>)
      modifies this, config
      ensures AfterEnsure(old(Cache()), old(config.Cache()), old(authCalls), now, auth)
      ensures error == EnsureStep(old(Cache()), now, auth).error
      ensures old(Synced()) ==> Synced()
    {
      if token.None? || token.value == "" || tokenExpiry.None? || now >= tokenExpiry.value {
        var _, e := Authenticate(auth);
        error := e;
      } else {
        error := None;
      }
    }

    /**
     * `send_document`: ensures the token, then posts the payload with the company's RUC
     * and the token as it stands after that step. If the token step raised, nothing is posted.
     */
    method SendDocument(payload: Payload, now: int, auth: AuthResponse, reply: Reply<SendResponse>)
      returns (request: Option<SendRequest>, response: Result<SendResponse>)
      modifies this, config
      ensures AfterEnsure(old(Cache()), old(config.Cache()), old(authCalls), now, auth)
      ensures old(Synced()) ==> Synced()
      ensures var step := EnsureStep(old(Cache()), now, auth);
        if step.error.Some? then request.None? && response == Failure(step.error.value)
        else (request == Some(SendRequest(baseUrl + "/Enviar", payload, ruc, step.cache.token))
              && response == ReplyResult(reply))
    {
      var e := EnsureToken(now, auth);
      if e.Some? {
        return None, Failure(e.value);
      }
      request := Some(SendRequest(baseUrl + "/Enviar", payload, ruc, token));
      response := ReplyResult(reply);
    }

    /**
     * `download_file`: ensures the token, then asks for one file of the document
     * `<ruc>-<documentNumber>`; the file type is passed through as given.
     */
    method DownloadFile(documentNumber: Option<string>, fileType: string, now: int, auth: AuthResponse,
                        reply: Reply<DownloadResponse>)
      returns (request: Option<DownloadRequest>, response: Result<DownloadResponse>)
      modifies this, config
      ensures AfterEnsure(old(Cache()), old(config.Cache()), old(authCalls), now, auth)
      ensures old(Synced()) ==> Synced()
      ensures var step := EnsureStep(old(Cache()), now, auth);
        if step.error.Some? then request.None? && response == Failure(step.error.value)
        else (request == Some(DownloadRequest(baseUrl + "/DescargaArchivo", ruc, step.cache.token,
                                              DocumentId(ruc, documentNumber), fileType))
              && response == ReplyResult(reply))
    {
      var e := EnsureToken(now, auth);
      if e.Some? {
        return None, Failure(e.value);
      }
      var fullDocument := FieldText(ruc) + "-" + FieldText(documentNumber);
      request := Some(DownloadRequest(baseUrl + "/DescargaArchivo", ruc, token, fullDocument, fileType));
      response := ReplyResult(reply);
    }
  }

  /**
   * Two sends within the token's validity window, from a client whose stored token is
   * missing: the first authenticates, the second reuses the token, and both requests
   * carry it.
   */
  method TwoSendsOneAuth(company: CompanySettings, payload: Payload, now: int, later: int,
                         auth: AuthResponse, reply: Reply<SendResponse>)
    returns (first: Option<SendRequest>, second: Option<SendRequest>)
    requires AuthOutcome(auth).Success? && Truthy(AuthOutcome(auth).value.token)
    requires later < AuthOutcome(auth).value.expiry
    ensures first.Some? && second.Some?
    ensures first.value.token == second.value.token == AuthOutcome(auth).value.token
  {
    var config := new ConnectorConfig();
    var client := new HkaConnector(company, config);
    var response;
    first, response := client.SendDocument(payload, now, auth, reply);
    assert client.authCalls == 1;
    second, response := client.SendDocument(payload, later, auth, reply);
    assert client.authCalls == 1;
  }
}
