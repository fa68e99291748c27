/** Route-tier security (shared_utilities/auth_middleware.go): the service
    configuration read from the environment, the API-key, session and mixed
    authentication middlewares, the context accessors they feed, and the
    wiring of the four route tiers. The environment is a map; the remote
    session check is an input value. */
module AuthMiddleware {
  import opened Wrappers
  import opened GoContext
  import opened GoHttp
  import opened SessionContext
  import Security

  /** `SecurityConfig`; `apiKeys` maps a service name to its API key. */
  datatype SecurityConfig = SecurityConfig(
    authServiceURL: string,
    identityServiceURL: string,
    notifyServiceURL: string,
    accountServiceURL: string,
    loginServiceURL: string,
    apiKeys: map<string, string>)

  /** `os.Getenv`: "" for an unset variable. */
  function Getenv(env: map<string, string>, name: string): string {
    if name in env then env[name] else ""
  }

  /** The services whose API key is read from the environment. */
  const KeyedServices: set<string> := {"auth", "identity", "notify", "account"}

  /** The environment variable holding a keyed service's API key. */
  function KeyVar(svc: string): string {
    match svc
    case "auth" => "AUTH_SERVICE_API_KEY"
    case "identity" => "IDENTITY_SERVICE_API_KEY"
    case "notify" => "NOTIFY_SERVICE_API_KEY"
    case _ => "ACCOUNT_SERVICE_API_KEY"
  }

  /** The URL a service has when its variable is unset. */
  function DefaultURL(svc: string): string {
    "https://" + svc + ".hstles.com"
  }

  /** An environment variable, or `default` when it is unset or empty. */
  function EnvOr(env: map<string, string>, name: string, default: string): (v: string)
    ensures Getenv(env, name) != "" ==> v == Getenv(env, name)
    ensures Getenv(env, name) == "" ==> v == default
  {
    var v := Getenv(env, name);
    if v == "" then default else v
  }

  /** `config.GetServiceURL(name)`: the URL field of one of the five named
      services, "" for any other name. */
  function GetServiceURL(cfg: SecurityConfig, serviceName: string): (u: string)
    ensures serviceName == "auth" ==> u == cfg.authServiceURL
    ensures serviceName == "identity" ==> u == cfg.identityServiceURL
    ensures serviceName == "notify" ==> u == cfg.notifyServiceURL
    ensures serviceName == "account" ==> u == cfg.accountServiceURL
    ensures serviceName == "login" ==> u == cfg.loginServiceURL
    ensures serviceName !in KeyedServices && serviceName != "login" ==> u == ""
  {
    match serviceName
    case "auth" => cfg.authServiceURL
    case "identity" => cfg.identityServiceURL
    case "notify" => cfg.notifyServiceURL
    case "account" => cfg.accountServiceURL
    case "login" => cfg.loginServiceURL
    case _ => ""
  }

  /** `config.GetServiceAPIKey(name)`: the configured key, "" when there is
      none (a missing entry of a Go map reads as the zero value). */
  function GetServiceAPIKey(cfg: SecurityConfig, serviceName: string): (k: string)
    ensures serviceName in cfg.apiKeys ==> k == cfg.apiKeys[serviceName]
    ensures serviceName !in cfg.apiKeys ==> k == ""
  {
    if serviceName in cfg.apiKeys then cfg.apiKeys[serviceName] else ""
  }

  /** What every loaded configuration satisfies: only keyed services have
      keys, no key is empty, and every URL is set. */
  predicate WellFormedConfig(cfg: SecurityConfig) {
    && (forall n :: n in cfg.apiKeys ==> n in KeyedServices && cfg.apiKeys[n] != "")
    && cfg.authServiceURL != "" && cfg.identityServiceURL != "" && cfg.notifyServiceURL != ""
    && cfg.accountServiceURL != "" && cfg.loginServiceURL != ""
  }

  /** The key map of `LoadSecurityConfig`: one insert per keyed service
      whose variable is non-empty. */
  method LoadAPIKeys(env: map<string, string>) returns (apiKeys: map<string, string>)
    ensures forall svc :: svc in apiKeys <==> svc in KeyedServices && Getenv(env, KeyVar(svc)) != ""
    ensures forall svc :: svc in apiKeys ==> apiKeys[svc] == Getenv(env, KeyVar(svc)) && apiKeys[svc] != ""
    ensures "login" !in apiKeys
  {
    // the four names differ in length, hence are distinct
    assert |"auth"| == 4 && |"identity"| == 8 && |"notify"| == 6 && |"account"| == 7 && |"login"| == 5;
    apiKeys := map[];
    var key := Getenv(env, KeyVar("auth"));
    if key != "" {
      apiKeys := apiKeys["auth" := key];
    }
    key := Getenv(env, KeyVar("identity"));
    if key != "" {
      apiKeys := apiKeys["identity" := key];
    }
    key := Getenv(env, KeyVar("notify"));
    if key != "" {
      apiKeys := apiKeys["notify" := key];
    }
    key := Getenv(env, KeyVar("account"));
    if key != "" {
      apiKeys := apiKeys["account" := key];
    }
  }

  /** One service URL of `LoadSecurityConfig`: the variable, replaced by
      the service's default when it is unset or empty. */
  method ServiceURLFromEnv(env: map<string, string>, name: string, svc: string) returns (u: string)
    ensures u == EnvOr(env, name, DefaultURL(svc)) && u != ""
  {
    u := Getenv(env, name);
    if u == "" {
      u := DefaultURL(svc);
    }
  }

  /** `LoadSecurityConfig`: the key map is built by one insert per keyed
      service whose variable is non-empty; each URL is its variable or the
      service's default. */
  method LoadSecurityConfig(env: map<string, string>) returns (cfg: SecurityConfig)
    ensures WellFormedConfig(cfg)
    ensures forall svc :: svc in cfg.apiKeys <==> svc in KeyedServices && Getenv(env, KeyVar(svc)) != ""
    ensures forall svc :: svc in cfg.apiKeys ==> cfg.apiKeys[svc] == Getenv(env, KeyVar(svc))
    ensures "login" !in cfg.apiKeys
    ensures cfg.authServiceURL == EnvOr(env, "AUTH_SERVICE_URL", DefaultURL("auth"))
    ensures cfg.identityServiceURL == EnvOr(env, "IDENTITY_SERVICE_URL", DefaultURL("identity"))
    ensures cfg.notifyServiceURL == EnvOr(env, "NOTIFY_SERVICE_URL", DefaultURL("notify"))
    ensures cfg.accountServiceURL == EnvOr(env, "ACCOUNT_SERVICE_URL", DefaultURL("account"))
    ensures cfg.loginServiceURL == EnvOr(env, "LOGIN_SERVICE_URL", DefaultURL("login"))
  {
    var apiKeys := LoadAPIKeys(env);
    var authURL := ServiceURLFromEnv(env, "AUTH_SERVICE_URL", "auth");
    var identityURL := ServiceURLFromEnv(env, "IDENTITY_SERVICE_URL", "identity");
    var notifyURL := ServiceURLFromEnv(env, "NOTIFY_SERVICE_URL", "notify");
    var accountURL := ServiceURLFromEnv(env, "ACCOUNT_SERVICE_URL", "account");
    var loginURL := ServiceURLFromEnv(env, "LOGIN_SERVICE_URL", "login");
    cfg := SecurityConfig(authURL, identityURL, notifyURL, accountURL, loginURL, apiKeys);
  }

  /** In a well-formed configuration a service has a key exactly when
      `GetServiceAPIKey` returns a non-empty string, and "login" never has
      one. */
  lemma APIKeyPresence(cfg: SecurityConfig, serviceName: string)
    requires WellFormedConfig(cfg)
    ensures GetServiceAPIKey(cfg, serviceName) != "" <==> serviceName in cfg.apiKeys
    ensures serviceName !in KeyedServices ==> GetServiceAPIKey(cfg, serviceName) == ""
  {
  }

  /** In a well-formed configuration every one of the five services has a
      non-empty URL and no other name has one. */
  lemma ServiceURLPresence(cfg: SecurityConfig, serviceName: string)
    requires WellFormedConfig(cfg)
    ensures GetServiceURL(cfg, serviceName) != "" <==> serviceName in KeyedServices || serviceName == "login"
  {
  }

  /** The map scan of `ServiceAuthMiddleware` and `MixedAuthMiddleware`:
      the names are visited in an unspecified order and the scan stops at the
      first one whose key equals `apiKey`. */
  method FindServiceByKey(keys: map<string, string>, apiKey: string) returns (found: bool, name: string)
    ensures found <==> exists n :: n in keys && keys[n] == apiKey
    ensures found ==> name in keys && keys[name] == apiKey
    ensures !found ==> name == ""
  {
    var remaining := keys.Keys;
    found, name := false, "";
    while remaining != {}
      invariant remaining <= keys.Keys
      invariant forall n :: n in keys && n !in remaining ==> keys[n] != apiKey
      decreases remaining
    {
      var n :| n in remaining;
      if keys[n] == apiKey {
        return true, n;
      }
      remaining := remaining - {n};
    }
  }

  /** The request handed on by a successful API-key check: `service_name`
      bound to the matched service. */
  function WithServiceName(r: Request, name: string): Request {
    WithContext(r, WithValue(r.ctx, StringKey("service_name"), StringValue(name)))
  }

  /** `ServiceAuthMiddleware(validAPIKeys)` applied to one request. */
  method ServiceAuthMiddleware(validAPIKeys: map<string, string>, r: Request) returns (o: Outcome)
    ensures o.Reject? ==> o.status == StatusUnauthorized
    ensures HeaderGet(r.header, "X-API-Key") == "" ==> o == Reject(StatusUnauthorized, "API key required")
    ensures HeaderGet(r.header, "X-API-Key") != "" && o.Reject? ==> o.message == "Invalid API key"
    ensures (forall n :: n in validAPIKeys ==> validAPIKeys[n] != HeaderGet(r.header, "X-API-Key")) ==> o.Reject?
    ensures o.Pass? ==>
      exists n :: n in validAPIKeys && n != "" && validAPIKeys[n] == HeaderGet(r.header, "X-API-Key") && o.req == WithServiceName(r, n)
    ensures (HeaderGet(r.header, "X-API-Key") != "" && "" !in validAPIKeys &&
      exists n :: n in validAPIKeys && validAPIKeys[n] == HeaderGet(r.header, "X-API-Key")) ==> o.Pass?
  {
    var apiKey := HeaderGet(r.header, "X-API-Key");
    if apiKey == "" {
      return Reject(StatusUnauthorized, "API key required");
    }
    var found, serviceName := FindServiceByKey(validAPIKeys, apiKey);
    if serviceName == "" {
      return Reject(StatusUnauthorized, "Invalid API key");
    }
    return Pass(WithServiceName(r, serviceName));
  }

  /** `GetServiceName`: the string bound to `service_name`, if any. */
  function GetServiceName(r: Request): (res: (string, bool))
    ensures res.1 <==> StringValueOf(r.ctx, "service_name").Some?
    ensures res.1 ==> res.0 == StringValueOf(r.ctx, "service_name").value
    ensures !res.1 ==> res.0 == ""
  {
    match StringValueOf(r.ctx, "service_name")
    case Some(s) => (s, true)
    case None => ("", false)
  }

  /** `GetAuthType`: the string bound to `auth_type`, "unknown" when there
      is none. */
  function GetAuthType(r: Request): (t: string)
    ensures StringValueOf(r.ctx, "auth_type").Some? ==> t == StringValueOf(r.ctx, "auth_type").value
    ensures StringValueOf(r.ctx, "auth_type").None? ==> t == "unknown"
  {
    match StringValueOf(r.ctx, "auth_type")
    case Some(s) => s
    case None => "unknown"
  }

  /** A request that passed the API-key check carries the matched service
      name and no `auth_type`-independent change: its session slot is as
      before. */
  lemma ServiceNameReadBack(r: Request, name: string)
    ensures GetServiceName(WithServiceName(r, name)) == (name, true)
    ensures GetSessionDataFromContext(WithServiceName(r, name).ctx) == GetSessionDataFromContext(r.ctx)
    ensures GetAuthType(WithServiceName(r, name)) == GetAuthType(r)
  {
  }

  /** Every name a loaded configuration maps to a key is non-empty, so the
      empty-name case of `ServiceAuthMiddleware` never arises there: a key
      equal to a configured one is accepted. */
  lemma LoadedNamesNonEmpty(cfg: SecurityConfig)
    requires WellFormedConfig(cfg)
    ensures "" !in cfg.apiKeys
  {
  }

  /** `SessionResponse` of the auth service, as far as the middlewares read it. */
  datatype SessionResponse = SessionResponse(valid: bool, userID: string, provider: string)

  /** The triple `(resp, code, err)` returned by `ValidateSession`:
      `failed` is `err != nil`; `code` is 0 when the request never reached the
      service and the service's status when its reply could not be decoded. */
  datatype SessionCall = SessionCall(resp: SessionResponse, code: int, failed: bool)

  /** The request handed on by a successful session check. */
  function WithSession(r: Request, resp: SessionResponse): Request {
    WithContext(r, SetSessionDataInContext(r.ctx, UserSessionData(resp.userID, resp.provider)))
  }

  /** `SessionValidationMiddleware` as written: a failed call is answered
      with the code the client returned. */
  function SessionValidationAsWritten(call: SessionCall, r: Request): (o: Outcome)
    ensures call.failed ==> o == Reject(call.code, "Session validation failed")
    ensures !call.failed && !call.resp.valid ==> o == Reject(StatusUnauthorized, "Unauthorized")
    ensures !call.failed && call.resp.valid ==> o == Pass(WithSession(r, call.resp))
  {
    if call.failed then Reject(call.code, "Session validation failed")
    else if !call.resp.valid then Reject(StatusUnauthorized, "Unauthorized")
    else Pass(WithSession(r, call.resp))
  }

  /** When the auth service cannot be reached the code is 0, and
      `http.Error` with code 0 makes `WriteHeader` panic. */
  lemma TransportErrorPanics(call: SessionCall, r: Request)
    requires call.failed && call.code == 0
    ensures SessionValidationAsWritten(call, r).Reject?
    ensures !WritableStatus(SessionValidationAsWritten(call, r).status)
  {
  }

  /** When the reply cannot be decoded the service's own status is used, so
      a failed validation can be answered with a success status such as 200. */
  lemma DecodeErrorReportsSuccess(call: SessionCall, r: Request)
    requires call.failed && call.code == StatusOK
    ensures SessionValidationAsWritten(call, r) == Reject(StatusOK, "Session validation failed")
  {
  }

  /** The error status a failed session call is answered with: the service's
      status when it is a client or server error, 500 otherwise. */
  function FailureStatus(code: int): (s: int)
    ensures 400 <= s <= 599 && WritableStatus(s)
    ensures 400 <= code <= 599 ==> s == code
  {
    if 400 <= code <= 599 then code else StatusInternalServerError
  }

  /** `SessionValidationMiddleware` corrected: a failure is always answered
      with a writable error status. */
  function SessionValidation(call: SessionCall, r: Request): (o: Outcome)
    ensures o.Reject? ==> WritableStatus(o.status) && 400 <= o.status <= 599
    ensures o.Pass? <==> !call.failed && call.resp.valid
    ensures o.Pass? ==> o.req == WithSession(r, call.resp)
    ensures !call.failed && !call.resp.valid ==> o == Reject(StatusUnauthorized, "Unauthorized")
  {
    if call.failed then Reject(FailureStatus(call.code), "Session validation failed")
    else if !call.resp.valid then Reject(StatusUnauthorized, "Unauthorized")
    else Pass(WithSession(r, call.resp))
  }

  /** The correction changes nothing when the service did answer with an
      error status, nor on any call that did not fail. */
  lemma SessionValidationAgrees(call: SessionCall, r: Request)
    requires !call.failed || 400 <= call.code <= 599
    ensures SessionValidation(call, r) == SessionValidationAsWritten(call, r)
  {
  }

  /** A request passed by the session check carries the service's user id
      and provider, and its `service_name` and `auth_type` are as before. */
  lemma SessionReadBack(r: Request, resp: SessionResponse)
    ensures GetSessionDataFromContext(WithSession(r, resp).ctx) == Some(UserSessionData(resp.userID, resp.provider))
    ensures GetServiceName(WithSession(r, resp)) == GetServiceName(r)
    ensures GetAuthType(WithSession(r, resp)) == GetAuthType(r)
  {
  }

  /** `RequireSessionUser`: the user id of the stored session record. */
  function RequireSessionUser(r: Request): (res: Result<string, string>)
    ensures GetSessionDataFromContext(r.ctx).None? ==> res == Err("no session data in context")
    ensures GetSessionDataFromContext(r.ctx).Some? && GetSessionDataFromContext(r.ctx).value.userID == "" ==>
      res == Err("no user ID in session")
    ensures res.Ok? <==> GetUserIDFromContext(r).1
    ensures res.Ok? ==> res.value == GetUserIDFromContext(r).0 && res.value != ""
  {
    match GetSessionDataFromContext(r.ctx)
    case None => Err("no session data in context")
    case Some(d) => if d.userID == "" then Err("no user ID in session") else Ok(d.userID)
  }

  /** `MixedAuthMiddleware(authServiceURL, validAPIKeys)` applied to one
      request. A non-empty `X-API-Key` is decided by the key table alone and
      the session call is not consulted; otherwise the session call decides. */
  method MixedAuthMiddleware(validAPIKeys: map<string, string>, call: SessionCall, r: Request) returns (o: Outcome)
    ensures o.Reject? ==> o.status == StatusUnauthorized
    ensures HeaderGet(r.header, "X-API-Key") != "" ==>
      (o.Reject? <==> forall n :: n in validAPIKeys ==> validAPIKeys[n] != HeaderGet(r.header, "X-API-Key"))
    ensures HeaderGet(r.header, "X-API-Key") != "" && o.Reject? ==> o.message == "Invalid API key"
    ensures HeaderGet(r.header, "X-API-Key") != "" && o.Pass? ==>
      exists n :: n in validAPIKeys && validAPIKeys[n] == HeaderGet(r.header, "X-API-Key")
        && o.req == WithContext(r, WithValue(WithServiceName(r, n).ctx, StringKey("auth_type"), StringValue("service")))
    ensures HeaderGet(r.header, "X-API-Key") == "" ==>
      (o.Pass? <==> !call.failed && call.resp.valid)
    ensures HeaderGet(r.header, "X-API-Key") == "" && o.Reject? ==> o.message == "Unauthorized"
    ensures HeaderGet(r.header, "X-API-Key") == "" && o.Pass? ==>
      o.req == WithContext(r, WithValue(WithSession(r, call.resp).ctx, StringKey("auth_type"), StringValue("session")))
  {
    var apiKey := HeaderGet(r.header, "X-API-Key");
    if apiKey != "" {
      var found, name := FindServiceByKey(validAPIKeys, apiKey);
      if found {
        var ctx := WithValue(r.ctx, StringKey("service_name"), StringValue(name));
        ctx := WithValue(ctx, StringKey("auth_type"), StringValue("service"));
        return Pass(WithContext(r, ctx));
      }
      return Reject(StatusUnauthorized, "Invalid API key");
    }
    if !call.failed && call.resp.valid {
      var ctx := SetSessionDataInContext(r.ctx, UserSessionData(call.resp.userID, call.resp.provider));
      ctx := WithValue(ctx, StringKey("auth_type"), StringValue("session"));
      return Pass(WithContext(r, ctx));
    }
    return Reject(StatusUnauthorized, "Unauthorized");
  }

  /** After the mixed check the authentication type reads back as "service"
      or "session", naming the branch that admitted the request. */
  lemma MixedAuthType(r: Request, name: string, resp: SessionResponse)
    ensures GetAuthType(WithContext(r, WithValue(WithServiceName(r, name).ctx, StringKey("auth_type"), StringValue("service")))) == "service"
    ensures GetServiceName(WithContext(r, WithValue(WithServiceName(r, name).ctx, StringKey("auth_type"), StringValue("service")))) == (name, true)
    ensures GetAuthType(WithContext(r, WithValue(WithSession(r, resp).ctx, StringKey("auth_type"), StringValue("session")))) == "session"
    ensures GetSessionDataFromContext(WithValue(WithSession(r, resp).ctx, StringKey("auth_type"), StringValue("session")))
      == Some(UserSessionData(resp.userID, resp.provider))
  {
    assert "auth_type"[0] != "service_name"[0];
    var ctx := WithValue(WithServiceName(r, name).ctx, StringKey("auth_type"), StringValue("service"));
    assert Lookup(ctx, StringKey("service_name")) == Some(StringValue(name));
  }

  /** The four route groups of `NewSecurityRoutes`. */
  datatype Tier = Public | Protected | Service | Mixed

  /** The middlewares a route group runs, outermost first. */
  datatype Layer = SecurityLayer | SessionLayer | ServiceAuthLayer

  /** Every group inherits the router's security middleware; the protected
      group adds session validation and the service group API-key
      validation; the public and mixed groups add nothing. */
  function TierLayers(tier: Tier): (layers: seq<Layer>)
    ensures |layers| >= 1 && layers[0] == SecurityLayer
  {
    match tier
    case Public => [SecurityLayer]
    case Protected => [SecurityLayer, SessionLayer]
    case Service => [SecurityLayer, ServiceAuthLayer]
    case Mixed => [SecurityLayer]
  }

  /** The rejection a group's own middleware answers with, as `http.Error`
      writes it: the plain-text headers, the status unless one was already
      written, and the message plus a newline. */
  twostate predicate RejectedWith(w: ResponseWriter, status: int, message: string)
    reads w
  {
    && w.header == PlainText(old(w.header))
    && w.wroteHeader
    && w.status == (if old(w.wroteHeader) then old(w.status) else status)
    && w.body == old(w.body) + message + "\n"
  }

  /** The group's own middleware after the security middleware has passed
      the request: session validation for the protected group, API-key
      validation for the service group, nothing for the others. */
  method GroupMiddleware(cfg: SecurityConfig, tier: Tier, call: SessionCall, w: ResponseWriter, r: Request)
    returns (reached: Option<Request>)
    modifies w
    ensures reached.Some? ==>
      w.header == old(w.header) && w.wroteHeader == old(w.wroteHeader) && w.status == old(w.status) && w.body == old(w.body)
    ensures (tier == Public || tier == Mixed) ==> reached == Some(r)
    ensures tier == Protected ==> (reached.Some? <==> !call.failed && call.resp.valid)
    ensures tier == Protected && reached.Some? ==>
      GetSessionDataFromContext(reached.value.ctx) == Some(UserSessionData(call.resp.userID, call.resp.provider))
    ensures tier == Protected && reached.None? ==>
      RejectedWith(w, SessionValidation(call, r).status, SessionValidation(call, r).message)
    ensures tier == Service && reached.Some? ==>
      GetServiceName(reached.value).1 &&
      GetServiceName(reached.value).0 in cfg.apiKeys &&
      cfg.apiKeys[GetServiceName(reached.value).0] == HeaderGet(r.header, "X-API-Key")
    ensures tier == Service && WellFormedConfig(cfg) ==>
      (reached.Some? <==>
        (HeaderGet(r.header, "X-API-Key") != "" &&
         exists n :: n in cfg.apiKeys && cfg.apiKeys[n] == HeaderGet(r.header, "X-API-Key")))
    ensures tier == Service && reached.None? ==>
      RejectedWith(w, StatusUnauthorized,
                   if HeaderGet(r.header, "X-API-Key") == "" then "API key required" else "Invalid API key")
  {
    match tier
    case Protected =>
      var o := SessionValidation(call, r);
      reached := w.Respond(o);
      if reached.Some? {
        SessionReadBack(r, call.resp);
      }
    case Service =>
      var o := ServiceAuthMiddleware(cfg.apiKeys, r);
      reached := w.Respond(o);
      if reached.Some? {
        var n :| n in cfg.apiKeys && n != "" && cfg.apiKeys[n] == HeaderGet(r.header, "X-API-Key") && o.req == WithServiceName(r, n);
        ServiceNameReadBack(r, n);
      }
    case _ =>
      reached := Some(r);
  }

  /** One request served by a route of group `tier` on a router built by
      `NewSecurityRoutes(parentDomain, cfg)`: the security middleware, then
      the group's own middleware; `reached` is the request the route's
      handler receives, if any. The response carries the security headers;
      a rejection adds the plain-text headers of `http.Error`. */
  method Serve(parentDomain: string, cfg: SecurityConfig, tier: Tier, call: SessionCall, w: ResponseWriter, r: Request)
    returns (reached: Option<Request>)
    modifies w
    ensures reached.Some? ==> r.verb != "OPTIONS"
    ensures TierLayers(tier) == [SecurityLayer] ==> (reached.Some? <==> r.verb != "OPTIONS")
    ensures TierLayers(tier) == [SecurityLayer] && reached.Some? ==> reached.value == r
    ensures SessionLayer in TierLayers(tier) ==>
      (reached.Some? <==> r.verb != "OPTIONS" && !call.failed && call.resp.valid)
    ensures SessionLayer in TierLayers(tier) && reached.Some? ==>
      GetSessionDataFromContext(reached.value.ctx) == Some(UserSessionData(call.resp.userID, call.resp.provider))
    ensures ServiceAuthLayer in TierLayers(tier) && reached.Some? ==>
      GetServiceName(reached.value).1 &&
      GetServiceName(reached.value).0 in cfg.apiKeys &&
      cfg.apiKeys[GetServiceName(reached.value).0] == HeaderGet(r.header, "X-API-Key")
    ensures ServiceAuthLayer in TierLayers(tier) && WellFormedConfig(cfg) ==>
      (reached.Some? <==>
        (r.verb != "OPTIONS" && HeaderGet(r.header, "X-API-Key") != "" &&
         exists n :: n in cfg.apiKeys && cfg.apiKeys[n] == HeaderGet(r.header, "X-API-Key")))
    ensures r.verb == "OPTIONS" ==>
      && w.header == Security.SecurityHeaders(old(w.header), parentDomain, HeaderGet(r.header, "Origin"))
      && w.wroteHeader && w.status == (if old(w.wroteHeader) then old(w.status) else StatusOK)
      && w.body == old(w.body)
    ensures reached.Some? ==>
      && w.header == Security.SecurityHeaders(old(w.header), parentDomain, HeaderGet(r.header, "Origin"))
      && w.wroteHeader == old(w.wroteHeader) && w.status == old(w.status) && w.body == old(w.body)
    ensures r.verb != "OPTIONS" && reached.None? ==>
      w.header == PlainText(Security.SecurityHeaders(old(w.header), parentDomain, HeaderGet(r.header, "Origin")))
    ensures SessionLayer in TierLayers(tier) && r.verb != "OPTIONS" && reached.None? ==>
      && w.wroteHeader
      && w.status == (if old(w.wroteHeader) then old(w.status) else SessionValidation(call, r).status)
      && w.body == old(w.body) + SessionValidation(call, r).message + "\n"
    ensures ServiceAuthLayer in TierLayers(tier) && r.verb != "OPTIONS" && reached.None? ==>
      && w.wroteHeader
      && w.status == (if old(w.wroteHeader) then old(w.status) else StatusUnauthorized)
      && w.body == old(w.body) + (if HeaderGet(r.header, "X-API-Key") == "" then "API key required" else "Invalid API key") + "\n"
  {
    reached := Security.SecurityMiddleware(parentDomain, w, r);
    if reached.None? {
      return;
    }
    reached := GroupMiddleware(cfg, tier, call, w, r);
  }
}
