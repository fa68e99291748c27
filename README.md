# Authorisation core of the HSTLES Go SDK, modelled in Dafny

This project models the request-authorisation layer that HSTLES services
share:

- the application registry (`core_config/apps.go`) and its lookups by
  route, name and domain, and the validation of a `next` redirect target;
- the provider allow-list (`shared_utilities/provider_validation.go`):
  resolving an app through name → "/"+name route → domain hints →
  case-insensitive search, then checking the session's identity provider
  against the app's `AuthMethods`, as a function, as the imperative
  loop-by-loop method, and as middleware;
- the route-tier security (`shared_utilities/auth_middleware.go`): the
  configuration read from the environment, the API-key, session and mixed
  authentication middlewares, the context accessors, and which middlewares
  each of the four route groups runs;
- the CORS/CSP security middlewares (`shared_utilities/security.go`,
  `core_utilities/security.go`), which write into the response writer's
  header map in place;
- typed session storage in request contexts (`shared_utilities/context.go`,
  `core_utilities/context.go`);
- client identification (`shared_helpers/http.go`) and route
  normalisation (`shared_utilities/routes.go`), which rewrites the request
  URL's path in place.

The Go facilities the code relies on are modelled in their own modules:

- `GoStrings`: `Split`, `Join`, `TrimSpace`, `ToLower`, `Contains`,
  `HasPrefix`, `HasSuffix` and `LastIndex`, restricted to ASCII.
- `GoUrl`: a simplified `url.Parse`, `url.ParseRequestURI` and
  `URL.Hostname`.
- `GoContext`: `context.WithValue` chains with typed keys.
- `GoHttp`:
  - the request;
  - a `ResponseWriter` class whose `Set`, `WriteHeader` and `Error`
    follow `net/http`;
  - `WriteHeader`'s panic outside 100..999 on the first call, which is a
    precondition (a later call returns before checking the code).

A middleware is modelled as one step that serves one request. It returns
the request handed to the next handler as `Some(r)`, or `None` when it
answers the request itself. Pure decisions return an `Outcome` (`Reject` or
`Pass`), and `ResponseWriter.Respond` carries that outcome out.

The registry rows are a parameter `table` wherever the code only depends on
their shape. The lookups' fall-back indices (row 2 and row 0) require at
least three rows. `Apps.AppConfigs` is the shipped table, and lemmas
specialise the results to it.

Where the code's own comments and the code disagree, the model follows the
code:

- The comments at core_config/apps.go:42, 54 and 66 say each lookup
  defaults to the "root configuration", which is row 0, the one with route
  "/". In the code, `GetAppByRoute` and `GetAppByName` fall back to row 2
  ("organisation"). Only `GetAppByDomain` falls back to row 0 ("services").
- The comments at core_config/apps.go:74 and 93 say an invalid `next`
  defaults to "files" and reports an error. In the code, a non-empty `next`
  that is neither a valid URL nor an app name gets the organisation app's
  URL with no error. Every shipped row has a name, so the error branch of
  `ValidateNextParameter` cannot be reached with the shipped table.

## Model

| member | source | states |
|---|---|---|
| GoStrings.Split | shared_helpers/http.go:15 | `strings.Split` on one character: never empty; the first piece is the longest separator-free prefix; no piece holds the separator |
| GoStrings.JoinSplit | shared_helpers/http.go:15 | joining the pieces of a split with the separator gives back the input |
| GoStrings.TrimSpace | shared_helpers/http.go:15-24 | `strings.TrimSpace`: the result is a slice of the input surrounded only by white space, and it neither starts nor ends with white space |
| GoStrings.TrimSpaceExcludes | shared_helpers/http.go:15 | trimming introduces no character that was absent from the input |
| GoStrings.TrimSpaceAllSpace | shared_helpers/http.go:22-24 | a string made only of white space trims to "" |
| GoStrings.TrimSpaceIdempotent | shared_helpers/http.go:15-24 | trimming twice is trimming once |
| GoStrings.ToLower | shared_utilities/routes.go:11 | `strings.ToLower` (ASCII): same length; each character is lower-cased |
| GoStrings.ToLowerProperties | shared_utilities/routes.go:11 | the result has no upper-case letter; lower-casing is idempotent, fixes lower-case strings and keeps non-letters |
| GoStrings.ContainsAt | shared_utilities/provider_validation.go:65-66 | `strings.Contains` holds exactly when the needle occurs at some index |
| GoStrings.ContainsChar | shared_utilities/provider_validation.go:47 | containing the one-character string "." is containing the character '.' |
| GoStrings.LastIndexOf | core_config/apps.go:100 | the last index of a character, with nothing of it after; -1 exactly when it is absent |
| GoUrl.Parse | core_config/apps.go:100 | a parsed host holds only host characters and the scheme is lower-case; a request URI with a host has a scheme |
| GoUrl.ParseAfterScheme | core_config/apps.go:100 | an accepted reference whose part before the query starts with '/' holds only well-formed `%` escapes there (userinfo and path alike) |
| GoUrl.ParseRequestURI | core_config/apps.go:100 | `url.ParseRequestURI` (no fragment cut, a relative reference is an error, an empty string fails): an accepted URI is non-empty and free of control characters, its host holds only host characters, its scheme is lower-case and is present whenever a host is; `ParseAbsolute` and `UserinfoEscapeRefused` give exact outcomes |
| GoUrl.UrlParse | shared_utilities/security.go:19 | `url.Parse` (the fragment after the first '#' is cut off and its escapes checked): an accepted URL has a host of host characters, a lower-case scheme and a fragment with well-formed escapes; `UrlParseAbsolute` and `UserinfoEscapeRefused` give exact outcomes |
| GoUrl.ParseAuthority | core_config/apps.go:100 | an accepted authority yields a host of host characters that ends the authority, and the whole authority, userinfo included, holds only well-formed `%` escapes |
| GoUrl.UserinfoEscapeAuthority | core_config/apps.go:100 | userinfo with a malformed `%` escape before '@' makes the authority fail, whatever host follows |
| GoUrl.UserinfoEscapeRefused | shared_utilities/security.go:19 | `scheme://userinfo@host/path` whose userinfo holds a malformed escape fails as a request URI, in `parse`, and (with no '#') in `url.Parse` |
| GoUrl.PlainHostParses | shared_utilities/security.go:19 | a name of host characters without ':' and not bracketed is accepted by `parseHost` unchanged |
| GoUrl.PortHostParses | shared_utilities/security.go:19 | such a name followed by ':' and a numeric port is accepted by `parseHost` unchanged |
| GoUrl.Hostname | shared_utilities/security.go:20 | `URL.Hostname` is a substring of the host |
| GoUrl.HostnameOfPlainHost | shared_utilities/security.go:20 | a host without ':' and not bracketed is its own hostname |
| GoUrl.HostnameStripsPort | shared_utilities/security.go:20 | the hostname of `name:port`, with a numeric port and a name without ':', is the name |
| GoUrl.HostnameOfBracketed | shared_utilities/security.go:20 | the hostname of `[addr]` or `[addr]:port` is `addr` |
| GoUrl.ParseAbsolute | core_config/apps.go:100 | `scheme://host/path` with a host that `parseHost` accepts parses (both as a request URI and as a URL) to that scheme and host exactly when every `%` in the path starts a two-hex-digit escape, and fails otherwise |
| GoUrl.UrlParseAbsolute | shared_utilities/security.go:19 | `url.Parse` of such a URL with no fragment gives that scheme and host when the path's escapes are well formed, and fails otherwise |
| GoHttp.WithContext | shared_utilities/auth_middleware.go:145 | `r.WithContext` replaces the context and keeps every other field, including the shared URL object |
| GoHttp.ResponseWriter.Error | shared_utilities/security.go:63 | `http.Error`: plain-text content type, `nosniff`, the status (first write wins), and the message plus a newline appended to the body; the code must be writable only when no status was written yet |
| GoHttp.ResponseWriter.Respond | shared_utilities/auth_middleware.go:129-145 | a rejection is answered with `http.Error` (plain-text headers, status, message) and stops the chain; a pass writes nothing and hands the request on |
| SessionContext.GetSessionDataFromContext | shared_utilities/context.go:44-47 | the record under the session key when it is a session record, else none (the failed type assertion); `SetSessionDataInContext` states the read-back, `WrongTypeIsAbsent` the failed assertion and `OtherBindingKeepsSession` the untouched slot |
| SessionContext.SetSessionDataInContext | shared_utilities/context.go:50-52 | the stored record is read back, and every other key looks up as before |
| SessionContext.GetUserIDFromContext | shared_utilities/context.go:26-32 | `(id, true)` exactly when a record is stored with a non-empty id, `("", false)` otherwise |
| SessionContext.GetProviderFromContext | shared_utilities/context.go:35-41 | the stored provider, even an empty one, or "" when no record is stored |
| SessionContext.SetShadows | shared_utilities/context.go:44-52 | a second store shadows the first |
| SessionContext.SetKeepsStringSlots | shared_utilities/context.go:50-52 | storing a record leaves `service_name` and `auth_type` as they were |
| SessionContext.OtherBindingKeepsSession | shared_utilities/context.go:15-17 | binding any other key leaves the stored record readable |
| SessionContext.WrongTypeIsAbsent | shared_utilities/context.go:44-47 | a value of another type under the session key reads as no session |
| CoreContext.GetUserIDFromContext | core_utilities/context.go:22-28 | `(id, true)` exactly when a `*UserSessionData` with a non-empty id is stored under this package's key, `("", false)` otherwise |
| CoreContext.SharedSessionInvisible | core_utilities/context.go:11-13 | a record stored by shared_utilities is invisible here |
| CoreContext.StoredPointerRead | core_utilities/context.go:22-28 | a stored non-empty id is read back with `true` |
| Apps.FirstIndex | core_config/apps.go:34-67 | the index of the first row whose column equals the value, or -1 exactly when no row does |
| Apps.GetAppByRoute | core_config/apps.go:34-43 | the first row with the route, else row 2 |
| Apps.GetAppByName | core_config/apps.go:46-55 | the first row with the name, else row 2 |
| Apps.GetAppByDomain | core_config/apps.go:58-67 | the first row with the domain, else row 0 |
| Apps.GetURL | core_config/apps.go:70-72 | "https://" followed by exactly the row's domain |
| Apps.ValidateNextParameter | core_config/apps.go:75-96 | empty → root app URL; valid URL → kept; app name → that app's URL; an error exactly when the name lookup yields an unnamed row, then the root app URL and the message "invalid 'next' parameter: <next>, using default route" |
| Apps.NextTargetsTable | core_config/apps.go:75-96 | the target is `next` accepted as a valid URL, or the URL of a table row |
| Apps.BareParentRejected | core_config/apps.go:106 | a host equal to "hstles.com" is not valid (the suffix includes the dot) |
| Apps.PortRejected | core_config/apps.go:100-106 | a host carrying a port is not valid, because the test is on `Host`, not on `Hostname()` |
| Apps.IsValidURL | core_config/apps.go:99-111 | `ParseRequestURI` succeeds with a scheme and a host of host characters, and the host, port included, ends in ".hstles.com"; `ValidNextKept`, `PortRejected`, `BareParentRejected`, `BadEscapeInvalid` and `BadUserinfoInvalid` state which URLs pass |
| Apps.ValidNextKept | core_config/apps.go:99-111 | `scheme://<sub>.hstles.com/path` is valid exactly when the path's `%` escapes are well formed, and is then kept as the redirect target |
| Apps.BadEscapeInvalid | core_config/apps.go:99-103 | `https://a.hstles.com/%zz` is not a valid `next`, because the request-URI parse fails on the malformed escape |
| Apps.BadUserinfoInvalid | core_config/apps.go:99-103 | `https://%zz@a.hstles.com/` is not a valid `next`, because the request-URI parse fails on the userinfo's malformed escape, and `ValidateNextParameter` then redirects to the "organisation" row's URL without an error |
| Apps.AppConfigsValid | core_config/apps.go:22-31 | the shipped table has more than two rows, all named |
| Apps.LookupsNamed | core_config/apps.go:34-67 | every lookup on the shipped table yields a named row |
| Apps.Defaults | core_config/apps.go:34-67 | the defaults are "organisation" for route and name, and "services" for domain |
| Apps.FilesDomainIsServices | core_config/apps.go:22-31 | "files.hstles.com" belongs to rows 0 and 1, and the first ("services") wins |
| Apps.ShippedDomains | core_config/apps.go:22-31 | the root and default rows' names and domains, and the organisation row's providers |
| Apps.EmptyNext | core_config/apps.go:76-78 | an empty `next` redirects to the services app without error |
| Apps.NextNeverErrs | core_config/apps.go:88-95 | with the shipped table no `next` produces an error |
| Apps.ForeignNextIsOrganisation | core_config/apps.go:80-95 | a foreign non-URL `next` redirects to the organisation app without error |
| ProviderValidation.DomainHint | shared_utilities/provider_validation.go:44-57 | the chosen row is named and is the row of the route named by the first qualifying hint (trimmed, holding a '.', its first label naming a named route); none is chosen exactly when no hint qualifies |
| ProviderValidation.FlexFind | shared_utilities/provider_validation.go:60-74 | a found row is the first row that matches flexibly; none found means no row does |
| ProviderValidation.ResolveApp | shared_utilities/provider_validation.go:36-84 | the resolved row is in the table and named, and a named name lookup wins |
| ProviderValidation.ScanDomainHints | shared_utilities/provider_validation.go:44-57 | the domain loop ends on the row `DomainHint` picks, or unnamed when it picks none |
| ProviderValidation.FlexibleSearch | shared_utilities/provider_validation.go:60-74 | the flexible loop ends on the first flexibly matching row, or keeps its start |
| ProviderValidation.ProviderListed | shared_utilities/provider_validation.go:88-92 | the scan finds the provider exactly when it is listed (case-sensitive) |
| ProviderValidation.ValidateSessionProvider | shared_utilities/provider_validation.go:25-107 | the step-by-step method returns exactly the error `ProviderCheck` specifies |
| ProviderValidation.GetAllowedProvidersForApp | shared_utilities/provider_validation.go:149-168 | the method returns the specification's provider list |
| ProviderValidation.ValidateProviderFromContext | shared_utilities/provider_validation.go:172-184 | without session data it fails with an empty provider; otherwise it is the provider check of the stored provider |
| ProviderValidation.ProviderValidationMiddleware | shared_utilities/provider_validation.go:111-140 | 500 without session data, 401 with an empty provider, 403 with the check's message on failure, otherwise the same request is handed on |
| ProviderValidation.EmptyProviderFails | shared_utilities/provider_validation.go:26-33 | an empty provider fails, with no allowed providers and the caller's app name |
| ProviderValidation.ResolvedCheck | shared_utilities/provider_validation.go:88-106 | once resolved, pass iff the provider is one of the row's methods; a failure carries the provider, those methods and the caller's app name |
| ProviderValidation.NamedTableNeedsNoFallback | shared_utilities/provider_validation.go:36-41 | with all rows named, resolution is the name lookup |
| ProviderValidation.IsProviderAllowed | shared_utilities/provider_validation.go:144-146 | validation without domain hints succeeds; `AllowedIsListed` and `ListedIsAllowed` state that this means a non-empty provider listed for the app |
| ProviderValidation.AllowedIsListed | shared_utilities/provider_validation.go:144-168 | an allowed provider is non-empty and in `GetAllowedProvidersForApp` |
| ProviderValidation.ListedIsAllowed | shared_utilities/provider_validation.go:144-168 | with all rows named: allowed iff non-empty and in `GetAllowedProvidersForApp` |
| ProviderValidation.UnknownAppUsesOrganisation | shared_utilities/provider_validation.go:36-41 | with the shipped table, an unknown app is checked against the organisation row's methods |
| Security.SecurityMiddleware | shared_utilities/security.go:14-50 | the header map becomes the CSP and (when the origin is accepted) CORS entries over the old one; OPTIONS is answered 200 and stops; any other method is handed on with nothing written |
| Security.SecurityWithProviderValidationMiddleware | shared_utilities/security.go:54-71 | security first (OPTIONS answered 200 with the security headers); 403 "Access denied: <message>" with the security and plain-text headers exactly when session data with a provider fails the check; otherwise handed on with only the security headers written |
| Security.CspAlwaysSet | shared_utilities/security.go:31-39 | the CSP entry is the parent domain's policy whatever the origin |
| Security.CorsEntries | shared_utilities/security.go:18-28 | an accepted origin is echoed verbatim with the three fixed entries; a refused one leaves the CORS entries as they were |
| Security.LookalikeRefused | shared_utilities/security.go:21 | a host that is the parent preceded by a non-dot prefix ("evilhstles.com") is refused |
| Security.AcceptedHost | shared_utilities/security.go:18-21 | an accepted origin parses with `url.Parse` to scheme "https", and its hostname is the parent or ends in "."+parent |
| Security.SubdomainAccepted | shared_utilities/security.go:18-21 | `https://<sub>.<parent>/path` is accepted exactly when the path's `%` escapes are well formed |
| Security.PortOriginAccepted | shared_utilities/security.go:18-21 | `https://<sub>.<parent>:<port>/path` with a numeric port is accepted exactly when the path's `%` escapes are well formed: the port does not hide the parent |
| Security.BadUserinfoRefused | shared_utilities/security.go:18-21 | the origin `https://%zz@a.hstles.com` is refused, because `url.Parse` fails on the userinfo's malformed escape |
| Security.BadEscapeRefused | shared_utilities/security.go:18-21 | the origin `https://a.hstles.com/%` is refused, because `url.Parse` fails on the lone `%` |
| Security.FillDeterminesValue | shared_utilities/security.go:31-38 | a policy template with a hole determines the value filled in |
| Security.CspDeterminesParent | shared_utilities/security.go:31-38 | two parents with the same policy are equal |
| CoreSecurity.SecurityMiddleware | core_utilities/security.go:13-49 | the same header, status and hand-on behaviour as the shared security middleware |
| ClientIP.GetClientIP | shared_helpers/http.go:10-33 | the first trimmed forwarded entry; else the trimmed `X-Real-IP`; else the remote address before its first ':' |
| ClientIP.GetUserAgent | shared_helpers/http.go:36-38 | exactly the `User-Agent` header |
| ClientIP.ForwardedHasNoComma | shared_helpers/http.go:15 | an address taken from `X-Forwarded-For` holds no ',' |
| ClientIP.RemoteHasNoColon | shared_helpers/http.go:28-30 | an address taken from the remote address holds no ':' and is a prefix of it ("[::1]:80" gives "[") |
| ClientIP.BlankRealIPGivesEmpty | shared_helpers/http.go:22-25 | a present, all-white-space `X-Real-IP` gives "" and hides the remote address |
| ClientIP.NoSurroundingSpace | shared_helpers/http.go:15-24 | a header-derived address has no white space at either end |
| Routes.NormalizeRoutesMiddleware | shared_utilities/routes.go:9-15 | the URL path becomes its lower-cased form (same length, non-letters kept, lower-case paths unchanged); the query is unchanged; the same request is handed on |
| Routes.NormalizeTwice | shared_utilities/routes.go:11-12 | normalising twice leaves the path normalising once gives |
| AuthMiddleware.EnvOr | shared_utilities/auth_middleware.go:43-66 | a set, non-empty variable, else the default |
| AuthMiddleware.LoadAPIKeys | shared_utilities/auth_middleware.go:26-40 | a keyed service has an entry exactly when its variable is non-empty, holding that value; "login" never has one |
| AuthMiddleware.ServiceURLFromEnv | shared_utilities/auth_middleware.go:43-66 | a URL is its variable or the service's default, never "" |
| AuthMiddleware.LoadSecurityConfig | shared_utilities/auth_middleware.go:25-76 | the loaded configuration is well formed; the keys are as for `LoadAPIKeys`; each URL is its variable or `https://<svc>.hstles.com` |
| AuthMiddleware.GetServiceURL | shared_utilities/auth_middleware.go:254-269 | the five names map to their URL fields; any other name gives "" |
| AuthMiddleware.GetServiceAPIKey | shared_utilities/auth_middleware.go:272-274 | the configured key, or "" |
| AuthMiddleware.APIKeyPresence | shared_utilities/auth_middleware.go:272-274 | in a loaded configuration a non-empty key is returned exactly for services that have one, never for an unkeyed name |
| AuthMiddleware.ServiceURLPresence | shared_utilities/auth_middleware.go:254-269 | in a loaded configuration a URL is non-empty exactly for the five services |
| AuthMiddleware.FindServiceByKey | shared_utilities/auth_middleware.go:161-167 | the map scan finds a name exactly when some name's key equals the header, and then a name with that key |
| AuthMiddleware.ServiceAuthMiddleware | shared_utilities/auth_middleware.go:151-182 | 401 "API key required" without a key, 401 "Invalid API key" for an unknown key; a pass binds `service_name` to a non-empty name whose key equals the header |
| AuthMiddleware.GetServiceName | shared_utilities/auth_middleware.go:234-237 | the string bound to `service_name`, with `true`, else `("", false)` |
| AuthMiddleware.GetAuthType | shared_utilities/auth_middleware.go:240-246 | the string bound to `auth_type`, else "unknown" |
| AuthMiddleware.ServiceNameReadBack | shared_utilities/auth_middleware.go:176-179 | the bound name reads back; the session record and `auth_type` are untouched |
| AuthMiddleware.LoadedNamesNonEmpty | shared_utilities/auth_middleware.go:26-40 | a loaded key map has no empty name, so a matching key always passes |
| AuthMiddleware.SessionValidationAsWritten | shared_utilities/auth_middleware.go:126-145 | a failed call is answered with the client's code; an invalid session with 401; a valid one stores user id and provider and hands on |
| AuthMiddleware.TransportErrorPanics | shared_utilities/auth_middleware.go:127-130 | with the code 0 of an unreachable service the rejection status is not writable |
| AuthMiddleware.DecodeErrorReportsSuccess | shared_utilities/auth_middleware.go:127-130 | an undecodable reply with status 200 is answered 200 |
| AuthMiddleware.FailureStatus | shared_utilities/auth_middleware.go:129 | the status used for a failed call is always a writable error status, and is the service's own when that already is one |
| AuthMiddleware.SessionValidation | shared_utilities/auth_middleware.go:126-145 | corrected: a rejection always has a writable 4xx/5xx status; pass iff the call succeeded and the session is valid, with the record stored |
| AuthMiddleware.SessionValidationAgrees | shared_utilities/auth_middleware.go:126-145 | the correction agrees with the code whenever the service answered with an error status or the call did not fail |
| AuthMiddleware.SessionReadBack | shared_utilities/auth_middleware.go:139-145 | the record passed on holds the service's user id and provider; `service_name` and `auth_type` are untouched |
| AuthMiddleware.RequireSessionUser | shared_utilities/auth_middleware.go:222-231 | the two errors for no record and an empty id; success exactly when `GetUserIDFromContext` succeeds, with its id |
| AuthMiddleware.MixedAuthMiddleware | shared_utilities/auth_middleware.go:185-219 | a key header is decided by the key table alone (`service_name` and `auth_type` "service" on a match, 401 otherwise); without one, pass iff the call succeeded with a valid session, storing it with `auth_type` "session" |
| AuthMiddleware.MixedAuthType | shared_utilities/auth_middleware.go:192-211 | the admitted request's `auth_type` reads "service" or "session", and the service name or session record reads back |
| AuthMiddleware.TierLayers | shared_utilities/auth_middleware.go:91-117 | every route group runs the router's security middleware first |
| AuthMiddleware.GroupMiddleware | shared_utilities/auth_middleware.go:91-117 | the group's own middleware: the protected group passes iff the session is valid, else answers the session rejection; the service group passes iff the key matches, else 401 with "API key required" or "Invalid API key"; a pass writes nothing |
| AuthMiddleware.Serve | shared_utilities/auth_middleware.go:91-117 | OPTIONS never reaches a route and is answered 200 with the security headers; public and mixed routes receive the request unchanged; protected routes are reached iff the session is valid, with it stored; service routes iff the key matches a configured one, with `service_name` bound; a reached route finds only the security headers written; a rejection adds the plain-text headers, its status and its message |

## Left out

- Logging (`log.Printf`), audit text and the in-memory `SecurityRoutes` struct are not modelled.
- Header names are used as written. `Header.Get`'s canonicalisation of names is not modelled.
- `http.Error` also deletes `Content-Length`. The model has no such entry, so the deletion is not modelled.
- `ToLower` and `TrimSpace` are ASCII-only. Unicode case mapping and Unicode white space are not modelled.
- `GoUrl.Parse` is a simplified `net/url` parser. It covers the scheme, authority, userinfo, port and host character set, and it refuses a userinfo, path or fragment with a malformed `%` escape, as `net/url` does. It does not decode escapes. It refuses a host holding `%`, which `net/url` would decode, so there it is stricter. It does not model IPv6 zone identifiers. An opaque URL (`mailto:x`) is accepted with an empty host and its opaque part is not checked. The query is not checked, as in `net/url`.
- gorilla/mux route matching is not modelled. `Serve` models only which middlewares a route group runs.
- The remote session check (`client_auth.ValidateSession`) is an input value `SessionCall`, not a call. The cookies it forwards and the service URL it uses are therefore not modelled.
- Go map iteration order is a nondeterministic choice. That is why the contracts say "some name whose key equals".
- The 500 "Provider validation failed" branch of `ProviderValidationMiddleware` is not modelled. `ValidateSessionProvider` returns only `*ProviderValidationError`, so the branch cannot be reached.
- core_utilities/context.go can hold a nil `*UserSessionData`. The model has no nil pointers, so that case is not modelled.
- core_config/config.go (`.env` loading) is not part of this model. `LoadSecurityConfig` takes the environment as a map.
- client_auth, client_identity, client_notify, core_datastore, core_models, core_logging, fly, core_helpers, shared_helpers/domain.go and shared_helpers/hostip.go are not part of this model. They are outbound HTTP, SQL, random identifiers and OS or DNS lookups.
- AuthMiddleware.Serve: the protected group runs the corrected `SessionValidation` (see Findings), not `SessionValidationAsWritten`, so a session rejection always has a writable status.
- AuthMiddleware.Serve: the mixed route group adds no middleware. `MixedAuthMiddleware` is modelled on its own, because a handler applies it per endpoint.

## Findings

| source | as written | input that shows it | evidently intended | confidence | as-written member | corrected member |
|---|---|---|---|---|---|---|
| shared_utilities/auth_middleware.go:127-130 | a failed session call is answered with `http.Error(w, …, code)` using the client's `code`, which is 0 when the auth service cannot be reached (client_auth/client.go:35-37) and the service's own status when its reply cannot be decoded (client_auth/client.go:39-42) | a transport error (`code` 0) makes `WriteHeader(0)` panic; an undecodable reply with status 200 answers the failed validation with 200 | answer a failure with an error status: the service's own 4xx/5xx, otherwise 500 | high for the panic, medium for the 200 reply; not executed | AuthMiddleware.SessionValidationAsWritten, AuthMiddleware.TransportErrorPanics, AuthMiddleware.DecodeErrorReportsSuccess | AuthMiddleware.SessionValidation, AuthMiddleware.FailureStatus |
