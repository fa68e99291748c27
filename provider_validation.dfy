/** The provider allow-list of shared_utilities/provider_validation.go: a
    session's identity provider (google, github, ...) must be one of the
    authentication methods of the app the request is for. The app is
    resolved through a chain of fallbacks: exact name, route "/" + name,
    comma-separated domain hints, and finally a case-insensitive substring
    search. */
module ProviderValidation {
  import opened Wrappers
  import opened GoStrings
  import opened GoContext
  import opened GoHttp
  import opened Apps
  import opened SessionContext

  datatype ProviderValidationError = ProviderValidationError(
    message: string,
    sessionProvider: string,
    allowedProviders: seq<string>,
    appName: string)

  // ---- Specification of the resolution chain ----

  /** The route a domain hint names: "/" followed by the trimmed hint's
      part before its first ".". */
  function HintRoute(hint: string): string {
    "/" + Before(TrimSpace(hint), '.')
  }

  /** A hint qualifies when, trimmed, it contains a "." and the route it
      names belongs to a named app. */
  predicate HintQualifies(table: seq<AppConfig>, hint: string)
    requires ValidTable(table)
  {
    Contains(TrimSpace(hint), ".") && GetAppByRoute(table, HintRoute(hint)).appName != ""
  }

  /** Hint `i` is the first one that qualifies: it does, and no hint before
      it does. */
  predicate FirstHint(table: seq<AppConfig>, hints: seq<string>, i: int)
    requires ValidTable(table)
  {
    && 0 <= i < |hints|
    && HintQualifies(table, hints[i])
    && forall h | h in hints[..i] :: !HintQualifies(table, h)
  }

  /** The first domain hint that names a route with a named app: each hint
      is trimmed, must contain a ".", and its part before the first "." is
      looked up as a route. */
  function DomainHint(table: seq<AppConfig>, hints: seq<string>): (r: Option<AppConfig>)
    requires ValidTable(table)
    ensures r.Some? ==> r.value in table && r.value.appName != ""
    ensures r.Some? ==>
      exists i :: FirstHint(table, hints, i) && r.value == GetAppByRoute(table, HintRoute(hints[i]))
    ensures r.None? <==> forall h | h in hints :: !HintQualifies(table, h)
    decreases |hints|
  {
    if |hints| == 0 then None
    else if HintQualifies(table, hints[0]) then
      assert FirstHint(table, hints, 0);
      Some(GetAppByRoute(table, HintRoute(hints[0])))
    else
      var r := DomainHint(table, hints[1..]);
      HintShift(table, hints);
      NoHintShift(table, hints);
      r
  }

  /** Dropping a first element that fails `f` moves the first index where
      `f` holds down by one. */
  lemma FirstShift<T>(s: seq<T>, f: T -> bool, k: int)
    requires |s| > 0 && !f(s[0])
    requires 0 <= k < |s| - 1 && f(s[1..][k]) && forall x | x in s[1..][..k] :: !f(x)
    ensures s[k + 1] == s[1..][k] && f(s[k + 1]) && forall x | x in s[..k + 1] :: !f(x)
  {
    assert s[..k + 1] == [s[0]] + s[1..][..k];
  }

  /** Dropping a first element that fails `f` keeps "no element satisfies
      `f`" as it was. */
  lemma NoneShift<T>(s: seq<T>, f: T -> bool)
    requires |s| > 0 && !f(s[0])
    ensures (forall x | x in s :: !f(x)) <==> (forall x | x in s[1..] :: !f(x))
  {
    assert s == [s[0]] + s[1..];
  }

  /** Skipping a hint that does not qualify leaves "no hint qualifies"
      unchanged. */
  lemma NoHintShift(table: seq<AppConfig>, hints: seq<string>)
    requires ValidTable(table) && |hints| > 0 && !HintQualifies(table, hints[0])
    ensures (forall h | h in hints :: !HintQualifies(table, h)) <==>
            (forall h | h in hints[1..] :: !HintQualifies(table, h))
  {
    NoneShift(hints, h => HintQualifies(table, h));
  }

  /** Skipping a hint that does not qualify shifts the first qualifying
      index by one. */
  lemma HintShift(table: seq<AppConfig>, hints: seq<string>)
    requires ValidTable(table) && |hints| > 0 && !HintQualifies(table, hints[0])
    ensures forall k :: FirstHint(table, hints[1..], k) ==> FirstHint(table, hints, k + 1) && hints[k + 1] == hints[1..][k]
  {
    forall k | FirstHint(table, hints[1..], k)
      ensures FirstHint(table, hints, k + 1) && hints[k + 1] == hints[1..][k]
    {
      FirstShift(hints, h => HintQualifies(table, h), k);
    }
  }

  lemma DomainHintStep(table: seq<AppConfig>, hints: seq<string>)
    requires ValidTable(table) && |hints| > 0
    ensures var domain := TrimSpace(hints[0]);
      DomainHint(table, hints) ==
        if Contains(domain, ".") && GetAppByRoute(table, "/" + Split(domain, '.')[0]).appName != ""
        then Some(GetAppByRoute(table, "/" + Split(domain, '.')[0]))
        else DomainHint(table, hints[1..])
  {
  }

  /** The flexible match: either lower-cased name contains the other, or the
      row's domain contains `name + "."`. */
  predicate FlexMatch(c: AppConfig, name: string) {
    || Contains(ToLower(c.appName), ToLower(name))
    || Contains(ToLower(name), ToLower(c.appName))
    || Contains(c.domain, name + ".")
  }

  /** Row `i` is the first that matches flexibly: it does, and no row
      before it does. */
  predicate FirstFlex(table: seq<AppConfig>, name: string, i: int) {
    && 0 <= i < |table|
    && FlexMatch(table[i], name)
    && forall c | c in table[..i] :: !FlexMatch(c, name)
  }

  /** The first row that matches flexibly. */
  function FlexFind(table: seq<AppConfig>, name: string): (r: Option<AppConfig>)
    ensures r.Some? ==> r.value in table && FlexMatch(r.value, name)
    ensures r.Some? ==> exists i :: FirstFlex(table, name, i) && r.value == table[i]
    ensures r.None? ==> forall c | c in table :: !FlexMatch(c, name)
    decreases |table|
  {
    if |table| == 0 then None
    else if FlexMatch(table[0], name) then
      assert FirstFlex(table, name, 0);
      Some(table[0])
    else
      var r := FlexFind(table[1..], name);
      FlexShift(table, name);
      r
  }

  /** Skipping a row that does not match shifts the first matching index
      by one. */
  lemma FlexShift(table: seq<AppConfig>, name: string)
    requires |table| > 0 && !FlexMatch(table[0], name)
    ensures forall k :: FirstFlex(table[1..], name, k) ==> FirstFlex(table, name, k + 1) && table[k + 1] == table[1..][k]
  {
    forall k | FirstFlex(table[1..], name, k)
      ensures FirstFlex(table, name, k + 1) && table[k + 1] == table[1..][k]
    {
      FirstShift(table, c => FlexMatch(c, name), k);
    }
  }

  /** The app a provider is checked against, or `None` ("App configuration
      not found"). Each step is taken only when the previous ones produced a
      row without a name. */
  function ResolveApp(table: seq<AppConfig>, appName: string, appDomains: string): (r: Option<AppConfig>)
    requires ValidTable(table)
    ensures r.Some? ==> r.value in table && r.value.appName != ""
    ensures GetAppByName(table, appName).appName != "" ==> r == Some(GetAppByName(table, appName))
  {
    var byName := GetAppByName(table, appName);
    if byName.appName != "" then Some(byName)
    else
      var byRoute := GetAppByRoute(table, "/" + appName);
      if byRoute.appName != "" then Some(byRoute)
      else
        var hint := if appDomains != "" then DomainHint(table, Split(appDomains, ',')) else None;
        if hint.Some? then hint
        else match FlexFind(table, appName)
          case Some(f) => if f.appName != "" then Some(f) else None
          case None => None
  }

  function MismatchMessage(provider: string, appName: string, c: AppConfig): string {
    "Provider '" + provider + "' is not allowed for app '" + appName + "' (" + c.displayName
      + "). Allowed providers: " + Join(c.authMethods, ", ")
  }

  /** What `ValidateSessionProvider` returns: `None` for a nil error. */
  function ProviderCheck(table: seq<AppConfig>, provider: string, appName: string, appDomains: string)
    : Option<ProviderValidationError>
    requires ValidTable(table)
  {
    if provider == "" then
      Some(ProviderValidationError("Session provider is empty", provider, [], appName))
    else match ResolveApp(table, appName, appDomains)
      case None =>
        Some(ProviderValidationError("App configuration not found for app: " + appName, provider, [], appName))
      case Some(c) =>
        if provider in c.authMethods then None
        else Some(ProviderValidationError(MismatchMessage(provider, appName, c), provider, c.authMethods, appName))
  }

  // ---- The Go functions ----

  /** The domain-hint loop of `ValidateSessionProvider`: `appConfig` starts
      as the unnamed row found so far and is reassigned for every hint that
      contains a "."; the loop stops at the first named row. */
  method ScanDomainHints(table: seq<AppConfig>, start: AppConfig, domains: seq<string>)
    returns (appConfig: AppConfig)
    requires ValidTable(table) && start.appName == ""
    ensures appConfig.appName != "" ==> DomainHint(table, domains) == Some(appConfig)
    ensures appConfig.appName == "" ==> DomainHint(table, domains).None?
  {
    appConfig := start;
    var i := 0;
    while i < |domains|
      invariant 0 <= i <= |domains|
      invariant appConfig.appName == ""
      invariant DomainHint(table, domains) == DomainHint(table, domains[i..])
    {
      DomainHintStep(table, domains[i..]);
      assert domains[i..][0] == domains[i] && domains[i..][1..] == domains[i + 1..];
      var domain := TrimSpace(domains[i]);
      if Contains(domain, ".") {
        var potentialAppName := Split(domain, '.')[0];
        appConfig := GetAppByRoute(table, "/" + potentialAppName);
        if appConfig.appName != "" {
          break;
        }
      }
      i := i + 1;
    }
  }

  /** The flexible-search loop: the first row whose lower-cased name
      contains, or is contained in, the lower-cased `appName`, or whose
      domain contains `appName + "."`. The row found may itself be unnamed. */
  method FlexibleSearch(table: seq<AppConfig>, start: AppConfig, appName: string)
    returns (appConfig: AppConfig)
    requires start.appName == ""
    ensures FlexFind(table, appName).Some? ==> appConfig == FlexFind(table, appName).value
    ensures FlexFind(table, appName).None? ==> appConfig == start
  {
    appConfig := start;
    var j := 0;
    while j < |table|
      invariant 0 <= j <= |table|
      invariant appConfig == start
      invariant FlexFind(table, appName) == FlexFind(table[j..], appName)
    {
      assert table[j..][0] == table[j] && table[j..][1..] == table[j + 1..];
      var config := table[j];
      if Contains(ToLower(config.appName), ToLower(appName))
         || Contains(ToLower(appName), ToLower(config.appName)) {
        appConfig := config;
        break;
      }
      if Contains(config.domain, appName + ".") {
        appConfig := config;
        break;
      }
      j := j + 1;
    }
  }

  /** The scan of the allowed providers: exact, case-sensitive comparison. */
  method ProviderListed(authMethods: seq<string>, sessionProvider: string) returns (found: bool)
    ensures found <==> sessionProvider in authMethods
  {
    var k := 0;
    while k < |authMethods|
      invariant 0 <= k <= |authMethods|
      invariant sessionProvider !in authMethods[..k]
    {
      if sessionProvider == authMethods[k] {
        return true;
      }
      assert authMethods[..k + 1] == authMethods[..k] + [authMethods[k]];
      k := k + 1;
    }
    assert authMethods[..k] == authMethods;
    return false;
  }

  /** `ValidateSessionProvider`: the resolved row is reassigned step by step
      through the fallbacks, then the provider is looked for among its
      authentication methods. */
  method ValidateSessionProvider(table: seq<AppConfig>, sessionProvider: string, appName: string, appDomains: string)
    returns (err: Option<ProviderValidationError>)
    requires ValidTable(table)
    ensures err == ProviderCheck(table, sessionProvider, appName, appDomains)
  {
    if sessionProvider == "" {
      return Some(ProviderValidationError("Session provider is empty", sessionProvider, [], appName));
    }
    var appConfig := GetAppByName(table, appName);
    if appConfig.appName == "" {
      appConfig := GetAppByRoute(table, "/" + appName);
      if appConfig.appName == "" && appDomains != "" {
        var domains := Split(appDomains, ',');
        appConfig := ScanDomainHints(table, appConfig, domains);
      }
      if appConfig.appName == "" {
        appConfig := FlexibleSearch(table, appConfig, appName);
      }
      if appConfig.appName == "" {
        return Some(ProviderValidationError("App configuration not found for app: " + appName,
                                            sessionProvider, [], appName));
      }
    }
    assert ResolveApp(table, appName, appDomains) == Some(appConfig);
    var allowed := ProviderListed(appConfig.authMethods, sessionProvider);
    if allowed {
      return None;
    }
    return Some(ProviderValidationError(MismatchMessage(sessionProvider, appName, appConfig),
                                        sessionProvider, appConfig.authMethods, appName));
  }

  /** What `GetAllowedProvidersForApp` returns: name, then route, then the
      flexible search; when all three fail, the methods of the unnamed row
      the route lookup produced. */
  function AllowedProvidersFor(table: seq<AppConfig>, appName: string): seq<string>
    requires ValidTable(table)
  {
    var byName := GetAppByName(table, appName);
    var c := if byName.appName != "" then byName else GetAppByRoute(table, "/" + appName);
    if c.appName != "" then c.authMethods
    else match FlexFind(table, appName)
      case Some(f) => f.authMethods
      case None => c.authMethods
  }

  /** `GetAllowedProvidersForApp`. */
  method GetAllowedProvidersForApp(table: seq<AppConfig>, appName: string) returns (providers: seq<string>)
    requires ValidTable(table)
    ensures providers == AllowedProvidersFor(table, appName)
  {
    var appConfig := GetAppByName(table, appName);
    if appConfig.appName == "" {
      appConfig := GetAppByRoute(table, "/" + appName);
    }
    if appConfig.appName == "" {
      appConfig := FlexibleSearch(table, appConfig, appName);
    }
    return appConfig.authMethods;
  }

  /** `IsProviderAllowed`: validation without domain hints succeeds. */
  predicate IsProviderAllowed(table: seq<AppConfig>, provider: string, appName: string)
    requires ValidTable(table)
  {
    ProviderCheck(table, provider, appName, "").None?
  }

  /** `ValidateProviderFromContext`: without session data the check fails
      with an empty provider; otherwise the stored provider is validated. */
  function ValidateProviderFromContext(table: seq<AppConfig>, r: Request, appName: string, appDomains: string)
    : (err: Option<ProviderValidationError>)
    requires ValidTable(table)
    ensures GetSessionDataFromContext(r.ctx).None? ==>
      err == Some(ProviderValidationError("Session data not found in context", "", [], appName))
    ensures GetSessionDataFromContext(r.ctx).Some? ==>
      err == ProviderCheck(table, GetSessionDataFromContext(r.ctx).value.provider, appName, appDomains)
  {
    match GetSessionDataFromContext(r.ctx)
    case None => Some(ProviderValidationError("Session data not found in context", "", [], appName))
    case Some(d) => ProviderCheck(table, d.provider, appName, appDomains)
  }

  /** `ProviderValidationMiddleware`: 500 without session data, 401 without
      a provider, 403 with the validation message when the provider is not
      allowed, and otherwise the unchanged request goes on. */
  method ProviderValidationMiddleware(table: seq<AppConfig>, appName: string, appDomains: string, r: Request)
    returns (o: Outcome)
    requires ValidTable(table)
    ensures GetSessionDataFromContext(r.ctx).None? ==>
      o == Reject(StatusInternalServerError, "Session data not found in context")
    ensures GetSessionDataFromContext(r.ctx).Some? && GetSessionDataFromContext(r.ctx).value.provider == "" ==>
      o == Reject(StatusUnauthorized, "Provider information not available")
    ensures GetSessionDataFromContext(r.ctx).Some? && GetSessionDataFromContext(r.ctx).value.provider != "" ==>
      var e := ProviderCheck(table, GetSessionDataFromContext(r.ctx).value.provider, appName, appDomains);
      (e.None? ==> o == Pass(r)) && (e.Some? ==> o == Reject(StatusForbidden, e.value.message))
    ensures o.Pass? ==> o.req == r
  {
    var sessionData := GetSessionDataFromContext(r.ctx);
    if sessionData.None? {
      return Reject(StatusInternalServerError, "Session data not found in context");
    }
    var provider := sessionData.value.provider;
    if provider == "" {
      return Reject(StatusUnauthorized, "Provider information not available");
    }
    var err := ValidateSessionProvider(table, provider, appName, appDomains);
    if err.Some? {
      return Reject(StatusForbidden, err.value.message);
    }
    return Pass(r);
  }

  // ---- Properties ----

  /** An empty provider always fails, with no allowed providers and the
      caller's app name. */
  lemma EmptyProviderFails(table: seq<AppConfig>, appName: string, appDomains: string)
    requires ValidTable(table)
    ensures ProviderCheck(table, "", appName, appDomains)
         == Some(ProviderValidationError("Session provider is empty", "", [], appName))
  {
  }

  /** Once a row is resolved, the provider passes exactly when it is one of
      the row's methods; a failure carries the provider, the row's methods
      and the caller's app name (not the resolved one). */
  lemma ResolvedCheck(table: seq<AppConfig>, provider: string, appName: string, appDomains: string)
    requires ValidTable(table) && provider != ""
    requires ResolveApp(table, appName, appDomains).Some?
    ensures var c := ResolveApp(table, appName, appDomains).value;
      var e := ProviderCheck(table, provider, appName, appDomains);
      && (e.None? <==> provider in c.authMethods)
      && (e.Some? ==> e.value.sessionProvider == provider && e.value.allowedProviders == c.authMethods
                      && e.value.appName == appName)
  {
  }

  /** When every row is named the name lookup never misses, so none of the
      fallbacks is ever consulted. */
  lemma NamedTableNeedsNoFallback(table: seq<AppConfig>, appName: string, appDomains: string)
    requires ValidTable(table)
    requires forall c | c in table :: c.appName != ""
    ensures ResolveApp(table, appName, appDomains) == Some(GetAppByName(table, appName))
  {
  }

  /** An allowed provider is non-empty and listed for the app. */
  lemma {:induction false} AllowedIsListed(table: seq<AppConfig>, provider: string, appName: string)
    requires ValidTable(table)
    requires IsProviderAllowed(table, provider, appName)
    ensures provider != "" && provider in AllowedProvidersFor(table, appName)
  {
    var r := ResolveApp(table, appName, "");
    var byName := GetAppByName(table, appName);
    var byRoute := GetAppByRoute(table, "/" + appName);
    if byName.appName == "" && byRoute.appName == "" {
      assert r == FlexFind(table, appName);
    }
  }

  /** Conversely, when every row is named, a non-empty listed provider is
      allowed; so `IsProviderAllowed` holds exactly for the non-empty
      members of `GetAllowedProvidersForApp`. */
  lemma ListedIsAllowed(table: seq<AppConfig>, provider: string, appName: string)
    requires ValidTable(table)
    requires forall c | c in table :: c.appName != ""
    ensures IsProviderAllowed(table, provider, appName) <==>
      provider != "" && provider in AllowedProvidersFor(table, appName)
  {
    NamedTableNeedsNoFallback(table, appName, "");
  }

  /** With the shipped table an app name that is not in the table is checked
      against the "organisation" row, whatever the domain hints say. */
  lemma UnknownAppUsesOrganisation(provider: string, appName: string, appDomains: string)
    requires NoMatch(AppConfigs, NameColumn, appName)
    ensures ValidTable(AppConfigs)
    ensures ProviderCheck(AppConfigs, provider, appName, appDomains).None? <==>
      provider != "" && provider in AppConfigs[2].authMethods
  {
    AppConfigsValid();
    NamedTableNeedsNoFallback(AppConfigs, appName, appDomains);
  }
}
