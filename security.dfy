/** The CORS and Content-Security-Policy middleware of
    shared_utilities/security.go. This is the response side of the CORS
    protocol (section 3.2 of the WHATWG Fetch Standard): an https `Origin`
    whose host is the parent domain or one of its subdomains is echoed back
    with credentials allowed, every response carries a CSP scoped to the parent domain, and a preflight
    (`OPTIONS`) is answered with 200 without reaching the handler. */
module Security {
  import opened Wrappers
  import opened GoStrings
  import opened GoUrl
  import opened GoContext
  import opened GoHttp
  import opened SessionContext
  import opened Apps
  import opened ProviderValidation

  /** `fmt.Sprintf` of a template whose verbs are all `%s` and whose
      arguments are all `v`: the pieces between the verbs, joined by `v`. */
  function Fill(pieces: seq<string>, v: string): string
    decreases |pieces|
  {
    if |pieces| == 0 then ""
    else if |pieces| == 1 then pieces[0]
    else pieces[0] + v + Fill(pieces[1..], v)
  }

  /** The CSP template, cut at its three `%s` verbs. */
  const CspTemplate: seq<string> := [
    "default-src 'self' https://*.",
    "; img-src 'self' data:; font-src 'self' https://cdnjs.cloudflare.com https://fonts.gstatic.com; "
      + "script-src 'self' https://*.",
    " https://unpkg.com https://fonts.googleapis.com https://cdnjs.cloudflare.com 'unsafe-inline' 'unsafe-eval'; "
      + "style-src 'self' https://*.",
    " https://fonts.googleapis.com https://cdnjs.cloudflare.com 'unsafe-inline';"
  ]

  /** The policy, with the parent domain in the default, script and style
      sources. */
  function Csp(parentDomain: string): string {
    Fill(CspTemplate, parentDomain)
  }

  /** An origin is accepted when it is non-empty, parses, has scheme
      "https", and its hostname (port removed) is the parent domain or ends
      with "." followed by it. */
  predicate OriginAllowed(parentDomain: string, origin: string) {
    && origin != ""
    && UrlParse(origin).Some?
    && UrlParse(origin).value.scheme == "https"
    && var host := Hostname(UrlParse(origin).value);
       host == parentDomain || HasSuffix(host, "." + parentDomain)
  }

  const AllowOrigin := "Access-Control-Allow-Origin"
  const AllowCredentials := "Access-Control-Allow-Credentials"
  const AllowMethods := "Access-Control-Allow-Methods"
  const AllowHeaders := "Access-Control-Allow-Headers"
  const ContentSecurityPolicy := "Content-Security-Policy"

  /** The header map after the middleware: the four CORS entries when the
      origin is accepted, and the CSP in every case. */
  function SecurityHeaders(h: map<string, string>, parentDomain: string, origin: string): map<string, string> {
    var cors :=
      if OriginAllowed(parentDomain, origin) then
        h[AllowOrigin := origin][AllowCredentials := "true"]
         [AllowMethods := "GET, POST, DELETE, OPTIONS"][AllowHeaders := "Content-Type"]
      else h;
    cors[ContentSecurityPolicy := Csp(parentDomain)]
  }

  /** `SecurityMiddleware(parentDomain)` applied to one request. */
  method SecurityMiddleware(parentDomain: string, w: ResponseWriter, r: Request) returns (next: Option<Request>)
    modifies w
    ensures w.header == SecurityHeaders(old(w.header), parentDomain, HeaderGet(r.header, "Origin"))
    ensures w.body == old(w.body)
    ensures r.verb == "OPTIONS" ==> next.None? && w.wroteHeader
    ensures r.verb == "OPTIONS" ==> w.status == if old(w.wroteHeader) then old(w.status) else StatusOK
    ensures r.verb != "OPTIONS" ==> next == Some(r)
    ensures r.verb != "OPTIONS" ==> w.wroteHeader == old(w.wroteHeader) && w.status == old(w.status)
  {
    var origin := HeaderGet(r.header, "Origin");
    if origin != "" {
      var u := UrlParse(origin);
      if u.Some? && u.value.scheme == "https" {
        var host := Hostname(u.value);
        if host == parentDomain || HasSuffix(host, "." + parentDomain) {
          w.Set(AllowOrigin, origin);
          w.Set(AllowCredentials, "true");
          w.Set(AllowMethods, "GET, POST, DELETE, OPTIONS");
          w.Set(AllowHeaders, "Content-Type");
        }
      }
    }
    var csp := Csp(parentDomain);
    w.Set(ContentSecurityPolicy, csp);
    if r.verb == "OPTIONS" {
      w.WriteHeader(StatusOK);
      return None;
    }
    return Some(r);
  }

  /** `SecurityWithProviderValidationMiddleware`: the security middleware
      first; then, when the context holds session data with a provider, a
      failed provider check answers 403 "Access denied: <message>". */
  method SecurityWithProviderValidationMiddleware(table: seq<AppConfig>, parentDomain: string, coreCfg: CoreConfig,
                                                  w: ResponseWriter, r: Request)
    returns (next: Option<Request>)
    requires ValidTable(table)
    modifies w
    ensures r.verb == "OPTIONS" ==>
      && next.None? && w.header == SecurityHeaders(old(w.header), parentDomain, HeaderGet(r.header, "Origin"))
      && w.wroteHeader && w.status == (if old(w.wroteHeader) then old(w.status) else StatusOK)
      && w.body == old(w.body)
    ensures r.verb != "OPTIONS" ==>
      var d := GetSessionDataFromContext(r.ctx);
      var denied := d.Some? && d.value.provider != ""
                    && ProviderCheck(table, d.value.provider, coreCfg.appName, coreCfg.appDomains).Some?;
      && (denied ==> next.None? && w.wroteHeader
                     && w.header == PlainText(SecurityHeaders(old(w.header), parentDomain, HeaderGet(r.header, "Origin")))
                     && w.status == (if old(w.wroteHeader) then old(w.status) else StatusForbidden)
                     && w.body == old(w.body) + "Access denied: "
                          + ProviderCheck(table, d.value.provider, coreCfg.appName, coreCfg.appDomains).value.message + "\n")
      && (!denied ==> next == Some(r) && w.header == SecurityHeaders(old(w.header), parentDomain, HeaderGet(r.header, "Origin"))
                      && w.wroteHeader == old(w.wroteHeader) && w.status == old(w.status) && w.body == old(w.body))
  {
    next := SecurityMiddleware(parentDomain, w, r);
    if next.None? {
      return;
    }
    var sessionData := GetSessionDataFromContext(r.ctx);
    if sessionData.Some? && sessionData.value.provider != "" {
      var err := ValidateSessionProvider(table, sessionData.value.provider, coreCfg.appName, coreCfg.appDomains);
      if err.Some? {
        w.Error("Access denied: " + err.value.message, StatusForbidden);
        return None;
      }
    }
  }

  // ---- Properties ----

  /** The CSP is always set, to the policy of the parent domain, whatever
      the origin. */
  lemma CspAlwaysSet(h: map<string, string>, parentDomain: string, origin: string)
    ensures SecurityHeaders(h, parentDomain, origin)[ContentSecurityPolicy] == Csp(parentDomain)
  {
  }

  /** An accepted origin is echoed verbatim with the three fixed CORS
      entries; a refused one leaves every CORS entry as it was. */
  lemma CorsEntries(h: map<string, string>, parentDomain: string, origin: string)
    ensures var h2 := SecurityHeaders(h, parentDomain, origin);
      OriginAllowed(parentDomain, origin) ==>
        && h2[AllowOrigin] == origin && h2[AllowCredentials] == "true"
        && h2[AllowMethods] == "GET, POST, DELETE, OPTIONS" && h2[AllowHeaders] == "Content-Type"
    ensures var h2 := SecurityHeaders(h, parentDomain, origin);
      !OriginAllowed(parentDomain, origin) ==>
        forall k | k in {AllowOrigin, AllowCredentials, AllowMethods, AllowHeaders} ::
          (k in h2 <==> k in h) && (k in h ==> h2[k] == h[k])
  {
  }

  /** A host that merely ends with the parent domain, without the dot in
      front of it ("evilhstles.com" for "hstles.com"), is refused. */
  lemma {:induction false} LookalikeRefused(parentDomain: string, origin: string, prefix: string)
    requires UrlParse(origin).Some?
    requires Hostname(UrlParse(origin).value) == prefix + parentDomain
    requires prefix != "" && prefix[|prefix| - 1] != '.'
    ensures !OriginAllowed(parentDomain, origin)
  {
    var host := prefix + parentDomain;
    var dotted := "." + parentDomain;
    assert host[|prefix| - 1] == prefix[|prefix| - 1];
  }

  /** The accepted hosts are exactly the parent and its subdomains. */
  lemma AcceptedHost(parentDomain: string, origin: string)
    requires OriginAllowed(parentDomain, origin)
    ensures UrlParse(origin).Some? && UrlParse(origin).value.scheme == "https"
    ensures var host := Hostname(UrlParse(origin).value);
      host == parentDomain
      || (|host| > |parentDomain| && host[|host| - |parentDomain| - 1] == '.'
          && host[|host| - |parentDomain|..] == parentDomain)
  {
    var host := Hostname(UrlParse(origin).value);
    if host != parentDomain {
      var dotted := "." + parentDomain;
      assert host[|host| - |dotted|..] == dotted;
      assert host[|host| - |parentDomain| - 1] == host[|host| - |dotted|..][0];
      assert host[|host| - |parentDomain|..] == host[|host| - |dotted|..][1..];
    }
  }

  lemma HttpsScheme(scheme: string)
    requires scheme == "https"
    ensures |scheme| > 0 && IsAlpha(scheme[0]) && IsLower(scheme)
    ensures forall c | c in scheme :: IsSchemeChar(c)
  {
  }

  /** An https origin for a subdomain of the parent is accepted exactly when
      its path's percent-escapes are well formed. */
  lemma SubdomainAccepted(scheme: string, sub: string, parentDomain: string, path: string)
    requires scheme == "https"
    requires AllHostChars(sub + "." + parentDomain)
    requires ':' !in sub + "." + parentDomain && '@' !in sub + "." + parentDomain
    requires '/' !in sub + "." + parentDomain && '?' !in sub + "." + parentDomain
    requires |sub| == 0 || sub[0] != '['
    requires (path == "" || path[0] == '/') && '?' !in path && '#' !in path && NoCtl(path)
    ensures OriginAllowed(parentDomain, scheme + "://" + (sub + "." + parentDomain) + path) <==> ValidEscapes(path)
  {
    var dotted := "." + parentDomain;
    var host := sub + dotted;
    assert host == sub + "." + parentDomain;
    HttpsScheme(scheme);
    assert |host| == 0 || host[0] != '[' by {
      if |sub| == 0 { assert host[0] == dotted[0]; } else { assert host[0] == sub[0]; }
    }
    PlainHostParses(host);
    UrlParseAbsolute(scheme, host, path);
    HostnameOfPlainHost(Url(scheme, host));
    assert host[|host| - |dotted|..] == dotted;
  }

  /** The same origin with a numeric port: `Hostname` drops the port, so
      the origin is accepted exactly when its path's escapes are well formed. */
  lemma PortOriginAccepted(scheme: string, sub: string, parentDomain: string, port: string, path: string)
    requires scheme == "https"
    requires AllHostChars(sub + "." + parentDomain)
    requires ':' !in sub + "." + parentDomain && '@' !in sub + "." + parentDomain
    requires '/' !in sub + "." + parentDomain && '?' !in sub + "." + parentDomain
    requires |sub| == 0 || sub[0] != '['
    requires AllDigits(port)
    requires (path == "" || path[0] == '/') && '?' !in path && '#' !in path && NoCtl(path)
    ensures OriginAllowed(parentDomain, scheme + "://" + (sub + "." + parentDomain + ":" + port) + path)
      <==> ValidEscapes(path)
  {
    var dotted := "." + parentDomain;
    var name := sub + dotted;
    assert name == sub + "." + parentDomain;
    var host := name + ":" + port;
    HttpsScheme(scheme);
    assert |name| == 0 || name[0] != '[' by {
      if |sub| == 0 { assert name[0] == dotted[0]; } else { assert name[0] == sub[0]; }
    }
    PortHostParses(name, port);
    UrlParseAbsolute(scheme, host, path);
    HostnameStripsPort(Url(scheme, host), name, port);
    assert name[|name| - |dotted|..] == dotted;
  }

  /** "a" under "hstles.com" is a plain host name. */
  lemma ShippedSubdomain(sub: string, parentDomain: string)
    requires sub == "a" && parentDomain == "hstles.com"
    ensures AllHostChars(sub + "." + parentDomain)
    ensures ':' !in sub + "." + parentDomain && '@' !in sub + "." + parentDomain
    ensures '/' !in sub + "." + parentDomain && '?' !in sub + "." + parentDomain
    ensures |sub| == 0 || sub[0] != '['
  {
    var host := sub + "." + parentDomain;
    assert |sub| == 1 && sub[0] == 'a';
    assert host == "a.hstles.com";
    forall c | c in host ensures IsHostChar(c) && c != ':' && c != '@' && c != '/' && c != '?' {
      assert c in "a.hstles.com";
    }
  }

  /** An origin whose userinfo holds a malformed escape is refused, since
      `url.Parse` fails on its authority. */
  lemma BadUserinfoRefused(ui: string, host: string, parentDomain: string)
    requires ui == "%zz" && host == "a.hstles.com" && parentDomain == "hstles.com"
    ensures !OriginAllowed(parentDomain, "https" + "://" + ui + "@" + host + "")
  {
    BadUserinfoParts(ui, host, "/");
    assert '#' !in ui + host + "" by {
      assert ui + host + "" == "%zza.hstles.com";
    }
    UserinfoEscapeRefused("https", ui, host, "");
  }

  /** An origin whose path ends in a lone '%' is refused, since
      `url.Parse` fails on it. */
  lemma BadEscapeRefused(sub: string, parentDomain: string, path: string)
    requires sub == "a" && parentDomain == "hstles.com" && path == "/%"
    ensures !OriginAllowed(parentDomain, "https" + "://" + (sub + "." + parentDomain) + path)
  {
    ShippedSubdomain(sub, parentDomain);
    assert |path| == 2 && path[0] == '/' && path[1] == '%';
    SubdomainAccepted("https", sub, parentDomain, path);
  }

  /** A longer argument never gives a shorter filled template. */
  lemma {:induction false} FillLengthMonotone(pieces: seq<string>, v1: string, v2: string)
    requires |v1| <= |v2|
    ensures |Fill(pieces, v1)| <= |Fill(pieces, v2)|
    decreases |pieces|
  {
    if |pieces| > 1 {
      FillLengthMonotone(pieces[1..], v1, v2);
    }
  }

  /** A filled template with at least one verb determines its argument. */
  lemma FillDeterminesValue(pieces: seq<string>, v1: string, v2: string)
    requires |pieces| >= 2
    requires Fill(pieces, v1) == Fill(pieces, v2)
    ensures v1 == v2
  {
    var a := pieces[0];
    var s1 := Fill(pieces, v1);
    assert s1 == a + v1 + Fill(pieces[1..], v1);
    assert s1 == a + v2 + Fill(pieces[1..], v2);
    if |v1| < |v2| {
      FillLengthMonotone(pieces[1..], v1, v2);
    } else if |v2| < |v1| {
      FillLengthMonotone(pieces[1..], v2, v1);
    } else {
      assert s1[|a|..|a| + |v1|] == v1;
      assert s1[|a|..|a| + |v2|] == v2;
    }
  }

  /** Policies of different parents differ: the CSP is scoped to the parent
      it was built for, which appears once per `%s` verb, three times. */
  lemma CspDeterminesParent(p1: string, p2: string)
    requires Csp(p1) == Csp(p2)
    ensures p1 == p2
  {
    assert |CspTemplate| - 1 == 3;
    FillDeterminesValue(CspTemplate, p1, p2);
  }
}
