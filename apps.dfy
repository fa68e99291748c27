/** The application registry of core_config/apps.go: an immutable table of
    application rows, three total lookups with a fixed default row each, and
    the validation of a login redirect target (`next`).

    The lookups take the table as a parameter so that their search and
    fallback behaviour is stated for every table; `AppConfigs` is the table
    the package ships, and the lemmas at the end state what follows for it. */
module Apps {
  import opened Wrappers
  import opened GoStrings
  import opened GoUrl

  datatype AppConfig = AppConfig(
    route: string,
    appName: string,
    displayName: string,
    domain: string,
    authMethods: seq<string>,
    icon: string,
    illustration: string)

  /** `core_config.CoreConfig`'s two fields the middlewares read. */
  datatype CoreConfig = CoreConfig(appName: string, appDomains: string)

  /** The table as shipped (the commented-out rows are not part of it). */
  const AppConfigs: seq<AppConfig> := [
    AppConfig("/", "services", "Services", "files.hstles.com",
      ["google", "microsoftonline", "github", "email"], "assets/media/app/hstles.png", "assets/media/app/box.png"),
    AppConfig("/files", "files", "Files", "files.hstles.com",
      ["google", "microsoftonline", "github"], "assets/media/app/hstles.png", "assets/media/app/box-files.svg"),
    AppConfig("/organisation", "organisation", "Organisation", "organisation.hstles.com",
      ["google", "microsoftonline"], "assets/media/app/hstles.png", "/static/assets/media/app/hstles.png"),
    AppConfig("/support", "support", "Support", "support.hstles.com",
      ["google", "microsoftonline"], "assets/media/app/hstles.png", "/static/assets/media/app/hstles.png"),
    AppConfig("/account", "account", "My Account", "account.hstles.com",
      ["google", "microsoftonline", "github", "email"], "assets/media/app/hstles.png", "/static/assets/media/app/hstles.png")
  ]

  /** The lookups index the table at 2 and at 0, so it must have three rows. */
  predicate ValidTable(table: seq<AppConfig>) {
    |table| > 2
  }

  /** The column a lookup compares against. */
  datatype Column = RouteColumn | NameColumn | DomainColumn

  function ColumnOf(c: AppConfig, col: Column): string {
    match col
    case RouteColumn => c.route
    case NameColumn => c.appName
    case DomainColumn => c.domain
  }

  /** The index of the first row whose column equals `v`, or -1. */
  function FirstIndex(table: seq<AppConfig>, col: Column, v: string): (i: int)
    ensures -1 <= i < |table|
    ensures i >= 0 ==> ColumnOf(table[i], col) == v
    ensures i >= 0 ==> forall j :: 0 <= j < i ==> ColumnOf(table[j], col) != v
    ensures i == -1 ==> forall j :: 0 <= j < |table| ==> ColumnOf(table[j], col) != v
    decreases |table|
  {
    if |table| == 0 then -1
    else if ColumnOf(table[0], col) == v then 0
    else
      var k := FirstIndex(table[1..], col, v);
      assert forall j :: 1 <= j < |table| ==> table[j] == table[1..][j - 1];
      if k == -1 then -1 else k + 1
  }

  /** The first matching row, or the row at `default`. */
  function LookupOr(table: seq<AppConfig>, col: Column, v: string, default: nat): AppConfig
    requires default < |table|
  {
    var i := FirstIndex(table, col, v);
    if i >= 0 then table[i] else table[default]
  }

  /** `v` is the column of row `i` and of no earlier row. */
  predicate FirstMatchAt(table: seq<AppConfig>, col: Column, v: string, i: int) {
    0 <= i < |table| && ColumnOf(table[i], col) == v
    && forall j :: 0 <= j < i ==> ColumnOf(table[j], col) != v
  }

  /** No row has `v` in the column. */
  predicate NoMatch(table: seq<AppConfig>, col: Column, v: string) {
    forall j :: 0 <= j < |table| ==> ColumnOf(table[j], col) != v
  }

  /** `GetAppByRoute`: the first row with this route, else row 2. */
  function GetAppByRoute(table: seq<AppConfig>, route: string): (c: AppConfig)
    requires ValidTable(table)
    ensures c in table
    ensures (exists i :: FirstMatchAt(table, RouteColumn, route, i) && c == table[i])
         || (NoMatch(table, RouteColumn, route) && c == table[2])
  {
    var i := FirstIndex(table, RouteColumn, route);
    if i >= 0 then assert FirstMatchAt(table, RouteColumn, route, i); table[i] else table[2]
  }

  /** `GetAppByName`: the first row with this name, else row 2. */
  function GetAppByName(table: seq<AppConfig>, name: string): (c: AppConfig)
    requires ValidTable(table)
    ensures c in table
    ensures (exists i :: FirstMatchAt(table, NameColumn, name, i) && c == table[i])
         || (NoMatch(table, NameColumn, name) && c == table[2])
  {
    var i := FirstIndex(table, NameColumn, name);
    if i >= 0 then assert FirstMatchAt(table, NameColumn, name, i); table[i] else table[2]
  }

  /** `GetAppByDomain`: the first row with this domain, else row 0. */
  function GetAppByDomain(table: seq<AppConfig>, domain: string): (c: AppConfig)
    requires ValidTable(table)
    ensures c in table
    ensures (exists i :: FirstMatchAt(table, DomainColumn, domain, i) && c == table[i])
         || (NoMatch(table, DomainColumn, domain) && c == table[0])
  {
    var i := FirstIndex(table, DomainColumn, domain);
    if i >= 0 then assert FirstMatchAt(table, DomainColumn, domain, i); table[i] else table[0]
  }

  /** `AppConfig.GetURL`. */
  function GetURL(c: AppConfig): (u: string)
    ensures HasPrefix(u, "https://") && u[|"https://"|..] == c.domain
  {
    "https://" + c.domain
  }

  /** `IsValidURL`: the string parses as a request URI and its host (port
      included) ends with ".hstles.com". */
  predicate IsValidURL(s: string): (b: bool)
    ensures b ==> ParseRequestURI(s).Some? && ParseRequestURI(s).value.scheme != ""
    ensures b ==> AllHostChars(ParseRequestURI(s).value.host)
    ensures b ==> HasSuffix(ParseRequestURI(s).value.host, ".hstles.com")
  {
    match ParseRequestURI(s)
    case Some(u) => HasSuffix(u.host, ".hstles.com")
    case None => false
  }

  /** The result of `ValidateNextParameter`: the redirect target and the
      error, if any. */
  datatype NextResult = NextResult(url: string, err: Option<string>)

  /** `ValidateNextParameter`. */
  function ValidateNextParameter(table: seq<AppConfig>, next: string): (r: NextResult)
    requires ValidTable(table)
    ensures next == "" ==> r == NextResult(GetURL(GetAppByRoute(table, "/")), None)
    ensures next != "" && IsValidURL(next) ==> r == NextResult(next, None)
    ensures next != "" && !IsValidURL(next) && GetAppByName(table, next).appName != "" ==>
      r == NextResult(GetURL(GetAppByName(table, next)), None)
    ensures r.err.Some? ==> next != "" && !IsValidURL(next) && GetAppByName(table, next).appName == ""
    ensures r.err.Some? ==> r.url == GetURL(GetAppByRoute(table, "/"))
    ensures next != "" && !IsValidURL(next) && GetAppByName(table, next).appName == "" ==>
      r == NextResult(GetURL(GetAppByRoute(table, "/")),
                      Some("invalid 'next' parameter: " + next + ", using default route"))
  {
    if next == "" then
      NextResult(GetURL(GetAppByRoute(table, "/")), None)
    else if IsValidURL(next) then
      NextResult(next, None)
    else
      var c := GetAppByName(table, next);
      if c.appName != "" then NextResult(GetURL(c), None)
      else NextResult(GetURL(GetAppByRoute(table, "/")),
                      Some("invalid 'next' parameter: " + next + ", using default route"))
  }

  // ---- Consequences for any table ----

  /** The redirect target is either `next` itself, accepted because it lies
      under ".hstles.com", or the URL of a table row. */
  lemma NextTargetsTable(table: seq<AppConfig>, next: string)
    requires ValidTable(table)
    ensures var r := ValidateNextParameter(table, next);
      (r.url == next && IsValidURL(next)) || exists c :: c in table && r.url == GetURL(c)
  {
  }

  /** A host that is exactly the parent "hstles.com" is not under
      ".hstles.com". */
  lemma BareParentRejected(s: string, host: string)
    requires host == "hstles.com"
    requires ParseRequestURI(s).Some? && ParseRequestURI(s).value.host == host
    ensures !IsValidURL(s)
  {
  }

  /** A host carrying a port (a ':' followed by digits only, possibly none)
      never ends with ".hstles.com": `IsValidURL` looks at the host with
      its port, not at the hostname. */
  lemma PortRejected(s: string, host: string)
    requires ParseRequestURI(s).Some? && ParseRequestURI(s).value.host == host
    requires LastIndexOf(host, ':') >= 0 && AllDigits(host[LastIndexOf(host, ':') + 1..])
    ensures !IsValidURL(s)
  {
    PortHostNotUnderParent(host);
  }

  lemma PortHostNotUnderParent(h: string)
    requires LastIndexOf(h, ':') >= 0 && AllDigits(h[LastIndexOf(h, ':') + 1..])
    ensures !HasSuffix(h, ".hstles.com")
  {
    var i := LastIndexOf(h, ':');
    var t := h[i + 1..];
    var last := h[|h| - 1];
    if i < |h| - 1 {
      assert last == t[|t| - 1];
      assert last in t;
    }
    assert last == ':' || IsDigit(last);
  }

  /** An absolute URL with a host under ".hstles.com" and no port is accepted
      and returned as the redirect target unchanged. */
  lemma UnderParentChars(sub: string, parent: string)
    requires AllHostChars(sub) && ':' !in sub && '@' !in sub && '/' !in sub && '?' !in sub
    requires AllHostChars(parent) && ':' !in parent && '@' !in parent && '/' !in parent && '?' !in parent
    ensures var host := sub + parent;
      AllHostChars(host) && ':' !in host && '@' !in host && '/' !in host && '?' !in host
    ensures HasSuffix(sub + parent, parent)
  {
    var host := sub + parent;
    assert host[|sub|..] == parent;
    forall c | c in host ensures c in sub || c in parent {
      var k :| 0 <= k < |host| && host[k] == c;
      if k >= |sub| {
        assert parent[k - |sub|] == c;
      }
    }
  }

  lemma ParentSuffixChars(parent: string)
    requires parent == ".hstles.com"
    ensures AllHostChars(parent) && ':' !in parent && '@' !in parent && '/' !in parent && '?' !in parent
  {
  }

  lemma ValidNextKept(table: seq<AppConfig>, scheme: string, sub: string, path: string)
    requires ValidTable(table)
    requires |scheme| > 0 && IsAlpha(scheme[0]) && IsLower(scheme)
    requires forall c | c in scheme :: IsSchemeChar(c)
    requires AllHostChars(sub) && ':' !in sub && '@' !in sub && '/' !in sub && '?' !in sub
    requires |sub| == 0 || sub[0] != '['
    requires (path == "" || path[0] == '/') && '?' !in path && NoCtl(path)
    ensures var next := scheme + "://" + (sub + ".hstles.com") + path;
      IsValidURL(next) <==> ValidEscapes(path)
    ensures var next := scheme + "://" + (sub + ".hstles.com") + path;
      ValidEscapes(path) ==> ValidateNextParameter(table, next) == NextResult(next, None)
  {
    var parent := ".hstles.com";
    var host := sub + parent;
    ParentSuffixChars(parent);
    UnderParentChars(sub, parent);
    assert |host| == 0 || host[0] != '[' by {
      if |sub| == 0 { assert host[0] == parent[0]; } else { assert host[0] == sub[0]; }
    }
    PlainHostParses(host);
    ParseAbsolute(scheme, host, path);
    var next := scheme + "://" + host + path;
    assert ValidEscapes(path) ==> ParseRequestURI(next) == Some(Url(scheme, host));
  }

  /** A `next` whose path holds a malformed escape ("%zz") is not a valid
      URL, since `url.ParseRequestURI` refuses it. */
  lemma BadEscapeInvalid(sub: string, path: string)
    requires sub == "a" && path == "/%zz"
    ensures !IsValidURL("https" + "://" + (sub + ".hstles.com") + path)
  {
    assert |sub| == 1 && sub[0] == 'a';
    assert |path| == 4 && path[0] == '/' && path[1] == '%' && path[2] == 'z' && path[3] == 'z';
    assert !ValidEscapes(path) by { assert !IsHex(path[2]); }
    ValidNextKept(AppConfigs, "https", sub, path);
  }

  /** A `next` whose userinfo holds a malformed escape ("%zz") is not a
      valid URL either, since `url.ParseRequestURI` refuses its authority;
      the redirect then falls back to the "organisation" row. */
  lemma BadUserinfoInvalid(ui: string, host: string, path: string)
    requires ui == "%zz" && host == "a.hstles.com" && path == "/"
    ensures !IsValidURL("https" + "://" + ui + "@" + host + path)
    ensures ValidateNextParameter(AppConfigs, "https" + "://" + ui + "@" + host + path)
      == NextResult(GetURL(AppConfigs[2]), None)
  {
    BadUserinfoParts(ui, host, path);
    UserinfoEscapeRefused("https", ui, host, path);
    var next := "https" + "://" + ui + "@" + host + path;
    LongNameUnknown(next);
    ForeignNextIsOrganisation(next);
  }

  lemma BadUserinfoParts(ui: string, host: string, path: string)
    requires ui == "%zz" && host == "a.hstles.com" && path == "/"
    ensures '/' !in ui && '?' !in ui && !ValidEscapes(ui)
    ensures '@' !in host && '/' !in host && '?' !in host
    ensures (path == "" || path[0] == '/') && '?' !in path
  {
    assert |ui| == 3 && ui[0] == '%' && ui[1] == 'z' && ui[2] == 'z';
    assert !IsHex(ui[1]);
    assert |host| == 12 && forall i :: 0 <= i < 12 ==> host[i] == "a.hstles.com"[i];
    assert |path| == 1 && path[0] == '/';
  }

  /** No app name of the shipped table is longer than 20 characters. */
  lemma LongNameUnknown(v: string)
    requires |v| > 20
    ensures v != "" && NoMatch(AppConfigs, NameColumn, v)
  {
  }

  // ---- Consequences for the shipped table ----

  lemma AppConfigsValid()
    ensures ValidTable(AppConfigs)
    ensures forall c | c in AppConfigs :: c.appName != ""
  {
  }

  /** Every lookup on the shipped table yields a row with a name. */
  lemma LookupsNamed(v: string)
    ensures GetAppByRoute(AppConfigs, v).appName != ""
    ensures GetAppByName(AppConfigs, v).appName != ""
    ensures GetAppByDomain(AppConfigs, v).appName != ""
  {
    AppConfigsValid();
  }

  /** The route and name lookups share the "organisation" default; the domain
      lookup defaults to "services". */
  lemma Defaults(v: string)
    ensures NoMatch(AppConfigs, RouteColumn, v) ==> GetAppByRoute(AppConfigs, v).appName == "organisation"
    ensures NoMatch(AppConfigs, NameColumn, v) ==> GetAppByName(AppConfigs, v).appName == "organisation"
    ensures NoMatch(AppConfigs, DomainColumn, v) ==> GetAppByDomain(AppConfigs, v).appName == "services"
  {
  }

  /** "files.hstles.com" is the domain of rows 0 and 1; the first wins. */
  lemma FilesDomainIsServices()
    ensures GetAppByDomain(AppConfigs, "files.hstles.com").appName == "services"
  {
    assert FirstIndex(AppConfigs, DomainColumn, "files.hstles.com") == 0;
  }

  /** The domains behind the root row and the default row of the name
      lookup, whose `GetURL` the redirect falls back to. */
  lemma ShippedDomains()
    ensures AppConfigs[0].appName == "services" && AppConfigs[0].domain == "files.hstles.com"
    ensures AppConfigs[2].appName == "organisation" && AppConfigs[2].domain == "organisation.hstles.com"
    ensures AppConfigs[2].authMethods == ["google", "microsoftonline"]
  {
  }

  /** An empty `next` redirects to the root app's URL without an error. */
  lemma EmptyNext()
    ensures ValidateNextParameter(AppConfigs, "") == NextResult(GetURL(AppConfigs[0]), None)
  {
    assert FirstIndex(AppConfigs, RouteColumn, "/") == 0;
  }

  /** With the shipped table no `next` yields an error. */
  lemma NextNeverErrs(next: string)
    ensures ValidateNextParameter(AppConfigs, next).err.None?
  {
    LookupsNamed(next);
  }

  /** A non-empty `next` that is neither a valid URL nor an app name (a
      foreign URL, say) falls back to the default row of the name lookup,
      "organisation", not to the root app. */
  lemma ForeignNextIsOrganisation(next: string)
    requires next != "" && !IsValidURL(next) && NoMatch(AppConfigs, NameColumn, next)
    ensures ValidateNextParameter(AppConfigs, next) == NextResult(GetURL(AppConfigs[2]), None)
  {
    assert GetAppByName(AppConfigs, next) == AppConfigs[2];
  }
}
