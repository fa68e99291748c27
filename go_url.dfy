/** A simplified model of Go's `net/url` parser: `url.Parse`,
    `url.ParseRequestURI` and `(*url.URL).Hostname`, keeping only the scheme
    and the host (with port) of the result, the two fields the authorisation
    layer reads. It follows the Go parser's branches for control characters,
    the scheme, the query, opaque URLs, the authority, the userinfo, the port
    and the characters allowed in a host. The userinfo, the path and the
    fragment must hold only well-formed percent-escapes, as Go's `unescape`
    demands; the escapes are not decoded, and a host containing '%' is
    refused here. */
module GoUrl {
  import opened Wrappers
  import opened GoStrings

  /** Scheme (lower-cased, as `url.URL.Scheme`) and host with its optional
      port (as `url.URL.Host`). */
  datatype Url = Url(scheme: string, host: string)

  predicate IsAlpha(c: char) { 'a' <= c <= 'z' || 'A' <= c <= 'Z' }

  predicate IsDigit(c: char) { '0' <= c <= '9' }

  predicate IsSchemeChar(c: char) { IsAlpha(c) || IsDigit(c) || c == '+' || c == '-' || c == '.' }

  /** An ASCII control byte, which makes Go's parser fail. */
  predicate IsCtl(c: char) { c as int < 0x20 || c as int == 0x7f }

  /** A character allowed unescaped in a host: letters, digits, the
      sub-delimiters and the few extra characters Go accepts, and every
      non-ASCII character. */
  predicate IsHostChar(c: char) {
    IsAlpha(c) || IsDigit(c) || c in "!$&'()*+,;=:[]<>\"-_.~" || c as int >= 0x80
  }

  /** A character allowed in the userinfo part of an authority. */
  predicate IsUserinfoChar(c: char) {
    IsAlpha(c) || IsDigit(c) || c in "-._:~!$&'()*+,;=%@"
  }

  predicate IsHex(c: char) { IsDigit(c) || 'a' <= c <= 'f' || 'A' <= c <= 'F' }

  /** Every '%' of `s` starts an escape "%XY" with two hex digits; otherwise
      Go's `unescape` (for a path or a fragment) fails. */
  predicate ValidEscapes(s: string) {
    forall i :: 0 <= i < |s| && s[i] == '%' ==> i + 2 < |s| && IsHex(s[i + 1]) && IsHex(s[i + 2])
  }

  /** Well-formed escapes survive concatenation. */
  lemma EscapesConcat(a: string, b: string)
    requires ValidEscapes(a) && ValidEscapes(b)
    ensures ValidEscapes(a + b)
  {
    forall i | 0 <= i < |a + b| && (a + b)[i] == '%'
      ensures i + 2 < |a + b| && IsHex((a + b)[i + 1]) && IsHex((a + b)[i + 2])
    {
      if i < |a| {
        assert a[i] == '%';
      } else {
        assert b[i - |a|] == '%';
      }
    }
  }

  /** No character of `s` is a control byte. */
  predicate NoCtl(s: string) { forall c | c in s :: !IsCtl(c) }

  /** Every character of `s` may appear in a host. */
  predicate AllHostChars(s: string) { forall c | c in s :: IsHostChar(c) }

  /** Every character of `s` may appear in userinfo. */
  predicate AllUserinfoChars(s: string) { forall c | c in s :: IsUserinfoChar(c) }

  /** `s` consists of decimal digits only. */
  predicate AllDigits(s: string) { forall c | c in s :: IsDigit(c) }

  /** Length of the longest prefix of `s` made of scheme characters. */
  function SchemeRun(s: string): (n: nat)
    ensures n <= |s|
    ensures forall i :: 0 <= i < n ==> IsSchemeChar(s[i])
    ensures n < |s| ==> !IsSchemeChar(s[n])
    decreases |s|
  {
    if |s| == 0 || !IsSchemeChar(s[0]) then 0 else 1 + SchemeRun(s[1..])
  }

  datatype SchemeSplit = SchemeSplit(scheme: string, rest: string)

  /** Go's `getScheme`: a scheme is a letter followed by scheme characters
      and a ':'; anything else means "no scheme", except a leading ':',
      which is the error "missing protocol scheme" (None). */
  function GetScheme(raw: string): (r: Option<SchemeSplit>)
    ensures r.None? <==> |raw| > 0 && raw[0] == ':'
    ensures r.Some? && r.value.scheme == "" ==> r.value.rest == raw
    ensures r.Some? && r.value.scheme != "" ==>
      raw == r.value.scheme + ":" + r.value.rest && IsAlpha(r.value.scheme[0])
      && forall i :: 0 <= i < |r.value.scheme| ==> IsSchemeChar(r.value.scheme[i])
  {
    if |raw| == 0 then Some(SchemeSplit("", raw))
    else if raw[0] == ':' then None
    else if !IsAlpha(raw[0]) then Some(SchemeSplit("", raw))
    else
      var n := SchemeRun(raw);
      if n < |raw| && raw[n] == ':' then
        assert raw == raw[..n] + ":" + raw[n + 1..];
        Some(SchemeSplit(raw[..n], raw[n + 1..]))
      else Some(SchemeSplit("", raw))
  }

  /** `validOptionalPort`: empty, or ':' followed only by digits. */
  predicate ValidOptionalPort(p: string) {
    p == "" || (p[0] == ':' && AllDigits(p[1..]))
  }

  /** Go's `parseHost`, without percent-decoding: the port after the last
      ':' (or after the closing ']' of an IPv6 literal) must be numeric and
      every character must be allowed in a host. */
  function ParseHost(host: string): (r: Option<string>)
    ensures r.Some? ==> r.value == host && AllHostChars(host)
  {
    if HasPrefix(host, "[") then
      var i := LastIndexOf(host, ']');
      if i < 0 || !ValidOptionalPort(host[i + 1..]) then None
      else if AllHostChars(host) then Some(host) else None
    else
      var i := LastIndexOf(host, ':');
      if i >= 0 && !ValidOptionalPort(host[i..]) then None
      else if AllHostChars(host) then Some(host) else None
  }

  /** Go's `parseAuthority`: the host is what follows the last '@'; what
      precedes it is userinfo, which must use userinfo characters only and
      whose escapes `unescape` checks. (Go unescapes the user name and the
      password separately; an escape never holds ':', so checking the whole
      userinfo is the same.) */
  function ParseAuthority(authority: string): (r: Option<string>)
    ensures r.Some? ==> AllHostChars(r.value) && HasSuffix(authority, r.value)
    ensures r.Some? ==> ValidEscapes(authority)
  {
    var i := LastIndexOf(authority, '@');
    if i < 0 then
      var r := ParseHost(authority);
      if r.Some? then HostEscapes(authority); r else r
    else
      match ParseHost(authority[i + 1..])
      case None => None
      case Some(h) =>
        if AllUserinfoChars(authority[..i]) && ValidEscapes(authority[..i]) then
          UserinfoHostEscapes(authority, i);
          Some(h)
        else None
  }

  /** A host holds no '%', so it has no escape to get wrong. */
  lemma HostEscapes(host: string)
    requires AllHostChars(host)
    ensures ValidEscapes(host)
  {
    assert !IsHostChar('%');
  }

  /** Userinfo with well-formed escapes, '@' and a host make an authority
      with well-formed escapes. */
  lemma UserinfoHostEscapes(authority: string, i: int)
    requires 0 <= i < |authority| && authority[i] == '@'
    requires ValidEscapes(authority[..i]) && AllHostChars(authority[i + 1..])
    ensures ValidEscapes(authority)
  {
    HostEscapes(authority[i + 1..]);
    assert authority[i..] == "@" + authority[i + 1..];
    EscapesConcat("@", authority[i + 1..]);
    assert authority == authority[..i] + authority[i..];
    EscapesConcat(authority[..i], authority[i..]);
  }

  /** Go's internal `parse(rawURL, viaRequest)`, reduced to scheme and host. */
  function Parse(raw: string, viaRequest: bool): (r: Option<Url>)
    ensures r.Some? ==> AllHostChars(r.value.host) && IsLower(r.value.scheme)
    ensures r.Some? && r.value.host != "" ==> r.value.scheme != "" || !viaRequest
  {
    if !NoCtl(raw) then None
    else if raw == "" && viaRequest then None
    else if raw == "*" then Some(Url("", ""))
    else
      match GetScheme(raw)
      case None => None
      case Some(sp) =>
        ToLowerProperties(sp.scheme);
        ParseAfterScheme(ToLower(sp.scheme), sp.rest, viaRequest)
  }

  /** The part of `parse` after the scheme: cut the query, then an opaque
      URL, a relative reference, or an authority introduced by "//"; what
      remains is the path, whose escapes `setPath` checks. */
  function ParseAfterScheme(scheme: string, afterScheme: string, viaRequest: bool): (r: Option<Url>)
    requires IsLower(scheme)
    ensures r.Some? ==> AllHostChars(r.value.host) && r.value.scheme == scheme
    ensures r.Some? && r.value.host != "" ==> scheme != "" || !viaRequest
    ensures r.Some? && HasPrefix(Before(afterScheme, '?'), "/") ==> ValidEscapes(Before(afterScheme, '?'))
  {
    var rest := Before(afterScheme, '?');
    if !HasPrefix(rest, "/") && scheme != "" then Some(Url(scheme, ""))
    else if !HasPrefix(rest, "/") && viaRequest then None
    else if !HasPrefix(rest, "/") && ':' in Before(rest, '/') then None
    else if (scheme != "" || (!viaRequest && !HasPrefix(rest, "///"))) && HasPrefix(rest, "//") then
      var authority := Before(rest[2..], '/');
      match ParseAuthority(authority)
      case None => None
      case Some(h) =>
        if ValidEscapes(rest[2 + |authority|..]) then
          AuthorityEscapes(rest, authority);
          Some(Url(scheme, h))
        else None
    else if ValidEscapes(rest) then Some(Url(scheme, ""))
    else None
  }

  /** "//", an authority with well-formed escapes and a path with
      well-formed escapes make a reference with well-formed escapes. */
  lemma AuthorityEscapes(rest: string, authority: string)
    requires HasPrefix(rest, "//") && authority == Before(rest[2..], '/')
    requires ValidEscapes(authority) && ValidEscapes(rest[2 + |authority|..])
    ensures ValidEscapes(rest)
  {
    assert rest == "//" + authority + rest[2 + |authority|..];
    assert ValidEscapes("//");
    EscapesConcat("//", authority);
    EscapesConcat("//" + authority, rest[2 + |authority|..]);
  }

  /** The text after the first '#', or "" when there is none. */
  function Fragment(raw: string): string {
    var u := Before(raw, '#');
    if |u| < |raw| then raw[|u| + 1..] else ""
  }

  /** `url.Parse`: the fragment after the first '#' is cut off first, the
      rest is parsed, and then the fragment's escapes are checked. */
  function UrlParse(raw: string): (r: Option<Url>)
    ensures r.Some? ==> AllHostChars(r.value.host) && IsLower(r.value.scheme)
    ensures r.Some? ==> ValidEscapes(Fragment(raw))
  {
    match Parse(Before(raw, '#'), false)
    case None => None
    case Some(u) => if ValidEscapes(Fragment(raw)) then Some(u) else None
  }

  /** `url.ParseRequestURI`: no fragment handling, and a relative
      reference is an error. */
  function ParseRequestURI(raw: string): (r: Option<Url>)
    ensures r.Some? ==> AllHostChars(r.value.host) && IsLower(r.value.scheme)
    ensures r.Some? && r.value.host != "" ==> r.value.scheme != ""
    ensures r.Some? ==> raw != "" && NoCtl(raw)
  {
    Parse(raw, true)
  }

  /** The first step of `splitHostPort`: the host without a valid port
      after its last ':'. */
  function DropPort(hp: string): (p: string)
    ensures OccursAt(hp, p, 0)
  {
    var colon := LastIndexOf(hp, ':');
    if colon >= 0 && ValidOptionalPort(hp[colon..]) then hp[..colon] else hp
  }

  /** `(*url.URL).Hostname`: the host without a valid trailing port and
      without the brackets of an IPv6 literal. */
  function Hostname(u: Url): (h: string)
    ensures exists k :: OccursAt(u.host, h, k)
  {
    var hp := u.host;
    var noPort := DropPort(hp);
    // `HasPrefix(noPort, "[") && HasSuffix(noPort, "]")`, stated on characters
    if |noPort| >= 2 && noPort[0] == '[' && noPort[|noPort| - 1] == ']' then
      InnerOccurs(hp, noPort);
      noPort[1..|noPort| - 1]
    else noPort
  }

  /** The inside of a prefix of `s` occurs in `s` at index 1. */
  lemma InnerOccurs(s: string, p: string)
    requires OccursAt(s, p, 0) && |p| >= 2
    ensures OccursAt(s, p[1..|p| - 1], 1)
  {
    assert p[1..|p| - 1] == s[1..|p| - 1];
  }

  /** A name of host characters without ':' and not bracketed is a host
      `parseHost` accepts. */
  lemma PlainHostParses(host: string)
    requires AllHostChars(host) && ':' !in host && (|host| == 0 || host[0] != '[')
    ensures ParseHost(host) == Some(host)
  {
  }

  /** So is such a name followed by ':' and a numeric port. */
  lemma PortHostParses(h: string, port: string)
    requires AllHostChars(h) && ':' !in h && (|h| == 0 || h[0] != '[')
    requires AllDigits(port)
    ensures ParseHost(h + ":" + port) == Some(h + ":" + port)
  {
    var hp := h + ":" + port;
    PortColon(h + ":", port);
    assert hp[0] != '[' by { if |h| > 0 { assert hp[0] == h[0]; } }
    assert !HasPrefix(hp, "[");
    assert hp[|h|..] == ":" + port && (":" + port)[1..] == port;
    assert ValidOptionalPort(hp[|h|..]);
    assert AllHostChars(hp) by {
      forall c | c in hp ensures IsHostChar(c) {
        assert c in h || c == ':' || c in port;
      }
    }
  }

  /** The last ':' of `b + port`, where `b` ends in ':' and `port` is
      numeric, is the last character of `b`. */
  lemma PortColon(b: string, port: string)
    requires |b| > 0 && b[|b| - 1] == ':' && AllDigits(port)
    ensures LastIndexOf(b + port, ':') == |b| - 1
  {
    assert !IsDigit(':');
    LastIndexOfAppend(b, port, ':');
  }

  /** `DropPort` removes ':' and a numeric port. */
  lemma DropPortOf(b: string, digits: string)
    requires ':' !in b && AllDigits(digits)
    ensures DropPort(b + ":" + digits) == b
  {
    var hp := b + ":" + digits;
    PortColon(b + ":", digits);
    assert hp[|b|..] == ":" + digits && (":" + digits)[1..] == digits;
    assert hp[..|b|] == b;
  }

  /** `DropPort` keeps a host that ends in ']'. */
  lemma DropPortClosed(hp: string)
    requires |hp| > 0 && hp[|hp| - 1] == ']'
    ensures DropPort(hp) == hp
  {
    var colon := LastIndexOf(hp, ':');
    if colon >= 0 {
      ClosedNotPort(hp, colon);
    }
  }

  /** `Hostname` drops a numeric port from a name. */
  lemma HostnameStripsPort(u: Url, h: string, port: string)
    requires u.host == h + ":" + port
    requires ':' !in h && (|h| < 2 || h[0] != '[') && AllDigits(port)
    ensures Hostname(u) == h
  {
    DropPortOf(h, port);
  }

  /** `Hostname` drops the brackets of an IPv6 literal, and its port if
      it has one. */
  lemma HostnameOfBracketed(u: Url, a: string, port: string)
    requires u.host == "[" + a + "]" + port
    requires port == "" || (port[0] == ':' && AllDigits(port[1..]))
    ensures Hostname(u) == a
  {
    var b := "[" + a + "]";
    assert |b| >= 2 && b[0] == '[' && b[|b| - 1] == ']' && b[1..|b| - 1] == a;
    if port == "" {
      assert u.host == b;
      DropPortClosed(b);
    } else {
      BracketedWithPort(u, b, port);
    }
  }

  lemma BracketedWithPort(u: Url, b: string, port: string)
    requires u.host == b + port && ']' in b
    requires |port| > 0 && port[0] == ':' && AllDigits(port[1..])
    ensures DropPort(u.host) == b
  {
    var digits := port[1..];
    assert u.host == (b + ":") + digits;
    PortColon(b + ":", digits);
    assert u.host[|b|..] == port && u.host[..|b|] == b;
  }

  /** No suffix of a string ending in ']' is an optional port. */
  lemma ClosedNotPort(s: string, k: int)
    requires 0 <= k < |s| && s[|s| - 1] == ']'
    ensures !ValidOptionalPort(s[k..])
  {
    if s[k] == ':' {
      var digits := s[k..][1..];
      assert digits[|digits| - 1] == ']';
      assert !IsDigit(']');
    }
  }

  /** A host without ':' and without a leading '[' is its own hostname. */
  lemma HostnameOfPlainHost(u: Url)
    requires ':' !in u.host && (|u.host| == 0 || u.host[0] != '[')
    ensures Hostname(u) == u.host
  {
  }

  lemma {:induction false} SchemeRunOfPrefix(a: string, b: string)
    requires forall c | c in a :: IsSchemeChar(c)
    requires |b| > 0 && !IsSchemeChar(b[0])
    ensures SchemeRun(a + b) == |a|
    decreases |a|
  {
    if |a| > 0 {
      assert (a + b)[1..] == a[1..] + b;
      SchemeRunOfPrefix(a[1..], b);
    }
  }

  lemma GetSchemeOf(scheme: string, tail: string)
    requires |scheme| > 0 && IsAlpha(scheme[0])
    requires forall c | c in scheme :: IsSchemeChar(c)
    ensures GetScheme(scheme + ":" + tail) == Some(SchemeSplit(scheme, tail))
  {
    var raw := scheme + ":" + tail;
    SchemeRunOfPrefix(scheme, ":" + tail);
    assert raw == scheme + (":" + tail);
    assert raw[0] == scheme[0];
    assert SchemeRun(raw) == |scheme| && raw[|scheme|] == ':';
    assert raw[..|scheme|] == scheme && raw[|scheme| + 1..] == tail;
  }

  /** The authority of "//host/path..." is the host. */
  lemma AuthorityOf(host: string, path: string)
    requires ParseHost(host) == Some(host)
    requires path == "" || path[0] == '/'
    ensures Before(("//" + host + path)[2..], '/') == host
    ensures ("//" + host + path)[2 + |host|..] == path
    ensures ParseAuthority(host) == Some(host)
  {
    assert AllHostChars(host);
    assert '/' !in host by { assert !IsHostChar('/'); }
    assert ("//" + host + path)[2..] == host + path;
    BeforeAppend(host, path, '/');
    HostAuthority(host);
  }

  /** A host by itself is an authority without userinfo. */
  lemma HostAuthority(host: string)
    requires ParseHost(host) == Some(host)
    ensures ParseAuthority(host) == Some(host)
  {
    assert '@' !in host by { assert AllHostChars(host) && !IsHostChar('@'); }
    assert LastIndexOf(host, '@') == -1;
  }

  lemma AfterSchemeOf(scheme: string, host: string, path: string, viaRequest: bool)
    requires scheme != "" && IsLower(scheme)
    requires ParseHost(host) == Some(host)
    requires (path == "" || path[0] == '/') && '?' !in path
    ensures ParseAfterScheme(scheme, "//" + host + path, viaRequest) ==
      if ValidEscapes(path) then Some(Url(scheme, host)) else None
  {
    var tail := "//" + host + path;
    assert AllHostChars(host);
    assert '?' !in host by { assert !IsHostChar('?'); }
    BeforeAbsent(tail, '?');
    assert HasPrefix(tail, "//") && HasPrefix(tail, "/");
    AuthorityOf(host, path);
    var authority := Before(tail[2..], '/');
    assert authority == host && ParseAuthority(authority) == Some(host);
    assert tail[2 + |authority|..] == path;
  }

  lemma NoCtlOf(scheme: string, host: string, path: string)
    requires forall c | c in scheme :: IsSchemeChar(c)
    requires AllHostChars(host) && NoCtl(path)
    ensures NoCtl(scheme + ":" + ("//" + host + path))
  {
    var raw := scheme + ":" + ("//" + host + path);
    forall c | c in raw ensures !IsCtl(c) {
      assert c in scheme || c in ":" || c in "//" || c in host || c in path;
    }
  }

  /** An absolute URL written as scheme, "://", a host that `parseHost`
      accepts (a name, an IPv6 literal, either with a numeric port) and a
      path parses, with either parser, to exactly that scheme and host when the
      path's escapes are well formed, and fails otherwise. */
  lemma ParseAbsolute(scheme: string, host: string, path: string)
    requires |scheme| > 0 && IsAlpha(scheme[0]) && IsLower(scheme)
    requires forall c | c in scheme :: IsSchemeChar(c)
    requires ParseHost(host) == Some(host)
    requires (path == "" || path[0] == '/') && '?' !in path && NoCtl(path)
    ensures ParseRequestURI(scheme + "://" + host + path) ==
      if ValidEscapes(path) then Some(Url(scheme, host)) else None
    ensures Parse(scheme + "://" + host + path, false) ==
      if ValidEscapes(path) then Some(Url(scheme, host)) else None
  {
    var tail := "//" + host + path;
    var raw := scheme + ":" + tail;
    assert raw == scheme + "://" + host + path;
    NoCtlOf(scheme, host, path);
    assert |raw| > 1 && raw != "*" && raw != "";
    GetSchemeOf(scheme, tail);
    ToLowerProperties(scheme);
    assert ToLower(scheme) == scheme;
    AfterSchemeOf(scheme, host, path, true);
    AfterSchemeOf(scheme, host, path, false);
    assert Parse(raw, true) == ParseAfterScheme(scheme, tail, true);
    assert Parse(raw, false) == ParseAfterScheme(scheme, tail, false);
  }

  lemma NoFragmentOf(scheme: string, host: string, path: string)
    requires forall c | c in scheme :: IsSchemeChar(c)
    requires AllHostChars(host) && '#' !in path
    ensures '#' !in scheme + "://" + host + path
  {
    assert !IsHostChar('#') && !IsSchemeChar('#');
  }

  /** The same URL through `url.Parse`, when the path holds no '#'. */
  lemma UrlParseAbsolute(scheme: string, host: string, path: string)
    requires |scheme| > 0 && IsAlpha(scheme[0]) && IsLower(scheme)
    requires forall c | c in scheme :: IsSchemeChar(c)
    requires ParseHost(host) == Some(host)
    requires (path == "" || path[0] == '/') && '?' !in path && '#' !in path && NoCtl(path)
    ensures UrlParse(scheme + "://" + host + path) ==
      if ValidEscapes(path) then Some(Url(scheme, host)) else None
  {
    var raw := scheme + "://" + host + path;
    NoFragmentOf(scheme, host, path);
    BeforeAbsent(raw, '#');
    assert Fragment(raw) == "";
    ParseAbsolute(scheme, host, path);
  }

  /** Userinfo whose escapes are malformed makes `parseAuthority` fail,
      whatever host follows the '@'. */
  lemma UserinfoEscapeAuthority(ui: string, host: string)
    requires '@' !in host && !ValidEscapes(ui)
    ensures ParseAuthority(ui + "@" + host) == None
  {
    var b := ui + "@";
    assert b[|b| - 1] == '@';
    LastIndexOfAppend(b, host, '@');
    var a := ui + "@" + host;
    assert a == b + host && a[..|ui|] == ui;
  }

  /** "//", an authority free of '/' and '?', and a path: the query cut
      removes nothing, and the path starts right after the authority. */
  lemma SplitAuthority(tail: string, a: string, path: string)
    requires tail == "//" + a + path
    requires '/' !in a && '?' !in a
    requires (path == "" || path[0] == '/') && '?' !in path
    ensures Before(tail, '?') == tail
    ensures Before(tail[2..], '/') == a
  {
    forall i | 0 <= i < |tail| ensures tail[i] != '?' {
      if i >= 2 + |a| {
        assert tail[i] == path[i - 2 - |a|];
      } else if i >= 2 {
        assert tail[i] == a[i - 2];
      }
    }
    BeforeAbsent(tail, '?');
    assert tail[2..] == a + path;
    BeforeAppend(a, path, '/');
  }

  /** An authority that `parseAuthority` refuses makes the whole
      hierarchical reference fail. */
  lemma AuthorityRefused(scheme: string, a: string, path: string, viaRequest: bool)
    requires scheme != "" && IsLower(scheme)
    requires '/' !in a && '?' !in a && ParseAuthority(a).None?
    requires (path == "" || path[0] == '/') && '?' !in path
    ensures ParseAfterScheme(scheme, "//" + a + path, viaRequest).None?
  {
    var tail := "//" + a + path;
    SplitAuthority(tail, a, path);
    var rest := Before(tail, '?');
    assert rest == tail && HasPrefix(rest, "//") && HasPrefix(rest, "/");
    assert Before(rest[2..], '/') == a;
  }

  /** A scheme followed by a part that `ParseAfterScheme` refuses is
      refused by both parsers. */
  lemma SchemeRefused(scheme: string, tail: string)
    requires |scheme| > 0 && IsAlpha(scheme[0]) && IsLower(scheme)
    requires forall c | c in scheme :: IsSchemeChar(c)
    requires ParseAfterScheme(scheme, tail, true).None? && ParseAfterScheme(scheme, tail, false).None?
    ensures ParseRequestURI(scheme + ":" + tail).None? && Parse(scheme + ":" + tail, false).None?
  {
    var raw := scheme + ":" + tail;
    GetSchemeOf(scheme, tail);
    ToLowerProperties(scheme);
    assert ToLower(scheme) == scheme;
    assert |raw| > 1 && raw != "*" && raw != "";
  }

  /** An absolute URL whose userinfo holds a malformed escape is refused by
      every parser, as Go's `parseAuthority` refuses it. */
  lemma UserinfoEscapeRefused(scheme: string, ui: string, host: string, path: string)
    requires |scheme| > 0 && IsAlpha(scheme[0]) && IsLower(scheme)
    requires forall c | c in scheme :: IsSchemeChar(c)
    requires '/' !in ui && '?' !in ui && !ValidEscapes(ui)
    requires '@' !in host && '/' !in host && '?' !in host
    requires (path == "" || path[0] == '/') && '?' !in path
    ensures ParseRequestURI(scheme + "://" + ui + "@" + host + path).None?
    ensures Parse(scheme + "://" + ui + "@" + host + path, false).None?
    ensures '#' !in ui + host + path ==> UrlParse(scheme + "://" + ui + "@" + host + path).None?
  {
    var a := ui + "@" + host;
    var tail := "//" + a + path;
    var raw := scheme + ":" + tail;
    assert raw == scheme + "://" + ui + "@" + host + path;
    UserinfoRefusedRaw(scheme, ui, host, path, a, tail, raw);
    if '#' !in ui + host + path {
      FragmentFree(scheme, ui, host, path);
      assert '#' !in raw;
      BeforeAbsent(raw, '#');
    }
  }

  lemma UserinfoRefusedRaw(scheme: string, ui: string, host: string, path: string,
                           a: string, tail: string, raw: string)
    requires |scheme| > 0 && IsAlpha(scheme[0]) && IsLower(scheme)
    requires forall c | c in scheme :: IsSchemeChar(c)
    requires '/' !in ui && '?' !in ui && !ValidEscapes(ui)
    requires '@' !in host && '/' !in host && '?' !in host
    requires (path == "" || path[0] == '/') && '?' !in path
    requires a == ui + "@" + host && tail == "//" + a + path && raw == scheme + ":" + tail
    ensures ParseRequestURI(raw).None? && Parse(raw, false).None?
  {
    UserinfoEscapeAuthority(ui, host);
    NoSlashNoQuery(ui, host, a);
    AuthorityRefused(scheme, a, path, true);
    AuthorityRefused(scheme, a, path, false);
    SchemeRefused(scheme, tail);
  }

  lemma NoSlashNoQuery(ui: string, host: string, a: string)
    requires '/' !in ui && '?' !in ui && '/' !in host && '?' !in host
    requires a == ui + "@" + host
    ensures '/' !in a && '?' !in a
  {
    forall i | 0 <= i < |a| ensures a[i] != '/' && a[i] != '?' {
      if i < |ui| {
        assert a[i] == ui[i];
      } else if i > |ui| {
        assert a[i] == host[i - |ui| - 1];
      }
    }
  }

  lemma FragmentFree(scheme: string, ui: string, host: string, path: string)
    requires forall c | c in scheme :: IsSchemeChar(c)
    requires '#' !in ui + host + path
    ensures '#' !in scheme + "://" + ui + "@" + host + path
  {
    assert !IsSchemeChar('#');
    assert '#' !in ui && '#' !in host && '#' !in path by {
      assert ui + host + path == ui + (host + path);
    }
  }
}
