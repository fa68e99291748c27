/** Client identification from request headers (shared_helpers/http.go). */
module ClientIP {
  import opened GoStrings
  import opened GoHttp

  /** The first entry of `X-Forwarded-For`, trimmed. */
  function ForwardedFor(r: Request): string {
    TrimSpace(Split(HeaderGet(r.header, "X-Forwarded-For"), ',')[0])
  }

  /** `GetClientIP`: the first forwarded address; else the trimmed
      `X-Real-IP`; else the remote address up to its first ':'; else "". */
  function GetClientIP(r: Request): (ip: string)
    ensures ForwardedFor(r) != "" ==> ip == ForwardedFor(r)
    ensures ForwardedFor(r) == "" && HeaderGet(r.header, "X-Real-IP") != "" ==>
      ip == TrimSpace(HeaderGet(r.header, "X-Real-IP"))
    ensures ForwardedFor(r) == "" && HeaderGet(r.header, "X-Real-IP") == "" ==>
      ip == Before(r.remoteAddr, ':')
  {
    var forwarded := HeaderGet(r.header, "X-Forwarded-For");
    var first := if forwarded != "" then TrimSpace(Split(forwarded, ',')[0]) else "";
    if first != "" then first
    else
      var realIP := HeaderGet(r.header, "X-Real-IP");
      if realIP != "" then TrimSpace(realIP)
      else if r.remoteAddr != "" then Split(r.remoteAddr, ':')[0]
      else ""
  }

  /** `GetUserAgent`. */
  function GetUserAgent(r: Request): (ua: string)
    ensures ua == HeaderGet(r.header, "User-Agent")
  {
    HeaderGet(r.header, "User-Agent")
  }

  /** An address taken from `X-Forwarded-For` is a single entry: it holds
      no ','. */
  lemma ForwardedHasNoComma(r: Request)
    requires ForwardedFor(r) != ""
    ensures ',' !in GetClientIP(r)
  {
    var forwarded := HeaderGet(r.header, "X-Forwarded-For");
    TrimSpaceExcludes(Split(forwarded, ',')[0], ',');
  }

  /** An address taken from the remote address holds no ':', so the port and
      anything after the first ':' of an IPv6 address are gone ("[::1]:80"
      yields "["). */
  lemma RemoteHasNoColon(r: Request)
    requires ForwardedFor(r) == "" && HeaderGet(r.header, "X-Real-IP") == ""
    ensures ':' !in GetClientIP(r)
    ensures HasPrefix(r.remoteAddr, GetClientIP(r))
  {
  }

  /** A blank but present `X-Real-IP` hides the remote address: the result
      is "". */
  lemma BlankRealIPGivesEmpty(r: Request)
    requires ForwardedFor(r) == ""
    requires HeaderGet(r.header, "X-Real-IP") != ""
    requires forall i :: 0 <= i < |HeaderGet(r.header, "X-Real-IP")| ==> IsSpace(HeaderGet(r.header, "X-Real-IP")[i])
    ensures GetClientIP(r) == ""
  {
    TrimSpaceAllSpace(HeaderGet(r.header, "X-Real-IP"));
  }

  /** The result never contains white space at either end. */
  lemma NoSurroundingSpace(r: Request)
    ensures var ip := GetClientIP(r);
      ForwardedFor(r) != "" || HeaderGet(r.header, "X-Real-IP") != "" ==>
        |ip| == 0 || (!IsSpace(ip[0]) && !IsSpace(ip[|ip| - 1]))
  {
  }
}
