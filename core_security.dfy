/** core_utilities/security.go repeats the CORS and CSP middleware of
    shared_utilities/security.go line for line; the model states its
    behaviour by the same specification. */
module CoreSecurity {
  import opened Wrappers
  import opened GoHttp
  import Security

  /** `core_utilities.SecurityMiddleware(parentDomain)` applied to one
      request. */
  method SecurityMiddleware(parentDomain: string, w: ResponseWriter, r: Request) returns (next: Option<Request>)
    modifies w
    ensures w.header == Security.SecurityHeaders(old(w.header), parentDomain, HeaderGet(r.header, "Origin"))
    ensures w.body == old(w.body)
    ensures r.verb == "OPTIONS" ==> next.None? && w.wroteHeader
    ensures r.verb == "OPTIONS" ==> w.status == if old(w.wroteHeader) then old(w.status) else StatusOK
    ensures r.verb != "OPTIONS" ==> next == Some(r)
    ensures r.verb != "OPTIONS" ==> w.wroteHeader == old(w.wroteHeader) && w.status == old(w.status)
  {
    next := Security.SecurityMiddleware(parentDomain, w, r);
  }
}
