/** shared_utilities/routes.go: route normalisation rewrites the request
    path in place, to its lower-case form, and always calls the next
    handler. */
module Routes {
  import opened GoStrings
  import opened GoHttp

  /** `NormalizeRoutesMiddleware` applied to one request: the path of the
      request's URL is replaced by its lower-cased form; the request handed
      on is the same request. */
  method NormalizeRoutesMiddleware(r: Request) returns (next: Request)
    modifies r.url
    ensures next == r
    ensures r.url.path == ToLower(old(r.url.path))
    ensures r.url.rawQuery == old(r.url.rawQuery)
    ensures IsLower(r.url.path) && |r.url.path| == |old(r.url.path)|
    ensures forall i :: 0 <= i < |r.url.path| && !('A' <= old(r.url.path)[i] <= 'Z') ==>
      r.url.path[i] == old(r.url.path)[i]
    ensures IsLower(old(r.url.path)) ==> r.url.path == old(r.url.path)
  {
    var normalizedPath := ToLower(r.url.path);
    ToLowerProperties(r.url.path);
    r.url.path := normalizedPath;
    return r;
  }

  /** Normalising twice gives the path normalising once gives. */
  method NormalizeTwice(r: Request) returns (next: Request)
    modifies r.url
    ensures r.url.path == ToLower(old(r.url.path))
  {
    var once := NormalizeRoutesMiddleware(r);
    next := NormalizeRoutesMiddleware(once);
    ToLowerProperties(old(r.url.path));
  }
}
