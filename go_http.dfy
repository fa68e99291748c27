/** The parts of Go's `net/http` that the middlewares touch: a request with
    its header map, remote address, context and URL, and a response writer
    whose header map, status and body the middlewares change in place. */
module GoHttp {
  import opened Wrappers
  import opened GoContext

  /** `*url.URL` of a request: shared, not copied, by `r.WithContext`. */
  class URL {
    var path: string
    var rawQuery: string

    constructor (path: string, rawQuery: string)
      ensures this.path == path && this.rawQuery == rawQuery
    {
      this.path := path;
      this.rawQuery := rawQuery;
    }
  }

  /** An incoming request; `verb` is `r.Method`. Header names are held in canonical form, one
      value per name (what `Header.Get` returns). */
  datatype Request = Request(
    verb: string,
    header: map<string, string>,
    remoteAddr: string,
    ctx: Context,
    url: URL)

  /** `Header.Get`: the value of a header, or "" when it is absent. */
  function HeaderGet(h: map<string, string>, name: string): string {
    if name in h then h[name] else ""
  }

  /** `r.WithContext(ctx)`: a shallow copy of the request with a new context. */
  function WithContext(r: Request, ctx: Context): (r2: Request)
    ensures r2.ctx == ctx
    ensures r2.verb == r.verb && r2.header == r.header
    ensures r2.remoteAddr == r.remoteAddr && r2.url == r.url
  {
    r.(ctx := ctx)
  }

  /** The headers `http.Error` sets before it writes: a plain-text content
      type and `nosniff`. */
  function PlainText(h: map<string, string>): map<string, string> {
    h["Content-Type" := "text/plain; charset=utf-8"]["X-Content-Type-Options" := "nosniff"]
  }

  /** The status codes `WriteHeader` accepts; any other code makes it panic. */
  predicate WritableStatus(code: int) {
    100 <= code <= 999
  }

  const StatusOK := 200
  const StatusUnauthorized := 401
  const StatusForbidden := 403
  const StatusInternalServerError := 500

  /** A middleware's verdict before anything is written: stop with `http.Error`
      or hand the (possibly rewritten) request to the next handler. */
  datatype Outcome = Reject(status: int, message: string) | Pass(req: Request)

  /** `http.ResponseWriter`. `status` is 0 until a header is written. */
  class ResponseWriter {
    var header: map<string, string>
    var wroteHeader: bool
    var status: int
    var body: string

    constructor ()
      ensures header == map[] && !wroteHeader && status == 0 && body == ""
    {
      header := map[];
      wroteHeader := false;
      status := 0;
      body := "";
    }

    /** `w.Header().Set(k, v)`. */
    method Set(k: string, v: string)
      modifies this
      ensures header == old(header)[k := v]
      ensures wroteHeader == old(wroteHeader) && status == old(status) && body == old(body)
    {
      header := header[k := v];
    }

    /** `w.WriteHeader(code)`: the first call fixes the status; later calls
        are superfluous and change nothing. Only the first call checks the
        code: a code outside 100-999 there panics. */
    method WriteHeader(code: int)
      requires wroteHeader || WritableStatus(code)
      modifies this
      ensures wroteHeader
      ensures status == if old(wroteHeader) then old(status) else code
      ensures header == old(header) && body == old(body)
    {
      if !wroteHeader {
        status := code;
        wroteHeader := true;
      }
    }

    /** `http.Error(w, msg, code)`: plain-text content headers, the status,
        and `msg` followed by a newline as the body. */
    method Error(msg: string, code: int)
      requires wroteHeader || WritableStatus(code)
      modifies this
      ensures header == PlainText(old(header))
      ensures wroteHeader
      ensures status == if old(wroteHeader) then old(status) else code
      ensures body == old(body) + msg + "\n"
    {
      Set("Content-Type", "text/plain; charset=utf-8");
      Set("X-Content-Type-Options", "nosniff");
      WriteHeader(code);
      body := body + msg + "\n";
    }

    /** Carries out a middleware's verdict: a rejection becomes `http.Error`
        and stops the chain; a pass writes nothing and yields the request the
        next handler is called with. */
    method Respond(o: Outcome) returns (next: Option<Request>)
      requires o.Reject? ==> wroteHeader || WritableStatus(o.status)
      modifies this
      ensures o.Pass? ==> next == Some(o.req)
      ensures o.Pass? ==> header == old(header) && wroteHeader == old(wroteHeader) && status == old(status) && body == old(body)
      ensures o.Reject? ==> next.None? && wroteHeader && header == PlainText(old(header))
      ensures o.Reject? ==> status == (if old(wroteHeader) then old(status) else o.status)
      ensures o.Reject? ==> body == old(body) + o.message + "\n"
    {
      if o.Reject? {
        Error(o.message, o.status);
        next := None;
      } else {
        next := Some(o.req);
      }
    }
  }
}
