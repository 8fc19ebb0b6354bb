// The parts of the Express request and response objects that the content
// API reads and writes, and what a middleware or handler does with them.
module Http {
  import opened Wrappers
  import opened JsValue
  import opened AppErrors

  /** A status code and a JSON body. */
  datatype Reply = Reply(status: nat, body: Value)

  /** What a middleware does: call `next()`, call `next(err)`, or answer. */
  datatype Outcome = Next | Fail(err: Error) | Send(reply: Reply)

  // ---- Express's own final handler ----

  /** A status that names a client or a server error. */
  predicate ErrorStatus(s: Option<int>)
  {
    s.Some? && 400 <= s.value < 600
  }

  /** The page the final handler sends: the error's stack outside
      production, the standard text of the status in production. */
  datatype Page = StackPage(trace: string) | StatusPage(status: nat)

  datatype FinalReply = FinalReply(status: nat, page: Page)

  /** The status Express's final handler answers an error with when no
      error middleware is mounted: the error's `status`, else its
      `statusCode`, where that names an error, and 500 otherwise. */
  function FinalStatus(err: Error): (s: nat)
    ensures 400 <= s < 600
    ensures ErrorStatus(err.status) ==> s == err.status.value
    ensures !ErrorStatus(err.status) && ErrorStatus(StatusCode(err)) ==> s == StatusCode(err).value
    ensures !ErrorStatus(err.status) && !ErrorStatus(StatusCode(err)) ==> s == 500
  {
    if ErrorStatus(err.status) then err.status.value
    else if ErrorStatus(StatusCode(err)) then StatusCode(err).value
    else 500
  }

  /** The final handler's answer to an error passed to `next(err)` that no
      error middleware took. `trace` is the error's stack. */
  function FinalHandler(err: Error, production: bool, trace: string): (r: FinalReply)
    ensures r.status == FinalStatus(err)
    ensures production <==> r.page.StatusPage?
    ensures r.page.StatusPage? ==> r.page.status == r.status
    ensures r.page.StackPage? ==> r.page.trace == trace
  {
    var s := FinalStatus(err);
    FinalReply(s, if production then StatusPage(s) else StackPage(trace))
  }

  /** An incoming request; `verb` is `req.method`. `headers` is keyed by lower-case header name;
      `contentType` is the media type the request declares for its body,
      `None` when it has no body; `user` is what the authentication layer
      stores, `None` until it has run. */
  class Request {
    var verb: string
    var path: string
    var headers: map<string, string>
    var contentType: Option<string>
    var body: Value
    var query: Value
    var params: Value
    var file: Option<Value>
    var user: Option<Value>

    constructor (verb: string, path: string, headers: map<string, string>, contentType: Option<string>,
                 body: Value, params: Value, file: Option<Value>)
      ensures this.verb == verb && this.path == path && this.headers == headers
      ensures this.contentType == contentType && this.body == body && this.params == params && this.file == file
      ensures this.query == Obj(map[]) && this.user.None?
    {
      this.verb := verb;
      this.path := path;
      this.headers := headers;
      this.contentType := contentType;
      this.body := body;
      this.query := Obj(map[]);
      this.params := params;
      this.file := file;
      this.user := None;
    }
  }

  /** The response headers the content API sets or removes by name; any
      other header is `Other` with its name. */
  datatype HeaderName =
    | ContentTypeOptions
    | FrameOptions
    | XssProtection
    | ReferrerPolicy
    | TransportSecurity
    | CrossDomainPolicies
    | DownloadOptions
    | DnsPrefetchControl
    | ContentSecurityPolicy
    | PoweredBy
    | Other(name: string)

  /** The name on the wire. */
  function HeaderText(h: HeaderName): string
  {
    match h
    case ContentTypeOptions => "X-Content-Type-Options"
    case FrameOptions => "X-Frame-Options"
    case XssProtection => "X-XSS-Protection"
    case ReferrerPolicy => "Referrer-Policy"
    case TransportSecurity => "Strict-Transport-Security"
    case CrossDomainPolicies => "X-Permitted-Cross-Domain-Policies"
    case DownloadOptions => "X-Download-Options"
    case DnsPrefetchControl => "X-DNS-Prefetch-Control"
    case ContentSecurityPolicy => "Content-Security-Policy"
    case PoweredBy => "X-Powered-By"
    case Other(name) => name
  }

  /** The header table of an outgoing response. */
  class Response {
    var headers: map<HeaderName, string>

    constructor ()
      ensures headers == map[]
    {
      headers := map[];
    }

    method SetHeader(name: HeaderName, value: string)
      modifies this
      ensures headers == old(headers)[name := value]
    {
      headers := headers[name := value];
    }

    method RemoveHeader(name: HeaderName)
      modifies this
      ensures headers == old(headers) - {name}
    {
      headers := headers - {name};
    }
  }
}
