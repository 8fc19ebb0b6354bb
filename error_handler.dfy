// The error-handling layer of the content API: the response envelopes, the
// mapping from error kinds to status codes and codes, the 404 handler, the
// request gate, the security headers and the two data checks.
module ErrorHandler {
  import opened Wrappers
  import opened Strings
  import opened JsValue
  import opened AppErrors
  import opened Http

  // ---- Envelopes ----

  /** The object handed to `sendErrorResponse`: `""` for an absent message
      or code; `withStack` says whether it carries a stack trace, which
      only real error objects do. */
  datatype Failure = Failure(message: string, code: string, details: Option<Value>, withStack: bool)

  /** An error object handed over as it is. */
  function Own(e: Error): Failure
  {
    Failure(e.message, e.code, e.details, true)
  }

  /** The body of `sendSuccessResponse(res, data, message)`; `now` is the
      ISO text of the current time. */
  function SuccessBody(data: Value, message: string, now: string): (r: Value)
    ensures r.Obj? && "success" in r.fields && r.fields["success"] == Bool(true)
    ensures "message" in r.fields && r.fields["message"] == Str(message)
    ensures "timestamp" in r.fields && r.fields["timestamp"] == Str(now)
    ensures "data" in r.fields <==> data != Null
    ensures "data" in r.fields ==> r.fields["data"] == data
    ensures forall k :: k in r.fields ==> k in {"success", "message", "timestamp", "data"}
  {
    var base := map["success" := Bool(true), "message" := Str(message), "timestamp" := Str(now)];
    Obj(if data != Null then base["data" := data] else base)
  }

  /** The shape every error answer of the layer has. */
  predicate IsErrorEnvelope(v: Value)
  {
    v.Obj? && "success" in v.fields && v.fields["success"] == Bool(false)
    && "error" in v.fields && v.fields["error"].Str? && v.fields["error"].s != ""
    && "code" in v.fields && v.fields["code"].Str? && v.fields["code"].s != ""
    && "timestamp" in v.fields
  }

  /** The `error` text of an answer, `""` if it has none. */
  function MessageOf(r: Reply): string
  {
    if r.body.Obj? && "error" in r.body.fields && r.body.fields["error"].Str? then r.body.fields["error"].s else ""
  }

  /** The `code` of an answer, `""` if it has none. */
  function CodeOf(r: Reply): string
  {
    if r.body.Obj? && "code" in r.body.fields && r.body.fields["code"].Str? then r.body.fields["code"].s else ""
  }

  /** The body of `sendErrorResponse`. `trace` is the stack text of the
      error, included outside production. */
  function ErrorBody(f: Failure, production: bool, now: string, trace: string): (r: Value)
    ensures IsErrorEnvelope(r)
    ensures f.message != "" ==> r.fields["error"] == Str(f.message)
    ensures f.message == "" ==> r.fields["error"] == Str("Internal server error")
    ensures f.code != "" ==> r.fields["code"] == Str(f.code)
    ensures f.code == "" ==> r.fields["code"] == Str("INTERNAL_ERROR")
    ensures "details" in r.fields <==> f.details.Some? && f.details.value.Arr?
    ensures "details" in r.fields ==> r.fields["details"] == f.details.value
    ensures "stack" in r.fields <==> !production && f.withStack
  {
    var base := map[
      "success" := Bool(false),
      "error" := Str(if f.message == "" then "Internal server error" else f.message),
      "code" := Str(if f.code == "" then "INTERNAL_ERROR" else f.code),
      "timestamp" := Str(now)];
    var withDetails := if f.details.Some? && f.details.value.Arr? then base["details" := f.details.value] else base;
    Obj(if !production && f.withStack then withDetails["stack" := Str(trace)] else withDetails)
  }

  function ErrorReply(f: Failure, status: nat, production: bool, now: string, trace: string): Reply
  {
    Reply(status, ErrorBody(f, production, now, trace))
  }

  // ---- The error handler ----

  predicate ApiClass(e: Error)
  {
    e.cls in {ValidationClass, NotFoundClass, DatabaseClass, FileOperationClass}
  }

  /** `errorHandler(err, req, res, next)`: the answer for an error passed on
      by a route. Logging is left out. */
  function HandleError(err: Error, production: bool, now: string, trace: string): (r: Reply)
    ensures IsErrorEnvelope(r.body)
    ensures r.status in {400, 401, 403, 404, 500}
    ensures err.cls == ValidationClass ==> r.status == 400
    ensures err.cls == NotFoundClass ==> r.status == 404
    ensures err.cls in {DatabaseClass, FileOperationClass} ==> r.status == 500
    ensures production && r.status == 500 ==> MessageOf(r) == "Internal server error" && "stack" !in r.body.fields
  {
    if err.cls == ValidationClass then ErrorReply(Own(err), 400, production, now, trace)
    else if err.cls == NotFoundClass then ErrorReply(Own(err), 404, production, now, trace)
    else if err.cls == DatabaseClass || err.cls == FileOperationClass then
      ErrorReply(Failure(if production then "Internal server error" else err.message, err.code, None, false), 500, production, now, trace)
    else if err.name == "JsonWebTokenError" then
      ErrorReply(Failure("Invalid token", "INVALID_TOKEN", None, false), 401, production, now, trace)
    else if err.name == "TokenExpiredError" then
      ErrorReply(Failure("Token expired", "TOKEN_EXPIRED", None, false), 401, production, now, trace)
    else if err.message == "Not allowed by CORS" then
      ErrorReply(Failure("CORS policy violation", "CORS_ERROR", None, false), 403, production, now, trace)
    else if err.code == "LIMIT_FILE_SIZE" then
      ErrorReply(Failure("File too large", "FILE_TOO_LARGE", None, false), 400, production, now, trace)
    else if err.code == "LIMIT_UNEXPECTED_FILE" then
      ErrorReply(Failure("Unexpected file field", "UNEXPECTED_FILE", None, false), 400, production, now, trace)
    else if err.cls == SyntaxErrorClass && err.status == Some(400) && err.hasBody then
      ErrorReply(Failure("Invalid JSON format", "INVALID_JSON", None, false), 400, production, now, trace)
    else
      ErrorReply(Failure(if production then "Internal server error" else err.message, "INTERNAL_ERROR", None, false), 500, production, now, trace)
  }

  /** The codes the handler gives each kind of error, in the order it
      tries them. */
  lemma HandleErrorTable(err: Error, production: bool, now: string, trace: string)
    ensures var r := HandleError(err, production, now, trace);
      && (err.cls == ValidationClass ==> CodeOf(r) == (if err.code == "" then "INTERNAL_ERROR" else err.code))
      && (err.cls in {DatabaseClass, FileOperationClass} ==> CodeOf(r) == (if err.code == "" then "INTERNAL_ERROR" else err.code))
      && (!ApiClass(err) && err.name == "JsonWebTokenError" ==> r.status == 401 && CodeOf(r) == "INVALID_TOKEN")
      && (!ApiClass(err) && err.name == "TokenExpiredError" ==> r.status == 401 && CodeOf(r) == "TOKEN_EXPIRED")
      && (!ApiClass(err) && err.name !in {"JsonWebTokenError", "TokenExpiredError"} && err.message == "Not allowed by CORS" ==>
            r.status == 403 && CodeOf(r) == "CORS_ERROR")
      && (!ApiClass(err) && err.name !in {"JsonWebTokenError", "TokenExpiredError"} && err.message != "Not allowed by CORS" ==>
            (err.code == "LIMIT_FILE_SIZE" ==> r.status == 400 && CodeOf(r) == "FILE_TOO_LARGE")
            && (err.code == "LIMIT_UNEXPECTED_FILE" ==> r.status == 400 && CodeOf(r) == "UNEXPECTED_FILE"))
  {
  }

  /** Everything the handler does not recognise is a 500 INTERNAL_ERROR,
      whose text is hidden in production. */
  lemma UnknownErrorIsInternal(err: Error, production: bool, now: string, trace: string)
    requires !ApiClass(err) && err.name !in {"JsonWebTokenError", "TokenExpiredError"}
    requires err.message != "Not allowed by CORS" && err.code !in {"LIMIT_FILE_SIZE", "LIMIT_UNEXPECTED_FILE"}
    requires !(err.cls == SyntaxErrorClass && err.status == Some(400) && err.hasBody)
    ensures var r := HandleError(err, production, now, trace);
      r.status == 500 && CodeOf(r) == "INTERNAL_ERROR"
      && MessageOf(r) == (if production || err.message == "" then "Internal server error" else err.message)
      && "stack" !in r.body.fields
  {
  }

  /** A body-parser SyntaxError is a 400 INVALID_JSON. */
  lemma MalformedJsonIsBadRequest(err: Error, production: bool, now: string, trace: string)
    requires err.cls == SyntaxErrorClass && err.status == Some(400) && err.hasBody
    requires err.name !in {"JsonWebTokenError", "TokenExpiredError"}
    requires err.message != "Not allowed by CORS" && err.code !in {"LIMIT_FILE_SIZE", "LIMIT_UNEXPECTED_FILE"}
    ensures var r := HandleError(err, production, now, trace);
      r.status == 400 && CodeOf(r) == "INVALID_JSON" && MessageOf(r) == "Invalid JSON format"
  {
  }

  /** `notFoundHandler`: an unknown route is a 404 ROUTE_NOT_FOUND naming
      the method and the path. */
  function NotFoundHandler(verb: string, path: string, production: bool, now: string, trace: string): (r: Reply)
    ensures r.status == 404 && IsErrorEnvelope(r.body)
    ensures CodeOf(r) == "ROUTE_NOT_FOUND" && MessageOf(r) == "Route not found: " + verb + " " + path
    ensures "stack" !in r.body.fields
  {
    ErrorReply(Failure("Route not found: " + verb + " " + path, "ROUTE_NOT_FOUND", None, false), 404, production, now, trace)
  }

  // ---- The request gate ----

  const PublicPaths: seq<string> := ["/api/auth/", "/api/health"]

  const PublicGetPaths: seq<string> :=
    ["/api/hero", "/api/work", "/api/process", "/api/story", "/api/locations", "/api/contact", "/api/faq", "/api/images"]

  predicate StartsWithAny(path: string, prefixes: seq<string>)
  {
    exists i :: 0 <= i < |prefixes| && StartsWith(path, prefixes[i])
  }

  /** The text before the first `c`. */
  function BeforeChar(s: string, c: char): (r: string)
    ensures StartsWith(s, r) && c !in r
    ensures |r| < |s| ==> s[|r|] == c
    ensures c !in s ==> r == s
  {
    if s == [] || s[0] == c then [] else [s[0]] + BeforeChar(s[1..], c)
  }

  /** The media type of a Content-Type value: before any parameters,
      trimmed and lower-cased. */
  function MediaType(contentType: string): string
  {
    Lower(Trim(BeforeChar(contentType, ';')))
  }

  /** `req.is('application/json') || req.is('multipart/form-data')`; a
      request without a body matches neither. */
  predicate JsonOrMultipart(contentType: Option<string>)
  {
    contentType.Some? && MediaType(contentType.value) in {"application/json", "multipart/form-data"}
  }

  /** A path under `/api/` that is neither public nor a public read. */
  predicate Protected(verb: string, path: string)
  {
    StartsWith(path, "/api/") && !StartsWithAny(path, PublicPaths)
    && !(StartsWithAny(path, PublicGetPaths) && verb == "GET")
  }

  /** A non-empty Authorization header (its content is not checked here). */
  predicate HasAuthorization(headers: map<string, string>)
  {
    "authorization" in headers && headers["authorization"] != ""
  }

  datatype Gate = Pass | BadContentType | MissingAuth

  function RequestGate(verb: string, path: string, contentType: Option<string>, headers: map<string, string>): (g: Gate)
    ensures g == BadContentType <==> verb in {"POST", "PUT"} && !JsonOrMultipart(contentType)
    ensures g == MissingAuth <==> g != BadContentType && Protected(verb, path) && !HasAuthorization(headers)
  {
    if verb in {"POST", "PUT"} && !JsonOrMultipart(contentType) then BadContentType
    else if Protected(verb, path) && !HasAuthorization(headers) then MissingAuth
    else Pass
  }

  /** Only the presence of the Authorization header matters. */
  lemma GateIgnoresCredentials(verb: string, path: string, contentType: Option<string>, h1: map<string, string>, h2: map<string, string>)
    requires HasAuthorization(h1) == HasAuthorization(h2)
    ensures RequestGate(verb, path, contentType, h1) == RequestGate(verb, path, contentType, h2)
  {
  }

  /** Reads of the public content, the authentication routes, the health
      check and everything outside `/api/` never need a header. */
  lemma PublicNeverNeedsAuth(verb: string, path: string, contentType: Option<string>, headers: map<string, string>)
    requires (verb == "GET" && StartsWithAny(path, PublicGetPaths)) || StartsWithAny(path, PublicPaths) || !StartsWith(path, "/api/")
    ensures RequestGate(verb, path, contentType, headers) != MissingAuth
  {
  }

  /** A JSON body passes the content-type check. */
  lemma JsonContentTypeAccepted()
    ensures JsonOrMultipart(Some("application/json"))
  {
    var t := "application/json";
    assert Trimmed(t) by { assert t[0] == 'a' && t[15] == 'n'; }
    assert forall i :: 0 <= i < |t| ==> t[i] != ';' && !('A' <= t[i] <= 'Z');
    PlainMediaType(t);
  }

  /** A lower-case media type without parameters or padding is its own
      media type. */
  lemma PlainMediaType(t: string)
    requires ';' !in t && Trimmed(t)
    requires forall i :: 0 <= i < |t| ==> !('A' <= t[i] <= 'Z')
    ensures MediaType(t) == t
  {
    TrimmedIff(t);
    LowerUnchanged(t);
  }

  /** Writes to the work collection need the header. */
  lemma WorkWriteNeedsAuth(verb: string, headers: map<string, string>)
    requires verb != "GET" && verb !in {"POST", "PUT"} && !HasAuthorization(headers)
    ensures RequestGate(verb, "/api/work", None, headers) == MissingAuth
  {
    var path := "/api/work";
    assert StartsWith(path, "/api/") by { assert path[..5] == "/api/"; }
    assert !StartsWithAny(path, PublicPaths) by {
      assert |PublicPaths[0]| > |path| && |PublicPaths[1]| > |path|;
    }
  }

  /** `validateRequest`; it changes nothing on the request. */
  method ValidateRequest(req: Request, production: bool, now: string, trace: string) returns (o: Outcome)
    ensures RequestGate(req.verb, req.path, req.contentType, req.headers) == Pass ==> o == Next
    ensures RequestGate(req.verb, req.path, req.contentType, req.headers) == BadContentType ==>
              o.Send? && o.reply.status == 400 && CodeOf(o.reply) == "INVALID_CONTENT_TYPE"
    ensures RequestGate(req.verb, req.path, req.contentType, req.headers) == MissingAuth ==>
              o.Send? && o.reply.status == 401 && CodeOf(o.reply) == "MISSING_AUTH_HEADER"
    ensures o.Send? ==> IsErrorEnvelope(o.reply.body) && "stack" !in o.reply.body.fields
  {
    if req.verb in {"POST", "PUT"} && !JsonOrMultipart(req.contentType) {
      return Send(ErrorReply(Failure("Invalid content type", "INVALID_CONTENT_TYPE", None, false), 400, production, now, trace));
    }
    if Protected(req.verb, req.path) && !HasAuthorization(req.headers) {
      return Send(ErrorReply(Failure("Authorization header required", "MISSING_AUTH_HEADER", None, false), 401, production, now, trace));
    }
    o := Next;
  }

  // ---- Security headers ----

  const ProductionCsp :=
    "default-src 'self'; script-src 'self'; style-src 'self'; img-src 'self' data:; font-src 'self'; connect-src 'self'; frame-ancestors 'none';"
  const DevelopmentCsp :=
    "default-src 'self'; script-src 'self' 'unsafe-inline'; style-src 'self' 'unsafe-inline'; img-src 'self' data:; font-src 'self'; connect-src 'self';"

  /** Whether the middleware sets header `k`: the four basic ones
      always, four more in production, the policy on admin pages. */
  predicate Sets(k: HeaderName, path: string, production: bool)
  {
    k.ContentTypeOptions? || k.FrameOptions? || k.XssProtection? || k.ReferrerPolicy?
    || (production && (k.TransportSecurity? || k.CrossDomainPolicies? || k.DownloadOptions? || k.DnsPrefetchControl?))
    || (k.ContentSecurityPolicy? && StartsWith(path, "/admin"))
  }

  /** The value the middleware gives each header it sets. */
  function SecurityValue(k: HeaderName, production: bool): string
  {
    match k
    case ContentTypeOptions => "nosniff"
    case FrameOptions => "DENY"
    case XssProtection => "1; mode=block"
    case ReferrerPolicy => "strict-origin-when-cross-origin"
    case TransportSecurity => "max-age=31536000; includeSubDomains; preload"
    case CrossDomainPolicies => "none"
    case DownloadOptions => "noopen"
    case DnsPrefetchControl => "off"
    case ContentSecurityPolicy => if production then ProductionCsp else DevelopmentCsp
    case _ => ""
  }

  function BasicStage(h: map<HeaderName, string>, production: bool): map<HeaderName, string>
  {
    h[ContentTypeOptions := SecurityValue(ContentTypeOptions, production)]
     [FrameOptions := SecurityValue(FrameOptions, production)]
     [XssProtection := SecurityValue(XssProtection, production)]
     [ReferrerPolicy := SecurityValue(ReferrerPolicy, production)]
  }

  function ProductionStage(h: map<HeaderName, string>, production: bool): map<HeaderName, string>
  {
    if !production then h
    else h[TransportSecurity := SecurityValue(TransportSecurity, production)]
          [CrossDomainPolicies := SecurityValue(CrossDomainPolicies, production)]
          [DownloadOptions := SecurityValue(DownloadOptions, production)]
          [DnsPrefetchControl := SecurityValue(DnsPrefetchControl, production)]
  }

  function PolicyStage(h: map<HeaderName, string>, path: string, production: bool): map<HeaderName, string>
  {
    if StartsWith(path, "/admin") then h[ContentSecurityPolicy := SecurityValue(ContentSecurityPolicy, production)] else h
  }

  /** The headers `securityHeaders` leaves on a response. */
  function SecuredHeaders(h: map<HeaderName, string>, path: string, production: bool): (r: map<HeaderName, string>)
    ensures PoweredBy !in r
  {
    PolicyStage(ProductionStage(BasicStage(h, production), production), path, production) - {PoweredBy}
  }

  /** The four basic headers are on every response. */
  lemma BasicHeadersSet(h: map<HeaderName, string>, path: string, production: bool, k: HeaderName)
    requires k.ContentTypeOptions? || k.FrameOptions? || k.XssProtection? || k.ReferrerPolicy?
    ensures var r := SecuredHeaders(h, path, production); k in r && r[k] == SecurityValue(k, production)
  {
    if k.ContentTypeOptions? {
      assert k == ContentTypeOptions;
      SecuredNoSniff(h, path, production);
    } else if k.FrameOptions? {
      assert k == FrameOptions;
      SecuredFrameOptions(h, path, production);
    } else if k.XssProtection? {
      assert k == XssProtection;
      SecuredXssProtection(h, path, production);
    } else {
      assert k == ReferrerPolicy;
      SecuredReferrerPolicy(h, path, production);
    }
  }

  lemma SecuredNoSniff(h: map<HeaderName, string>, path: string, production: bool)
    ensures var r := SecuredHeaders(h, path, production); ContentTypeOptions in r && r[ContentTypeOptions] == "nosniff"
  {
  }

  lemma SecuredFrameOptions(h: map<HeaderName, string>, path: string, production: bool)
    ensures var r := SecuredHeaders(h, path, production); FrameOptions in r && r[FrameOptions] == "DENY"
  {
  }

  lemma SecuredXssProtection(h: map<HeaderName, string>, path: string, production: bool)
    ensures var r := SecuredHeaders(h, path, production); XssProtection in r && r[XssProtection] == SecurityValue(XssProtection, production)
  {
  }

  lemma SecuredReferrerPolicy(h: map<HeaderName, string>, path: string, production: bool)
    ensures var r := SecuredHeaders(h, path, production); ReferrerPolicy in r && r[ReferrerPolicy] == SecurityValue(ReferrerPolicy, production)
  {
  }

  lemma BasicStageKeeps(h: map<HeaderName, string>, production: bool, k: HeaderName)
    requires !(k.ContentTypeOptions? || k.FrameOptions? || k.XssProtection? || k.ReferrerPolicy?)
    ensures var b := BasicStage(h, production); (k in b <==> k in h) && (k in h ==> b[k] == h[k])
  {
  }

  lemma ProductionStageKeeps(h: map<HeaderName, string>, production: bool, k: HeaderName)
    requires production ==> !(k.TransportSecurity? || k.CrossDomainPolicies? || k.DownloadOptions? || k.DnsPrefetchControl?)
    ensures var p := ProductionStage(h, production); (k in p <==> k in h) && (k in h ==> p[k] == h[k])
  {
  }

  lemma PolicyStageKeeps(h: map<HeaderName, string>, path: string, production: bool, k: HeaderName)
    requires StartsWith(path, "/admin") ==> !k.ContentSecurityPolicy?
    ensures var c := PolicyStage(h, path, production); (k in c <==> k in h) && (k in h ==> c[k] == h[k])
  {
  }

  /** The four production headers are on every production response. */
  lemma ProductionHeadersSet(h: map<HeaderName, string>, path: string, k: HeaderName)
    requires k.TransportSecurity? || k.CrossDomainPolicies? || k.DownloadOptions? || k.DnsPrefetchControl?
    ensures var r := SecuredHeaders(h, path, true); k in r && r[k] == SecurityValue(k, true)
  {
    var p := ProductionStage(BasicStage(h, true), true);
    assert k in p && p[k] == SecurityValue(k, true) by {
      if k.TransportSecurity? { assert k == TransportSecurity; }
      else if k.CrossDomainPolicies? { assert k == CrossDomainPolicies; }
      else if k.DownloadOptions? { assert k == DownloadOptions; }
      else { assert k == DnsPrefetchControl; }
    }
    PolicyStageKeeps(p, path, true, k);
  }

  /** Admin pages get the policy of their environment. */
  lemma PolicyHeaderSet(h: map<HeaderName, string>, path: string, production: bool)
    requires StartsWith(path, "/admin")
    ensures var r := SecuredHeaders(h, path, production);
      ContentSecurityPolicy in r && r[ContentSecurityPolicy] == (if production then ProductionCsp else DevelopmentCsp)
  {
  }

  /** Every other header stays as it was, except the server identification. */
  lemma SecuredHeaderKept(h: map<HeaderName, string>, path: string, production: bool, k: HeaderName)
    requires !Sets(k, path, production) && k != PoweredBy
    ensures var r := SecuredHeaders(h, path, production); (k in r <==> k in h) && (k in h ==> r[k] == h[k])
  {
    var b := BasicStage(h, production);
    BasicStageKeeps(h, production, k);
    var p := ProductionStage(b, production);
    ProductionStageKeeps(b, production, k);
    PolicyStageKeeps(p, path, production, k);
  }

  /** Outside production the middleware adds none of the production
      headers, and the policy only on admin pages. */
  lemma DevelopmentHeaders(h: map<HeaderName, string>, path: string)
    requires forall k :: k in h ==> k.Other?
    ensures var r := SecuredHeaders(h, path, false);
      TransportSecurity !in r && CrossDomainPolicies !in r && DownloadOptions !in r && DnsPrefetchControl !in r
      && (ContentSecurityPolicy in r <==> StartsWith(path, "/admin"))
  {
  }

  /** `securityHeaders`: sets the headers, removes the server
      identification, and passes the request on. */
  method SecurityHeaders(req: Request, res: Response, production: bool) returns (o: Outcome)
    modifies res
    ensures res.headers == SecuredHeaders(old(res.headers), req.path, production)
    ensures o == Next
  {
    res.SetHeader(ContentTypeOptions, SecurityValue(ContentTypeOptions, production));
    res.SetHeader(FrameOptions, SecurityValue(FrameOptions, production));
    res.SetHeader(XssProtection, SecurityValue(XssProtection, production));
    res.SetHeader(ReferrerPolicy, SecurityValue(ReferrerPolicy, production));
    if production {
      res.SetHeader(TransportSecurity, SecurityValue(TransportSecurity, production));
      res.SetHeader(CrossDomainPolicies, SecurityValue(CrossDomainPolicies, production));
      res.SetHeader(DownloadOptions, SecurityValue(DownloadOptions, production));
      res.SetHeader(DnsPrefetchControl, SecurityValue(DnsPrefetchControl, production));
    }
    if StartsWith(req.path, "/admin") {
      res.SetHeader(ContentSecurityPolicy, SecurityValue(ContentSecurityPolicy, production));
    }
    res.RemoveHeader(PoweredBy);
    o := Next;
  }

  // ---- Data checks ----

  const DangerousKeys: set<string> := {"__proto__", "constructor", "prototype"}

  /** What `sanitizeData` keeps of the copied properties. */
  function Sanitized(m: map<string, Value>): (r: map<string, Value>)
    ensures forall k :: k in r <==> k in m && k !in DangerousKeys && !m[k].Func?
    ensures forall k :: k in r ==> r[k] == m[k]
  {
    map k | k in m && k !in DangerousKeys && !m[k].Func? :: m[k]
  }

  lemma SanitizedIdempotent(m: map<string, Value>)
    ensures Sanitized(Sanitized(m)) == Sanitized(m)
  {
    assert Sanitized(Sanitized(m)).Keys == Sanitized(m).Keys;
  }

  /** Data read from JSON loses only the three dangerous keys. */
  lemma SanitizeJson(m: map<string, Value>)
    requires IsJson(Obj(m))
    ensures Sanitized(m) == m - DangerousKeys
  {
    assert forall k :: k in m ==> !m[k].Func?;
  }

  /** `sanitizeData`: a shallow copy without the dangerous keys and without
      function-valued properties. */
  method SanitizeData(data: Value) returns (r: map<string, Value>)
    ensures forall k :: k in r <==> k in Spread(data) && k !in DangerousKeys && !Spread(data)[k].Func?
    ensures forall k :: k in r ==> r[k] == Spread(data)[k]
  {
    var base := Spread(data) - DangerousKeys;
    r := base;
    var pending := r.Keys;
    while pending != {}
      invariant pending <= base.Keys
      invariant forall k :: k in r <==> k in base && (k in pending || !base[k].Func?)
      invariant forall k :: k in r ==> r[k] == base[k]
      decreases |pending|
    {
      var k :| k in pending;
      if r[k].Func? {
        r := r - {k};
      }
      pending := pending - {k};
    }
  }

  /** An own property, or an index or `length` of an array. */
  predicate HasOwn(data: Value, key: string)
  {
    (data.Obj? && key in data.fields)
    || (data.Arr? && (key == "length" || exists i :: 0 <= i < |data.items| && key == NatText(i)))
  }

  /** `validateJsonStructure(data, expectedKeys)`. */
  method ValidateJsonStructure(data: Value, expectedKeys: seq<string>) returns (r: Result<bool, Error>)
    ensures r.Ok? <==> (data.Obj? || data.Arr?) && forall i :: 0 <= i < |expectedKeys| ==> HasOwn(data, expectedKeys[i])
    ensures r.Ok? ==> r.value
    ensures !(data.Obj? || data.Arr?) ==> r == Err(ValidationError("Invalid data: Expected object", []))
    ensures r.Err? && (data.Obj? || data.Arr?) ==>
      exists i :: 0 <= i < |expectedKeys| && !HasOwn(data, expectedKeys[i])
                  && (forall j :: 0 <= j < i ==> HasOwn(data, expectedKeys[j]))
                  && r.error == ValidationError("Missing required field: " + expectedKeys[i], [])
  {
    if !(data.Obj? || data.Arr?) {
      return Err(ValidationError("Invalid data: Expected object", []));
    }
    var i := 0;
    while i < |expectedKeys|
      invariant 0 <= i <= |expectedKeys|
      invariant forall j :: 0 <= j < i ==> HasOwn(data, expectedKeys[j])
    {
      if !HasOwn(data, expectedKeys[i]) {
        return Err(ValidationError("Missing required field: " + expectedKeys[i], []));
      }
      i := i + 1;
    }
    r := Ok(true);
  }
}
