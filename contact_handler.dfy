// The serverless contact endpoint: it sets the CORS headers, answers a
// preflight, refuses every method but POST, checks that the four fields are
// there and that the e-mail address has the shape `x@y.z`, and then answers
// 200 whatever happens to the notification e-mail. Only an error thrown
// while reading the body gives 500.
module ContactHandler {
  import opened Wrappers
  import opened Strings
  import opened JsValue
  import opened Verdicts
  import opened Http
  import Patterns

  // ---- CORS headers ----

  /** The CORS headers, in the order they are set. */
  const CorsHeaders: seq<(string, string)> :=
    [("Access-Control-Allow-Origin", "*"),
     ("Access-Control-Allow-Methods", "POST, OPTIONS"),
     ("Access-Control-Allow-Headers", "Content-Type")]

  /** A header table after setting `pairs` one after the other. */
  function WithHeaders(h: map<HeaderName, string>, pairs: seq<(string, string)>): map<HeaderName, string>
  {
    if pairs == [] then h
    else WithHeaders(h, pairs[..|pairs| - 1])[Other(pairs[|pairs| - 1].0) := pairs[|pairs| - 1].1]
  }

  /** A header that none of the pairs names is left as it was. */
  lemma {:induction false} WithHeadersKeeps(h: map<HeaderName, string>, pairs: seq<(string, string)>, k: HeaderName)
    requires forall i | 0 <= i < |pairs| :: k != Other(pairs[i].0)
    ensures k in WithHeaders(h, pairs) <==> k in h
    ensures k in h ==> WithHeaders(h, pairs)[k] == h[k]
  {
    if pairs != [] {
      var init := pairs[..|pairs| - 1];
      assert forall i | 0 <= i < |init| :: init[i] == pairs[i];
      WithHeadersKeeps(h, init, k);
    }
  }

  /** A header named by a pair that no later pair names ends with that pair's value. */
  lemma {:induction false} WithHeadersSets(h: map<HeaderName, string>, pairs: seq<(string, string)>, i: nat)
    requires i < |pairs| && forall j | i < j < |pairs| :: pairs[j].0 != pairs[i].0
    ensures Other(pairs[i].0) in WithHeaders(h, pairs)
    ensures WithHeaders(h, pairs)[Other(pairs[i].0)] == pairs[i].1
  {
    if i < |pairs| - 1 {
      var init := pairs[..|pairs| - 1];
      assert init[i] == pairs[i];
      assert forall j | i < j < |init| :: init[j] == pairs[j];
      WithHeadersSets(h, init, i);
    }
  }

  /** Every response carries the three CORS headers with their values, and
      every other header is left as it was. */
  lemma CorsHeadersSet(h: map<HeaderName, string>)
    ensures forall i | 0 <= i < |CorsHeaders| ::
              Other(CorsHeaders[i].0) in WithHeaders(h, CorsHeaders)
              && WithHeaders(h, CorsHeaders)[Other(CorsHeaders[i].0)] == CorsHeaders[i].1
    ensures forall k | (forall i | 0 <= i < |CorsHeaders| :: k != Other(CorsHeaders[i].0)) ::
              (k in WithHeaders(h, CorsHeaders) <==> k in h) && (k in h ==> WithHeaders(h, CorsHeaders)[k] == h[k])
  {
    var names := [CorsHeaders[0].0, CorsHeaders[1].0, CorsHeaders[2].0];
    assert |names[0]| == 27 && |names[1]| == 28 && names[1][21] == 'M' && names[2][21] == 'H';
    forall i | 0 <= i < |CorsHeaders|
      ensures Other(CorsHeaders[i].0) in WithHeaders(h, CorsHeaders)
      ensures WithHeaders(h, CorsHeaders)[Other(CorsHeaders[i].0)] == CorsHeaders[i].1
    {
      WithHeadersSets(h, CorsHeaders, i);
    }
    forall k | (forall i | 0 <= i < |CorsHeaders| :: k != Other(CorsHeaders[i].0))
      ensures (k in WithHeaders(h, CorsHeaders) <==> k in h) && (k in h ==> WithHeaders(h, CorsHeaders)[k] == h[k])
    {
      WithHeadersKeeps(h, CorsHeaders, k);
    }
  }

  /** `Object.entries(corsHeaders).forEach(…)`. */
  method SetCorsHeaders(res: Response)
    modifies res
    ensures res.headers == WithHeaders(old(res.headers), CorsHeaders)
  {
    for i := 0 to |CorsHeaders|
      invariant res.headers == WithHeaders(old(res.headers), CorsHeaders[..i])
    {
      assert CorsHeaders[..i + 1][..i] == CorsHeaders[..i];
      res.SetHeader(Other(CorsHeaders[i].0), CorsHeaders[i].1);
    }
    assert CorsHeaders[..|CorsHeaders|] == CorsHeaders;
  }

  // ---- The request and its answer ----

  /** `req.method`, and `req.body` (`None` when it is `undefined`). */
  datatype ContactRequest = ContactRequest(verb: string, body: Option<Value>)

  /** The four fields the form must send. */
  datatype Field = NameField | EmailField | ReasonField | MessageField

  /** The property name of a field, as listed in `missingFields`. */
  function FieldName(f: Field): string
  {
    match f
    case NameField => "name"
    case EmailField => "email"
    case ReasonField => "reason"
    case MessageField => "message"
  }

  /** The place of a field in the order the check lists them. */
  function Rank(f: Field): nat
  {
    match f
    case NameField => 0
    case EmailField => 1
    case ReasonField => 2
    case MessageField => 3
  }

  /** What the notification e-mail came to: no SMTP settings, sent, or an
      error with its `code` and `responseCode`. */
  datatype Mail = NotConfigured | Sent | MailError(code: string, responseCode: Option<int>)

  /** The answers of the endpoint. */
  datatype Answer =
    | Preflight                          // 200 { message: 'OK' }
    | MethodNotAllowed                   // 405 'Method not allowed'
    | FieldsMissing(fields: seq<Field>)  // 400 'All fields are required', missingFields
    | InvalidEmail                       // 400 'Please provide a valid email address'
    | Received(submittedAt: string)      // 200 success, submittedAt
    | Failed(debug: bool, timestamp: string)  // 500, the error's message only in development

  function Status(a: Answer): nat
  {
    match a
    case Preflight => 200
    case MethodNotAllowed => 405
    case FieldsMissing(_) => 400
    case InvalidEmail => 400
    case Received(_) => 200
    case Failed(_, _) => 500
  }

  /** A field is missing when its property is falsy (`!name`). */
  predicate Absent(body: Value, f: Field)
  {
    !Present(Prop(body, FieldName(f)))
  }

  /** The fields pushed onto `missingFields`, in order, given which are absent. */
  function Listed(name: bool, email: bool, reason: bool, message: bool): seq<Field>
  {
    Flag(name, NameField) + Flag(email, EmailField) + Flag(reason, ReasonField) + Flag(message, MessageField)
  }

  /** `missingFields`. */
  function Missing(body: Value): seq<Field>
  {
    Listed(Absent(body, NameField), Absent(body, EmailField), Absent(body, ReasonField), Absent(body, MessageField))
  }

  /** `/^[^\s@]+@[^\s@]+\.[^\s@]+$/.test(email)`, which tests `String(email)`;
      a value without a text the model can write is one the pattern refuses. */
  predicate EmailAccepted(email: Option<Value>)
  {
    match ValueText(email)
    case Some(s) => Patterns.SimpleEmail(s)
    case None => false
  }

  /** The body cannot be read: `JSON.stringify` of the body (for the log)
      throws on a BigInt, and destructuring `undefined` or `null` throws. */
  predicate Unreadable(body: Option<Value>)
  {
    body.None? || body.value.Null? || HasBigInt(body.value)
  }

  /** The answer of `handler(req, res)`; `now` is `new Date().toISOString()`,
      `development` is `NODE_ENV === 'development'`. A preflight is answered
      before the method check, every method but OPTIONS and POST is refused,
      and only a POST whose body cannot be read is answered 500. */
  function Respond(req: ContactRequest, mail: Mail, now: string, development: bool): (r: Answer)
    ensures req.verb == "OPTIONS" <==> r == Preflight
    ensures r == MethodNotAllowed <==> req.verb != "OPTIONS" && req.verb != "POST"
    ensures Status(r) == 500 <==> req.verb == "POST" && Unreadable(req.body)
  {
    if req.verb == "OPTIONS" then Preflight
    else if req.verb != "POST" then MethodNotAllowed
    else if Unreadable(req.body) then Failed(development, now)
    else if Missing(req.body.value) != [] then FieldsMissing(Missing(req.body.value))
    else if !EmailAccepted(Prop(req.body.value, "email")) then InvalidEmail
    else Received(now)
  }

  /** `handler(req, res)`. SMTP is abstracted to what it came to, `mail`;
      any error it raises is caught and only logged. */
  method Handle(req: ContactRequest, res: Response, mail: Mail, now: string, development: bool) returns (a: Answer)
    modifies res
    ensures res.headers == WithHeaders(old(res.headers), CorsHeaders)
    ensures a == Respond(req, mail, now, development)
  {
    SetCorsHeaders(res);
    if req.verb == "OPTIONS" {
      return Preflight;
    }
    if req.verb != "POST" {
      return MethodNotAllowed;
    }
    // inside `try`: logging the body, then destructuring it
    if req.body.Some? && HasBigInt(req.body.value) {
      return Failed(development, now);
    }
    if req.body.None? || req.body.value.Null? {
      return Failed(development, now);
    }
    var body := req.body.value;
    var missing := MissingFields(body);
    if missing != [] {
      return FieldsMissing(missing);
    }
    if !EmailAccepted(Prop(body, "email")) {
      return InvalidEmail;
    }
    var _ := MailFailure(mail);
    a := Received(now);
  }

  /** The `missingFields.push` sequence. */
  method MissingFields(body: Value) returns (missing: seq<Field>)
    ensures missing == Missing(body)
  {
    missing := PushIf([], Absent(body, NameField), NameField);
    assert missing == Flag(Absent(body, NameField), NameField);
    missing := PushIf(missing, Absent(body, EmailField), EmailField);
    missing := PushIf(missing, Absent(body, ReasonField), ReasonField);
    missing := PushIf(missing, Absent(body, MessageField), MessageField);
  }

  /** The message the SMTP failure branch works out, and then only logs. */
  datatype MailFailureText = AuthenticationFailed | ServerNotFound | ConnectionFailed | SendFailed

  method MailFailure(mail: Mail) returns (r: Option<MailFailureText>)
    ensures mail.MailError? <==> r.Some?
    ensures mail.MailError? && (mail.code == "EAUTH" || mail.responseCode == Some(535)) ==> r == Some(AuthenticationFailed)
    ensures r == Some(SendFailed) <==>
              mail.MailError? && mail.code !in {"EAUTH", "ENOTFOUND", "ECONNECTION"} && mail.responseCode != Some(535)
  {
    if !mail.MailError? {
      return None;
    }
    if mail.code == "EAUTH" || mail.responseCode == Some(535) {
      r := Some(AuthenticationFailed);
    } else if mail.code == "ENOTFOUND" {
      r := Some(ServerNotFound);
    } else if mail.code == "ECONNECTION" {
      r := Some(ConnectionFailed);
    } else {
      r := Some(SendFailed);
    }
  }

  // ---- What the endpoint promises ----

  /** Which of the four flags is the one of field `f`. */
  function Chosen(f: Field, name: bool, email: bool, reason: bool, message: bool): bool
  {
    match f
    case NameField => name
    case EmailField => email
    case ReasonField => reason
    case MessageField => message
  }

  lemma ListedIn(name: bool, email: bool, reason: bool, message: bool, f: Field)
    ensures f in Listed(name, email, reason, message) <==> Chosen(f, name, email, reason, message)
  {
    var p1 := Flag(name, NameField);
    var p2 := p1 + Flag(email, EmailField);
    var p3 := p2 + Flag(reason, ReasonField);
    FlagIn([], name, NameField, f);
    assert [] + p1 == p1;
    FlagIn(p1, email, EmailField, f);
    FlagIn(p2, reason, ReasonField, f);
    FlagIn(p3, message, MessageField, f);
  }

  /** A field is listed exactly when its property is falsy. */
  lemma MissingIff(body: Value, f: Field)
    ensures f in Missing(body) <==> Absent(body, f)
  {
    ListedIn(Absent(body, NameField), Absent(body, EmailField), Absent(body, ReasonField), Absent(body, MessageField), f);
  }

  /** The fields are listed in the order name, email, reason, message. */
  predicate InOrder(fields: seq<Field>)
  {
    forall i, j | 0 <= i < j < |fields| :: Rank(fields[i]) < Rank(fields[j])
  }

  predicate Below(fields: seq<Field>, r: nat)
  {
    forall i | 0 <= i < |fields| :: Rank(fields[i]) < r
  }

  lemma FlagInOrder(xs: seq<Field>, absent: bool, f: Field)
    requires InOrder(xs) && Below(xs, Rank(f))
    ensures InOrder(xs + Flag(absent, f)) && Below(xs + Flag(absent, f), Rank(f) + 1)
  {
  }

  lemma ListedInOrder(name: bool, email: bool, reason: bool, message: bool)
    ensures InOrder(Listed(name, email, reason, message))
  {
    var p1 := Flag(name, NameField);
    var p2 := p1 + Flag(email, EmailField);
    var p3 := p2 + Flag(reason, ReasonField);
    FlagInOrder([], name, NameField);
    assert [] + p1 == p1;
    FlagInOrder(p1, email, EmailField);
    FlagInOrder(p2, reason, ReasonField);
    FlagInOrder(p3, message, MessageField);
    assert Listed(name, email, reason, message) == p3 + Flag(message, MessageField);
  }

  /** A POST with a readable body and a missing field is answered 400 with
      exactly the missing fields, in order. */
  lemma MissingAnswered(req: ContactRequest, mail: Mail, now: string, development: bool, f: Field)
    requires req.verb == "POST" && !Unreadable(req.body) && Absent(req.body.value, f)
    ensures Respond(req, mail, now, development).FieldsMissing?
    ensures Status(Respond(req, mail, now, development)) == 400
    ensures forall g :: g in Respond(req, mail, now, development).fields <==> Absent(req.body.value, g)
    ensures InOrder(Respond(req, mail, now, development).fields)
  {
    MissingIff(req.body.value, f);
    forall g ensures g in Missing(req.body.value) <==> Absent(req.body.value, g) {
      MissingIff(req.body.value, g);
    }
    var b := req.body.value;
    ListedInOrder(Absent(b, NameField), Absent(b, EmailField), Absent(b, ReasonField), Absent(b, MessageField));
  }

  /** A submission with all four fields and an address of the right shape
      is answered 200 with the time it was received, whatever the e-mail
      came to; without such an address it is answered 400. */
  lemma SubmissionAnswered(req: ContactRequest, mail: Mail, now: string, development: bool)
    requires req.verb == "POST" && !Unreadable(req.body)
    requires forall f :: !Absent(req.body.value, f)
    ensures EmailAccepted(Prop(req.body.value, "email")) ==> Respond(req, mail, now, development) == Received(now)
    ensures !EmailAccepted(Prop(req.body.value, "email")) ==> Respond(req, mail, now, development) == InvalidEmail
  {
    forall g ensures g !in Missing(req.body.value) {
      MissingIff(req.body.value, g);
    }
    assert Missing(req.body.value) == [];
  }
}
