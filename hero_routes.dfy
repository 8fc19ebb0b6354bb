// The hero routes of the content server. Unlike the other legacy routes
// they run through the async wrapper, so a failure is passed on with
// `next(err)` instead of being answered with the route's own 500; the
// server never mounts its central error handler, so Express's final
// handler answers it. The update is gated by authentication, the admin
// role, the id parameter check and the hero schema, in that order.
module HeroRoutes {
  import opened Wrappers
  import opened JsValue
  import opened AppErrors
  import opened Http
  import opened DocumentStore
  import Auth
  import ValidationMiddleware
  import ResourceSchemas
  import ErrorHandler
  import Schema

  const HeroFile := "data/hero.json"
  const Fetched := "Operation successful"
  const HeroSaved := "Hero data updated successfully"

  /** What a route does: how the request ends, and the files afterwards. */
  datatype Routed = Routed(outcome: Outcome, files: map<string, Entry>)

  /** GET /api/hero: the stored document in the success envelope, or the
      read failure handed to the error handler. */
  function HeroFetch(files: map<string, Entry>, stamp: string): (o: Outcome)
    ensures o.Send? <==> HeroReadable(files)
    ensures o.Send? ==> o.reply.status == 200 && o.reply.body == ErrorHandler.SuccessBody(files[HeroFile].v, Fetched, stamp)
    ensures o.Fail? ==> o.err == Read(files, HeroFile).error
    ensures !o.Next?
  {
    match Read(files, HeroFile)
    case Ok(v) => Send(Reply(200, ErrorHandler.SuccessBody(v, Fetched, stamp)))
    case Err(e) => Fail(e)
  }

  /** The hero document can be read. */
  predicate HeroReadable(files: map<string, Entry>)
  {
    HeroFile in files && files[HeroFile].JsonText?
  }

  /** As the server stands, Express's final handler answers a failed
      read: a missing hero document is a 404 and a garbled one a 500, from
      the `statusCode` of their errors, and outside production the page
      shows the stack. */
  lemma HeroFetchFailures(files: map<string, Entry>, stamp: string, production: bool, trace: string)
    ensures HeroFetch(files, stamp).Fail? ==> !production ==> FinalHandler(HeroFetch(files, stamp).err, production, trace).page == StackPage(trace)
    ensures HeroFile !in files ==>
              HeroFetch(files, stamp).Fail? && FinalHandler(HeroFetch(files, stamp).err, production, trace).status == 404
    ensures HeroFile in files && files[HeroFile].Garbled? ==>
              HeroFetch(files, stamp).Fail? && FinalHandler(HeroFetch(files, stamp).err, production, trace).status == 500
  {
    var o := HeroFetch(files, stamp);
    if o.Fail? {
      assert o.err == Read(files, HeroFile).error;
      assert !ErrorStatus(o.err.status);
    }
  }

  /** Once the central error handler is mounted, a missing hero document
      is a 404 and a garbled one a 500 in its error envelope. */
  lemma HeroFetchFailuresMounted(files: map<string, Entry>, stamp: string, production: bool, now: string, trace: string)
    ensures HeroFile !in files ==>
              HeroFetch(files, stamp).Fail? && ErrorHandler.HandleError(HeroFetch(files, stamp).err, production, now, trace).status == 404
    ensures HeroFile in files && files[HeroFile].Garbled? ==>
              HeroFetch(files, stamp).Fail? && ErrorHandler.HandleError(HeroFetch(files, stamp).err, production, now, trace).status == 500
  {
  }

  /** A stored `null` is answered without a `data` member. */
  lemma HeroFetchNull(files: map<string, Entry>, stamp: string)
    requires HeroFile in files && files[HeroFile] == JsonText(Null)
    ensures HeroFetch(files, stamp).Send? && "data" !in HeroFetch(files, stamp).reply.body.fields
  {
  }

  /** PUT /api/hero/:id: `requireAuth`, `requireAdmin`, `validateIdParam`,
      `validateHero`, then the write of the validated body. */
  function HeroUpdate(lib: Auth.TokenLibrary, headers: map<string, string>, params: Value, body: Value,
                      files: map<string, Entry>, now: int, stamp: string): (r: Routed)
    ensures r == Gated(lib, headers, params, ValidationMiddleware.SchemaCheck(ResourceSchemas.Hero, body), files, now, stamp)
  {
    Gated(lib, headers, params, ValidationMiddleware.SchemaCheck(ResourceSchemas.Hero, body), files, now, stamp)
  }

  /** The middleware chain of the update, given what the hero schema check
      decided about the body. */
  function Gated(lib: Auth.TokenLibrary, headers: map<string, string>, params: Value, checked: Result<Value, Reply>,
                 files: map<string, Entry>, now: int, stamp: string): (r: Routed)
  {
    match Auth.AuthCheck(lib, headers, now)
    case Err(refusal) => Routed(Send(refusal), files)
    case Ok(claims) =>
      var admin := Auth.AdminCheck(Some(claims));
      if !admin.Next? then Routed(admin, files)
      else match ValidationMiddleware.IdParamCheck(params)
        case Err(refusal) => Routed(Send(refusal), files)
        case Ok(_) => match checked
          case Err(refusal) => Routed(Send(refusal), files)
          case Ok(hero) => Stored(files, hero, stamp)
  }

  /** The write at the end of the hero update. */
  function Stored(files: map<string, Entry>, hero: Value, stamp: string): (r: Routed)
    ensures r.outcome.Send? <==> Write(files, HeroFile, hero).result.Ok?
    ensures r.outcome.Send? ==> r.outcome.reply == Reply(200, ErrorHandler.SuccessBody(Null, HeroSaved, stamp))
    ensures r.outcome.Fail? ==> r.outcome.err == Write(files, HeroFile, hero).result.error
    ensures r.files == Write(files, HeroFile, hero).files
  {
    var w := Write(files, HeroFile, hero);
    if w.result.Ok? then Routed(Send(Reply(200, ErrorHandler.SuccessBody(Null, HeroSaved, stamp))), w.files)
    else Routed(Fail(w.result.error), w.files)
  }

  /** The caller is an authenticated admin with a well-formed id. */
  predicate Admin(lib: Auth.TokenLibrary, headers: map<string, string>, params: Value, now: int)
  {
    && Auth.AuthCheck(lib, headers, now).Ok?
    && Prop(Auth.AuthCheck(lib, headers, now).value, "role") == Some(Str("admin"))
    && ValidationMiddleware.IdParamCheck(params).Ok?
  }

  /** Nothing is written unless every gate passes, each refusing gate
      answers with its own reply, and the gates run in order. */
  lemma GatedRefusals(lib: Auth.TokenLibrary, headers: map<string, string>, params: Value, checked: Result<Value, Reply>,
                      files: map<string, Entry>, now: int, stamp: string)
    ensures !(Admin(lib, headers, params, now) && checked.Ok?) ==>
              Gated(lib, headers, params, checked, files, now, stamp).files == files
              && Gated(lib, headers, params, checked, files, now, stamp).outcome.Send?
    ensures Auth.AuthCheck(lib, headers, now).Err? ==>
              Gated(lib, headers, params, checked, files, now, stamp).outcome == Send(Auth.AuthCheck(lib, headers, now).error)
    ensures Auth.AuthCheck(lib, headers, now).Ok? && Prop(Auth.AuthCheck(lib, headers, now).value, "role") != Some(Str("admin")) ==>
              Gated(lib, headers, params, checked, files, now, stamp).outcome == Send(Auth.NotAdmin)
    ensures Auth.AuthCheck(lib, headers, now).Ok? && Prop(Auth.AuthCheck(lib, headers, now).value, "role") == Some(Str("admin"))
            && ValidationMiddleware.IdParamCheck(params).Err? ==>
              Gated(lib, headers, params, checked, files, now, stamp).outcome == Send(ValidationMiddleware.InvalidIdReply)
    ensures Admin(lib, headers, params, now) && checked.Err? ==>
              Gated(lib, headers, params, checked, files, now, stamp).outcome == Send(checked.error)
  {
    var c := Auth.AuthCheck(lib, headers, now);
    if c.Ok? {
      assert c.value != Null;
    }
  }

  /** An admitted update stores the checked value and answers 200. */
  lemma GatedStores(lib: Auth.TokenLibrary, headers: map<string, string>, params: Value, hero: Value,
                    files: map<string, Entry>, now: int, stamp: string)
    requires Admin(lib, headers, params, now)
    requires Writable(files, HeroFile) && !HasBigInt(hero) && !hero.Func?
    ensures Gated(lib, headers, params, Ok(hero), files, now, stamp).outcome
            == Send(Reply(200, ErrorHandler.SuccessBody(Null, HeroSaved, stamp)))
    ensures Read(Gated(lib, headers, params, Ok(hero), files, now, stamp).files, HeroFile) == Ok(Normalize(hero))
  {
    ReadAfterWrite(files, HeroFile, hero);
  }

  /** A hero body that fails its schema, an unknown top-level key for one,
      gets the 400 of the validation with nothing written, whatever the
      file system holds. */
  lemma HeroUpdateRefusesInvalid(lib: Auth.TokenLibrary, headers: map<string, string>, params: Value, body: Value,
                                 files: map<string, Entry>, now: int, stamp: string)
    requires Admin(lib, headers, params, now)
    requires ValidationMiddleware.SchemaCheck(ResourceSchemas.Hero, body).Err?
    ensures HeroUpdate(lib, headers, params, body, files, now, stamp).files == files
    ensures HeroUpdate(lib, headers, params, body, files, now, stamp).outcome.reply.status == 400
  {
    GatedRefusals(lib, headers, params, ValidationMiddleware.SchemaCheck(ResourceSchemas.Hero, body), files, now, stamp);
  }

  /** An admitted update with a valid hero stores the validated value,
      defaults filled, and answers 200. */
  lemma HeroUpdateStores(lib: Auth.TokenLibrary, headers: map<string, string>, params: Value, body: Value,
                         files: map<string, Entry>, now: int, stamp: string)
    requires Admin(lib, headers, params, now)
    requires ValidationMiddleware.SchemaCheck(ResourceSchemas.Hero, body).Ok?
    requires Writable(files, HeroFile)
    requires !HasBigInt(ValidationMiddleware.SchemaCheck(ResourceSchemas.Hero, body).value)
    requires !ValidationMiddleware.SchemaCheck(ResourceSchemas.Hero, body).value.Func?
    ensures HeroUpdate(lib, headers, params, body, files, now, stamp).outcome.reply.status == 200
    ensures Read(HeroUpdate(lib, headers, params, body, files, now, stamp).files, HeroFile)
            == Ok(Normalize(ValidationMiddleware.SchemaCheck(ResourceSchemas.Hero, body).value))
  {
    GatedStores(lib, headers, params, ValidationMiddleware.SchemaCheck(ResourceSchemas.Hero, body).value, files, now, stamp);
  }

  /** The hero routes over the persistence layer. */
  class HeroServer {
    const disk: Disk

    constructor (disk: Disk)
      ensures this.disk == disk
    {
      this.disk := disk;
    }

    /** GET /api/hero. */
    method GetHero(stamp: string) returns (o: Outcome)
      requires disk.Valid()
      ensures o == HeroFetch(disk.files, stamp)
    {
      var r := disk.SafeRead(HeroFile);
      match r
      case Ok(v) => o := Send(Reply(200, ErrorHandler.SuccessBody(v, Fetched, stamp)));
      case Err(e) => o := Fail(e);
    }

    /** PUT /api/hero/:id. */
    method PutHero(lib: Auth.TokenLibrary, req: Request, now: int, stamp: string) returns (o: Outcome)
      requires disk.Valid()
      modifies req, disk
      ensures disk.Valid()
      ensures Routed(o, disk.files) == HeroUpdate(lib, old(req.headers), old(req.params), old(req.body), old(disk.files), now, stamp)
    {
      o := PutChecked(lib, req, ResourceSchemas.Hero, now, stamp);
    }

    /** The update's middleware, one after the other, with the body checked
        against `s`. */
    method PutChecked(lib: Auth.TokenLibrary, req: Request, s: Schema.Schema, now: int, stamp: string) returns (o: Outcome)
      requires disk.Valid()
      modifies req, disk
      ensures disk.Valid()
      ensures Routed(o, disk.files)
              == Gated(lib, old(req.headers), old(req.params), ValidationMiddleware.SchemaCheck(s, old(req.body)), old(disk.files), now, stamp)
    {
      o := Auth.RequireAuth(lib, req, now);
      if o != Next {
        return;
      }
      o := Auth.RequireAdmin(req);
      if o != Next {
        return;
      }
      o := ValidationMiddleware.ValidateIdParam(req);
      if o != Next {
        return;
      }
      o := ValidationMiddleware.ValidateSchema(s, req, ValidationMiddleware.BodyPart);
      if o != Next {
        return;
      }
      var w := disk.SafeWrite(HeroFile, req.body);
      if w.Ok? {
        o := Send(Reply(200, ErrorHandler.SuccessBody(Null, HeroSaved, stamp)));
      } else {
        o := Fail(w.error);
      }
    }
  }
}
