// The validation middleware of the content API: `validateSchema` checks a
// request part against a rule table with every violation reported and
// unknown keys stripped, then replaces the part with the validated value;
// `validateFileUpload` checks the upload metadata; `validateIdParam` checks
// and converts the `:id` route parameter.
module ValidationMiddleware {
  import opened Wrappers
  import opened Strings
  import opened JsValue
  import opened Schema
  import opened SchemaFacts
  import opened ResourceSchemas
  import opened ResourceFacts
  import opened JsValueFacts
  import opened Http
  import Patterns

  /** The request property `validateSchema` checks. */
  datatype Part = BodyPart | QueryPart

  // ---- validateSchema ----

  /** One reported detail: the path joined by `.`, the message and, when
      the detail has one, the offending value (an undefined value is left
      out of the JSON). */
  function DetailEntry(d: Detail): Value
  {
    var base := map["field" := Str(FieldName(d.path)), "message" := Str(Message(d))];
    Obj(if d.value.Some? then base["value" := d.value.value] else base)
  }

  function DetailEntries(errors: seq<Detail>): (r: seq<Value>)
    ensures |r| == |errors|
    ensures forall i :: 0 <= i < |errors| ==> r[i] == DetailEntry(errors[i])
  {
    seq(|errors|, i requires 0 <= i < |errors| => DetailEntry(errors[i]))
  }

  function ValidationFailure(errors: seq<Detail>): Reply
  {
    Reply(400, Obj(map["success" := Bool(false), "error" := Str("Validation failed"),
                       "code" := Str("VALIDATION_ERROR"), "details" := Arr(DetailEntries(errors))]))
  }

  /** What `validateSchema(schema)` decides about a request part: the
      validated value to put in its place, or the 400 reply. */
  function SchemaCheck(s: Schema, v: Value): (r: Result<Value, Reply>)
    ensures r.Ok? <==> Validate(s, v, RequestOptions).errors == []
    ensures r.Ok? ==> r.value == Validate(s, v, RequestOptions).value
    ensures r.Err? ==> r.error.status == 400
  {
    var c := Validate(s, v, RequestOptions);
    if c.errors == [] then Ok(c.value) else Err(ValidationFailure(c.errors))
  }

  /** The details of a rejection, in the order they were found. */
  function ReportedDetails(r: Reply): seq<Value>
  {
    if r.body.Obj? && "details" in r.body.fields && r.body.fields["details"].Arr? then r.body.fields["details"].items else []
  }

  lemma FailureDetails(errors: seq<Detail>)
    ensures ReportedDetails(ValidationFailure(errors)) == DetailEntries(errors)
    ensures ValidationFailure(errors).body.fields["code"] == Str("VALIDATION_ERROR")
  {
  }

  /** A reported detail carries the joined path, the message, and the
      value exactly when the detail has one. */
  lemma DetailEntryFields(d: Detail)
    ensures var e := DetailEntry(d).fields;
            "field" in e && e["field"] == Str(FieldName(d.path))
            && "message" in e && e["message"] == Str(Message(d))
            && ("value" in e <==> d.value.Some?)
  {
  }

  /** Every violation anywhere in the value is reported, not only the
      first. */
  lemma EveryViolationReported(s: Schema, v: Value, d: Detail)
    requires d in Walk(s, v, [], true).errors
    ensures SchemaCheck(s, v).Err?
    ensures SchemaCheck(s, v).error.body.fields["code"] == Str("VALIDATION_ERROR")
    ensures DetailEntry(d) in ReportedDetails(SchemaCheck(s, v).error)
  {
    RequestReports(s, v, d);
    var errors := Validate(s, v, RequestOptions).errors;
    FailureDetails(errors);
    var i :| 0 <= i < |errors| && errors[i] == d;
    assert DetailEntries(errors)[i] == DetailEntry(d);
  }

  /** A part that passes comes out conforming to the table. */
  lemma SchemaCheckSound(s: Schema, v: Value)
    requires WellFormed(s) && SchemaCheck(s, v).Ok?
    ensures Conforms(s, SchemaCheck(s, v).value)
  {
    ValidateSound(s, v, RequestOptions);
  }

  /** A conforming part passes unchanged. */
  lemma SchemaCheckComplete(s: Schema, v: Value)
    requires WellFormed(s) && Conforms(s, v)
    ensures SchemaCheck(s, v) == Ok(v)
  {
    ValidateComplete(s, v, RequestOptions);
  }

  /** Checking the value a check put in place passes it unchanged. */
  lemma SchemaCheckIdempotent(s: Schema, v: Value)
    requires WellFormed(s) && SchemaCheck(s, v).Ok?
    ensures SchemaCheck(s, SchemaCheck(s, v).value) == SchemaCheck(s, v)
  {
    ValidateIdempotent(s, v, RequestOptions);
  }

  /** `validateSchema(schema, property)`: on a violation the 400 reply
      with the request untouched; otherwise the part is replaced by the
      validated value and the request goes on. */
  method ValidateSchema(s: Schema, req: Request, part: Part) returns (o: Outcome)
    modifies req`body, req`query
    ensures var c := SchemaCheck(s, if part == BodyPart then old(req.body) else old(req.query));
            if c.Err? then o == Send(c.error) && req.body == old(req.body) && req.query == old(req.query)
            else o == Next
                 && req.body == (if part == BodyPart then c.value else old(req.body))
                 && req.query == (if part == QueryPart then c.value else old(req.query))
  {
    var input := if part == BodyPart then req.body else req.query;
    var c := Validate(s, input, RequestOptions);
    if c.errors != [] {
      o := Send(ValidationFailure(c.errors));
    } else {
      if part == BodyPart {
        req.body := c.value;
      } else {
        req.query := c.value;
      }
      o := Next;
    }
  }

  // ---- The resource validators, at the level of the reply ----

  /** A hero body without one of its three required texts gets a 400 whose
      details name that key as required. */
  lemma HeroMissingTextRejected(m: map<string, Value>, key: string)
    requires key == "title" || key == "atelierTitle" || key == "atelierDescription"
    requires key !in m
    ensures SchemaCheck(Hero, Obj(m)).Err?
    ensures Obj(map["field" := Str(key), "message" := Str("\"" + key + "\" is required")])
              in ReportedDetails(SchemaCheck(Hero, Obj(m)).error)
  {
    HeroMissingTextReported(m, key);
    var d := Detail([Key(key)], AnyRequired, None);
    HeroWellFormed();
    MissingRequiredReported(Hero, m, HeroTextIndex(key), [], true);
    assert [] + [Key(key)] == [Key(key)];
    EveryViolationReported(Hero, Obj(m), d);
  }

  /** A hero body with a key the table does not name gets a 400 naming
      that key: the hero table forbids unknown keys although the validator
      strips them elsewhere. */
  lemma HeroExtraKeyRejected(m: map<string, Value>, key: string)
    requires key in m && !IsFieldKey(HeroFields, key)
    ensures SchemaCheck(Hero, Obj(m)).Err?
    ensures DetailEntry(Detail([Key(key)], ObjectUnknown, Some(m[key]))) in ReportedDetails(SchemaCheck(Hero, Obj(m)).error)
  {
    UnknownKeyReported(Hero, m, key, [], true);
    assert [] + [Key(key)] == [Key(key)];
    EveryViolationReported(Hero, Obj(m), Detail([Key(key)], ObjectUnknown, Some(m[key])));
  }

  /** A work project whose category is not one of the six gets a 400 at
      `category`. */
  lemma ProjectCategoryRejected(m: map<string, Value>, c: string)
    requires "category" in m && m["category"] == Str(c) && c !in Categories
    ensures SchemaCheck(WorkProject, Obj(m)).Err?
    ensures DetailEntry(Detail([Key("category")], AnyOnly(Categories), Some(Str(c))))
              in ReportedDetails(SchemaCheck(WorkProject, Obj(m)).error)
  {
    ProjectCategoryReported(m, c);
    var d := Detail([Key("category")], AnyOnly(Categories), Some(Str(c)));
    var errors := Validate(WorkProject, Obj(m), RequestOptions).errors;
    FailureDetails(errors);
    var i :| 0 <= i < |errors| && errors[i] == d;
    assert DetailEntries(errors)[i] == DetailEntry(d);
  }

  // ---- validateFileUpload ----

  const NoFileReply := Reply(400, Obj(map["success" := Bool(false), "error" := Str("No file uploaded"), "code" := Str("NO_FILE")]))

  function FileDetailEntry(d: Detail): Value
  {
    Obj(map["field" := Str(FieldName(d.path)), "message" := Str(Message(d))])
  }

  function InvalidFileReply(errors: seq<Detail>): Reply
  {
    Reply(400, Obj(map["success" := Bool(false), "error" := Str("Invalid file upload"), "code" := Str("INVALID_FILE"),
                       "details" := Arr(seq(|errors|, i requires 0 <= i < |errors| => FileDetailEntry(errors[i])))]))
  }

  /** The upload metadata the check accepts: one of the five image types,
      at most ten megabytes, a file name of letters, digits, `_`, `-`, `.`. */
  predicate UploadAcceptable(m: map<string, Value>)
  {
    "mimetype" in m && m["mimetype"].Str? && m["mimetype"].s in ImageTypes
    && "size" in m && m["size"].Num? && m["size"].n <= MaxUploadSize as real
    && "filename" in m && m["filename"].Str? && Patterns.FileName(m["filename"].s)
  }

  /** What `validateFileUpload` answers, `None` when the request goes on.
      The metadata is checked with the library's default options, so at
      most the first violation is reported. */
  function FileCheck(file: Option<Value>): (r: Option<Reply>)
    ensures file.None? ==> r == Some(NoFileReply)
    ensures file.Some? ==> (r.None? <==> Validate(ImageUpload, file.value, DefaultOptions).errors == [])
    ensures r.Some? ==> r.value.status == 400
  {
    if file.None? then Some(NoFileReply)
    else
      var c := Validate(ImageUpload, file.value, DefaultOptions);
      if c.errors == [] then None else Some(InvalidFileReply(c.errors))
  }

  /** For metadata whose properties have the types the upload layer gives
      them, the check passes exactly the acceptable uploads. */
  lemma UploadMeaning(m: map<string, Value>)
    requires "mimetype" in m ==> m["mimetype"].Str?
    requires "size" in m ==> m["size"].Num?
    requires "filename" in m ==> m["filename"].Str?
    ensures FileCheck(Some(Obj(m))).None? <==> UploadAcceptable(m)
  {
    if UploadAcceptable(m) {
      AcceptableUploadPasses(m);
    } else if FileCheck(Some(Obj(m))).None? {
      UploadAcceptedFields(m);
      assert false;
    }
  }

  /** Acceptable upload metadata passes the schema check. */
  lemma AcceptableUploadPasses(m: map<string, Value>)
    requires UploadAcceptable(m)
    ensures Validate(ImageUpload, Obj(m), DefaultOptions).errors == []
  {
    ImageUploadWellFormed();
    var s := ImageUpload;
    assert s.fields[0] == Req("mimetype", Text(false, false, ImageTypes, []));
    assert s.fields[1] == Req("size", Number([AtMost(MaxUploadSize as real)]));
    assert s.fields[2] == Req("filename", Text(false, false, [], [Matches(FileNamePattern)]));
    assert forall i :: 0 <= i < |s.fields| ==> s.fields[i].key in m;
    assert Conforms(s.fields[0].schema, m["mimetype"]);
    assert NumberRuleHolds(s.fields[1].schema.numberRules[0], m["size"].n);
    assert Conforms(s.fields[1].schema, m["size"]);
    assert StringRuleHolds(s.fields[2].schema.rules[0], m["filename"].s);
    assert Conforms(s.fields[2].schema, m["filename"]);
    assert KeysConform(s, m);
    ValidateComplete(s, Obj(m), DefaultOptions);
  }

  lemma UploadAcceptedFields(m: map<string, Value>)
    requires "mimetype" in m ==> m["mimetype"].Str?
    requires "size" in m ==> m["size"].Num?
    requires "filename" in m ==> m["filename"].Str?
    requires Validate(ImageUpload, Obj(m), DefaultOptions).errors == []
    ensures UploadAcceptable(m)
  {
    var s := ImageUpload;
    assert s.fields[0] == Req("mimetype", Text(false, false, ImageTypes, []));
    assert s.fields[1] == Req("size", Number([AtMost(MaxUploadSize as real)]));
    assert s.fields[2] == Req("filename", Text(false, false, [], [Matches(FileNamePattern)]));
    UploadFieldConforms(m, 0);
    UploadFieldConforms(m, 1);
    UploadFieldConforms(m, 2);
    assert NumberRuleHolds(s.fields[1].schema.numberRules[0], m["size"].n);
    assert StringRuleHolds(s.fields[2].schema.rules[0], m["filename"].s);
  }

  /** Each property of accepted upload metadata is present and conforms. */
  lemma UploadFieldConforms(m: map<string, Value>, i: nat)
    requires i < 3
    requires "mimetype" in m ==> m["mimetype"].Str?
    requires "size" in m ==> m["size"].Num?
    requires "filename" in m ==> m["filename"].Str?
    requires Validate(ImageUpload, Obj(m), DefaultOptions).errors == []
    ensures ImageUpload.fields[i].key in m
    ensures Conforms(ImageUpload.fields[i].schema, m[ImageUpload.fields[i].key])
  {
    ImageUploadWellFormed();
    var s := ImageUpload;
    ValidateSound(s, Obj(m), DefaultOptions);
    var w := Validate(s, Obj(m), DefaultOptions).value;
    if s.fields[i].key !in m {
      MissingRequiredReported(s, m, i, [], false);
      assert false;
    }
    FieldConverted(s, m, i, [], false);
    assert w.fields[s.fields[i].key] == m[s.fields[i].key];
    ConformingField(s, w.fields, i);
  }

  /** `validateFileUpload`: no file, or metadata the check rejects, gets
      the 400 reply; otherwise the request goes on. Nothing is changed. */
  method ValidateFileUpload(req: Request) returns (o: Outcome)
    ensures FileCheck(req.file).Some? ==> o == Send(FileCheck(req.file).value)
    ensures FileCheck(req.file).None? ==> o == Next
  {
    if req.file.None? {
      o := Send(NoFileReply);
      return;
    }
    var c := Validate(ImageUpload, req.file.value, DefaultOptions);
    if c.errors != [] {
      o := Send(InvalidFileReply(c.errors));
    } else {
      o := Next;
    }
  }

  // ---- validateIdParam ----

  const InvalidIdReply := Reply(400, Obj(map["success" := Bool(false), "error" := Str("Invalid ID parameter"), "code" := Str("INVALID_ID")]))

  /** What `validateIdParam` makes of the route parameters: the parameters
      with the id converted, or the 400 reply. An absent id passes, since
      the id rule is not required. */
  function IdParamCheck(params: Value): (r: Result<Value, Reply>)
    ensures r.Err? ==> r.error == InvalidIdReply
    ensures Prop(params, "id").None? ==> r == Ok(params)
  {
    match Prop(params, "id")
    case None => Ok(params)
    case Some(id) =>
      var c := Validate(IdRule, id, DefaultOptions);
      if c.errors != [] then Err(InvalidIdReply) else Ok(Obj(params.fields["id" := c.value]))
  }

  /** An id that passes comes out a positive integer, and only the id
      changes. */
  lemma IdParamAccepted(m: map<string, Value>)
    requires "id" in m && IdParamCheck(Obj(m)).Ok?
    ensures var p := IdParamCheck(Obj(m)).value;
            p.Obj? && p.fields.Keys == m.Keys
            && (forall k :: k in m && k != "id" ==> p.fields[k] == m[k])
            && p.fields["id"].Num? && IsIntegral(p.fields["id"].n) && p.fields["id"].n > 0.0
  {
    var c := Validate(IdRule, m["id"], DefaultOptions);
    assert WellFormed(IdRule);
    ValidateSound(IdRule, m["id"], DefaultOptions);
    IdMeaning(c.value);
  }

  /** The decimal text of a positive integer is converted to that number. */
  lemma IdParamOfText(m: map<string, Value>, n: nat)
    requires n > 0 && "id" in m && m["id"] == Str(NatText(n))
    ensures IdParamCheck(Obj(m)) == Ok(Obj(m["id" := Num(n as real)]))
  {
    DecimalValueOfNatText(n);
    assert (n as real).Floor == n;
    assert NumberRuleErrors(IdRule.numberRules, n as real, []) == [];
  }

  /** A numeric id that is not a positive integer is refused. */
  lemma IdParamNumberRejected(m: map<string, Value>, x: real)
    requires "id" in m && m["id"] == Num(x) && !(IsIntegral(x) && x > 0.0)
    ensures IdParamCheck(Obj(m)) == Err(InvalidIdReply)
  {
    if Validate(IdRule, Num(x), DefaultOptions).errors == [] {
      assert WellFormed(IdRule);
      ValidateSound(IdRule, Num(x), DefaultOptions);
      IdMeaning(Num(x));
      assert false;
    }
  }

  /** An id text that does not read as a number is refused. */
  lemma IdParamTextRejected(m: map<string, Value>, t: string)
    requires "id" in m && m["id"] == Str(t) && DecimalValue(t).None?
    ensures IdParamCheck(Obj(m)) == Err(InvalidIdReply)
  {
    assert Walk(IdRule, Str(t), [], false).errors == [Detail([], NumberBase, Some(Str(t)))];
  }

  /** `validateIdParam`: an id the rule refuses gets the 400 reply with the
      parameters untouched; otherwise the converted id is stored and the
      request goes on. */
  method ValidateIdParam(req: Request) returns (o: Outcome)
    modifies req`params
    ensures var c := IdParamCheck(old(req.params));
            if c.Err? then o == Send(c.error) && req.params == old(req.params)
            else o == Next && req.params == c.value
  {
    var id := Prop(req.params, "id");
    if id.None? {
      o := Next;
      return;
    }
    var c := Validate(IdRule, id.value, DefaultOptions);
    if c.errors != [] {
      o := Send(InvalidIdReply);
    } else {
      req.params := Obj(req.params.fields["id" := c.value]);
      o := Next;
    }
  }
}
