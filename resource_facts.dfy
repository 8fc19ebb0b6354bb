// What the rule tables of the content API promise about the documents they
// accept and the ones they reject: required texts, the category list, ids,
// years and image paths, the defaults filled in, and the collection caps.
module ResourceFacts {
  import opened Wrappers
  import opened Strings
  import opened JsValue
  import opened Unicode
  import opened Schema
  import opened SchemaFacts
  import opened ResourceSchemas
  import Patterns

  // ---- The shared rules, stated directly ----

  /** The required-text rule accepts exactly the trimmed strings of 1 to
      1000 UTF-16 code units. */
  lemma RequiredTextMeaning(x: Value)
    ensures Conforms(RequiredText, x) <==> x.Str? && Trimmed(x.s) && 1 <= Utf16Length(x.s) <= 1000
  {
    if x.Str? {
      assert StringRuleHolds(RequiredText.rules[0], x.s) <==> Utf16Length(x.s) >= 1;
      assert StringRuleHolds(RequiredText.rules[1], x.s) <==> Utf16Length(x.s) <= 1000;
    }
  }

  /** The id rule accepts exactly the positive integers. */
  lemma IdMeaning(x: Value)
    ensures Conforms(IdRule, x) <==> x.Num? && IsIntegral(x.n) && x.n > 0.0
  {
    if x.Num? {
      assert NumberRuleHolds(IdRule.numberRules[0], x.n) <==> IsIntegral(x.n);
      assert NumberRuleHolds(IdRule.numberRules[1], x.n) <==> x.n > 0.0;
    }
  }

  /** The year rule accepts exactly the integers from 1900 to 2030. */
  lemma YearMeaning(x: Value)
    ensures Conforms(YearRule, x) <==> x.Num? && IsIntegral(x.n) && 1900.0 <= x.n <= 2030.0
  {
    if x.Num? {
      assert NumberRuleHolds(YearRule.numberRules[0], x.n) <==> IsIntegral(x.n);
      assert NumberRuleHolds(YearRule.numberRules[1], x.n) <==> x.n >= 1900.0;
      assert NumberRuleHolds(YearRule.numberRules[2], x.n) <==> x.n <= 2030.0;
    }
  }

  /** The image-path rule accepts exactly `''` and the image paths. */
  lemma ImagePathMeaning(x: Value)
    ensures Conforms(ImagePathRule, x) <==> x.Str? && (x.s == "" || Patterns.ImagePath(x.s))
  {
    if x.Str? && x.s != "" {
      assert StringRuleHolds(ImagePathRule.rules[0], x.s) <==> Patterns.ImagePath(x.s);
    }
  }

  /** The category rule accepts exactly the six listed categories. */
  lemma CategoryMeaning(x: Value)
    ensures Conforms(CategoryRule, x) <==> x.Str? && x.s in Categories
  {
  }

  // ---- Hero ----

  /** The index in the hero table of each of its three required texts. */
  function HeroTextIndex(key: string): (i: nat)
    requires key == "title" || key == "atelierTitle" || key == "atelierDescription"
    ensures i < |HeroFields| && HeroFields[i].key == key
    ensures HeroFields[i] == Req(key, RequiredText)
  {
    if key == "title" then 1 else if key == "atelierTitle" then 3 else 4
  }

  /** A hero payload without one of its required texts is rejected with a
      detail whose field is that key and whose message says it is required. */
  lemma HeroMissingTextReported(m: map<string, Value>, key: string)
    requires key == "title" || key == "atelierTitle" || key == "atelierDescription"
    requires key !in m
    ensures Detail([Key(key)], AnyRequired, None) in Validate(Hero, Obj(m), RequestOptions).errors
    ensures FieldName([Key(key)]) == key
    ensures Message(Detail([Key(key)], AnyRequired, None)) == "\"" + key + "\" is required"
  {
    HeroWellFormed();
    MissingRejected(Hero, m, HeroTextIndex(key));
    RequiredMessage(key);
  }

  /** The field and message of a missing-key detail at the top level. */
  lemma RequiredMessage(key: string)
    requires key != ""
    ensures FieldName([Key(key)]) == key
    ensures Message(Detail([Key(key)], AnyRequired, None)) == "\"" + key + "\" is required"
  {
    assert [Key(key)][1..] == [];
    assert LabelFrom("", [Key(key)]) == LabelFrom(key, []) == key;
    assert Label([Key(key)]) == key;
    assert "\"" + key + "\" " + "is required" == "\"" + key + "\" is required";
  }

  /** An accepted hero carries each required text trimmed, 1 to 1000
      UTF-16 code units long. */
  lemma HeroAcceptedTexts(v: Value, opts: Options, key: string)
    requires key == "title" || key == "atelierTitle" || key == "atelierDescription"
    requires Validate(Hero, v, opts).errors == []
    ensures Validate(Hero, v, opts).value.Obj?
    ensures key in Validate(Hero, v, opts).value.fields
    ensures var x := Validate(Hero, v, opts).value.fields[key];
            x.Str? && Trimmed(x.s) && 1 <= Utf16Length(x.s) <= 1000
  {
    HeroWellFormed();
    ValidateSound(Hero, v, opts);
    var w := Validate(Hero, v, opts).value;
    ConformingField(Hero, w.fields, HeroTextIndex(key));
    RequiredTextMeaning(w.fields[key]);
  }

  /** A key the hero table does not name is reported even though unknown
      keys are stripped elsewhere: the hero schema forbids them outright. */
  lemma HeroUnknownKeyReported(m: map<string, Value>, key: string)
    requires key in m && !IsFieldKey(HeroFields, key)
    ensures Detail([Key(key)], ObjectUnknown, Some(m[key])) in Validate(Hero, Obj(m), RequestOptions).errors
  {
    UnknownRejected(Hero, m, key);
  }

  /** An accepted hero has nothing but the keys its table names. */
  lemma HeroAcceptedKeys(v: Value, opts: Options)
    requires Validate(Hero, v, opts).errors == []
    ensures Validate(Hero, v, opts).value.Obj?
    ensures forall k :: k in Validate(Hero, v, opts).value.fields ==> IsFieldKey(HeroFields, k)
  {
    HeroWellFormed();
    ValidateSound(Hero, v, opts);
  }

  /** At most ten background images and ten polaroids in an accepted hero. */
  lemma HeroAcceptedCaps(v: Value, opts: Options)
    requires Validate(Hero, v, opts).errors == []
    ensures var w := Validate(Hero, v, opts).value;
            w.Obj?
            && ("backgroundImages" in w.fields ==> w.fields["backgroundImages"].Arr? && |w.fields["backgroundImages"].items| <= 10)
            && ("polaroids" in w.fields ==> w.fields["polaroids"].Arr? && |w.fields["polaroids"].items| <= 10)
  {
    HeroWellFormed();
    ValidateSound(Hero, v, opts);
    var w := Validate(Hero, v, opts).value;
    ConformingField(Hero, w.fields, 6);
    ConformingField(Hero, w.fields, 7);
  }

  // ---- Work projects ----

  /** A work project with a category outside the list is rejected at that key. */
  lemma ProjectCategoryReported(m: map<string, Value>, c: string)
    requires "category" in m && m["category"] == Str(c) && c !in Categories
    ensures Detail([Key("category")], AnyOnly(Categories), Some(Str(c))) in Validate(WorkProject, Obj(m), RequestOptions).errors
  {
    WorkProjectWellFormed();
    assert WorkProject.fields[3] == Req("category", CategoryRule);
    assert [] + [Key("category")] == [Key("category")];
    NotListedReported(CategoryRule, c, [] + [Key("category")], true);
    FieldRejected(WorkProject, m, 3, Detail([Key("category")], AnyOnly(Categories), Some(Str(c))));
  }

  /** An accepted work project has a listed category, an integer year from
      1900 to 2030, an empty or well-formed image path, and, when it has an
      id, a positive integer id. */
  lemma ProjectAccepted(v: Value, opts: Options)
    requires Validate(WorkProject, v, opts).errors == []
    ensures var w := Validate(WorkProject, v, opts).value;
            w.Obj? && "category" in w.fields && "year" in w.fields && "image" in w.fields
            && w.fields["category"].Str? && w.fields["category"].s in Categories
            && w.fields["year"].Num? && IsIntegral(w.fields["year"].n) && 1900.0 <= w.fields["year"].n <= 2030.0
            && w.fields["image"].Str? && (w.fields["image"].s == "" || Patterns.ImagePath(w.fields["image"].s))
            && ("id" in w.fields ==> w.fields["id"].Num? && IsIntegral(w.fields["id"].n) && w.fields["id"].n > 0.0)
  {
    WorkProjectWellFormed();
    ValidateSound(WorkProject, v, opts);
    var w := Validate(WorkProject, v, opts).value;
    ConformingField(WorkProject, w.fields, 0);
    ConformingField(WorkProject, w.fields, 3);
    ConformingField(WorkProject, w.fields, 4);
    ConformingField(WorkProject, w.fields, 5);
    if "id" in w.fields { IdMeaning(w.fields["id"]); }
    YearMeaning(w.fields["year"]);
    ImagePathMeaning(w.fields["image"]);
  }

  /** An absent key with a constant default comes out with the default. */
  lemma DefaultFilled(s: Schema, m: map<string, Value>, opts: Options, i: nat)
    requires WellFormed(s) && s.Keys? && i < |s.fields|
    requires s.fields[i].presence.Default? && s.fields[i].key !in m
    ensures var w := Validate(s, Obj(m), opts).value;
            w.Obj? && s.fields[i].key in w.fields && w.fields[s.fields[i].key] == s.fields[i].presence.value
  {
    DefaultApplied(s, m, i, [], opts.stripUnknown);
  }

  /** The work-project defaults: alt and description `''`, featured
      false, order 0, for every key the input leaves out. */
  lemma ProjectDefaults(m: map<string, Value>, opts: Options)
    ensures var w := Validate(WorkProject, Obj(m), opts).value;
            ("alt" !in m ==> w.Obj? && "alt" in w.fields && w.fields["alt"] == Str(""))
            && ("description" !in m ==> w.Obj? && "description" in w.fields && w.fields["description"] == Str(""))
            && ("featured" !in m ==> w.Obj? && "featured" in w.fields && w.fields["featured"] == Bool(false))
            && ("order" !in m ==> w.Obj? && "order" in w.fields && w.fields["order"] == Num(0.0))
  {
    WorkProjectWellFormed();
    var f := WorkProject.fields;
    assert f[6] == Def("alt", OptionalText, Str("")) && f[7] == Def("description", OptionalText, Str(""));
    assert f[8] == Def("featured", Boolean, Bool(false)) && f[9] == Def("order", OrderRule, Num(0.0));
    if "alt" !in m { DefaultFilled(WorkProject, m, opts, 6); }
    if "description" !in m { DefaultFilled(WorkProject, m, opts, 7); }
    if "featured" !in m { DefaultFilled(WorkProject, m, opts, 8); }
    if "order" !in m { DefaultFilled(WorkProject, m, opts, 9); }
  }

  /** A key the work-project table does not name is dropped silently. */
  lemma ProjectUnknownKeyDropped(m: map<string, Value>, key: string)
    requires key in m && !IsFieldKey(WorkProjectFields, key)
    ensures Validate(WorkProject, Obj(m), RequestOptions).value.Obj?
    ensures key !in Validate(WorkProject, Obj(m), RequestOptions).value.fields
  {
    WorkProjectWellFormed();
    UnknownKeyStripped(WorkProject, m, key, []);
  }

  // ---- Steps and FAQ items ----

  /** A process step the input leaves without an order gets order 0. */
  lemma StepDefaultOrder(m: map<string, Value>, opts: Options)
    requires "order" !in m
    ensures var w := Validate(ProcessStep, Obj(m), opts).value;
            w.Obj? && "order" in w.fields && w.fields["order"] == Num(0.0)
  {
    ProcessStepWellFormed();
    assert ProcessStep.fields[6] == Def("order", OrderRule, Num(0.0));
    DefaultFilled(ProcessStep, m, opts, 6);
  }

  /** The FAQ item defaults: category `general` and order 0. */
  lemma FaqItemDefaults(m: map<string, Value>, opts: Options)
    ensures var w := Validate(FaqItem, Obj(m), opts).value;
            ("category" !in m ==> w.Obj? && "category" in w.fields && w.fields["category"] == Str("general"))
            && ("order" !in m ==> w.Obj? && "order" in w.fields && w.fields["order"] == Num(0.0))
  {
    FaqItemWellFormed();
    var f := FaqItem.fields;
    assert f[3] == Def("category", OptionalText, Str("general")) && f[4] == Def("order", OrderRule, Num(0.0));
    if "category" !in m { DefaultFilled(FaqItem, m, opts, 3); }
    if "order" !in m { DefaultFilled(FaqItem, m, opts, 4); }
  }

  // ---- Rejection at the top level of a request ----

  /** What the walk reports at the top level, a request validator reports. */
  lemma RequestReports(s: Schema, v: Value, d: Detail)
    requires d in Walk(s, v, [], true).errors
    ensures d in Validate(s, v, RequestOptions).errors
  {
    assert !RequestOptions.abortEarly && RequestOptions.stripUnknown;
  }

  /** A required key that is absent is rejected. */
  lemma MissingRejected(s: Schema, m: map<string, Value>, i: nat)
    requires WellFormed(s) && s.Keys? && i < |s.fields|
    requires s.fields[i].presence == Required && s.fields[i].key !in m
    ensures Detail([Key(s.fields[i].key)], AnyRequired, None) in Validate(s, Obj(m), RequestOptions).errors
  {
    MissingRequiredReported(s, m, i, [], true);
    assert [] + [Key(s.fields[i].key)] == [Key(s.fields[i].key)];
    RequestReports(s, Obj(m), Detail([Key(s.fields[i].key)], AnyRequired, None));
  }

  /** A key of an object that forbids unknown keys is rejected when the
      object does not name it. */
  lemma UnknownRejected(s: Schema, m: map<string, Value>, key: string)
    requires s.Keys? && s.unknown == Forbidden && key in m && !IsFieldKey(s.fields, key)
    ensures Detail([Key(key)], ObjectUnknown, Some(m[key])) in Validate(s, Obj(m), RequestOptions).errors
  {
    UnknownKeyReported(s, m, key, [], true);
    assert [] + [Key(key)] == [Key(key)];
    RequestReports(s, Obj(m), Detail([Key(key)], ObjectUnknown, Some(m[key])));
  }

  /** A violation inside a present key is rejected. */
  lemma FieldRejected(s: Schema, m: map<string, Value>, i: nat, d: Detail)
    requires WellFormed(s) && s.Keys? && i < |s.fields| && s.fields[i].key in m
    requires d in Walk(s.fields[i].schema, m[s.fields[i].key], [] + [Key(s.fields[i].key)], true).errors
    ensures d in Validate(s, Obj(m), RequestOptions).errors
  {
    FieldErrorsReported(s, m, i, [], true, d);
    RequestReports(s, Obj(m), d);
  }

  // ---- Collection caps ----

  /** A list key over its cap is reported at that key, whatever else the
      document holds. */
  lemma OverCapReported(s: Schema, m: map<string, Value>, i: nat, items: seq<Value>)
    requires WellFormed(s) && s.Keys? && i < |s.fields|
    requires s.fields[i].schema.List? && s.fields[i].schema.max.Some?
    requires s.fields[i].key in m && m[s.fields[i].key] == Arr(items)
    requires |items| > s.fields[i].schema.max.value
    ensures Detail([Key(s.fields[i].key)], ArrayMax(s.fields[i].schema.max.value), Some(Arr(items)))
              in Validate(s, Obj(m), RequestOptions).errors
  {
    var f := s.fields[i];
    assert [] + [Key(f.key)] == [Key(f.key)];
    ArrayMaxReported(f.schema, items, [Key(f.key)], true);
    FieldRejected(s, m, i, Detail([Key(f.key)], ArrayMax(f.schema.max.value), Some(Arr(items))));
  }

  /** More than 50 projects are rejected. */
  lemma ProjectsOverCapReported(m: map<string, Value>, items: seq<Value>)
    requires "projects" in m && m["projects"] == Arr(items) && |items| > 50
    ensures Detail([Key("projects")], ArrayMax(50), Some(Arr(items))) in Validate(Work, Obj(m), RequestOptions).errors
  {
    WorkWellFormed();
    OverCapReported(Work, m, 2, items);
  }

  /** More than 20 process steps are rejected. */
  lemma StepsOverCapReported(m: map<string, Value>, items: seq<Value>)
    requires "processSteps" in m && m["processSteps"] == Arr(items) && |items| > 20
    ensures Detail([Key("processSteps")], ArrayMax(20), Some(Arr(items))) in Validate(Process, Obj(m), RequestOptions).errors
  {
    ProcessWellFormed();
    OverCapReported(Process, m, 2, items);
  }

  /** More than 50 FAQ items are rejected. */
  lemma FaqItemsOverCapReported(m: map<string, Value>, items: seq<Value>)
    requires "items" in m && m["items"] == Arr(items) && |items| > 50
    ensures Detail([Key("items")], ArrayMax(50), Some(Arr(items))) in Validate(Faq, Obj(m), RequestOptions).errors
  {
    FaqWellFormed();
    OverCapReported(Faq, m, 2, items);
  }

  /** More than 10 locations are rejected. */
  lemma LocationsOverCapReported(m: map<string, Value>, items: seq<Value>)
    requires "locations" in m && m["locations"] == Arr(items) && |items| > 10
    ensures Detail([Key("locations")], ArrayMax(10), Some(Arr(items))) in Validate(Locations, Obj(m), RequestOptions).errors
  {
    LocationsWellFormed();
    OverCapReported(Locations, m, 1, items);
  }

  /** More than 10 hero background images, or polaroids, are rejected. */
  lemma HeroImagesOverCapReported(m: map<string, Value>, key: string, items: seq<Value>)
    requires key == "backgroundImages" || key == "polaroids"
    requires key in m && m[key] == Arr(items) && |items| > 10
    ensures Detail([Key(key)], ArrayMax(10), Some(Arr(items))) in Validate(Hero, Obj(m), RequestOptions).errors
  {
    HeroWellFormed();
    OverCapReported(Hero, m, if key == "backgroundImages" then 6 else 7, items);
  }

  /** An accepted document keeps a required list key to its cap. */
  lemma AcceptedWithinCap(s: Schema, v: Value, opts: Options, i: nat)
    requires WellFormed(s) && s.Keys? && i < |s.fields|
    requires s.fields[i].presence == Required && s.fields[i].schema.List? && s.fields[i].schema.max.Some?
    requires Validate(s, v, opts).errors == []
    ensures var w := Validate(s, v, opts).value;
            w.Obj? && s.fields[i].key in w.fields && w.fields[s.fields[i].key].Arr?
            && |w.fields[s.fields[i].key].items| <= s.fields[i].schema.max.value
  {
    ValidateSound(s, v, opts);
    ConformingField(s, Validate(s, v, opts).value.fields, i);
  }

  /** An accepted work document has at most 50 projects. */
  lemma WorkAcceptedCap(v: Value, opts: Options)
    requires Validate(Work, v, opts).errors == []
    ensures var w := Validate(Work, v, opts).value;
            w.Obj? && "projects" in w.fields && w.fields["projects"].Arr? && |w.fields["projects"].items| <= 50
  {
    WorkWellFormed();
    AcceptedWithinCap(Work, v, opts, 2);
  }

  /** An accepted process document has at most 20 steps. */
  lemma ProcessAcceptedCap(v: Value, opts: Options)
    requires Validate(Process, v, opts).errors == []
    ensures var w := Validate(Process, v, opts).value;
            w.Obj? && "processSteps" in w.fields && w.fields["processSteps"].Arr? && |w.fields["processSteps"].items| <= 20
  {
    ProcessWellFormed();
    AcceptedWithinCap(Process, v, opts, 2);
  }

  /** An accepted FAQ document has at most 50 items. */
  lemma FaqAcceptedCap(v: Value, opts: Options)
    requires Validate(Faq, v, opts).errors == []
    ensures var w := Validate(Faq, v, opts).value;
            w.Obj? && "items" in w.fields && w.fields["items"].Arr? && |w.fields["items"].items| <= 50
  {
    FaqWellFormed();
    AcceptedWithinCap(Faq, v, opts, 2);
  }

  /** An accepted locations document has at most 10 locations. */
  lemma LocationsAcceptedCap(v: Value, opts: Options)
    requires Validate(Locations, v, opts).errors == []
    ensures var w := Validate(Locations, v, opts).value;
            w.Obj? && "locations" in w.fields && w.fields["locations"].Arr? && |w.fields["locations"].items| <= 10
  {
    LocationsWellFormed();
    AcceptedWithinCap(Locations, v, opts, 1);
  }
}
