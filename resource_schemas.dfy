// The rule tables of the content API: one schema per resource document and
// per collection item, written in the terms of the validation interpreter,
// together with what each table guarantees about the values it accepts.
module ResourceSchemas {
  import opened Wrappers
  import opened Strings
  import opened JsValue
  import opened Unicode
  import opened Schema
  import opened SchemaFacts

  // ---- Shared field rules ----

  /** A positive integer id. */
  const IdRule := Number([Integer, Positive])
  /** A trimmed string of 1 to 1000 characters. */
  const RequiredText := Text(true, false, [], [MinLength(1), MaxLength(1000)])
  /** A trimmed string of at most 1000 characters, possibly empty. */
  const OptionalText := Text(true, true, [], [MaxLength(1000)])
  const EmailRule := Text(false, false, [], [EmailAddress, MaxLength(255)])
  const UrlRule := Text(false, false, [], [UriReference, MaxLength(2000)])
  /** `''` or a path under `/images/` with an image extension. */
  const ImagePathRule := Text(false, true, [], [Matches(ImagePathPattern)])
  const YearRule := Number([Integer, AtLeast(1900.0), AtMost(2030.0)])
  const AnyText := Text(false, false, [], [])
  const OrderRule := Number([Integer, AtLeast(0.0)])

  function Between(lo: real, hi: real): Schema
  {
    Number([AtLeast(lo), AtMost(hi)])
  }

  function Req(key: string, s: Schema): Field { Field(key, s, Required) }
  function Opt(key: string, s: Schema): Field { Field(key, s, Optional) }
  function Def(key: string, s: Schema, d: Value): Field { Field(key, s, Default(d)) }

  const Categories: seq<string> := ["EDITORIAL", "FILM & TV", "THEATRE", "CONCERT", "MUSIC VIDEO", "LIVE"]
  const Sides: seq<string> := ["left", "right"]
  const ImageTypes: seq<string> := ["image/jpeg", "image/jpg", "image/png", "image/gif", "image/webp"]
  /** The upload size limit, 10 MiB. */
  const MaxUploadSize := 10485760

  /** One of the six project categories, exactly. */
  const CategoryRule := Text(false, false, Categories, [])
  /** `left` or `right`, exactly. */
  const SideRule := Text(false, false, Sides, [])

  /** The options every request validator passes: report every violation,
      strip unknown keys wherever the schema leaves them unset. */
  const RequestOptions := Options(false, true)

  const Transform := Keys([
    Def("scale", Between(0.1, 5.0), Num(1.0)),
    Def("translateX", Between(-200.0, 200.0), Num(0.0)),
    Def("translateY", Between(-200.0, 200.0), Num(0.0)),
    Def("flip", Boolean, Bool(false))], Unset)

  const Position := Keys([
    Opt("top", Text(false, false, [], [MaxLength(50)])),
    Opt("bottom", Text(false, false, [], [MaxLength(50)])),
    Opt("left", Text(false, false, [], [MaxLength(50)])),
    Opt("right", Text(false, false, [], [MaxLength(50)]))], Unset)

  // ---- Hero ----

  const SizeSetting := Keys([Def("scale", Between(0.1, 5.0), Num(1.0)), Def("unit", AnyText, Str("rem"))], Unset)

  const BackgroundImage := Keys([
    Req("image", AnyText),
    Req("alt", RequiredText),
    Opt("transform", Keys([
      Def("scale", Between(0.1, 5.0), Num(1.0)),
      Def("translateX", Between(-500.0, 500.0), Num(0.0)),
      Def("translateY", Between(-500.0, 500.0), Num(0.0)),
      Def("flip", Boolean, Bool(false))], Unset))], Unset)

  const PolaroidItem := Keys([
    Req("image", AnyText),
    Req("alt", RequiredText),
    Def("rotation", Between(-45.0, 45.0), Num(0.0)),
    Opt("position", AnyObject)], Unset)

  const HeroFields: seq<Field> := [
    Opt("id", IdRule),
    Req("title", RequiredText),
    Def("subtitle", OptionalText, Str("")),
    Req("atelierTitle", RequiredText),
    Req("atelierDescription", RequiredText),
    Opt("banner", Keys([Opt("logoSize", SizeSetting), Opt("titleSize", SizeSetting)], Unset)),
    Opt("backgroundImages", List(BackgroundImage, Some(10))),
    Opt("polaroids", List(PolaroidItem, Some(10))),
    Opt("bannerHeight", Keys([
      Def("min", Between(100.0, 2000.0), Num(400.0)),
      Def("preferred", Between(10.0, 200.0), Num(45.0)),
      Def("max", Between(200.0, 3000.0), Num(800.0))], Unset))]

  /** The hero document; unknown top-level keys are forbidden outright. */
  const Hero := Keys(HeroFields, Forbidden)

  // ---- Work ----

  const WorkProjectFields: seq<Field> := [
    Opt("id", IdRule),
    Req("title", RequiredText),
    Req("client", RequiredText),
    Req("category", CategoryRule),
    Req("year", YearRule),
    Req("image", ImagePathRule),
    Def("alt", OptionalText, Str("")),
    Def("description", OptionalText, Str("")),
    Def("featured", Boolean, Bool(false)),
    Def("order", OrderRule, Num(0.0))]

  const WorkProject := Keys(WorkProjectFields, Unset)

  const WorkBanner := Keys([
    Req("title", RequiredText),
    Def("subtitle", OptionalText, Str("")),
    Req("desktopImage", ImagePathRule),
    Req("mobileImage", ImagePathRule),
    Req("transform", Transform)], Unset)

  const SectionBanner := Keys([
    Req("category", CategoryRule),
    Req("image", ImagePathRule),
    Req("transform", Transform)], Unset)

  const Work := Keys([
    Req("banner", WorkBanner),
    Def("sectionBanners", List(SectionBanner, Some(10)), Arr([])),
    Req("projects", List(WorkProject, Some(50)))], Unset)

  // ---- Process ----

  const ProcessStepFields: seq<Field> := [
    Opt("id", IdRule),
    Req("title", RequiredText),
    Req("description", RequiredText),
    Req("image", ImagePathRule),
    Req("alt", RequiredText),
    Req("alignment", SideRule),
    Def("order", OrderRule, Num(0.0))]

  const ProcessStep := Keys(ProcessStepFields, Unset)

  const ProcessBanner := Keys([
    Req("title", RequiredText),
    Def("subtitle", OptionalText, Str("")),
    Req("desktopImage", ImagePathRule),
    Req("mobileImage", ImagePathRule),
    Req("transform", Transform),
    Def("circleScale", Between(0.5, 2.0), Num(1.0)),
    Field("headingScale", Keys([
      Def("mobile", Between(0.5, 2.0), Num(1.0)),
      Def("desktop", Between(0.5, 2.0), Num(1.0))], Unset), DefaultFromKeys)], Unset)

  const TeamCircles := Keys([
    Def("size", Between(0.5, 3.0), Num(1.0)),
    Def("strokeWidth", Between(1.0, 10.0), Num(2.0)),
    Def("gap", Between(0.0, 50.0), Num(10.0)),
    Def("position", Position, Obj(map[]))], Unset)

  const Process := Keys([
    Req("banner", ProcessBanner),
    Field("teamCircles", TeamCircles, DefaultFromKeys),
    Req("processSteps", List(ProcessStep, Some(20)))], Unset)

  // ---- Locations and contact ----

  const LocationFields: seq<Field> := [
    Opt("id", IdRule),
    Req("name", RequiredText),
    Req("address", RequiredText),
    Req("image", ImagePathRule),
    Req("alt", RequiredText),
    Opt("googleMapsUrl", UrlRule),
    Def("variant", SideRule, Str("left")),
    Def("order", OrderRule, Num(0.0))]

  const Location := Keys(LocationFields, Unset)

  const Locations := Keys([
    Req("banner", Keys([
      Req("title", RequiredText),
      Field("animationSettings", Keys([
        Def("delay", Between(0.0, 5000.0), Num(0.0)),
        Def("duration", Between(100.0, 10000.0), Num(1000.0)),
        Def("circleCount", Between(1.0, 20.0), Num(3.0))], Unset), DefaultFromKeys)], Unset)),
    Req("locations", List(Location, Some(10)))], Unset)

  const Contact := Keys([
    Opt("id", IdRule),
    Req("emails", Keys([Req("brooklyn", EmailRule), Req("beverlyHills", EmailRule), Req("press", EmailRule)], Unset)),
    Req("phone", Text(false, false, [], [Matches(PhonePattern)])),
    Def("locations", List(Location, Some(10)), Arr([]))], Unset)

  // ---- FAQ ----

  const FaqItemFields: seq<Field> := [
    Opt("id", IdRule),
    Req("question", RequiredText),
    Req("answer", RequiredText),
    Def("category", OptionalText, Str("general")),
    Def("order", OrderRule, Num(0.0))]

  const FaqItem := Keys(FaqItemFields, Unset)

  const Faq := Keys([
    Opt("id", Number([])),
    Req("banner", Keys([
      Req("backgroundImage", Keys([Req("desktop", ImagePathRule), Req("mobile", ImagePathRule)], Unset)),
      Req("height", AnyText),
      Req("objectPosition", AnyText),
      Req("transform", Transform)], Unset)),
    Req("items", List(FaqItem, Some(50))),
    Opt("createdAt", AnyText),
    Opt("updatedAt", AnyText)], Unset)

  // ---- Upload metadata ----

  /** The metadata of an uploaded file; other properties the upload layer
      adds are allowed. */
  const ImageUpload := Keys([
    Req("mimetype", Text(false, false, ImageTypes, [])),
    Req("size", Number([AtMost(MaxUploadSize as real)])),
    Req("filename", Text(false, false, [], [Matches(FileNamePattern)]))], Allowed)

  // ---- Well-formedness ----

  /** The conditions of well-formedness one level at a time. */
  lemma KeysWellFormed(s: Schema)
    requires s.Keys? && DistinctKeys(s.fields)
    requires forall i :: 0 <= i < |s.fields| ==> WellFormed(s.fields[i].schema)
    requires forall i :: 0 <= i < |s.fields| && s.fields[i].presence.Default? ==>
               Conforms(s.fields[i].schema, s.fields[i].presence.value)
    ensures WellFormed(s)
  {
  }

  /** A trimmed string of at most 1000 code units passes the optional-text rule. */
  lemma OptionalTextAccepts(x: string)
    requires Trimmed(x) && Utf16Length(x) <= 1000
    ensures Conforms(OptionalText, Str(x))
  {
    assert StringRuleHolds(MaxLength(1000), x);
  }

  lemma EmptyConformsOptionalText()
    ensures Conforms(OptionalText, Str(""))
  {
  }

  lemma TransformWellFormed()
    ensures WellFormed(Transform)
  {
    KeysWellFormed(Transform);
  }

  lemma SizeSettingWellFormed()
    ensures WellFormed(SizeSetting)
  {
    KeysWellFormed(SizeSetting);
  }

  lemma BackgroundImageWellFormed()
    ensures WellFormed(BackgroundImage)
  {
    KeysWellFormed(BackgroundImage.fields[2].schema);
    KeysWellFormed(BackgroundImage);
  }

  lemma PolaroidItemWellFormed()
    ensures WellFormed(PolaroidItem)
  {
    KeysWellFormed(PolaroidItem);
  }

  lemma HeroChildrenWellFormed()
    ensures forall i :: 0 <= i < |HeroFields| ==> WellFormed(HeroFields[i].schema)
  {
    forall i | 0 <= i < |HeroFields|
      ensures WellFormed(HeroFields[i].schema)
    {
      if i == 5 {
        SizeSettingWellFormed();
        KeysWellFormed(HeroFields[5].schema);
      } else if i == 6 {
        BackgroundImageWellFormed();
      } else if i == 7 {
        PolaroidItemWellFormed();
      } else if i == 8 {
        KeysWellFormed(HeroFields[8].schema);
      }
    }
  }
  lemma HeroDefaultsConform()
    ensures forall i :: 0 <= i < |HeroFields| && HeroFields[i].presence.Default? ==>
              Conforms(HeroFields[i].schema, HeroFields[i].presence.value)
  {
    EmptyConformsOptionalText();
    forall i | 0 <= i < |HeroFields| && HeroFields[i].presence.Default?
      ensures Conforms(HeroFields[i].schema, HeroFields[i].presence.value)
    {
      assert i == 2;
    }
  }

  lemma HeroWellFormed()
    ensures WellFormed(Hero)
  {
    HeroChildrenWellFormed();
    HeroDefaultsConform();
    assert DistinctKeys(HeroFields);
    KeysWellFormed(Hero);
  }

  lemma OrderDefaultConforms()
    ensures Conforms(OrderRule, Num(0.0))
  {
    assert IsIntegral(0.0);
  }

  lemma WorkProjectDefaultsConform()
    ensures forall i :: 0 <= i < |WorkProjectFields| && WorkProjectFields[i].presence.Default? ==>
              Conforms(WorkProjectFields[i].schema, WorkProjectFields[i].presence.value)
  {
    EmptyConformsOptionalText();
    OrderDefaultConforms();
    forall i | 0 <= i < |WorkProjectFields| && WorkProjectFields[i].presence.Default?
      ensures Conforms(WorkProjectFields[i].schema, WorkProjectFields[i].presence.value)
    {
      assert 6 <= i <= 9;
    }
  }

  lemma WorkProjectWellFormed()
    ensures WellFormed(WorkProject)
  {
    WorkProjectDefaultsConform();
    assert DistinctKeys(WorkProjectFields);
    KeysWellFormed(WorkProject);
  }

  lemma WorkBannerDefaultsConform()
    ensures forall i :: 0 <= i < |WorkBanner.fields| && WorkBanner.fields[i].presence.Default? ==>
              Conforms(WorkBanner.fields[i].schema, WorkBanner.fields[i].presence.value)
  {
    EmptyConformsOptionalText();
    forall i | 0 <= i < |WorkBanner.fields| && WorkBanner.fields[i].presence.Default?
      ensures Conforms(WorkBanner.fields[i].schema, WorkBanner.fields[i].presence.value)
    {
      assert i == 1;
    }
  }

  lemma WorkBannerWellFormed()
    ensures WellFormed(WorkBanner)
  {
    WorkBannerDefaultsConform();
    TransformWellFormed();
    KeysWellFormed(WorkBanner);
  }

  lemma SectionBannerWellFormed()
    ensures WellFormed(SectionBanner)
  {
    TransformWellFormed();
    KeysWellFormed(SectionBanner);
  }

  lemma WorkWellFormed()
    ensures WellFormed(Work)
  {
    WorkBannerWellFormed();
    SectionBannerWellFormed();
    WorkProjectWellFormed();
    assert ListConforms(Work.fields[1].schema, []);
    KeysWellFormed(Work);
  }

  lemma ProcessStepWellFormed()
    ensures WellFormed(ProcessStep)
  {
    OrderDefaultConforms();
    assert DistinctKeys(ProcessStepFields);
    KeysWellFormed(ProcessStep);
  }

  lemma ProcessBannerDefaultsConform()
    ensures forall i :: 0 <= i < |ProcessBanner.fields| && ProcessBanner.fields[i].presence.Default? ==>
              Conforms(ProcessBanner.fields[i].schema, ProcessBanner.fields[i].presence.value)
  {
    EmptyConformsOptionalText();
    forall i | 0 <= i < |ProcessBanner.fields| && ProcessBanner.fields[i].presence.Default?
      ensures Conforms(ProcessBanner.fields[i].schema, ProcessBanner.fields[i].presence.value)
    {
      assert i == 1 || i == 5;
    }
  }

  lemma ProcessBannerWellFormed()
    ensures WellFormed(ProcessBanner)
  {
    ProcessBannerDefaultsConform();
    TransformWellFormed();
    KeysWellFormed(ProcessBanner.fields[6].schema);
    assert DistinctKeys(ProcessBanner.fields);
    KeysWellFormed(ProcessBanner);
  }

  lemma TeamCirclesDefaultsConform()
    ensures forall i :: 0 <= i < |TeamCircles.fields| && TeamCircles.fields[i].presence.Default? ==>
              Conforms(TeamCircles.fields[i].schema, TeamCircles.fields[i].presence.value)
  {
    assert KeysConform(Position, map[]);
    assert Conforms(Between(0.5, 3.0), Num(1.0));
    assert Conforms(Between(1.0, 10.0), Num(2.0));
    assert Conforms(Between(0.0, 50.0), Num(10.0));
  }

  lemma TeamCirclesWellFormed()
    ensures WellFormed(TeamCircles)
  {
    KeysWellFormed(Position);
    TeamCirclesDefaultsConform();
    KeysWellFormed(TeamCircles);
  }

  lemma ProcessWellFormed()
    ensures WellFormed(Process)
  {
    ProcessBannerWellFormed();
    TeamCirclesWellFormed();
    ProcessStepWellFormed();
    KeysWellFormed(Process);
  }

  lemma LocationWellFormed()
    ensures WellFormed(Location)
  {
    OrderDefaultConforms();
    assert DistinctKeys(LocationFields);
    assert Conforms(LocationFields[6].schema, Str("left"));
    KeysWellFormed(Location);
  }

  lemma LocationsWellFormed()
    ensures WellFormed(Locations)
  {
    LocationWellFormed();
    LocationsBannerWellFormed();
    KeysWellFormed(Locations);
  }

  lemma LocationsBannerWellFormed()
    ensures WellFormed(Locations.fields[0].schema)
  {
    AnimationSettingsWellFormed();
    KeysWellFormed(Locations.fields[0].schema);
  }

  lemma AnimationSettingsWellFormed()
    ensures WellFormed(Locations.fields[0].schema.fields[1].schema)
  {
    KeysWellFormed(Locations.fields[0].schema.fields[1].schema);
  }

  lemma ContactWellFormed()
    ensures WellFormed(Contact)
  {
    LocationWellFormed();
    KeysWellFormed(Contact.fields[1].schema);
    assert ListConforms(Contact.fields[3].schema, []);
    KeysWellFormed(Contact);
  }

  lemma FaqItemDefaultsConform()
    ensures forall i :: 0 <= i < |FaqItemFields| && FaqItemFields[i].presence.Default? ==>
              Conforms(FaqItemFields[i].schema, FaqItemFields[i].presence.value)
  {
    OrderDefaultConforms();
    GeneralConformsOptionalText();
    forall i | 0 <= i < |FaqItemFields| && FaqItemFields[i].presence.Default?
      ensures Conforms(FaqItemFields[i].schema, FaqItemFields[i].presence.value)
    {
      assert i == 3 || i == 4;
    }
  }

  lemma GeneralConformsOptionalText()
    ensures Conforms(OptionalText, Str("general"))
  {
    OptionalTextAccepts("general");
  }

  lemma FaqItemWellFormed()
    ensures WellFormed(FaqItem)
  {
    FaqItemDefaultsConform();
    assert DistinctKeys(FaqItemFields);
    KeysWellFormed(FaqItem);
  }

  lemma FaqWellFormed()
    ensures WellFormed(Faq)
  {
    FaqItemWellFormed();
    TransformWellFormed();
    KeysWellFormed(Faq.fields[1].schema.fields[0].schema);
    KeysWellFormed(Faq.fields[1].schema);
    assert DistinctKeys(Faq.fields);
    KeysWellFormed(Faq);
  }

  lemma ImageUploadWellFormed()
    ensures WellFormed(ImageUpload)
  {
    KeysWellFormed(ImageUpload);
  }
}
