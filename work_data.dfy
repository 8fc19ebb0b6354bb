// The work-data hook: the state it holds (the work document, a loading
// flag and an error), the shape it gives the fetched document, and the
// partition of the projects into those of the home page and those of the
// work page.
module WorkData {
  import opened Wrappers
  import opened JsValue
  import opened Sequences
  import opened Verdicts

  /** A project of the work document: its id as the document holds it
      (`None` when it has none), its category, its gallery side, and its
      other fields. */
  datatype Project = Project(id: Option<Value>, category: string, side: string, rest: map<string, Value>)

  const MusicVideo := "MUSIC VIDEO"

  /** The id as `<=` and `>=` read it; `None` is NaN, which no comparison
      holds for. */
  function IdNumber(p: Project): Option<real>
  {
    ToNumber(p.id)
  }

  /** `project.id <= 6 && project.category !== 'MUSIC VIDEO'`: the home page
      shows the first six projects, except music videos. */
  predicate OnHome(p: Project)
  {
    IdNumber(p).Some? && IdNumber(p).value <= 6.0 && p.category != MusicVideo
  }

  /** `project.id >= 7`: the work page shows the projects added after them. */
  predicate OnWorkPage(p: Project)
  {
    IdNumber(p).Some? && IdNumber(p).value >= 7.0
  }

  /** The id reads as a whole number. */
  predicate WholeId(p: Project)
  {
    IdNumber(p).Some? && IsIntegral(IdNumber(p).value)
  }

  /** What the hook derives from the projects. */
  datatype Derived = Derived(featured: seq<Project>, home: seq<Project>, workPage: seq<Project>)

  function Derive(projects: seq<Project>): (r: Derived)
    ensures forall p :: p in r.home <==> p in projects && IdNumber(p).Some? && IdNumber(p).value <= 6.0 && p.category != MusicVideo
    ensures forall p :: p in r.workPage <==> p in projects && IdNumber(p).Some? && IdNumber(p).value >= 7.0
    ensures r.featured == r.home
  {
    var home := Filter(projects, OnHome);
    Derived(home, home, Filter(projects, OnWorkPage))
  }

  /** No project is on both pages; every project with a whole-number id
      that is not a music video is on exactly one, and a music video is
      only ever on the work page. */
  lemma Partition(projects: seq<Project>, p: Project)
    requires p in projects
    ensures !(p in Derive(projects).home && p in Derive(projects).workPage)
    ensures p.category != MusicVideo && WholeId(p) ==> (p in Derive(projects).home || p in Derive(projects).workPage)
    ensures p.category == MusicVideo ==> (p in Derive(projects).workPage <==> OnWorkPage(p)) && p !in Derive(projects).home
  {
    if WholeId(p) {
      var n := IdNumber(p).value;
      assert n.Floor as real == n;
      assert n.Floor <= 6 || n.Floor >= 7;
    }
  }

  /** A project whose id is missing or does not read as a number (NaN) is
      on neither page. */
  lemma NoNumberOnNeither(projects: seq<Project>, p: Project)
    requires IdNumber(p).None?
    ensures p !in Derive(projects).home && p !in Derive(projects).workPage
  {
  }

  /** A project whose id lies strictly between 6 and 7 is on neither page. */
  lemma GapOnNeither(projects: seq<Project>, p: Project)
    requires IdNumber(p).Some? && 6.0 < IdNumber(p).value < 7.0
    ensures p !in Derive(projects).home && p !in Derive(projects).workPage
  {
  }

  /** An id of `null` reads as 0, so such a project is on the home page
      unless it is a music video. */
  lemma NullIdOnHome(projects: seq<Project>, p: Project)
    requires p in projects && p.id == Some(Null) && p.category != MusicVideo
    ensures p in Derive(projects).home && p !in Derive(projects).workPage
  {
  }

  /** Both lists keep the order of the document: the projects of a document
      made of two parts are those of the first part followed by those of
      the second. */
  lemma DeriveAppend(a: seq<Project>, b: seq<Project>)
    ensures Derive(a + b).home == Derive(a).home + Derive(b).home
    ensures Derive(a + b).workPage == Derive(a).workPage + Derive(b).workPage
  {
    FilterAppend(a, b, OnHome);
    FilterAppend(a, b, OnWorkPage);
  }

  /** The transform a banner gets when it has none. */
  const DefaultTransform := Obj(map["scale" := Num(1.0), "translateX" := Num(0.0), "translateY" := Num(0.0),
                                    "objectPosition" := Str("center center")])

  /** `v || fallback` */
  function Or(v: Option<Value>, fallback: Value): (r: Value)
    ensures Truthy(fallback) ==> Truthy(r)
    ensures v.Some? && Truthy(v.value) ==> r == v.value
  {
    if v.Some? && Truthy(v.value) then v.value else fallback
  }

  /** The document the hook stores for a fetched one, or `None` when
      reading `data.banner.transform` throws (no banner, or a null one). */
  function Loaded(data: Value): (r: Option<Value>)
    ensures r.None? <==> Prop(data, "banner").None? || Prop(data, "banner") == Some(Null)
    ensures r.Some? ==> r.value.Obj? && r.value.fields.Keys == {"banner", "sectionBanners", "projects"}
    ensures r.Some? ==> var b := r.value.fields["banner"];
      b.Obj? && "transform" in b.fields && Truthy(b.fields["transform"]) &&
      forall k :: k in Spread(Prop(data, "banner").value) && k != "transform" ==> k in b.fields && b.fields[k] == Spread(Prop(data, "banner").value)[k]
    ensures r.Some? ==> Truthy(r.value.fields["sectionBanners"]) && Truthy(r.value.fields["projects"])
  {
    match Prop(data, "banner")
    case None => None
    case Some(banner) =>
      if banner.Null? then None
      else
        var transform := Or(Prop(banner, "transform"), DefaultTransform);
        Some(Obj(map["banner" := Obj(Spread(banner)["transform" := transform]),
                     "sectionBanners" := Or(Prop(data, "sectionBanners"), Arr([])),
                     "projects" := Or(Prop(data, "projects"), Arr([]))]))
  }

  /** The shape given to a fetched document is already its own: giving it
      again changes nothing. */
  lemma LoadedIdempotent(data: Value)
    requires Loaded(data).Some?
    ensures Loaded(Loaded(data).value) == Loaded(data)
  {
    var r := Loaded(data).value;
    var b := r.fields["banner"];
    assert Prop(r, "banner") == Some(b);
    assert Spread(b)["transform" := b.fields["transform"]] == b.fields;
  }

  /** A document with its banner transform, sections and projects keeps
      them as they are. */
  lemma LoadedKeeps(data: Value)
    requires Loaded(data).Some?
    ensures Present(Prop(Prop(data, "banner").value, "transform")) ==>
      Loaded(data).value.fields["banner"].fields["transform"] == Prop(Prop(data, "banner").value, "transform").value
    ensures !Present(Prop(Prop(data, "banner").value, "transform")) ==>
      Loaded(data).value.fields["banner"].fields["transform"] == DefaultTransform
    ensures Present(Prop(data, "projects")) ==> Loaded(data).value.fields["projects"] == Prop(data, "projects").value
    ensures !Present(Prop(data, "projects")) ==> Loaded(data).value.fields["projects"] == Arr([])
    ensures !Present(Prop(data, "sectionBanners")) ==> Loaded(data).value.fields["sectionBanners"] == Arr([])
  {
  }

  /** The state of the hook before the fetch completes. */
  const InitialBanner := Obj(map["desktopImage" := Str("/images/work/Desktop_WORK Hero Banner v2.png"),
                                 "mobileImage" := Str("/images/work/Mobile_WORK Hero Banner v2.png"),
                                 "title" := Str("Selected Work"),
                                 "subtitle" := Str("Lorem ipsum dolor sit amet consectetur. Et habitant bibendum arcu nec elit eu. Donec quis in neque ligula id nunc in non lacus."),
                                 "transform" := DefaultTransform])

  const InitialWorkData := Obj(map["banner" := InitialBanner, "sectionBanners" := Arr([]), "projects" := Arr([])])

  /** The initial document already has the shape of a fetched one. */
  lemma InitialIsLoaded()
    ensures Loaded(InitialWorkData) == Some(InitialWorkData)
  {
    assert Prop(InitialWorkData, "banner") == Some(InitialBanner);
    assert Spread(InitialBanner)["transform" := DefaultTransform] == InitialBanner.fields;
  }

  /** `useWorkData()`: its state. */
  class WorkDataHook {
    var workData: Value
    var loading: bool
    var failed: bool

    constructor ()
      ensures workData == InitialWorkData && loading && !failed
    {
      workData := InitialWorkData;
      loading := true;
      failed := false;
    }

    /** The end of the fetch: `response` is the parsed document, or `None`
        when the request or the parse failed. */
    method Receive(response: Option<Value>)
      modifies this
      ensures !loading
      ensures response.Some? && Loaded(response.value).Some? ==> workData == Loaded(response.value).value && failed == old(failed)
      ensures response.None? || Loaded(response.value).None? ==> workData == old(workData) && failed
    {
      if response.Some? {
        var data := response.value;
        var doc := Loaded(data);
        if doc.Some? {
          workData := doc.value;
        } else {
          failed := true;
        }
      } else {
        failed := true;
      }
      loading := false;
    }
  }
}
