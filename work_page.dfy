// The work page: the active category filter (ALL MEDIA at first, then the
// URL's `filter` parameter, the filter bar or a category clicked in the
// gallery), and the projects it hands the gallery for each filter.
module WorkPage {
  import opened Wrappers
  import opened Sequences
  import opened WorkData

  const AllMedia := "ALL MEDIA"
  const LivePerformance := "LIVE PERFORMANCE"

  /** Whether a project belongs under a filter other than ALL MEDIA. */
  predicate UnderFilter(p: Project, filter: string)
  {
    p.category == filter || (filter == MusicVideo && p.category == MusicVideo)
    || (filter == LivePerformance && p.category == "LIVE")
  }

  /** `filteredProjects`: the work-page projects under ALL MEDIA, otherwise
      the projects of both pages that belong under the filter. */
  function Selected(home: seq<Project>, workPage: seq<Project>, filter: string): (r: seq<Project>)
    ensures filter == AllMedia ==> r == workPage
    ensures filter != AllMedia ==> forall p :: p in r <==>
      ((p in home || p in workPage) && (p.category == filter || (filter == LivePerformance && p.category == "LIVE")))
  {
    if filter == AllMedia then workPage
    else
      assert forall p :: p in home + workPage <==> p in home || p in workPage;
      Filter(home + workPage, p => UnderFilter(p, filter))
  }

  /** `categoryToFilterMap`: the filter that shows a gallery category. */
  function CategoryFilter(category: string): (r: Option<string>)
    ensures r.Some? <==> category in {"FILM & TV", "THEATRE", "CONCERT", "EDITORIAL", "LIVE"}
    ensures r.Some? ==> r.value == (if category == "LIVE" then LivePerformance else category)
  {
    if category == "FILM & TV" then Some("FILM & TV")
    else if category == "THEATRE" then Some("THEATRE")
    else if category == "CONCERT" then Some("CONCERT")
    else if category == "EDITORIAL" then Some("EDITORIAL")
    else if category == "LIVE" then Some(LivePerformance)
    else None
  }

  /** `categoryToFilterMap[category] || category`. */
  function ClickedFilter(category: string): string
  {
    match CategoryFilter(category)
    case Some(f) => f
    case None => category
  }

  /** The state of the page. */
  class WorkPageState {
    var activeFilter: string

    constructor ()
      ensures activeFilter == AllMedia
    {
      activeFilter := AllMedia;
    }

    /** The mount effect: a non-empty `filter` parameter of the URL
        replaces the filter. */
    method ReadUrl(filterParam: Option<string>)
      modifies this
      ensures filterParam.Some? && filterParam.value != "" ==> activeFilter == filterParam.value
      ensures filterParam.None? || filterParam.value == "" ==> activeFilter == old(activeFilter)
    {
      if filterParam.Some? && filterParam.value != "" {
        activeFilter := filterParam.value;
      }
    }

    /** `handleFilterChange`. */
    method ChangeFilter(filter: string)
      modifies this
      ensures activeFilter == filter
    {
      activeFilter := filter;
    }

    /** `handleCategoryClick`. */
    method ClickCategory(category: string)
      modifies this
      ensures activeFilter == ClickedFilter(category)
    {
      var mapped := CategoryFilter(category);
      if mapped.Some? {
        activeFilter := mapped.value;
      } else {
        activeFilter := category;
      }
    }

    /** What the gallery is given. */
    function Shown(home: seq<Project>, workPage: seq<Project>): (r: seq<Project>)
      reads this
      ensures activeFilter == AllMedia ==> r == workPage
    {
      Selected(home, workPage, activeFilter)
    }
  }

  // ---- What the page promises ----

  /** A clicked category maps LIVE to LIVE PERFORMANCE, the other known
      categories to themselves, and passes an unknown one through. */
  lemma ClickedFilterIs(category: string)
    ensures ClickedFilter(category) == (if category == "LIVE" then LivePerformance else category)
  {
  }

  /** Clicking a category shows every project of that category from either
      page (unless the category is called ALL MEDIA, which shows the work
      page only), and nothing of another category, except that LIVE and
      LIVE PERFORMANCE projects are shown together. */
  lemma ClickShowsCategory(home: seq<Project>, workPage: seq<Project>, category: string, p: Project)
    requires category != AllMedia && (p in home || p in workPage)
    ensures p.category == category ==> p in Selected(home, workPage, ClickedFilter(category))
    ensures p in Selected(home, workPage, ClickedFilter(category)) && p.category != category ==>
      {p.category, category} == {"LIVE", LivePerformance}
  {
  }

  /** On the derived lists, the MUSIC VIDEO filter only ever shows
      work-page projects: the home page leaves music videos out. */
  lemma MusicVideosFromWorkPage(projects: seq<Project>, p: Project)
    requires p in Selected(Derive(projects).home, Derive(projects).workPage, MusicVideo)
    ensures OnWorkPage(p) && p.category == MusicVideo && p in projects
  {
    assert MusicVideo != AllMedia;
    var d := Derive(projects);
    assert p in d.home || p in d.workPage;
    assert p !in d.home;
  }

  /** Under any filter but ALL MEDIA the home projects come first, in
      their order, then the work-page ones. */
  lemma SelectedOrder(home: seq<Project>, workPage: seq<Project>, filter: string)
    requires filter != AllMedia
    ensures Selected(home, workPage, filter) ==
      Filter(home, p => UnderFilter(p, filter)) + Filter(workPage, p => UnderFilter(p, filter))
  {
    FilterAppend(home, workPage, p => UnderFilter(p, filter));
  }
}
