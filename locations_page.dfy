// The locations page: the visible locations in order, the title of its
// banner, and the six outline circles that slide out from behind the
// centre circle once the banner's animation starts.
module LocationsPage {
  import opened Wrappers
  import opened SiteLocations

  /** The banner of the locations document, as far as the page reads it. */
  datatype Banner = Banner(title: Option<string>)

  /** The locations document; a missing member is `None`. */
  datatype PageData = PageData(banner: Option<Banner>, locations: Option<seq<Location>>)

  /** The outline circles, `[...Array(6)]`. */
  const CircleCount: nat := 6

  /** Where circle `index` ends: the first three to the left, 100 pixels
      apart, the last three to the right. */
  function FinalPosition(index: nat): (px: int)
    requires index < CircleCount
    ensures px < 0 <==> index < 3
    ensures px == 100 * (index % 3 + 1) || px == -100 * (index % 3 + 1)
  {
    var positionInGroup := index % 3;
    if index < 3 then -100 - positionInGroup * 100 else 100 + positionInGroup * 100
  }

  /** The stagger of circle `index`, in milliseconds. */
  function Delay(index: nat): (ms: nat)
    requires index < CircleCount
    ensures ms <= 200
  {
    (index % 3) * 100
  }

  /** A left circle and the right circle at the same distance move as a
      mirrored pair, at the same moment. */
  lemma MirroredPairs(index: nat)
    requires index < 3
    ensures FinalPosition(index + 3) == -FinalPosition(index)
    ensures Delay(index + 3) == Delay(index)
  {
  }

  /** No two circles end in the same place. */
  lemma PositionsDistinct(i: nat, j: nat)
    requires i < CircleCount && j < CircleCount
    ensures FinalPosition(i) == FinalPosition(j) ==> i == j
  {
  }

  /** The horizontal offset of a circle: none before the animation starts. */
  function Offset(index: nat, started: bool): (px: int)
    requires index < CircleCount
    ensures !started ==> px == 0
    ensures started ==> px == FinalPosition(index)
  {
    if started then FinalPosition(index) else 0
  }

  /** The transition delay of a circle: none before the animation starts. */
  function DelayMs(index: nat, started: bool): (ms: nat)
    requires index < CircleCount
    ensures !started ==> ms == 0
    ensures started ==> ms == Delay(index)
  {
    if started then Delay(index) else 0
  }

  /** `locationsData?.banner.title || 'Locations'`: `None` when the page
      throws, which it does for a document without a banner. */
  function Title(data: Option<PageData>): (r: Option<string>)
    ensures r.None? <==> data.Some? && data.value.banner.None?
    ensures r.Some? ==> r.value != ""
    ensures r.Some? && r.value != "Locations" ==>
      data.Some? && data.value.banner.Some? && data.value.banner.value.title == r
  {
    if data.None? then Some("Locations")
    else if data.value.banner.None? then None
    else
      var title := data.value.banner.value.title;
      if title.None? || title.value == "" then Some("Locations") else title
  }

  /** The locations list of a possibly missing document. */
  function ListedLocations(data: Option<PageData>): Option<seq<Location>>
  {
    if data.None? then None else data.value.locations
  }

  /** What the page shows. */
  datatype PageView =
    | Loading
    | Crashed
    | Shown(title: string, locations: seq<Location>, offsets: seq<int>, delays: seq<nat>)

  function Render(loading: bool, data: Option<PageData>, started: bool): (v: PageView)
    ensures v.Loading? <==> loading
    ensures v.Crashed? <==> !loading && Title(data).None?
    ensures v.Shown? ==>
      Title(data) == Some(v.title) &&
      v.locations == VisibleSorted(ListedLocations(data)) &&
      |v.offsets| == CircleCount && |v.delays| == CircleCount &&
      forall i :: 0 <= i < CircleCount ==> v.offsets[i] == Offset(i, started) && v.delays[i] == DelayMs(i, started)
  {
    if loading then Loading
    else
      match Title(data)
      case None => Crashed
      case Some(title) =>
        Shown(title, VisibleSorted(ListedLocations(data)),
          seq(CircleCount, i requires 0 <= i < CircleCount => Offset(i, started)),
          seq(CircleCount, i requires 0 <= i < CircleCount => DelayMs(i, started)))
  }

  /** The page's state. */
  class LocationsPageState {
    var data: Option<PageData>
    var loading: bool
    var animationStarted: bool

    constructor ()
      ensures data.None? && loading && !animationStarted
    {
      data := None;
      loading := true;
      animationStarted := false;
    }

    /** The fetch settles: a document that arrives is kept, a failure keeps
        none; loading ends either way. */
    method FetchDone(response: Option<PageData>)
      modifies this
      ensures data == (if response.Some? then response else old(data))
      ensures !loading && animationStarted == old(animationStarted)
    {
      if response.Some? {
        data := response;
      }
      loading := false;
    }

    /** The banner's timer: it is set only once a document is there. */
    method TimerFires()
      modifies this
      ensures animationStarted == (old(animationStarted) || old(data).Some?)
      ensures data == old(data) && loading == old(loading)
    {
      if data.Some? {
        animationStarted := true;
      }
    }

    /** What the page shows in this state. */
    function View(): PageView
      reads this
    {
      Render(loading, data, animationStarted)
    }
  }

  /** A page whose fetch failed still shows its title and no locations. */
  lemma FailedFetchShowsTitle()
    ensures Render(false, None, false) == Shown("Locations", [], [0, 0, 0, 0, 0, 0], [0, 0, 0, 0, 0, 0])
  {
  }
}
