// The studio locations as the client pages read them from the locations
// document, and the list both the footer and the locations page show: the
// visible locations, sorted by their `order`.
module SiteLocations {
  import opened Wrappers
  import opened Sequences
  import opened Sorting

  /** The fields of a location the client decisions look at. */
  datatype Location = Location(name: string, visible: bool, order: int)

  function OrderOf(l: Location): int
  {
    l.order
  }

  function IsVisible(l: Location): bool
  {
    l.visible
  }

  /** `locations?.filter(l => l.visible)?.sort((a, b) => a.order - b.order) || []`:
      empty when the document has no list. */
  function VisibleSorted(locations: Option<seq<Location>>): (r: seq<Location>)
    ensures locations.None? ==> r == []
    ensures locations.Some? ==>
      SortedBy(r, OrderOf) && multiset(r) == multiset(Filter(locations.value, IsVisible))
  {
    if locations.None? then [] else SortBy(Filter(locations.value, IsVisible), OrderOf)
  }

  /** A location is listed exactly when it is in the document and visible. */
  lemma VisibleMembers(locations: seq<Location>, l: Location)
    ensures l in VisibleSorted(Some(locations)) <==> l in locations && l.visible
  {
    var r := VisibleSorted(Some(locations));
    assert l in r <==> l in multiset(r);
    assert l in Filter(locations, IsVisible) <==> l in multiset(Filter(locations, IsVisible));
  }

  /** Visible locations of equal order keep the document's order. */
  lemma VisibleStable(locations: seq<Location>, k: int)
    ensures Filter(VisibleSorted(Some(locations)), HasKey(OrderOf, k)) ==
      Filter(Filter(locations, IsVisible), HasKey(OrderOf, k))
  {
    SortStable(Filter(locations, IsVisible), OrderOf, k);
  }
}
