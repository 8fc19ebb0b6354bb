// The desktop work gallery: which projects a category filter shows, where
// each shown project sits (left, right or centred column, one row of 425px
// per project), the integer bounds of the gallery's height, and which
// project `scrollToCategory` brings into view.
module WorkGallery {
  import opened Wrappers
  import opened JsValue
  import opened Sequences
  import opened WorkData

  /** The column a shown project is assigned. */
  datatype Side = Left | Right | Center

  /** A shown project: `...project` with `left`, `top` and the assigned
      `side`; `item.side` is the recorded `originalSide`. */
  datatype Placed = Placed(item: Project, left: int, top: int, side: Side)

  const AllMedia := "ALL MEDIA"
  const RowHeight := 425

  /** `filterMap`: the category each filter name stands for. */
  function FilterMap(filter: string): (r: Option<string>)
    ensures r.Some? ==> r.value == filter || (filter == "LIVE PERFORMANCE" && r.value == "LIVE")
    ensures filter in {"FILM & TV", "THEATRE", "CONCERT", "EDITORIAL", "LIVE PERFORMANCE"} <==> r.Some?
  {
    if filter == "FILM & TV" then Some("FILM & TV")
    else if filter == "THEATRE" then Some("THEATRE")
    else if filter == "CONCERT" then Some("CONCERT")
    else if filter == "EDITORIAL" then Some("EDITORIAL")
    else if filter == "LIVE PERFORMANCE" then Some("LIVE")
    else None
  }

  /** The test a project passes under a filter other than ALL MEDIA. */
  predicate Matches(p: Project, filter: string)
  {
    Some(p.category) == FilterMap(filter) || p.category == filter
  }

  /** Whether `rawFilteredProjects` keeps a project. */
  predicate Kept(p: Project, filter: string)
  {
    p.category != MusicVideo && (filter == AllMedia || Matches(p, filter))
  }

  /** `rawFilteredProjects`: the projects that are not music videos and
      pass the filter, in their input order. */
  function RawFiltered(projects: seq<Project>, filter: string): (r: seq<Project>)
    ensures forall p :: p in r <==> p in projects && Kept(p, filter)
  {
    Filter(projects, p => Kept(p, filter))
  }

  /** How many of the projects are not centred. */
  function {:induction false} NonCenterCount(s: seq<Project>): (r: nat)
    ensures r <= |s|
  {
    if s == [] then 0
    else NonCenterCount(s[..|s| - 1]) + (if s[|s| - 1].side != "center" then 1 else 0)
  }

  /** The column of the project at `i`: centred ones stay centred, the
      others alternate left and right by the number of non-centred
      projects before them. */
  function SideAt(ps: seq<Project>, i: nat): Side
    requires i < |ps|
  {
    if ps[i].side == "center" then Center
    else if NonCenterCount(ps[..i]) % 2 == 0 then Left
    else Right
  }

  /** `positions[positionIndex].left`. */
  function LeftOf(side: Side): int
  {
    match side
    case Left => 50
    case Right => 750
    case Center => 390
  }

  /** The placement `map` over the projects to position. */
  function Position(ps: seq<Project>): (r: seq<Placed>)
    ensures |r| == |ps|
    ensures forall i :: 0 <= i < |r| ==> r[i].item == ps[i] && r[i].top == i * RowHeight
    ensures forall i :: 0 <= i < |r| ==> (r[i].side == Center <==> ps[i].side == "center")
    ensures forall i :: 0 <= i < |r| ==> r[i].left == LeftOf(r[i].side) && r[i].side == SideAt(ps, i)
  {
    seq(|ps|, i requires 0 <= i < |ps| => Placed(ps[i], LeftOf(SideAt(ps, i)), i * RowHeight, SideAt(ps, i)))
  }

  /** `filteredProjects`: under ALL MEDIA the whole input list is
      positioned, otherwise the raw filtered one. */
  function Gallery(projects: seq<Project>, filter: string): (r: seq<Placed>)
    ensures |r| == |if filter == AllMedia then projects else RawFiltered(projects, filter)|
  {
    Position(if filter == AllMedia then projects else RawFiltered(projects, filter))
  }

  /** The height of the gallery: fixed when empty, else between the two
      pixel bounds of the `clamp` (its middle term is in vw units). */
  datatype Height = Fixed | Clamp(min: int, max: int)

  function GalleryHeight(count: nat): Height
  {
    if count == 0 then Fixed
    else
      var min := (count - 1) * RowHeight + 400;
      Clamp(if min >= 400 then min else 400, (count - 1) * RowHeight + 500)
  }

  /** The project at `i` is the first shown one of the category. */
  predicate FirstOf(shown: seq<Placed>, category: string, i: int)
  {
    0 <= i < |shown| && shown[i].item.category == category &&
    forall j :: 0 <= j < i ==> shown[j].item.category != category
  }

  /** `scrollToCategory`: the id of the first shown project of the category
      (`None` inside where that project has no id). */
  function {:induction false} ScrollTarget(shown: seq<Placed>, category: string): (r: Option<Option<Value>>)
    ensures r.None? <==> forall i :: 0 <= i < |shown| ==> shown[i].item.category != category
    ensures r.Some? ==> exists i :: FirstOf(shown, category, i) && shown[i].item.id == r.value
  {
    if shown == [] then None
    else if shown[0].item.category == category then
      assert FirstOf(shown, category, 0);
      Some(shown[0].item.id)
    else
      var r := ScrollTarget(shown[1..], category);
      if r.Some? then
        var i :| FirstOf(shown[1..], category, i) && shown[1..][i].item.id == r.value;
        assert shown[i + 1] == shown[1..][i];
        assert FirstOf(shown, category, i + 1) by {
          forall j | 0 <= j < i + 1 ensures shown[j].item.category != category {
            if j > 0 { assert shown[j] == shown[1..][j - 1]; }
          }
        }
        r
      else
        assert forall i :: 0 <= i < |shown| ==> shown[i].item.category != category by {
          forall i | 0 <= i < |shown| ensures shown[i].item.category != category {
            if i > 0 { assert shown[i] == shown[1..][i - 1]; }
          }
        }
        None
  }

  // ---- What the gallery promises ----

  /** A filter other than ALL MEDIA never shows a music video, and shows
      exactly the projects of its category. */
  lemma FilteredShown(projects: seq<Project>, filter: string, p: Project)
    requires filter != AllMedia
    ensures (exists i :: 0 <= i < |Gallery(projects, filter)| && Gallery(projects, filter)[i].item == p)
      <==> p in projects && p.category != MusicVideo && Matches(p, filter)
  {
    var raw := RawFiltered(projects, filter);
    var g := Gallery(projects, filter);
    if p in raw {
      var i :| 0 <= i < |raw| && raw[i] == p;
      assert g[i].item == p;
    }
  }

  /** Under ALL MEDIA the gallery positions every input project, music
      videos included: the music-video filter of `rawFilteredProjects` is
      bypassed there. */
  lemma AllMediaShowsAll(projects: seq<Project>)
    ensures |Gallery(projects, AllMedia)| == |projects|
    ensures forall i :: 0 <= i < |projects| ==> Gallery(projects, AllMedia)[i].item == projects[i]
  {
  }

  /** Counting non-centred projects over a stretch of centred ones. */
  lemma {:induction false} CountOverCentres(ps: seq<Project>, i: nat, j: nat)
    requires i < j <= |ps| && ps[i].side != "center"
    requires forall k :: i < k < j ==> ps[k].side == "center"
    ensures NonCenterCount(ps[..j]) == NonCenterCount(ps[..i]) + 1
  {
    if j == i + 1 {
      assert ps[..j][..|ps[..j]| - 1] == ps[..i];
    } else {
      CountOverCentres(ps, i, j - 1);
      assert ps[..j][..|ps[..j]| - 1] == ps[..j - 1];
    }
  }

  /** Non-centred projects alternate: the next non-centred project after
      one, with only centred projects between them, takes the other side. */
  lemma Alternates(ps: seq<Project>, i: nat, j: nat)
    requires i < j < |ps| && ps[i].side != "center" && ps[j].side != "center"
    requires forall k :: i < k < j ==> ps[k].side == "center"
    ensures Position(ps)[i].side != Center && Position(ps)[j].side != Center
    ensures Position(ps)[i].side != Position(ps)[j].side
    ensures Position(ps)[i].left + Position(ps)[j].left == 800
  {
    CountOverCentres(ps, i, j);
    var c := NonCenterCount(ps[..i]);
    assert NonCenterCount(ps[..j]) == c + 1;
    assert SideAt(ps, i) == (if c % 2 == 0 then Left else Right);
    assert SideAt(ps, j) == (if c % 2 == 0 then Right else Left);
  }

  /** The first non-centred project goes left. */
  lemma {:induction false} FirstGoesLeft(ps: seq<Project>, i: nat)
    requires i < |ps| && ps[i].side != "center"
    requires forall k :: 0 <= k < i ==> ps[k].side == "center"
    ensures Position(ps)[i].side == Left && Position(ps)[i].left == 50
  {
    NoneBefore(ps, i);
  }

  lemma {:induction false} NoneBefore(ps: seq<Project>, i: nat)
    requires i <= |ps|
    requires forall k :: 0 <= k < i ==> ps[k].side == "center"
    ensures NonCenterCount(ps[..i]) == 0
  {
    if i > 0 {
      NoneBefore(ps, i - 1);
      assert ps[..i][..|ps[..i]| - 1] == ps[..i - 1];
    }
  }

  /** The height bounds of a gallery with projects: the lower bound leaves
      400px under the last row's top and the upper bound 500px, so the
      lower bound is at least 400 and exactly 100 below the upper. */
  lemma HeightBounds(count: nat)
    ensures count == 0 <==> GalleryHeight(count).Fixed?
    ensures count > 0 ==> GalleryHeight(count).min >= 400 && GalleryHeight(count).max == GalleryHeight(count).min + 100
    ensures count > 0 ==> GalleryHeight(count).min == (count - 1) * RowHeight + 400
  {
  }

  /** Scrolling targets a shown project standing at or below any other of
      its category. */
  lemma ScrollTargetFirst(shown: seq<Placed>, category: string, j: nat)
    requires j < |shown| && shown[j].item.category == category
    ensures ScrollTarget(shown, category).Some?
    ensures exists i :: 0 <= i <= j && shown[i].item.id == ScrollTarget(shown, category).value && shown[i].item.category == category
  {
    var r := ScrollTarget(shown, category);
    var i :| FirstOf(shown, category, i) && shown[i].item.id == r.value;
    assert i <= j;
  }
}
