// The navigation bar: its links, which link is marked active for the
// current path, the mobile menu that opens and closes, and when the centre
// title shows on the home page.
module Navbar {
  import opened Strings

  /** An entry of the navigation links. */
  datatype Link = Link(name: string, href: string)

  const LeftLinks: seq<Link> := [Link("WORK", "/work"), Link("PROCESS", "/process"), Link("STORY", "/story")]
  const RightLinks: seq<Link> := [Link("LOCATIONS", "/locations"), Link("CONTACT", "/contact"), Link("FAQ", "/faq")]

  /** `allLinks`, the list of the mobile menu: the left links, then the
      right ones. */
  function AllLinks(): (r: seq<Link>)
    ensures |r| == 6
    ensures forall i :: 0 <= i < 3 ==> r[i] == LeftLinks[i] && r[i + 3] == RightLinks[i]
  {
    LeftLinks + RightLinks
  }

  /** `isActive(href)`: the home link is active only on the home path, any
      other link on every path that starts with it. */
  function IsActive(href: string, path: string): (r: bool)
    ensures href == "/" ==> (r <==> path == "/")
    ensures href != "/" ==> (r <==> StartsWith(path, href))
  {
    (href == "/" && path == "/") || (href != "/" && StartsWith(path, href))
  }

  /** A link is active on its own page and on every page below it. */
  lemma ActiveBelow(link: Link, rest: string)
    requires link in AllLinks()
    ensures IsActive(link.href, link.href + rest)
  {
    assert (link.href + rest)[..|link.href|] == link.href;
  }

  /** No path marks two links of the bar: their second characters differ,
      and an active link's second character is the path's. */
  lemma {:induction false} AtMostOneActive(path: string, i: nat, j: nat)
    requires i < 6 && j < 6
    requires IsActive(AllLinks()[i].href, path) && IsActive(AllLinks()[j].href, path)
    ensures i == j
  {
    var links := AllLinks();
    assert links[i].href[1] == path[..|links[i].href|][1] == path[1];
    assert links[j].href[1] == path[..|links[j].href|][1] == path[1];
  }

  /** The home path marks no link of the bar. */
  lemma HomeMarksNone(i: nat)
    requires i < 6
    ensures !IsActive(AllLinks()[i].href, "/")
  {
    assert |AllLinks()[i].href| > 1;
  }

  /** `Math.min(Math.max(scrollY - 80, 0) / 80, 1)`, in exact arithmetic. */
  function ScrollProgress(scrollY: real): (r: real)
    ensures 0.0 <= r <= 1.0
  {
    var p := (if scrollY - 80.0 > 0.0 then scrollY - 80.0 else 0.0) / 80.0;
    if p < 1.0 then p else 1.0
  }

  /** The centre title shows on every page but home, and on home once the
      scroll progress passes 0.6. */
  function TitleShown(path: string, scrollY: real): bool
  {
    if path == "/" then ScrollProgress(scrollY) > 0.6 else true
  }

  /** On the home page the title appears after 128 pixels of scrolling. */
  lemma TitleShownIff(path: string, scrollY: real)
    ensures TitleShown(path, scrollY) <==> path != "/" || scrollY > 128.0
  {
  }

  /** The bar's state: the path it was rendered for and whether the mobile
      menu is open. */
  class NavbarState {
    var path: string
    var menuOpen: bool

    constructor (path: string)
      ensures this.path == path && !menuOpen
    {
      this.path := path;
      menuOpen := false;
    }

    /** The links the mobile menu shows: all of them while it is open. */
    function MenuLinks(): (r: seq<Link>)
      reads this
      ensures menuOpen ==> r == AllLinks()
      ensures !menuOpen ==> r == []
    {
      if menuOpen then AllLinks() else []
    }

    /** `toggleMobileMenu`. */
    method ToggleMenu()
      modifies this
      ensures menuOpen == !old(menuOpen) && path == old(path)
    {
      menuOpen := !menuOpen;
    }

    /** A desktop link or the title: the bar moves to the link's path and
        the menu stays as it was. */
    method Navigate(href: string)
      modifies this
      ensures path == href && menuOpen == old(menuOpen)
    {
      path := href;
    }

    /** A link of the mobile menu: the bar moves to the link's path and the
        menu closes. */
    method PickMobileLink(href: string)
      modifies this
      ensures path == href && !menuOpen
    {
      path := href;
      menuOpen := false;
    }
  }

  /** Picking a link of the mobile menu marks that link and no other. */
  lemma PickedLinkActive(i: nat, j: nat)
    requires i < 6 && j < 6
    ensures IsActive(AllLinks()[j].href, AllLinks()[i].href) <==> i == j
  {
    ActiveBelow(AllLinks()[i], "");
    assert AllLinks()[i].href + "" == AllLinks()[i].href;
    if IsActive(AllLinks()[j].href, AllLinks()[i].href) {
      AtMostOneActive(AllLinks()[i].href, i, j);
    }
  }
}
