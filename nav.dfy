/** The dashboard's navigation (`components/layout/dashboard-nav.tsx`): which
    entry is highlighted for the current path, and the mobile menu. */
module Nav {
  import opened Text

  datatype NavItem = NavItem(href: string, text: string)

  const Root := "/dashboard"

  /** `navItems`, in display order. */
  const NavItems: seq<NavItem> := [
    NavItem(Root, "Heute"),
    NavItem("/dashboard/kalender", "Kalender"),
    NavItem("/dashboard/kunden", "Kunden"),
    NavItem("/dashboard/kampagnen", "Kampagnen"),
    NavItem("/dashboard/einstellungen", "Einstellungen")
  ]

  /** `isActive`: the overview entry needs the exact path, every other entry
      a path that starts with its `href`. Either way an active entry's
      `href` is a prefix of the path. */
  predicate IsActive(pathname: string, href: string)
    ensures IsActive(pathname, href) ==> StartsWith(pathname, href)
  {
    if href == Root then pathname == Root else StartsWith(pathname, href)
  }

  /** On a path inside a section (its `href`, then anything) exactly that
      section's entry is highlighted and the overview is not. Nothing marks
      a segment boundary, so `/dashboard/kundenX` highlights "Kunden" too. */
  lemma OneEntryActiveInSection(i: int, rest: string)
    requires 1 <= i < |NavItems|
    ensures forall j :: 0 <= j < |NavItems| ==>
      (IsActive(NavItems[i].href + rest, NavItems[j].href) <==> j == i)
  {
    var path := NavItems[i].href + rest;
    assert path[..|NavItems[i].href|] == NavItems[i].href;
    forall j | 0 <= j < |NavItems| && j != i
      ensures !IsActive(path, NavItems[j].href)
    {
      if j > 0 {
        var k := if {i, j} == {1, 3} then 13 else 12;
        assert NavItems[i].href[k] != NavItems[j].href[k];
        assert path[k] == NavItems[i].href[k];
      }
    }
  }

  /** On the overview's own path only the overview is highlighted. */
  lemma OnlyRootActiveOnRoot()
    ensures forall j :: 0 <= j < |NavItems| ==> (IsActive(Root, NavItems[j].href) <==> j == 0)
  {
  }

  /** The mobile menu of the navigation. */
  class MobileMenu {
    var mobileOpen: bool

    constructor ()
      ensures !mobileOpen
    {
      mobileOpen := false;
    }

    /** The hamburger button. */
    method Toggle()
      modifies this
      ensures mobileOpen == !old(mobileOpen)
    {
      mobileOpen := !mobileOpen;
    }

    /** A click on a navigation link or on the overlay. */
    method Close()
      modifies this
      ensures !mobileOpen
    {
      mobileOpen := false;
    }

    /** The overlay is rendered only while the menu is open. */
    predicate OverlayShown()
      reads this
    {
      mobileOpen
    }
  }
}
