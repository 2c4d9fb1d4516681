/**
  The site header: when it slides out of view, which navigation link is highlighted, the
  mobile menu's open state, and the label of the theme button.
 */
module Navbar {
  import opened Optional
  import ScrollDirection
  import Theme

  datatype NavLink = NavLink(caption: string, href: string)

  /** The links of both the desktop bar and the mobile menu. */
  const NavLinks: seq<NavLink> := [
    NavLink("Services", "/services"),
    NavLink("Case Studies", "/case-studies"),
    NavLink("Insights", "/insights"),
    NavLink("About", "/about"),
    NavLink("Contact", "/contact")]

  /** `isHidden`: scrolled down, away from the top, with the mobile menu closed. */
  predicate IsHidden(direction: ScrollDirection.Direction, atTop: bool, mobileOpen: bool) {
    direction == ScrollDirection.Down && !atTop && !mobileOpen
  }

  /** With the tracker's invariant the top test is implied: the header hides exactly when
      the last move was down and the mobile menu is closed. */
  lemma HiddenWhenScrollingDown(t: ScrollDirection.ScrollTracker, mobileOpen: bool)
    requires t.Valid()
    ensures IsHidden(t.direction, t.atTop, mobileOpen) <==> t.direction == ScrollDirection.Down && !mobileOpen
  {
  }

  /** A link is highlighted when the current path is exactly its target. */
  predicate IsActive(pathname: string, link: NavLink) {
    pathname == link.href
  }

  /** No two links share a target. */
  lemma DistinctTargets()
    ensures forall i, j :: 0 <= i < j < |NavLinks| ==> NavLinks[i].href != NavLinks[j].href
  {
  }

  /** The first link at or after position `from` that targets `pathname`. */
  function FindLink(pathname: string, from: nat): (r: Option<nat>)
    ensures r.None? ==> forall k :: from <= k < |NavLinks| ==> !IsActive(pathname, NavLinks[k])
    ensures r.Some? ==> from <= r.value < |NavLinks| && IsActive(pathname, NavLinks[r.value])
    decreases |NavLinks| - from
  {
    if from >= |NavLinks| then None
    else if NavLinks[from].href == pathname then Some(from)
    else FindLink(pathname, from + 1)
  }

  /** The highlighted link, if any: at most one link is ever highlighted, in the desktop bar
      and in the mobile menu alike, since both use the same test. */
  function ActiveLink(pathname: string): (r: Option<nat>)
    ensures r.None? <==> forall k :: 0 <= k < |NavLinks| ==> !IsActive(pathname, NavLinks[k])
    ensures r.Some? ==> r.value < |NavLinks|
    ensures r.Some? ==> forall k :: 0 <= k < |NavLinks| ==> (IsActive(pathname, NavLinks[k]) <==> k == r.value)
  {
    DistinctTargets();
    FindLink(pathname, 0)
  }

  /** The theme button names the theme a press switches to. */
  function ThemeLabel(theme: string): (text: string)
    ensures text == "Switch to " + Theme.Toggle(theme) + " mode"
  {
    "Switch to " + (if theme == "dark" then "light" else "dark") + " mode"
  }

  datatype Icon = Sun | Moon

  /** The theme button's icon: a sun while the theme is dark, a moon otherwise. It always
      agrees with the button's label: the sun is shown exactly when a press switches to the
      light theme. */
  function ThemeIcon(theme: string): (icon: Icon)
    ensures icon == Sun <==> ThemeLabel(theme) == "Switch to light mode"
  {
    if Theme.IsDark(theme) then Sun else Moon
  }

  /** The mobile menu. */
  class Header {
    var mobileOpen: bool

    constructor ()
      ensures !mobileOpen
    {
      mobileOpen := false;
    }

    /** The menu button. */
    method ToggleMenu()
      modifies this
      ensures mobileOpen == !old(mobileOpen)
    {
      mobileOpen := !mobileOpen;
    }

    /** Following any link of the mobile menu, or its call-to-action button. */
    method FollowMobileLink()
      modifies this
      ensures !mobileOpen
    {
      mobileOpen := false;
    }
  }

  /** Opening the mobile menu always brings the header back into view. */
  lemma OpenMenuShowsHeader(direction: ScrollDirection.Direction, atTop: bool)
    ensures !IsHidden(direction, atTop, true)
  {
  }
}
