/** The admin navigation bar: its three links and which of them is highlighted for a path. */
module AdminNav {
  import opened Text

  datatype NavItem = NavItem(href: string, caption: string, exact: bool)

  /** `navItems`, in display order; only the dashboard matches exactly. */
  const NavItems: seq<NavItem> := [
    NavItem("/admin", "Dashboard", true),
    NavItem("/admin/experiences", "Experiences", false),
    NavItem("/admin/skills", "Skills", false)]

  /** `isActive(href, exact)` for the current `pathname`. */
  predicate IsActive(pathname: string, href: string, exact: bool) {
    if exact then pathname == href else StartsWith(pathname, href)
  }

  /** An exact item is active on its own path only; any other item on every path that extends its href. */
  lemma IsActiveMeaning(pathname: string, href: string, rest: string)
    ensures IsActive(pathname, href, true) <==> pathname == href
    ensures IsActive(href + rest, href, false)
    ensures IsActive(pathname, href, false) ==> pathname == href + pathname[|href|..]
  {
    assert (href + rest)[..|href|] == href;
  }

  /** The items active on `pathname`, by index. */
  function ActiveItems(pathname: string): (r: set<nat>)
    ensures forall i :: i in r <==> 0 <= i < |NavItems| && IsActive(pathname, NavItems[i].href, NavItems[i].exact)
  {
    set i | 0 <= i < |NavItems| && IsActive(pathname, NavItems[i].href, NavItems[i].exact)
  }

  /** On its sections' paths the dashboard is not highlighted; the section is. */
  lemma SectionPaths()
    ensures ActiveItems("/admin") == {0}
    ensures ActiveItems("/admin/experiences") == {1}
    ensures ActiveItems("/admin/skills") == {2}
  {
    assert !StartsWith("/admin", "/admin/experiences") && !StartsWith("/admin", "/admin/skills");
    assert StartsWith("/admin/experiences", "/admin/experiences");
    assert "/admin/experiences"[..13][7] == 'e' && "/admin/skills"[7] == 's';
    assert !StartsWith("/admin/experiences", "/admin/skills");
    assert StartsWith("/admin/skills", "/admin/skills");
  }

  /** There is no segment boundary in the prefix test: `/admin/skills-old` highlights Skills. */
  lemma NoSegmentBoundary()
    ensures IsActive("/admin/skills-old", NavItems[2].href, NavItems[2].exact)
  {
    IsActiveMeaning("/admin/skills-old", "/admin/skills", "-old");
    assert "/admin/skills" + "-old" == "/admin/skills-old";
  }
}
