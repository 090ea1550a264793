/**
 * The sidebar's navigation links and the rule that highlights the link of
 * the current page, used by both the desktop and the mobile menu.
 */
module Sidebar {

  /** A navigation entry: its caption and the route it links to. */
  datatype NavLink = NavLink(name: string, path: string)

  const NavLinks: seq<NavLink> := [
    NavLink("Dashboard", "/"),
    NavLink("Accounts", "/accounts"),
    NavLink("Transactions", "/transactions"),
    NavLink("Budgets", "/budgets"),
    NavLink("Goals", "/goals"),
    NavLink("Reports", "/reports"),
    NavLink("Send Feedback", "/sendfeedback")
  ]

  /**
   * A link is active when the pathname is its path, or, for any link but
   * the root, when the pathname starts with its path.
   */
  predicate IsActive(pathname: string, path: string)
  {
    pathname == path || (path != "/" && path <= pathname)
  }

  /** The highlight flag of each link, in menu order, as both menus compute it. */
  function ActiveFlags(links: seq<NavLink>, pathname: string): (flags: seq<bool>)
    ensures |flags| == |links|
    ensures forall i :: 0 <= i < |links| ==> (flags[i] <==> IsActive(pathname, links[i].path))
  {
    if links == [] then []
    else ActiveFlags(links[..|links| - 1], pathname) + [IsActive(pathname, links[|links| - 1].path)]
  }

  /** The root link is active for the pathname "/" and for no other. */
  lemma RootOnlyWhenExact(pathname: string)
    ensures IsActive(pathname, "/") <==> pathname == "/"
  {
  }

  /**
   * Any pathname that extends a non-root path activates that link; the
   * match is a plain prefix, so "/goalsettings" activates "/goals".
   */
  lemma ExtensionActivates(path: string, rest: string)
    requires path != "/"
    ensures IsActive(path + rest, path)
  {
    assert (path + rest)[..|path|] == path;
  }

  /** Two prefixes of the same string are prefixes of each other, the shorter of the longer. */
  lemma PrefixesNest(a: string, b: string, s: string)
    requires a <= s && b <= s && |a| <= |b|
    ensures a <= b
  {
    assert forall i :: 0 <= i < |a| ==> a[i] == s[i] == b[i];
  }

  /** No path of the menu is a prefix of another, and only the root path has length 1. */
  lemma NavPathsPrefixFree()
    ensures forall i, j ::
      0 <= i < |NavLinks| && 0 <= j < |NavLinks| && i != j && NavLinks[i].path != "/" ==>
      !(NavLinks[i].path <= NavLinks[j].path)
    ensures forall i :: 0 <= i < |NavLinks| && NavLinks[i].path != "/" ==> |NavLinks[i].path| > 1
  {
    forall i, j | 0 <= i < |NavLinks| && 0 <= j < |NavLinks| && i != j && NavLinks[i].path != "/"
      ensures !(NavLinks[i].path <= NavLinks[j].path)
    {
      var p, q := NavLinks[i].path, NavLinks[j].path;
      if |p| <= |q| {
        assert p[1] != q[1] || p[2] != q[2] || p[|p| - 1] != q[|p| - 1];
      }
    }
  }

  /** Whatever the pathname, at most one link of the menu is highlighted. */
  lemma AtMostOneActive(pathname: string)
    ensures forall i, j ::
      0 <= i < j < |NavLinks| ==>
      !(IsActive(pathname, NavLinks[i].path) && IsActive(pathname, NavLinks[j].path))
  {
    NavPathsPrefixFree();
    forall i, j | 0 <= i < j < |NavLinks|
      ensures !(IsActive(pathname, NavLinks[i].path) && IsActive(pathname, NavLinks[j].path))
    {
      var p, q := NavLinks[i].path, NavLinks[j].path;
      if p != "/" && q != "/" && p <= pathname && q <= pathname {
        if |p| <= |q| {
          PrefixesNest(p, q, pathname);
        } else {
          PrefixesNest(q, p, pathname);
        }
      }
    }
  }
}
