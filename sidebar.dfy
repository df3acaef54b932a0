/** The dashboard side navigation of `src/components/Sidebar/Sidebar.jsx`: six
    fixed items, the rule that highlights the item of the current path, and
    the collapse toggle. */
module Sidebar {
  import opened Js

  const DashboardPath := "/dashboard"

  datatype NavItem = NavItem(title: string, path: string)

  /** The six entries of the navigation: the dashboard first, then five
      pages below it, no two with the same path. */
  function NavItems(): (r: seq<NavItem>)
    ensures |r| == 6 && r[0].path == DashboardPath
    ensures forall i :: 0 <= i < |r| ==> StartsWith(r[i].path, DashboardPath)
    ensures forall i, j :: 0 <= i < j < |r| ==> r[i].path != r[j].path
  {
    var items := [
      NavItem("Dashboard", "/dashboard"),
      NavItem("Analytics", "/dashboard/analytics"),
      NavItem("Projects", "/dashboard/projects"),
      NavItem("Calendar", "/dashboard/calendar"),
      NavItem("Messages", "/dashboard/messages"),
      NavItem("Settings", "/dashboard/settings")
    ];
    assert forall i :: 1 <= i < |items| ==> |items[i].path| > 11 && items[i].path[..11] == "/dashboard/";
    assert items[1].path[11] == 'a' && items[2].path[11] == 'p' && items[3].path[11] == 'c';
    assert items[4].path[11] == 'm' && items[5].path[11] == 's';
    items
  }

  /** `isActive`: an exact match, or for every item but the dashboard itself a
      plain prefix match of the current pathname. */
  predicate IsActive(pathname: string, path: string): (r: bool)
    ensures pathname == path ==> r
    ensures r ==> StartsWith(pathname, path)
  {
    pathname == path || (path != DashboardPath && StartsWith(pathname, path))
  }

  /** The dashboard item is highlighted on its own path only. */
  lemma DashboardExactOnly(pathname: string)
    ensures IsActive(pathname, DashboardPath) <==> pathname == DashboardPath
  {
  }

  /** The prefix test knows no segment boundary: a path that merely begins
      with the settings path highlights Settings. */
  lemma SettingsMatchesWithoutBoundary()
    ensures IsActive("/dashboard/settingsX", "/dashboard/settings")
    ensures IsActive("/dashboard/settings/profile", "/dashboard/settings")
  {
    assert "/dashboard/settings" <= "/dashboard/settingsX";
    assert "/dashboard/settings" <= "/dashboard/settings/profile";
  }

  /** The item below the dashboard whose name starts with `c`, or 0. */
  function ItemByLetter(c: char): (k: int)
    ensures 0 <= k < |NavItems()|
  {
    match c
    case 'a' => 1
    case 'p' => 2
    case 'c' => 3
    case 'm' => 4
    case 's' => 5
    case _ => 0
  }

  /** An independent description of the highlighted item: the dashboard for
      its own path, otherwise the item named by the letter after
      `/dashboard/`, when its path is a prefix. */
  function ActiveIndex(pathname: string): (r: Option<int>)
    ensures r.Some? ==> 0 <= r.value < |NavItems()| && IsActive(pathname, NavItems()[r.value].path)
  {
    if pathname == DashboardPath then Some(0)
    else if |pathname| > 11 then
      var k := ItemByLetter(pathname[11]);
      if k != 0 && IsActive(pathname, NavItems()[k].path) then Some(k) else None
    else None
  }

  /** An item is highlighted exactly when it is the one `ActiveIndex` names. */
  lemma ActiveIsIndex(pathname: string, i: int)
    requires 0 <= i < |NavItems()|
    ensures IsActive(pathname, NavItems()[i].path) <==> ActiveIndex(pathname) == Some(i)
  {
    if IsActive(pathname, NavItems()[i].path) && i != 0 {
      var path := NavItems()[i].path;
      assert |path| > 11;
      assert path <= pathname;
      assert pathname[11] == path[11];
      assert ItemByLetter(path[11]) == i;
      assert pathname != DashboardPath;
    }
  }

  /** For any pathname at most one item is highlighted. */
  lemma AtMostOneActive(pathname: string, i: int, j: int)
    requires 0 <= i < |NavItems()| && 0 <= j < |NavItems()|
    requires IsActive(pathname, NavItems()[i].path) && IsActive(pathname, NavItems()[j].path)
    ensures i == j
  {
    ActiveIsIndex(pathname, i);
    ActiveIsIndex(pathname, j);
  }

  /** The sidebar's one piece of state. */
  class SidebarPanel {
    var collapsed: bool

    constructor ()
      ensures !collapsed
    {
      collapsed := false;
    }

    /** `toggleSidebar` flips the collapsed flag, so two toggles restore it. */
    method ToggleSidebar()
      modifies this
      ensures collapsed == !old(collapsed)
    {
      collapsed := !collapsed;
    }
  }
}
