/** The dashboard shell: the role-filtered side menu, the active tab kept
    in step with the location, and the page title. */
module Dashboard {
  import opened Wrappers
  import opened Strings
  import opened Seqs

  datatype MenuItem = MenuItem(id: string, caption: string, roles: seq<string>)

  const Overview := MenuItem("overview", "Overview", ["admin", "supervisor", "staff"])
  const IssuesItem := MenuItem("issues", "Issues List", ["admin", "supervisor", "staff"])
  const MapItem := MenuItem("map", "Map View", ["admin", "supervisor", "staff"])
  const AssignmentsItem := MenuItem("assignments", "Assignments", ["admin", "supervisor"])
  const AnalyticsItem := MenuItem("analytics", "Analytics", ["admin", "supervisor"])

  /** `menuItems`, in declared order. */
  const MenuItems := [Overview, IssuesItem, MapItem, AssignmentsItem, AnalyticsItem]

  /** The path segments the location effect accepts as a tab. */
  const TabIds := ["overview", "issues", "map", "assignments", "analytics"]

  const DefaultTitle := "Dashboard"
  const DashboardPrefix := "/dashboard"

  function OfferedTo(role: string): MenuItem -> bool
  {
    (m: MenuItem) => role in m.roles
  }

  /** `filteredMenuItems`: the items whose roles include the user's role,
      in declared order. */
  function FilteredMenu(role: string): (r: seq<MenuItem>)
    ensures forall m :: m in r <==> m in MenuItems && role in m.roles
    ensures IsSubsequence(r, MenuItems)
  {
    Filter(MenuItems, OfferedTo(role))
  }

  lemma FilterMenuKeep(role: string, m: MenuItem, rest: seq<MenuItem>)
    requires role in m.roles
    ensures Filter([m] + rest, OfferedTo(role)) == [m] + Filter(rest, OfferedTo(role))
  {
    assert ([m] + rest)[1..] == rest;
  }

  lemma FilterMenuSkip(role: string, m: MenuItem, rest: seq<MenuItem>)
    requires role !in m.roles
    ensures Filter([m] + rest, OfferedTo(role)) == Filter(rest, OfferedTo(role))
  {
    assert ([m] + rest)[1..] == rest;
  }

  /** Staff see overview, issues and map. */
  lemma StaffMenu(role: string)
    requires role == "staff"
    ensures FilteredMenu(role) == [Overview, IssuesItem, MapItem]
  {
    var s4 := [AnalyticsItem];
    var s3 := [AssignmentsItem] + s4;
    var s2 := [MapItem] + s3;
    var s1 := [IssuesItem] + s2;
    assert MenuItems == [Overview] + s1;
    assert role !in AnalyticsItem.roles && role !in AssignmentsItem.roles;
    assert role in MapItem.roles && role in IssuesItem.roles && role in Overview.roles;
    FilterMenuSkip(role, AnalyticsItem, []);
    FilterMenuSkip(role, AssignmentsItem, s4);
    FilterMenuKeep(role, MapItem, s3);
    FilterMenuKeep(role, IssuesItem, s2);
    FilterMenuKeep(role, Overview, s1);
  }

  /** Admins and supervisors see all five items. */
  lemma FullMenu(role: string)
    requires role == "admin" || role == "supervisor"
    ensures FilteredMenu(role) == MenuItems
  {
    assert forall i :: 0 <= i < |MenuItems| ==> role in MenuItems[i].roles;
    FilterKeepsAll(MenuItems, OfferedTo(role));
  }

  /** A role named by no item sees an empty menu. */
  lemma EmptyMenu(role: string)
    requires role != "admin" && role != "supervisor" && role != "staff"
    ensures FilteredMenu(role) == []
  {
  }

  /** Menu items are identified by their id, and every label is non-empty. */
  lemma SameIdSameItem(m: MenuItem, k: MenuItem)
    requires m in MenuItems && k in MenuItems && m.id == k.id
    ensures m == k && m.caption != []
  {
  }

  function HasId(activeTab: string): MenuItem -> bool
  {
    (m: MenuItem) => m.id == activeTab
  }

  /** The page title: `filteredMenuItems.find(item => item.id === activeTab)?.label
      || 'Dashboard'`. */
  function PageTitle(role: string, activeTab: string): (r: string)
    ensures r != []
  {
    match Find(FilteredMenu(role), HasId(activeTab))
    case None => DefaultTitle
    case Some(m) => if m.caption != [] then m.caption else DefaultTitle
  }

  /** The title of a tab the user's menu offers is that item's label. */
  lemma PageTitleOfOfferedTab(role: string, activeTab: string, m: MenuItem)
    requires m in FilteredMenu(role) && m.id == activeTab
    ensures PageTitle(role, activeTab) == m.caption
  {
    var menu := FilteredMenu(role);
    var i :| 0 <= i < |menu| && menu[i] == m;
    assert HasId(activeTab)(menu[i]);
    var found := Find(menu, HasId(activeTab));
    var j :| 0 <= j < |menu| && menu[j] == found.value && HasId(activeTab)(menu[j]);
    assert menu[j] in menu;
    SameIdSameItem(found.value, m);
    assert PageTitle(role, activeTab) == found.value.caption;
  }

  /** The title of a tab the user's menu does not offer is `Dashboard`: for
      staff, the assignments and analytics tabs. */
  lemma PageTitleOfHiddenTab(role: string, activeTab: string)
    requires forall m :: m in FilteredMenu(role) ==> m.id != activeTab
    ensures PageTitle(role, activeTab) == DefaultTitle
  {
    var menu := FilteredMenu(role);
    assert forall j :: 0 <= j < |menu| ==> menu[j] in menu;
  }

  /** Staff on the assignments or analytics tab see the fallback title. */
  lemma HiddenTabTitle(activeTab: string)
    requires activeTab == "assignments" || activeTab == "analytics"
    ensures PageTitle("staff", activeTab) == DefaultTitle
  {
    StaffMenu("staff");
    PageTitleOfHiddenTab("staff", activeTab);
  }

  /** The tab a location selects: its last `/`-separated segment, when that
      is non-empty and one of the tab ids. */
  function TabFromPath(pathname: string): (r: Option<string>)
    ensures r.Some? ==> r.value in TabIds && r.value == LastSegment(pathname)
    ensures r.None? <==> LastSegment(pathname) !in TabIds
  {
    var path := LastSegment(pathname);
    if path != [] && path in TabIds then Some(path) else None
  }

  /** The location `handleTabChange` navigates to: the dashboard prefix, a
      slash, then the tab. */
  function TabPath(tab: string): (p: string)
    ensures |p| == |DashboardPrefix| + 1 + |tab|
    ensures p[..|DashboardPrefix| + 1] == DashboardPrefix + "/"
    ensures p[|DashboardPrefix| + 1..] == tab
  {
    DashboardPrefix + "/" + tab
  }

  /** Navigating to a tab's path and reading the tab back from the location
      gives the same tab. */
  lemma TabPathRoundTrip(tab: string)
    requires tab in TabIds
    ensures TabFromPath(TabPath(tab)) == Some(tab)
  {
    assert '/' !in tab;
    LastSegmentAfterSlash(DashboardPrefix, tab);
  }

  class DashboardView {
    var activeTab: string

    constructor ()
      ensures activeTab == "overview"
    {
      activeTab := "overview";
    }

    /** The location effect: adopt the path's tab, otherwise keep the
        current one. */
    method SyncFromLocation(pathname: string)
      modifies this`activeTab
      ensures activeTab == match TabFromPath(pathname)
                           case Some(tab) => tab
                           case None => old(activeTab)
    {
      var path := LastSegment(pathname);
      if path != [] && path in TabIds {
        activeTab := path;
      }
    }

    /** `handleTabChange`: the tab becomes active; the returned path is the
        one passed to `navigate`. */
    method ChangeTab(tab: string) returns (path: string)
      modifies this`activeTab
      ensures activeTab == tab && path == TabPath(tab)
    {
      activeTab := tab;
      path := DashboardPrefix + "/" + tab;
    }
  }
}
