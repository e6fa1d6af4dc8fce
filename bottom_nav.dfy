/**
 * `src/components/shared/bottom-nav.tsx`: the mobile tab bar. It uses the
 * same active-path rule as the sidebar over its own five items.
 */
module BottomNav {
  import opened Seqs
  import Sidebar

  const PRIMARY_ITEMS: seq<Sidebar.NavItem> := [
    Sidebar.NavItem("Dashboard", "/dashboard", false),
    Sidebar.NavItem("Calendar", "/calendar", false),
    Sidebar.NavItem("Meetings", "/meetings", false),
    Sidebar.NavItem("Collaboration", "/collaboration", false),
    Sidebar.NavItem("Tasks", "/tasks", false)
  ]

  /** The tabs highlighted for a pathname: at most one, and it is the tab whose path is active. */
  function ActiveTabs(pathname: string): (r: seq<Sidebar.NavItem>)
    ensures |r| <= 1
    ensures forall i :: 0 <= i < |PRIMARY_ITEMS| && Sidebar.IsActive(PRIMARY_ITEMS[i].path, pathname) ==> r == [PRIMARY_ITEMS[i]]
    ensures r == [] <==> forall i :: 0 <= i < |PRIMARY_ITEMS| ==> !Sidebar.IsActive(PRIMARY_ITEMS[i].path, pathname)
  {
    PrimaryPathsDistinctSegments();
    Sidebar.ActiveAtMostOne(PRIMARY_ITEMS, pathname);
    var p := (item: Sidebar.NavItem) => Sidebar.IsActive(item.path, pathname);
    var r := Filter(PRIMARY_ITEMS, p);
    if forall i :: 0 <= i < |PRIMARY_ITEMS| ==> !p(PRIMARY_ITEMS[i]) then
      FilterNone(PRIMARY_ITEMS, p);
      r
    else
      r
  }

  lemma PrimaryPathsDistinctSegments()
    ensures forall i :: 0 <= i < |PRIMARY_ITEMS| ==> Sidebar.SingleSegment(PRIMARY_ITEMS[i].path)
    ensures forall i, j :: 0 <= i < j < |PRIMARY_ITEMS| ==> PRIMARY_ITEMS[i].path != PRIMARY_ITEMS[j].path
  {
    forall i, j | 0 <= i < j < |PRIMARY_ITEMS| ensures PRIMARY_ITEMS[i].path != PRIMARY_ITEMS[j].path {
      assert PRIMARY_ITEMS[i].path[1] != PRIMARY_ITEMS[j].path[1] || |PRIMARY_ITEMS[i].path| != |PRIMARY_ITEMS[j].path|;
    }
  }

  /** The badge dot depends on `item.badge` alone. */
  predicate ShowsBadge(item: Sidebar.NavItem) {
    item.badge
  }

  /** Five tabs, in a fixed order, none with a badge; each also appears, badge-free, in the sidebar. */
  lemma FiveTabsNoBadge()
    ensures |PRIMARY_ITEMS| == 5
    ensures forall i :: 0 <= i < |PRIMARY_ITEMS| ==> !ShowsBadge(PRIMARY_ITEMS[i])
    ensures forall i :: 0 <= i < |PRIMARY_ITEMS| ==> PRIMARY_ITEMS[i] in Sidebar.NAV_ITEMS
  {
  }
}
