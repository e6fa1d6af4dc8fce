/**
 * `src/components/shared/sidebar.tsx`: the desktop navigation. Which item is
 * highlighted for the current pathname, whether the Notifications badge
 * shows, and the unread flag read from session storage.
 */
module Sidebar {
  import opened Optional
  import opened Strings
  import opened Seqs

  datatype NavItem = NavItem(name: string, path: string, badge: bool)

  const NAV_ITEMS: seq<NavItem> := [
    NavItem("Dashboard", "/dashboard", false),
    NavItem("Notifications", "/notifications", true),
    NavItem("Calendar", "/calendar", false),
    NavItem("Meetings", "/meetings", false),
    NavItem("Collaboration", "/collaboration", false),
    NavItem("Meeting Summary", "/meeting-summary", false),
    NavItem("Tasks", "/tasks", false)
  ]

  const PROFILE_PATH: string := "/profile"
  const SETTINGS_PATH: string := "/settings"

  /** The session storage key the notifications page writes. */
  const UNREAD_KEY: string := "unreadNotificationCount"

  /** An item is active on its own path and, unless it is `/`, on every path below it. */
  predicate IsActive(path: string, pathname: string) {
    pathname == path || (path != "/" && IsPrefix(path + "/", pathname))
  }

  /** A path of one segment: `/` followed by at least one character, none of them `/`. */
  predicate SingleSegment(p: string) {
    |p| >= 2 && p[0] == '/' && forall i :: 1 <= i < |p| ==> p[i] != '/'
  }

  /** An active path is a prefix of the pathname that ends there or at a `/`: `/dashboardx` does not activate `/dashboard`. */
  lemma ActiveMeansSegmentPrefix(path: string, pathname: string)
    requires IsActive(path, pathname)
    ensures IsPrefix(path, pathname)
    ensures |pathname| == |path| || pathname[|path|] == '/'
  {
    if pathname != path {
      assert pathname[..|path|] == (path + "/")[..|path|];
      assert pathname[|path|] == (path + "/")[|path|];
    }
  }

  lemma SiblingPrefixInactive()
    ensures !IsActive("/dashboard", "/dashboardx")
    ensures IsActive("/dashboard", "/dashboard/x")
    ensures !IsActive("/", "/dashboard")
  {
    assert "/dashboardx"[..11][10] == 'x' && ("/dashboard" + "/")[10] == '/';
  }

  /** Two different one-segment paths are never active together. */
  lemma {:induction false} ActiveExclusive(a: string, b: string, pathname: string)
    requires SingleSegment(a) && SingleSegment(b) && a != b
    ensures !(IsActive(a, pathname) && IsActive(b, pathname))
  {
    if IsActive(a, pathname) && IsActive(b, pathname) {
      ActiveMeansSegmentPrefix(a, pathname);
      ActiveMeansSegmentPrefix(b, pathname);
    }
  }

  lemma NavPathsDistinctSegments()
    ensures forall i :: 0 <= i < |NAV_ITEMS| ==> SingleSegment(NAV_ITEMS[i].path)
    ensures forall i, j :: 0 <= i < j < |NAV_ITEMS| ==> NAV_ITEMS[i].path != NAV_ITEMS[j].path
  {
    forall i | 0 <= i < |NAV_ITEMS| ensures SingleSegment(NAV_ITEMS[i].path) {
    }
    forall i, j | 0 <= i < j < |NAV_ITEMS| ensures NAV_ITEMS[i].path != NAV_ITEMS[j].path {
      assert |NAV_ITEMS[i].path| != |NAV_ITEMS[j].path| || NAV_ITEMS[i].path[1] != NAV_ITEMS[j].path[1];
    }
  }

  /** The items highlighted for a pathname: never more than one. */
  function ActiveItems(pathname: string): (r: seq<NavItem>)
    ensures |r| <= 1
    ensures forall i :: 0 <= i < |NAV_ITEMS| && IsActive(NAV_ITEMS[i].path, pathname) ==> r == [NAV_ITEMS[i]]
    ensures r == [] <==> forall i :: 0 <= i < |NAV_ITEMS| ==> !IsActive(NAV_ITEMS[i].path, pathname)
  {
    NavPathsDistinctSegments();
    ActiveAtMostOne(NAV_ITEMS, pathname);
    var p := (item: NavItem) => IsActive(item.path, pathname);
    var r := Filter(NAV_ITEMS, p);
    if forall i :: 0 <= i < |NAV_ITEMS| ==> !p(NAV_ITEMS[i]) then
      FilterNone(NAV_ITEMS, p);
      r
    else
      r
  }

  /** In a list of distinct one-segment paths, the active ones number at most one. */
  lemma {:induction false} ActiveAtMostOne(items: seq<NavItem>, pathname: string)
    requires forall i :: 0 <= i < |items| ==> SingleSegment(items[i].path)
    requires forall i, j :: 0 <= i < j < |items| ==> items[i].path != items[j].path
    ensures var r := Filter(items, (item: NavItem) => IsActive(item.path, pathname));
      |r| <= 1 && forall i :: 0 <= i < |items| && IsActive(items[i].path, pathname) ==> r == [items[i]]
  {
    var p := (item: NavItem) => IsActive(item.path, pathname);
    if items != [] {
      ActiveAtMostOne(items[1..], pathname);
      var rest := Filter(items[1..], p);
      if p(items[0]) {
        forall i | 1 <= i < |items| ensures !p(items[i]) {
          ActiveExclusive(items[0].path, items[i].path, pathname);
        }
        FilterNone(items[1..], p);
      }
    }
  }

  /** `checkUnread`: no value or an empty one counts as unread; otherwise the parsed count must be positive. */
  function HasUnread(stored: Option<string>): (r: bool)
    ensures stored.None? || stored == Some("") ==> r
  {
    if stored.Some? && stored.value != "" then
      var n := ParseInt(stored.value);
      n.Some? && n.value > 0
    else true
  }

  /** For a count the notifications page stored, the flag says exactly whether the count is positive. */
  lemma HasUnreadOfStoredCount(n: nat)
    ensures HasUnread(Some(NatToString(n))) <==> n > 0
  {
    ParseIntNatToString(n);
  }

  /** A value that does not parse as a number (`NaN`) reads as no unread notifications. */
  lemma HasUnreadNotANumber()
    ensures !HasUnread(Some("abc"))
    ensures HasUnread(Some(" 3"))
    ensures !HasUnread(Some("-2"))
  {
    assert DigitPrefix("abc") == [];
    assert TrimStart(" 3") == "3";
    assert DigitPrefix("3") == "3";
    assert TrimStart("-2") == "-2";
    assert DigitPrefix("2") == "2";
  }

  predicate ShowBadge(item: NavItem, hasUnread: bool) {
    item.badge && hasUnread
  }

  /** Only the Notifications item can show a badge, and only while there is something unread. */
  lemma OnlyNotificationsBadge(hasUnread: bool)
    ensures forall i :: 0 <= i < |NAV_ITEMS| ==>
      (ShowBadge(NAV_ITEMS[i], hasUnread) <==> (NAV_ITEMS[i].name == "Notifications" && hasUnread))
  {
    forall i | 0 <= i < |NAV_ITEMS| ensures ShowBadge(NAV_ITEMS[i], hasUnread) <==> (NAV_ITEMS[i].name == "Notifications" && hasUnread) {
      if i != 1 {
        assert NAV_ITEMS[i].name != "Notifications" by {
          assert NAV_ITEMS[i].name[0] != 'N' || |NAV_ITEMS[i].name| != 13;
        }
      }
    }
  }

  /** Profile and Settings are highlighted on their exact path only. */
  predicate OtherLinkHighlighted(path: string, pathname: string) {
    pathname == path
  }

  lemma OtherLinksExactOnly()
    ensures !OtherLinkHighlighted(PROFILE_PATH, "/profile/edit") && IsActive(PROFILE_PATH, "/profile/edit")
    ensures OtherLinkHighlighted(SETTINGS_PATH, "/settings")
  {
  }

  /** The sidebar's unread state: false until the first check, then the flag of the latest stored value. */
  class AppSidebar {
    var hasUnread: bool

    constructor ()
      ensures !hasUnread
    {
      hasUnread := false;
    }

    /** `checkUnread`, run on mount and on every `storage` event. */
    method CheckUnread(stored: Option<string>)
      modifies this
      ensures hasUnread == HasUnread(stored)
    {
      hasUnread := HasUnread(stored);
    }
  }
}
