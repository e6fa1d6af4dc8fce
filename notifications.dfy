/**
 * `src/features/notifications/notifications-page.tsx`: the activity list.
 * A filter over the notifications, selecting an item (which marks it read),
 * marking everything read, and the unread count published in session
 * storage for the sidebar and the navigation drawer.
 */
module Notifications {
  import opened Optional
  import opened Strings
  import opened Seqs
  import Sidebar

  datatype FilterType = All | Unread | Mentions | Tasks | Invites
  datatype NotificationType = Meeting | Mention | Task | Invite

  datatype Item = Item(id: string, kind: NotificationType, category: FilterType, unread: bool,
                       name: string, preview: string, time: string, badge: Option<string>)

  const INITIAL: seq<Item> := [
    Item("1", Invite, Invites, true, "Design System Team", "Invitation from Sarah Chen", "2m", Some("Invite")),
    Item("2", Meeting, Tasks, true, "Neil Villanueva", "Meeting invitation for design review", "8:46 PM", Some("Meeting")),
    Item("3", Mention, Mentions, true, "Alex Smith", "@mentioned you in a comment", "10m", Some("Mention")),
    Item("4", Task, Tasks, false, "Jennifer Martinez", "Task assigned: Backend API documentation", "2h", Some("Task"))
  ]

  /** More rows than this are rendered through the virtualiser. */
  const VIRTUALIZE_ABOVE: nat := 20

  /** The filter predicate: everything, the unread items, or one category. */
  predicate Keep(filter: FilterType, item: Item) {
    if filter == All then true
    else if filter == Unread then item.unread
    else item.category == filter
  }

  function Filtered(items: seq<Item>, filter: FilterType): seq<Item> {
    Filter(items, (item: Item) => Keep(filter, item))
  }

  /** The filtered list keeps the order of the notifications; "all" keeps all of them. */
  lemma FilteredSpec(items: seq<Item>, filter: FilterType)
    ensures IsSubsequence(Filtered(items, filter), items)
    ensures filter == All ==> Filtered(items, filter) == items
    ensures forall i :: 0 <= i < |items| ==> (items[i] in Filtered(items, filter) <==>
      (filter == All || (filter == Unread && items[i].unread) || (filter != Unread && items[i].category == filter)))
  {
    var p := (item: Item) => Keep(filter, item);
    FilterIsSubsequence(items, p);
    if filter == All {
      FilterAll(items, p);
    }
  }

  predicate IsUnread(item: Item) {
    item.unread
  }

  /** `notifs.filter((n) => n.unread).length`. */
  function UnreadCount(items: seq<Item>): nat {
    Count(items, IsUnread)
  }

  /** The list after `select(id)`: the items with that id are read, every other item is as it was. */
  function Select(items: seq<Item>, id: string): (r: seq<Item>)
    ensures |r| == |items|
    ensures forall i :: 0 <= i < |items| ==> r[i] == if items[i].id == id then items[i].(unread := false) else items[i]
  {
    seq(|items|, i requires 0 <= i < |items| => if items[i].id == id then items[i].(unread := false) else items[i])
  }

  /** Selecting the same item twice changes nothing more than selecting it once. */
  lemma SelectIdempotent(items: seq<Item>, id: string)
    ensures Select(Select(items, id), id) == Select(items, id)
  {
  }

  /** After a selection, the unread items are exactly those that were unread and have another id. */
  lemma {:induction false} SelectUnreadCount(items: seq<Item>, id: string)
    ensures UnreadCount(Select(items, id)) == Count(items, (n: Item) => n.unread && n.id != id)
  {
    if items != [] {
      SelectUnreadCount(items[1..], id);
      assert Select(items, id)[1..] == Select(items[1..], id);
    }
  }

  /** With distinct ids, selecting an unread item lowers the count by exactly one. */
  lemma {:induction false} SelectUnreadLowersByOne(items: seq<Item>, k: nat)
    requires k < |items| && items[k].unread
    requires forall i, j :: 0 <= i < j < |items| ==> items[i].id != items[j].id
    ensures UnreadCount(Select(items, items[k].id)) == UnreadCount(items) - 1
  {
    var id := items[k].id;
    SelectUnreadCount(items, id);
    CountWithout(items, k);
  }

  lemma {:induction false} CountWithout(items: seq<Item>, k: nat)
    requires k < |items| && items[k].unread
    requires forall i, j :: 0 <= i < j < |items| ==> items[i].id != items[j].id
    ensures Count(items, (n: Item) => n.unread && n.id != items[k].id) == UnreadCount(items) - 1
  {
    var id := items[k].id;
    var p := (n: Item) => n.unread && n.id != id;
    if k == 0 {
      assert forall i :: 0 <= i < |items[1..]| ==> items[1..][i].id != id;
      SameCount(items[1..], p, IsUnread);
    } else {
      CountWithout(items[1..], k - 1);
    }
  }

  lemma {:induction false} SameCount(s: seq<Item>, p: Item -> bool, q: Item -> bool)
    requires forall i :: 0 <= i < |s| ==> p(s[i]) == q(s[i])
    ensures Count(s, p) == Count(s, q)
  {
    if s != [] {
      SameCount(s[1..], p, q);
    }
  }

  /** `markAllAsRead`: every item read, nothing else changed. */
  function MarkAllRead(items: seq<Item>): (r: seq<Item>)
    ensures |r| == |items|
    ensures forall i :: 0 <= i < |items| ==> r[i] == items[i].(unread := false)
  {
    seq(|items|, i requires 0 <= i < |items| => items[i].(unread := false))
  }

  lemma MarkAllReadClearsCount(items: seq<Item>)
    ensures UnreadCount(MarkAllRead(items)) == 0
    ensures MarkAllRead(MarkAllRead(items)) == MarkAllRead(items)
  {
    FilterNone(MarkAllRead(items), IsUnread);
  }

  /** `selectedItem`: the first notification with the selected id, if any. */
  function SelectedItem(items: seq<Item>, selectedId: Option<string>): (r: Option<Item>)
    ensures selectedId.None? ==> r.None?
    ensures r.Some? <==> selectedId.Some? && exists i :: 0 <= i < |items| && items[i].id == selectedId.value
    ensures r.Some? ==> r.value in items && r.value.id == selectedId.value
  {
    if selectedId.None? then None else Find(items, (n: Item) => n.id == selectedId.value)
  }

  predicate ShouldVirtualize(filtered: seq<Item>) {
    |filtered| > VIRTUALIZE_ABOVE
  }

  /** The page's state, and the count it last wrote to session storage. */
  class NotificationsPage {
    var activeFilter: FilterType
    var selectedId: Option<string>
    var showMenu: bool
    var notifications: seq<Item>
    /** The value of `unreadNotificationCount` in session storage. */
    var storedCount: Option<string>

    /** The stored count always describes the current list. */
    ghost predicate Valid()
      reads this
    {
      storedCount == Some(NatToString(UnreadCount(notifications)))
    }

    /** The first render and its mount effect, which publishes the count. */
    constructor ()
      ensures Valid()
      ensures activeFilter == All && selectedId == None && !showMenu && notifications == INITIAL
    {
      activeFilter, selectedId, showMenu, notifications := All, None, false, INITIAL;
      storedCount := Some(NatToString(UnreadCount(INITIAL)));
    }

    method SetFilter(filter: FilterType)
      modifies this
      ensures activeFilter == filter
      ensures selectedId == old(selectedId) && showMenu == old(showMenu)
      ensures notifications == old(notifications) && storedCount == old(storedCount)
    {
      activeFilter := filter;
    }

    method ToggleMenu()
      modifies this
      ensures showMenu == !old(showMenu)
      ensures activeFilter == old(activeFilter) && selectedId == old(selectedId)
      ensures notifications == old(notifications) && storedCount == old(storedCount)
    {
      showMenu := !showMenu;
    }

    method SelectItem(id: string)
      requires Valid()
      modifies this
      ensures Valid()
      ensures selectedId == Some(id) && notifications == Select(old(notifications), id)
      ensures activeFilter == old(activeFilter) && showMenu == old(showMenu)
    {
      selectedId := Some(id);
      notifications := Select(notifications, id);
      storedCount := Some(NatToString(UnreadCount(notifications)));
    }

    method MarkAllAsRead()
      requires Valid()
      modifies this
      ensures Valid()
      ensures notifications == MarkAllRead(old(notifications)) && !showMenu
      ensures storedCount == Some("0")
      ensures activeFilter == old(activeFilter) && selectedId == old(selectedId)
    {
      notifications := MarkAllRead(notifications);
      storedCount := Some(NatToString(UnreadCount(notifications)));
      showMenu := false;
      MarkAllReadClearsCount(old(notifications));
    }

    /** The mobile detail sheet's `onOpenChange`: closing clears the selection, opening does nothing. */
    method SheetOpenChange(open: bool)
      modifies this
      ensures selectedId == if open then old(selectedId) else None
      ensures activeFilter == old(activeFilter) && showMenu == old(showMenu)
      ensures notifications == old(notifications) && storedCount == old(storedCount)
    {
      if !open {
        selectedId := None;
      }
    }

    /** The rows shown under the active filter. */
    function Rows(): seq<Item>
      reads this
    {
      Filtered(notifications, activeFilter)
    }

    /** The detail sheet is open on mobile while a selected item exists. */
    function SheetOpen(isMobile: bool): (r: bool)
      reads this
      ensures r <==> isMobile && SelectedItem(notifications, selectedId).Some?
    {
      SelectedItem(notifications, selectedId).Some? && isMobile
    }
  }

  /** What the navigation reads from storage agrees with the list: a dot iff some notification is unread. */
  lemma StoredCountDrivesDot(items: seq<Item>)
    ensures Sidebar.HasUnread(Some(NatToString(UnreadCount(items)))) <==> exists i :: 0 <= i < |items| && items[i].unread
  {
    Sidebar.HasUnreadOfStoredCount(UnreadCount(items));
    if exists i :: 0 <= i < |items| && items[i].unread {
      assert UnreadCount(items) > 0;
    } else {
      FilterNone(items, IsUnread);
    }
  }

  lemma UnreadCountStep(items: seq<Item>)
    requires items != []
    ensures UnreadCount(items) == (if items[0].unread then 1 else 0) + UnreadCount(items[1..])
  {
  }

  /** Three unread items ahead of a read one make an unread count of three. */
  lemma ThreeUnreadOfFour(items: seq<Item>)
    requires |items| == 4 && items[0].unread && items[1].unread && items[2].unread && !items[3].unread
    ensures UnreadCount(items) == 3
  {
    UnreadCountStep(items);
    UnreadCountStep(items[1..]);
    UnreadCountStep(items[2..]);
    UnreadCountStep(items[3..]);
    assert items[1..][1..] == items[2..];
    assert items[2..][1..] == items[3..];
    assert items[3..][1..] == [];
  }

  lemma InitialIdsDistinct()
    ensures forall i, j :: 0 <= i < j < |INITIAL| ==> INITIAL[i].id != INITIAL[j].id
  {
    forall i, j | 0 <= i < j < |INITIAL| ensures INITIAL[i].id != INITIAL[j].id {
      assert INITIAL[i].id[0] != INITIAL[j].id[0];
    }
  }

  lemma InitialCounts()
    ensures UnreadCount(INITIAL) == 3
    ensures forall i, j :: 0 <= i < j < |INITIAL| ==> INITIAL[i].id != INITIAL[j].id
  {
    ThreeUnreadOfFour(INITIAL);
    InitialIdsDistinct();
  }

  lemma SmallCounts()
    ensures NatToString(3) == "3" && NatToString(2) == "2" && NatToString(0) == "0"
  {
  }

  /**
   * Opening the page publishes 3; selecting the unread item "2" lowers it to 2;
   * "Mark all as read" writes 0, and the sidebar's dot goes out.
   */
  method ReadingClearsTheDot() returns (initial: Option<string>, afterSelect: Option<string>, afterAll: Option<string>, dot: bool)
    ensures initial == Some("3") && afterSelect == Some("2") && afterAll == Some("0") && !dot
  {
    InitialCounts();
    SmallCounts();
    var page := new NotificationsPage();
    initial := page.storedCount;
    SelectUnreadLowersByOne(INITIAL, 1);
    page.SelectItem(INITIAL[1].id);
    afterSelect := page.storedCount;
    page.MarkAllAsRead();
    afterAll := page.storedCount;
    dot := Sidebar.HasUnread(afterAll);
    Sidebar.HasUnreadOfStoredCount(0);
  }
}
