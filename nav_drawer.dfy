/**
 * `src/components/shared/nav-drawer.tsx`: the mobile navigation drawer,
 * built on the shared focus scope with a 240 ms unmount delay. A left swipe
 * of at least 80 px closes it, every link closes it, and its Notifications
 * link carries the unread dot read from session storage.
 */
module NavDrawer {
  import opened Optional
  import opened Swipe
  import opened FocusTrap
  import Sidebar

  const UNMOUNT_MS: nat := 240
  const SWIPE_THRESHOLD: int := 80

  /** The drawer's quick links, in order; each one's `onClick` calls `onOpenChange(false)`. */
  const LINKS: seq<string> := ["/notifications", "/profile", "/settings"]

  /** Clicking a link: navigate to its path, and ask the parent to close the drawer. */
  datatype LinkClick = LinkClick(navigateTo: string, openChange: bool)

  function ClickLink(i: nat): (r: Option<LinkClick>)
    ensures r.Some? <==> i < |LINKS|
    ensures r.Some? ==> r.value.navigateTo == LINKS[i] && !r.value.openChange
  {
    if i < |LINKS| then Some(LinkClick(LINKS[i], false)) else None
  }

  /** The drawer's swipe asks to close exactly on a mostly-horizontal leftward drag of at least 80 px. */
  lemma SwipeLeftCloses(dx: int, dy: int)
    ensures SwipeCloseRequests(Classify(dx, dy, SWIPE_THRESHOLD), Left) ==
      (if Abs(dx) >= Abs(dy) && dx <= -SWIPE_THRESHOLD then [false] else [])
  {
  }

  /** The dot on the Notifications link shows iff the unread flag is set. */
  predicate ShowsDot(hasUnread: bool) {
    hasUnread
  }

  /** `NavDrawer`: the unread flag, the focus scope and the swipe recogniser on its panel. */
  class Drawer {
    var hasUnread: bool
    const surface: Surface
    const swipe: Recognizer

    ghost predicate Configured() {
      surface.unmountDelay == UNMOUNT_MS && swipe.threshold == SWIPE_THRESHOLD
    }

    constructor (doc: Document, panelId: ElementId, content: seq<Element>)
      ensures fresh(surface) && fresh(swipe)
      ensures !hasUnread
      ensures surface.Valid() && !surface.open && !surface.mounted && !surface.unmountPending
      ensures surface.doc == doc && surface.panelId == panelId && surface.content == content
      ensures Configured() && !swipe.active
    {
      hasUnread := false;
      surface := new Surface(doc, panelId, content, UNMOUNT_MS);
      swipe := new Recognizer(SWIPE_THRESHOLD);
    }

    /** `checkUnread`, run on mount and on every `storage` event: the same rule as the sidebar's. */
    method CheckUnread(stored: Option<string>)
      modifies this
      ensures hasUnread == Sidebar.HasUnread(stored)
    {
      hasUnread := Sidebar.HasUnread(stored);
    }

    /** A pointer released on the panel; the result lists the `onOpenChange` calls the swipe made. */
    method SwipeEnd(clientX: int, clientY: int) returns (requests: seq<bool>)
      requires Configured()
      modifies swipe
      ensures !swipe.active
      ensures requests == if old(swipe.active)
                          then SwipeCloseRequests(Classify(clientX - old(swipe.x), clientY - old(swipe.y), SWIPE_THRESHOLD), Left)
                          else []
    {
      var fired := swipe.PointerUp(clientX, clientY);
      requests := SwipeCloseRequests(fired, Left);
    }
  }

  /**
   * Swiping the open drawer 100 px to the left asks the parent to close it;
   * once closed, focus is back on the menu button `x` that opened it.
   */
  method SwipeClosesAndRestores(x: ElementId, startX: int, y: int)
    returns (requests: seq<bool>, focusAfter: Option<ElementId>, mountedUntilTimeout: bool)
    ensures requests == [false] && focusAfter == Some(x) && mountedUntilTimeout
  {
    var doc := new Document("", Some(x), {x});
    var drawer := new Drawer(doc, x + 1, [Element(x + 2, A, true, false, None)]);
    drawer.surface.SetOpen(true);
    drawer.swipe.PointerDown(startX, y);
    requests := drawer.SwipeEnd(startX - 100, y);
    if requests == [false] {
      drawer.surface.SetOpen(false);
    }
    focusAfter, mountedUntilTimeout := doc.activeElement, drawer.surface.mounted;
  }
}
