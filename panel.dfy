/**
 * `src/components/shell/panel.tsx`: a side panel on desktop and a bottom
 * sheet on mobile, built on the shared focus scope with a 260 ms unmount
 * delay, a 100 px downward swipe that closes it, and a side-dependent
 * desktop placement.
 */
module Panel {
  import opened Optional
  import opened Swipe
  import opened FocusTrap
  import opened Seqs

  const UNMOUNT_MS: nat := 260
  const SWIPE_THRESHOLD: int := 100

  datatype Side = LeftSide | RightSide

  /** `side = "right"` is the default. */
  function SideOrDefault(side: Option<Side>): (s: Side)
    ensures side.None? ==> s == RightSide
    ensures side.Some? ==> s == side.value
  {
    if side.Some? then side.value else RightSide
  }

  /** The screen edge the desktop panel is attached to (`md:right-0` or `md:left-0`). */
  datatype Edge = LeftEdge | RightEdge

  /** Where the panel sits horizontally on desktop. */
  datatype Offset = InPlace | BeyondEdge(edge: Edge)

  /** Where the panel sits vertically: in view, or pushed below the bottom edge. */
  datatype Vertical = InView | BelowBottom

  /** The panel's position on a phone (below the `md` breakpoint) and on desktop. */
  datatype Placement = Placement(mobile: Vertical, desktopVertical: Vertical, desktop: Offset)

  /** `desktopPlacement`: the right side attaches to the right edge, the left side to the left. */
  function Anchor(side: Side): Edge {
    if side == RightSide then RightEdge else LeftEdge
  }

  /** `desktopClosedTransform`. */
  function DesktopClosedTransform(side: Side): string {
    if side == RightSide then "md:translate-x-full" else "md:-translate-x-full"
  }

  /** `transformClassName`: the translate classes of an open or a closed panel. */
  function TransformClasses(open: bool, side: Side): seq<string> {
    if open then ["translate-y-0", "md:translate-y-0", "md:translate-x-0"]
    else ["translate-y-full", "md:translate-y-0", DesktopClosedTransform(side)]
  }

  /**
   * What a list of translate classes means: the unprefixed vertical class
   * applies on a phone, an `md:` vertical class overrides it on desktop, and
   * a positive full width pushes the desktop panel past the right edge, a
   * negative one past the left.
   */
  function PlacementOf(classes: seq<string>): Placement {
    var mobile := if "translate-y-full" in classes then BelowBottom else InView;
    Placement(
      mobile,
      if "md:translate-y-full" in classes then BelowBottom
      else if "md:translate-y-0" in classes then InView
      else mobile,
      if "md:translate-x-full" in classes then BeyondEdge(RightEdge)
      else if "md:-translate-x-full" in classes then BeyondEdge(LeftEdge)
      else InPlace)
  }

  /**
   * An open panel is in view everywhere. A closed one drops below the bottom
   * edge on a phone and, on desktop, stays at its height and slides out past
   * the edge it is attached to.
   */
  lemma ClosedPanelLeavesByItsEdge(side: Side)
    ensures PlacementOf(TransformClasses(true, side)) == Placement(InView, InView, InPlace)
    ensures PlacementOf(TransformClasses(false, side)) == Placement(BelowBottom, InView, BeyondEdge(Anchor(side)))
  {
  }

  /** A panel's swipe asks to close exactly on a mostly-vertical downward drag of at least 100 px. */
  lemma SwipeDownCloses(dx: int, dy: int)
    ensures SwipeCloseRequests(Classify(dx, dy, SWIPE_THRESHOLD), Down) ==
      (if Abs(dx) < Abs(dy) && dy >= SWIPE_THRESHOLD then [false] else [])
  {
  }

  /** `Panel`: its side, the focus scope and the swipe recogniser on its body. */
  class PanelView {
    const side: Side
    const surface: Surface
    const swipe: Recognizer

    ghost predicate Configured() {
      surface.unmountDelay == UNMOUNT_MS && swipe.threshold == SWIPE_THRESHOLD
    }

    constructor (doc: Document, panelId: ElementId, content: seq<Element>, side: Option<Side>)
      ensures fresh(surface) && fresh(swipe)
      ensures this.side == SideOrDefault(side)
      ensures surface.Valid() && !surface.open && !surface.mounted && !surface.unmountPending
      ensures surface.doc == doc && surface.panelId == panelId && surface.content == content
      ensures Configured() && !swipe.active
    {
      this.side := SideOrDefault(side);
      surface := new Surface(doc, panelId, content, UNMOUNT_MS);
      swipe := new Recognizer(SWIPE_THRESHOLD);
    }

    /** The translate classes of the current render. */
    function Transform(): (t: seq<string>)
      reads surface
      ensures PlacementOf(t) == if surface.open then Placement(InView, InView, InPlace)
                                else Placement(BelowBottom, InView, BeyondEdge(Anchor(side)))
    {
      ClosedPanelLeavesByItsEdge(side);
      TransformClasses(surface.open, side)
    }

    /** A pointer released on the panel; the result lists the `onOpenChange` calls the swipe made. */
    method SwipeEnd(clientX: int, clientY: int) returns (requests: seq<bool>)
      requires Configured()
      modifies swipe
      ensures !swipe.active
      ensures requests == if old(swipe.active)
                          then SwipeCloseRequests(Classify(clientX - old(swipe.x), clientY - old(swipe.y), SWIPE_THRESHOLD), Down)
                          else []
    {
      var fired := swipe.PointerUp(clientX, clientY);
      requests := SwipeCloseRequests(fired, Down);
    }
  }

  /** Two enabled buttons are both focusable, in order. */
  lemma TwoButtonsFocusable(content: seq<Element>, a: ElementId, b: ElementId)
    requires content == [Element(a, Button, false, false, None), Element(b, Button, false, false, None)]
    ensures Ids(GetFocusable(content)) == [a, b]
  {
    GetFocusableSpec(content);
    FilterAll(content, IsFocusable);
  }

  /**
   * A left panel with two buttons, opened from `x`: Shift+Tab on the first
   * button wraps to the second, closing restores `x` while the panel slides
   * out to the left (down on a phone) and stays mounted until the timeout, after which it is gone.
   */
  method LeftPanelRoundTrip(x: ElementId)
    returns (wrapped: Option<ElementId>, focusAfter: Option<ElementId>, closing: Placement, mountedAfterTimeout: bool)
    ensures wrapped == Some(x + 2) && focusAfter == Some(x) && !mountedAfterTimeout
    ensures closing == Placement(BelowBottom, InView, BeyondEdge(LeftEdge))
  {
    var doc := new Document("auto", Some(x), {x});
    var content := [Element(x + 1, Button, false, false, None), Element(x + 2, Button, false, false, None)];
    var p := new PanelView(doc, x + 3, content, Some(LeftSide));
    TwoButtonsFocusable(content, x + 1, x + 2);
    p.surface.SetOpen(true);
    assert doc.activeElement == Some(x + 1);
    var outcome := p.surface.KeyDown(Tab, true);
    assert outcome.moveFocusTo == Some(x + 2);
    wrapped := doc.activeElement;
    p.surface.SetOpen(false);
    focusAfter := doc.activeElement;
    closing := PlacementOf(p.Transform());
    p.surface.UnmountTimeout();
    mountedAfterTimeout := p.surface.mounted;
  }
}
