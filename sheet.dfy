/**
 * `src/components/ui/sheet.tsx`: the `Sheet` context, the `SheetTrigger`
 * and `SheetClose` controls, and `SheetContent`, a bottom sheet built on
 * the shared focus scope with a 260 ms unmount delay and a downward swipe
 * of at least 100 px that closes it.
 */
module Sheet {
  import opened Optional
  import opened Swipe
  import opened FocusTrap

  const UNMOUNT_MS: nat := 260
  const SWIPE_THRESHOLD: int := 100

  const TRIGGER_OUTSIDE: string := "SheetTrigger must be used within <Sheet />"
  const CLOSE_OUTSIDE: string := "SheetClose must be used within <Sheet />"
  const CONTENT_OUTSIDE: string := "SheetContent must be used within <Sheet />"

  datatype Control = Trigger | Close

  /** The `children` of a control: a React element, with or without its own `onClick`, or something else. */
  datatype Child = ElementChild(hasOnClick: bool) | OtherChild

  /** A call made when the rendered control is clicked. */
  datatype Call = ChildOnClick | OnOpenChange(open: bool)

  /** Rendering either throws (no enclosing `Sheet`) or yields a control whose click makes these calls. */
  datatype Rendered = Threw(message: string) | Clickable(calls: seq<Call>)

  /**
   * Rendering `SheetTrigger` or `SheetClose` and clicking it. With `asChild`
   * and an element child, the child is cloned and its own `onClick` runs
   * first; otherwise the child is wrapped in a plain button.
   */
  function RenderAndClick(control: Control, insideSheet: bool, asChild: bool, child: Child): (r: Rendered)
    ensures !insideSheet <==> r.Threw?
    ensures r.Threw? ==> r.message == (if control == Trigger then TRIGGER_OUTSIDE else CLOSE_OUTSIDE)
    ensures r.Clickable? ==> |r.calls| >= 1 && r.calls[|r.calls| - 1] == OnOpenChange(control == Trigger)
    ensures r.Clickable? ==> (ChildOnClick in r.calls <==> (asChild && child == ElementChild(true)))
  {
    if !insideSheet then
      Threw(if control == Trigger then TRIGGER_OUTSIDE else CLOSE_OUTSIDE)
    else if asChild && child.ElementChild? then
      Clickable((if child.hasOnClick then [ChildOnClick] else []) + [OnOpenChange(control == Trigger)])
    else
      Clickable([OnOpenChange(control == Trigger)])
  }

  /** A trigger inside a sheet asks to open exactly once, a close control to close exactly once. */
  lemma {:induction false} ControlsRequestOnce(control: Control, asChild: bool, child: Child)
    ensures var r := RenderAndClick(control, true, asChild, child);
      r.Clickable? && multiset(r.calls)[OnOpenChange(control == Trigger)] == 1
      && multiset(r.calls)[OnOpenChange(control != Trigger)] == 0
  {
    var r := RenderAndClick(control, true, asChild, child);
    if asChild && child == ElementChild(true) {
      assert r.calls == [ChildOnClick, OnOpenChange(control == Trigger)];
    } else {
      assert r.calls == [OnOpenChange(control == Trigger)];
    }
  }

  /** A sheet's swipe asks to close exactly on a mostly-vertical downward drag of at least 100 px. */
  lemma SwipeDownCloses(dx: int, dy: int)
    ensures SwipeCloseRequests(Classify(dx, dy, SWIPE_THRESHOLD), Down) ==
      (if Abs(dx) < Abs(dy) && dy >= SWIPE_THRESHOLD then [false] else [])
  {
  }

  /** `SheetContent`: the focus scope and the swipe recogniser on its panel. */
  class SheetContent {
    const surface: Surface
    const swipe: Recognizer

    /** The configuration `SheetContent` passes; both are fixed for the component's life. */
    ghost predicate Configured() {
      surface.unmountDelay == UNMOUNT_MS && swipe.threshold == SWIPE_THRESHOLD
    }

    constructor (doc: Document, panelId: ElementId, content: seq<Element>)
      ensures fresh(surface) && fresh(swipe)
      ensures surface.Valid() && !surface.open && !surface.mounted && !surface.unmountPending
      ensures surface.doc == doc && surface.panelId == panelId && surface.content == content
      ensures Configured() && !swipe.active
    {
      surface := new Surface(doc, panelId, content, UNMOUNT_MS);
      swipe := new Recognizer(SWIPE_THRESHOLD);
    }

    /** A pointer released on the panel; the result lists the `onOpenChange` calls the swipe made. */
    method SwipeEnd(clientX: int, clientY: int) returns (requests: seq<bool>)
      requires Configured()
      modifies swipe
      ensures !swipe.active
      ensures requests == if old(swipe.active)
                          then SwipeCloseRequests(Classify(clientX - old(swipe.x), clientY - old(swipe.y), SWIPE_THRESHOLD), Down)
                          else []
    {
      var fired := swipe.PointerUp(clientX, clientY);
      requests := SwipeCloseRequests(fired, Down);
    }
  }

  /**
   * Escape end to end: a sheet opened while `x` has focus takes focus to its
   * first control; Escape asks the parent to close; once the parent closes
   * it, `x` has focus again and the body scrolls as before, while the sheet
   * stays mounted until the 260 ms timeout.
   */
  method EscapeRestoresFocus(x: ElementId, overflow: string, control: ElementId)
    returns (focusWhileOpen: Option<ElementId>, outcome: KeyOutcome, focusAfter: Option<ElementId>, scroll: string, mountedUntilTimeout: bool)
    requires x != control
    ensures focusWhileOpen == Some(control)
    ensures outcome.preventDefault && outcome.requestClose
    ensures focusAfter == Some(x) && scroll == overflow && mountedUntilTimeout
  {
    var doc := new Document(overflow, Some(x), {x, control});
    var sheet := new SheetContent(doc, control + x + 1, [Element(control, Button, false, false, None)]);
    assert GetFocusable(sheet.surface.content) == [Element(control, Button, false, false, None)];
    sheet.surface.SetOpen(true);
    focusWhileOpen := doc.activeElement;
    outcome := sheet.surface.KeyDown(Escape, false);
    if outcome.requestClose {
      sheet.surface.SetOpen(false);
    }
    focusAfter, scroll, mountedUntilTimeout := doc.activeElement, doc.overflow, sheet.surface.mounted;
  }
}
