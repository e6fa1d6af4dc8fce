/**
 * The modal focus scope that `src/components/ui/sheet.tsx`,
 * `src/components/shell/panel.tsx` and `src/components/shared/nav-drawer.tsx`
 * each carry a copy of: the `getFocusable` query, the Escape/Tab keydown
 * trap, and the effects that capture focus on open, lock body scrolling,
 * restore focus on close and unmount after a delay.
 *
 * The DOM is abstracted to element ids: the panel's descendants in document
 * order, the document's focused element and its `body.style.overflow`.
 */
module FocusTrap {
  import opened Optional
  import opened Seqs
  import Swipe

  type ElementId = nat

  datatype Tag = A | Button | Input | Select | Textarea | Div | Span | OtherTag

  /** The attributes the selectors look at; `tabIndex` is the attribute's text, if present. */
  datatype Element = Element(id: ElementId, tag: Tag, hasHref: bool, disabled: bool, tabIndex: Option<string>)

  /**
   * The selector list `a[href]`, `button:not([disabled])`, `input:not([disabled])`,
   * `select:not([disabled])`, `textarea:not([disabled])`, `[tabindex]:not([tabindex='-1'])`.
   */
  predicate MatchesSelectors(e: Element) {
    || (e.tag == A && e.hasHref)
    || (e.tag in {Button, Input, Select, Textarea} && !e.disabled)
    || (e.tabIndex.Some? && e.tabIndex.value != "-1")
  }

  predicate NotDisabled(e: Element) {
    !e.disabled
  }

  /** `getFocusable(container)`: `querySelectorAll` in document order, then `filter((el) => !el.hasAttribute("disabled"))`. */
  function GetFocusable(content: seq<Element>): seq<Element> {
    Filter(Filter(content, MatchesSelectors), NotDisabled)
  }

  /** What survives the query and the filter, in one predicate. */
  predicate IsFocusable(e: Element) {
    && !e.disabled
    && (|| (e.tag == A && e.hasHref)
        || e.tag in {Button, Input, Select, Textarea}
        || (e.tabIndex.Some? && e.tabIndex.value != "-1"))
  }

  /**
   * `getFocusable` keeps exactly the enabled links with `href`, form controls
   * and elements with a `tabindex` other than `-1`, in document order; any
   * element carrying `disabled`, even a link, is dropped.
   */
  lemma {:induction false} GetFocusableSpec(content: seq<Element>)
    ensures GetFocusable(content) == Filter(content, IsFocusable)
    ensures IsSubsequence(GetFocusable(content), content)
    ensures forall i :: 0 <= i < |content| ==> (content[i] in GetFocusable(content) <==> IsFocusable(content[i]))
  {
    FilterTwice(content, MatchesSelectors, NotDisabled, IsFocusable);
    FilterIsSubsequence(content, IsFocusable);
    var r := GetFocusable(content);
    forall i | 0 <= i < |content| && content[i] in r ensures IsFocusable(content[i]) {
      var j :| 0 <= j < |r| && r[j] == content[i];
    }
  }

  function Ids(es: seq<Element>): (r: seq<ElementId>)
    ensures |r| == |es| && forall i :: 0 <= i < |es| ==> r[i] == es[i].id
  {
    seq(|es|, i requires 0 <= i < |es| => es[i].id)
  }

  // ------------------------------------------------------------- keydown

  datatype Key = Escape | Tab | OtherKey

  /**
   * What the keydown listener does: whether it calls `preventDefault`,
   * whether it calls `onOpenChange(false)`, and where it moves focus.
   */
  datatype KeyOutcome = KeyOutcome(preventDefault: bool, requestClose: bool, moveFocusTo: Option<ElementId>)

  const PASS_THROUGH: KeyOutcome := KeyOutcome(false, false, None)

  /**
   * The keydown listener, given the ids of the focusable descendants in
   * order, the focused element, and whether the panel contains it.
   */
  function OnKeyDown(open: bool, key: Key, shift: bool, focusable: seq<ElementId>,
                     active: Option<ElementId>, inPanel: bool): KeyOutcome
  {
    if !open then PASS_THROUGH
    else if key == Escape then KeyOutcome(true, true, None)
    else if key != Tab then PASS_THROUGH
    else if |focusable| == 0 then PASS_THROUGH
    else
      var first := focusable[0];
      var last := focusable[|focusable| - 1];
      if shift then
        if active == Some(first) || !inPanel then KeyOutcome(true, false, Some(last)) else PASS_THROUGH
      else if active == Some(last) then KeyOutcome(true, false, Some(first))
      else PASS_THROUGH
  }

  /** Keys are ignored while closed; Escape while open prevents the default and requests closing. */
  lemma EscapeAndClosed(key: Key, shift: bool, focusable: seq<ElementId>, active: Option<ElementId>, inPanel: bool)
    ensures OnKeyDown(false, key, shift, focusable, active, inPanel) == PASS_THROUGH
    ensures OnKeyDown(true, Escape, shift, focusable, active, inPanel) == KeyOutcome(true, true, None)
    ensures OnKeyDown(true, Tab, shift, [], active, inPanel) == PASS_THROUGH
  {
  }

  /** Whenever the trap moves focus, it moves it to the first or the last focusable element, and never closes. */
  lemma TrapStaysInside(open: bool, key: Key, shift: bool, focusable: seq<ElementId>, active: Option<ElementId>, inPanel: bool)
    ensures var o := OnKeyDown(open, key, shift, focusable, active, inPanel);
      o.moveFocusTo.Some? ==>
        && key == Tab && o.preventDefault && !o.requestClose && |focusable| > 0
        && o.moveFocusTo.value == (if shift then focusable[|focusable| - 1] else focusable[0])
  {
  }

  /** Shift+Tab goes to the last element exactly when focus is on the first one or outside the panel. */
  lemma ShiftTabWraps(focusable: seq<ElementId>, active: Option<ElementId>, inPanel: bool)
    requires |focusable| > 0
    ensures var o := OnKeyDown(true, Tab, true, focusable, active, inPanel);
      (o.moveFocusTo == Some(focusable[|focusable| - 1])) <==> (active == Some(focusable[0]) || !inPanel)
    ensures var o := OnKeyDown(true, Tab, true, focusable, active, inPanel);
      o.moveFocusTo.None? ==> o == PASS_THROUGH
  {
  }

  /**
   * Plain Tab wraps to the first element only from the last one. Focus
   * outside the panel is NOT pulled back in by a plain Tab.
   */
  lemma TabWrapsOnlyFromLast(focusable: seq<ElementId>, active: Option<ElementId>, inPanel: bool)
    requires |focusable| > 0
    ensures var o := OnKeyDown(true, Tab, false, focusable, active, inPanel);
      (o.moveFocusTo.Some? <==> active == Some(focusable[|focusable| - 1]))
      && (o.moveFocusTo.Some? ==> o.moveFocusTo == Some(focusable[0]))
    ensures !inPanel && active != Some(focusable[|focusable| - 1]) ==>
      OnKeyDown(true, Tab, false, focusable, active, inPanel) == PASS_THROUGH
  {
  }

  /** With focusable elements A, B, C: Tab on C goes to A, and Shift+Tab on A goes to C. */
  lemma ThreeElementWrap(a: ElementId, b: ElementId, c: ElementId)
    requires a != b && b != c && a != c
    ensures OnKeyDown(true, Tab, false, [a, b, c], Some(c), true).moveFocusTo == Some(a)
    ensures OnKeyDown(true, Tab, true, [a, b, c], Some(a), true).moveFocusTo == Some(c)
    ensures OnKeyDown(true, Tab, false, [a, b, c], Some(b), true) == PASS_THROUGH
  {
  }

  /** On open, focus goes to the first focusable element, or to the panel itself when there is none. */
  function InitialFocus(content: seq<Element>, panelId: ElementId): (r: ElementId)
    ensures GetFocusable(content) != [] ==> r == GetFocusable(content)[0].id
    ensures GetFocusable(content) == [] ==> r == panelId
  {
    var f := GetFocusable(content);
    if |f| > 0 then f[0].id else panelId
  }

  /** When the panel has any focusable element, the initial focus is the first of them in document order. */
  lemma InitialFocusIsFirstFocusable(content: seq<Element>, panelId: ElementId)
    requires exists i :: 0 <= i < |content| && IsFocusable(content[i])
    ensures exists i :: (&& 0 <= i < |content| && IsFocusable(content[i])
                         && InitialFocus(content, panelId) == content[i].id
                         && forall j :: 0 <= j < i ==> !IsFocusable(content[j]))
  {
    GetFocusableSpec(content);
    FirstOfFilterIsFind(content, IsFocusable);
  }

  lemma {:induction false} FirstOfFilterIsFind<T>(s: seq<T>, p: T -> bool)
    requires exists i :: 0 <= i < |s| && p(s[i])
    ensures Filter(s, p) != [] && Find(s, p) == Some(Filter(s, p)[0])
  {
    if !p(s[0]) {
      var i :| 0 <= i < |s| && p(s[i]);
      assert s[1..][i - 1] == s[i];
      FirstOfFilterIsFind(s[1..], p);
    }
  }

  /**
   * The swipe handlers spread on the panel call `onOpenChange(false)` when
   * the recogniser fires the surface's closing direction; the result lists
   * the values passed to `onOpenChange`.
   */
  function SwipeCloseRequests(fired: seq<Swipe.Direction>, closeOn: Swipe.Direction): seq<bool> {
    if closeOn in fired then [false] else []
  }

  // ----------------------------------------------------------- lifecycle

  /** The parts of `document` the surfaces touch. */
  class Document {
    var overflow: string
    var activeElement: Option<ElementId>
    /** The elements currently in the document. */
    var attached: set<ElementId>

    constructor (overflow: string, activeElement: Option<ElementId>, attached: set<ElementId>)
      ensures this.overflow == overflow && this.activeElement == activeElement && this.attached == attached
    {
      this.overflow, this.activeElement, this.attached := overflow, activeElement, attached;
    }

    /** An element leaves the document; if it had focus, focus falls back to the body (`None`). */
    method Detach(id: ElementId)
      modifies this
      ensures attached == old(attached) - {id} && overflow == old(overflow)
      ensures activeElement == if old(activeElement) == Some(id) then None else old(activeElement)
    {
      attached := attached - {id};
      if activeElement == Some(id) {
        activeElement := None;
      }
    }
  }

  /** `lastActiveRef.current?.focus?.()`: a no-op when nothing was captured or it left the document. */
  function Restored(lastActive: Option<ElementId>, attached: set<ElementId>, current: Option<ElementId>): Option<ElementId> {
    if lastActive.Some? && lastActive.value in attached then lastActive else current
  }

  /**
   * One mounted-or-not modal surface. `open` is the prop the parent passes;
   * `SetOpen` is the parent re-rendering with a new value, and the effects of
   * that render run inside it. `savedOverflow` is the `prevOverflow` held by
   * the scroll-lock effect until its cleanup runs.
   */
  class Surface {
    const doc: Document
    const panelId: ElementId
    const content: seq<Element>
    const unmountDelay: nat
    var open: bool
    var mounted: bool
    var lastActive: Option<ElementId>
    var savedOverflow: Option<string>
    /** The unmount timeout is scheduled and has not run. */
    var unmountPending: bool

    ghost predicate Valid()
      reads this
    {
      && (open ==> mounted)
      && (savedOverflow.Some? <==> open)
      && (unmountPending ==> mounted && !open)
    }

    /** The ids the panel contains: itself and its descendants. */
    function PanelIds(): set<ElementId>
      reads this
    {
      {panelId} + set i | 0 <= i < |content| :: content[i].id
    }

    constructor (doc: Document, panelId: ElementId, content: seq<Element>, unmountDelay: nat)
      ensures Valid()
      ensures this.doc == doc && this.panelId == panelId && this.content == content && this.unmountDelay == unmountDelay
      ensures !open && !mounted && !unmountPending && lastActive == None
    {
      this.doc, this.panelId, this.content, this.unmountDelay := doc, panelId, content, unmountDelay;
      open, mounted, lastActive, savedOverflow, unmountPending := false, false, None, None, false;
    }

    /**
     * The parent renders with `open == value`. Opening captures the focused
     * element, mounts, cancels a pending unmount, saves and locks the body
     * overflow, and focuses the first focusable element (or the panel).
     * Closing restores the saved overflow, restores focus at once, and only
     * schedules the unmount.
     */
    method SetOpen(value: bool)
      requires Valid()
      modifies this, doc
      ensures Valid()
      ensures doc.attached == old(doc.attached)
      ensures value == old(open) ==>
        open == old(open) && mounted == old(mounted) && lastActive == old(lastActive)
        && savedOverflow == old(savedOverflow) && unmountPending == old(unmountPending)
        && doc.overflow == old(doc.overflow) && doc.activeElement == old(doc.activeElement)
      ensures value && !old(open) ==>
        open && mounted && !unmountPending
        && lastActive == old(doc.activeElement)
        && savedOverflow == Some(old(doc.overflow)) && doc.overflow == "hidden"
        && doc.activeElement == Some(InitialFocus(content, panelId))
      ensures !value && old(open) ==>
        !open && mounted && unmountPending
        && lastActive == old(lastActive) && savedOverflow == None
        && doc.overflow == old(savedOverflow).value
        && doc.activeElement == Restored(old(lastActive), old(doc.attached), old(doc.activeElement))
    {
      if value == open {
        return;
      }
      open := value;
      if open {
        // The unmount timeout's cleanup, then the capture effect.
        unmountPending := false;
        lastActive := doc.activeElement;
        mounted := true;
        // The scroll lock effect.
        savedOverflow := Some(doc.overflow);
        doc.overflow := "hidden";
        // The initial focus effect.
        doc.activeElement := Some(InitialFocus(content, panelId));
      } else {
        // The scroll lock's cleanup writes back the value it saved.
        doc.overflow := savedOverflow.value;
        savedOverflow := None;
        // The close effect: schedule the unmount, restore focus now.
        unmountPending := true;
        if lastActive.Some? && lastActive.value in doc.attached {
          doc.activeElement := lastActive;
        }
      }
    }

    /** The unmount timeout runs after `unmountDelay` ms: the surface leaves the DOM. */
    method UnmountTimeout()
      requires Valid() && unmountPending
      modifies this
      ensures Valid()
      ensures !mounted && !unmountPending && !open
      ensures lastActive == old(lastActive) && savedOverflow == old(savedOverflow)
    {
      mounted := false;
      unmountPending := false;
    }

    /**
     * A key press reaches the document. The listener is attached only while
     * mounted; it may move focus, and it reports whether it prevented the
     * default and asked the parent to close.
     */
    method KeyDown(key: Key, shift: bool) returns (outcome: KeyOutcome)
      requires Valid()
      modifies doc
      ensures doc.overflow == old(doc.overflow) && doc.attached == old(doc.attached)
      ensures outcome == if mounted then OnKeyDown(open, key, shift, Ids(GetFocusable(content)), old(doc.activeElement),
                                                   old(doc.activeElement).Some? && old(doc.activeElement).value in PanelIds())
                         else PASS_THROUGH
      ensures doc.activeElement == if outcome.moveFocusTo.Some? then outcome.moveFocusTo else old(doc.activeElement)
    {
      if !mounted {
        return PASS_THROUGH;
      }
      var active := doc.activeElement;
      var inPanel := active.Some? && active.value in PanelIds();
      outcome := OnKeyDown(open, key, shift, Ids(GetFocusable(content)), active, inPanel);
      if outcome.moveFocusTo.Some? {
        doc.activeElement := outcome.moveFocusTo;
      }
    }
  }

  /**
   * Focus restoration: open while X is focused, close, let the unmount
   * timeout run; X has focus again and the page scrolls as before.
   */
  method RestoresFocusAndScroll(x: ElementId, overflow: string, content: seq<Element>) returns (focused: Option<ElementId>, scroll: string, mountedAfter: bool)
    ensures focused == Some(x) && scroll == overflow && !mountedAfter
  {
    var d := new Document(overflow, Some(x), {x});
    var s := new Surface(d, x + 1, content, 260);
    s.SetOpen(true);
    s.SetOpen(false);
    s.UnmountTimeout();
    focused, scroll, mountedAfter := d.activeElement, d.overflow, s.mounted;
  }

  /**
   * The element focused before opening leaves the document while the
   * surface is open: closing does not focus it again, and focus stays where
   * it was (the body, if the detached element had taken it back).
   */
  method DetachedTriggerNotRestored(x: ElementId, content: seq<Element>) returns (focused: Option<ElementId>)
    ensures focused != Some(x)
    ensures focused == if InitialFocus(content, x + 1) == x then None else Some(InitialFocus(content, x + 1))
  {
    var d := new Document("", Some(x), {x});
    var s := new Surface(d, x + 1, content, 260);
    s.SetOpen(true);
    d.Detach(x);
    s.SetOpen(false);
    focused := d.activeElement;
  }

  /** Reopening during the close transition cancels the pending unmount. */
  method ReopenCancelsUnmount(content: seq<Element>) returns (mountedAfter: bool, pendingAfter: bool)
    ensures mountedAfter && !pendingAfter
  {
    var d := new Document("", None, {});
    var s := new Surface(d, 0, content, 260);
    s.SetOpen(true);
    s.SetOpen(false);
    s.SetOpen(true);
    mountedAfter, pendingAfter := s.mounted, s.unmountPending;
  }

  /** Two surfaces closed in the reverse order of opening leave the body overflow as it was. */
  method NestedLocksRestore(overflow: string) returns (whileBothOpen: string, afterBoth: string)
    ensures whileBothOpen == "hidden" && afterBoth == overflow
  {
    var d := new Document(overflow, None, {});
    var outer := new Surface(d, 1, [], 260);
    var inner := new Surface(d, 2, [], 240);
    outer.SetOpen(true);
    inner.SetOpen(true);
    whileBothOpen := d.overflow;
    inner.SetOpen(false);
    outer.SetOpen(false);
    afterBoth := d.overflow;
  }

  /**
   * Two surfaces closed in the order they were opened: the second restores
   * the `hidden` it saved, so scrolling stays locked with both closed.
   */
  method CrossedLocksStayHidden(overflow: string) returns (afterBoth: string)
    requires overflow != "hidden"
    ensures afterBoth == "hidden" && afterBoth != overflow
  {
    var d := new Document(overflow, None, {});
    var first := new Surface(d, 1, [], 260);
    var second := new Surface(d, 2, [], 260);
    first.SetOpen(true);
    second.SetOpen(true);
    first.SetOpen(false);
    second.SetOpen(false);
    afterBoth := d.overflow;
  }
}
