/**
 * `src/features/meeting-history/meeting-history-page.tsx`: the archive of
 * past meetings. A search over titles and types, the virtualisation
 * threshold, the card gestures that open the actions panel on mobile, the
 * actions panel itself, and the date badge cut out of the date string.
 */
module MeetingHistory {
  import opened Optional
  import opened Strings
  import opened Seqs
  import Swipe
  import LongPress

  /** The fields of a history record that the page's logic reads. */
  datatype Meeting = Meeting(id: nat, title: string, date: string, kind: string)

  const HISTORY: seq<Meeting> := [
    Meeting(1, "Q4 Marketing Strategy Kickoff", "Oct 24, 2025", "Strategy"),
    Meeting(2, "Client Check-in: Alpha Corp", "Oct 22, 2025", "Client"),
    Meeting(3, "Weekly Design Sync", "Oct 20, 2025", "Team Sync")
  ]

  const VIRTUALIZE_ABOVE: nat := 20

  /** The search predicate: the lower-cased term occurs in the lower-cased title or type. */
  predicate Keeps(m: Meeting, term: string) {
    Contains(ToLower(m.title), ToLower(term)) || Contains(ToLower(m.kind), ToLower(term))
  }

  function FilteredHistory(meetings: seq<Meeting>, term: string): seq<Meeting> {
    Filter(meetings, (m: Meeting) => Keeps(m, term))
  }

  /** The search keeps order, keeps exactly the matching meetings, and an empty term keeps them all. */
  lemma FilteredHistorySpec(meetings: seq<Meeting>, term: string)
    ensures IsSubsequence(FilteredHistory(meetings, term), meetings)
    ensures forall i :: 0 <= i < |meetings| ==> (meetings[i] in FilteredHistory(meetings, term) <==> Keeps(meetings[i], term))
    ensures term == "" ==> FilteredHistory(meetings, term) == meetings
  {
    var p := (m: Meeting) => Keeps(m, term);
    FilterIsSubsequence(meetings, p);
    var r := FilteredHistory(meetings, term);
    forall i | 0 <= i < |meetings| && meetings[i] in r ensures Keeps(meetings[i], term) {
      var j :| 0 <= j < |r| && r[j] == meetings[i];
    }
    if term == "" {
      forall i | 0 <= i < |meetings| ensures p(meetings[i]) {
        ContainsEmpty(ToLower(meetings[i].title));
      }
      FilterAll(meetings, p);
    }
  }

  predicate ShouldVirtualize(filtered: seq<Meeting>) {
    |filtered| > VIRTUALIZE_ABOVE
  }

  // ---------------------------------------------------------- card gestures

  /** The pointer props the two hooks return, by name. */
  datatype PointerProp = OnPointerDown | OnPointerUp | OnPointerCancel | OnPointerLeave | OnPointerMove

  /** Whose handler a prop holds. */
  datatype Hook = LongPressHook | SwipeHook

  const LONG_PRESS_PROPS: set<PointerProp> := {OnPointerDown, OnPointerUp, OnPointerCancel, OnPointerLeave, OnPointerMove}
  const SWIPE_PROPS: set<PointerProp> := {OnPointerDown, OnPointerUp, OnPointerCancel}

  /** The props object one hook returns: each of its props holds that hook's handler. */
  function PropsOf(props: set<PointerProp>, hook: Hook): (m: map<PointerProp, Hook>)
    ensures m.Keys == props && forall p :: p in m ==> m[p] == hook
  {
    map p | p in props :: hook
  }

  /** JSX spreads `{...first} {...later}`: every prop of either, and the later one wins a shared name. */
  function Spread(first: map<PointerProp, Hook>, later: map<PointerProp, Hook>): (m: map<PointerProp, Hook>)
    ensures m.Keys == first.Keys + later.Keys
    ensures forall p :: p in later ==> m[p] == later[p]
    ensures forall p :: p in first && p !in later ==> m[p] == first[p]
  {
    first + later
  }

  /** `<Card {...longPress} {...swipe}>`: the handler each pointer prop of a card runs. */
  function CardProps(): map<PointerProp, Hook> {
    Spread(PropsOf(LONG_PRESS_PROPS, LongPressHook), PropsOf(SWIPE_PROPS, SwipeHook))
  }

  /**
   * The swipe hook takes over pointer-down, pointer-up and pointer-cancel;
   * the long press keeps only pointer-leave and pointer-move, so nothing
   * ever arms it.
   */
  lemma CardPropsAsWritten()
    ensures CardProps().Keys == LONG_PRESS_PROPS
    ensures forall p :: p in CardProps() ==> (CardProps()[p] == LongPressHook <==> p == OnPointerLeave || p == OnPointerMove)
  {
  }

  lemma EveryPropIsLongPress(p: PointerProp)
    ensures p in LONG_PRESS_PROPS
  {
    match p {
      case OnPointerDown =>
      case OnPointerUp =>
      case OnPointerCancel =>
      case OnPointerLeave =>
      case OnPointerMove =>
    }
  }

  /** What reaches a card: a pointer event under one prop, or the browser running a timeout. */
  datatype CardEvent =
    | Pointer(prop: PointerProp, pointerType: LongPress.PointerType, button: int, clientX: int, clientY: int)
    | Timeout(handle: nat)

  /**
   * Whether a pointer-up moving `(dx, dy)` from the origin of an active swipe
   * session reaches `onAction`: `onSwipeLeft` calls it on mobile only.
   */
  predicate SwipeOpensActions(isMobile: bool, active: bool, dx: int, dy: int) {
    isMobile && active && Swipe.Left in Swipe.Classify(dx, dy, Swipe.DEFAULT_THRESHOLD)
  }

  /** On a phone, a mostly-horizontal leftward drag of at least 80 px opens the actions; on desktop nothing does. */
  lemma SwipeLeftOpensActionsOnMobile(active: bool, dx: int, dy: int)
    ensures SwipeOpensActions(true, active, dx, dy) <==> active && Swipe.Abs(dx) >= Swipe.Abs(dy) && dx <= -Swipe.DEFAULT_THRESHOLD
    ensures !SwipeOpensActions(false, active, dx, dy)
  {
    if Swipe.Abs(dx) >= Swipe.Abs(dy) {
      Swipe.ClassifyHorizontal(dx, dy, Swipe.DEFAULT_THRESHOLD);
    } else {
      Swipe.ClassifyVertical(dx, dy, Swipe.DEFAULT_THRESHOLD);
    }
  }

  /** `MeetingCard`'s two gesture hooks and the number of times they have called `onAction`. */
  class Card {
    const isMobile: bool
    const longPress: LongPress.Recognizer
    const swipe: Swipe.Recognizer
    var actions: nat

    ghost predicate Valid()
      reads this, longPress
    {
      longPress.Valid() && swipe.threshold == Swipe.DEFAULT_THRESHOLD
    }

    /** The long press has never been armed: nothing active, nothing scheduled, never fired. */
    ghost predicate LongPressDead()
      reads this, longPress
    {
      !longPress.active && longPress.timer == None && longPress.pending == {} && longPress.longPresses == 0
    }

    /** Both hooks with their defaults: 520 ms and 12 px for the long press, 80 px for the swipe. */
    constructor (isMobile: bool)
      ensures Valid() && LongPressDead()
      ensures this.isMobile == isMobile && actions == 0 && !swipe.active
      ensures fresh(longPress) && fresh(swipe)
      ensures longPress.ms == LongPress.DEFAULT_MS && longPress.moveTolerance == LongPress.DEFAULT_MOVE_TOLERANCE
    {
      this.isMobile := isMobile;
      longPress := new LongPress.Recognizer(LongPress.DEFAULT_MS, LongPress.DEFAULT_MOVE_TOLERANCE);
      swipe := new Swipe.Recognizer(Swipe.DEFAULT_THRESHOLD);
      actions := 0;
    }

    /** The long-press hook's handler for the event; its `onLongPress` calls `onAction` on mobile. */
    method LongPressHandles(e: CardEvent)
      requires Valid()
      modifies this, longPress
      ensures Valid()
      ensures longPress.longPresses <= old(longPress.longPresses) + 1
      ensures actions == old(actions) + (if isMobile then longPress.longPresses - old(longPress.longPresses) else 0)
      ensures old(LongPressDead()) && !(e.Pointer? && e.prop == OnPointerDown) ==> LongPressDead()
      ensures e.Pointer? && e.prop == OnPointerDown && !(e.pointerType == LongPress.Mouse && e.button != 0) ==>
        longPress.active && longPress.timer == Some(old(longPress.nextHandle)) && longPress.longPresses == old(longPress.longPresses)
      ensures e.Timeout? && e.handle in old(longPress.pending) ==>
        !longPress.active && longPress.longPresses == old(longPress.longPresses) + (if old(longPress.active) then 1 else 0)
      ensures e.Pointer? && e.prop in {OnPointerUp, OnPointerCancel, OnPointerLeave} ==>
        !longPress.active && longPress.longPresses == old(longPress.longPresses)
    {
      var before := longPress.longPresses;
      match e {
        case Timeout(h) =>
          // The browser runs only the timeouts that are still scheduled.
          if h in longPress.pending {
            longPress.Fire(h);
          }
        case Pointer(prop, pointerType, button, clientX, clientY) =>
          match prop {
            case OnPointerDown => longPress.PointerDown(pointerType, button, clientX, clientY);
            case OnPointerMove => longPress.PointerMove(clientX, clientY);
            case OnPointerUp => longPress.PointerUp();
            case OnPointerCancel => longPress.PointerCancel();
            case OnPointerLeave => longPress.PointerLeave();
          }
      }
      if isMobile {
        actions := actions + (longPress.longPresses - before);
      }
    }

    /** The swipe hook's handler for a pointer event under one of its props. */
    method SwipeHandles(e: CardEvent)
      requires Valid() && e.Pointer? && e.prop in SWIPE_PROPS
      modifies this, swipe
      ensures Valid()
      ensures actions == old(actions) + (if e.prop == OnPointerUp && SwipeOpensActions(isMobile, old(swipe.active), e.clientX - old(swipe.x), e.clientY - old(swipe.y)) then 1 else 0)
      ensures e.prop == OnPointerDown ==> swipe.active && swipe.x == e.clientX && swipe.y == e.clientY
      ensures e.prop != OnPointerDown ==> !swipe.active && swipe.x == old(swipe.x) && swipe.y == old(swipe.y)
    {
      match e.prop {
        case OnPointerDown => swipe.PointerDown(e.clientX, e.clientY);
        case OnPointerCancel => swipe.PointerCancel();
        case OnPointerUp =>
          var fired := swipe.PointerUp(e.clientX, e.clientY);
          if isMobile && Swipe.Left in fired {
            actions := actions + 1;
          }
      }
    }

    /**
     * An event reaching the card as written: each prop runs the one handler
     * `CardProps` gives it. The long press is never armed, so only a
     * pointer-up that ends a leftward swipe on a phone calls `onAction`.
     */
    method Dispatch(e: CardEvent)
      requires Valid() && LongPressDead()
      modifies this, longPress, swipe
      ensures Valid() && LongPressDead()
      ensures actions == old(actions) + (if e.Pointer? && e.prop == OnPointerUp && SwipeOpensActions(isMobile, old(swipe.active), e.clientX - old(swipe.x), e.clientY - old(swipe.y)) then 1 else 0)
      ensures e.Pointer? && e.prop == OnPointerDown ==> swipe.active && swipe.x == e.clientX && swipe.y == e.clientY
      ensures e.Pointer? && e.prop in {OnPointerUp, OnPointerCancel} ==> !swipe.active && swipe.x == old(swipe.x) && swipe.y == old(swipe.y)
      ensures (e.Timeout? || e.prop in {OnPointerLeave, OnPointerMove}) ==>
        swipe.active == old(swipe.active) && swipe.x == old(swipe.x) && swipe.y == old(swipe.y)
    {
      CardPropsAsWritten();
      if e.Pointer? {
        EveryPropIsLongPress(e.prop);
      }
      if e.Timeout? || CardProps()[e.prop] == LongPressHook {
        LongPressHandles(e);
      } else {
        SwipeHandles(e);
      }
    }

    /**
     * The composition the card evidently intends: a prop both hooks define
     * runs both handlers, the long press first.
     */
    method DispatchComposed(e: CardEvent)
      requires Valid()
      modifies this, longPress, swipe
      ensures Valid()
      ensures longPress.longPresses <= old(longPress.longPresses) + 1
      ensures actions == old(actions) + (if isMobile then longPress.longPresses - old(longPress.longPresses) else 0)
        + (if e.Pointer? && e.prop == OnPointerUp && SwipeOpensActions(isMobile, old(swipe.active), e.clientX - old(swipe.x), e.clientY - old(swipe.y)) then 1 else 0)
      ensures e.Pointer? && e.prop == OnPointerDown && !(e.pointerType == LongPress.Mouse && e.button != 0) ==>
        longPress.active && longPress.timer == Some(old(longPress.nextHandle)) && longPress.longPresses == old(longPress.longPresses)
      ensures e.Timeout? && e.handle in old(longPress.pending) ==>
        !longPress.active && longPress.longPresses == old(longPress.longPresses) + (if old(longPress.active) then 1 else 0)
      ensures e.Pointer? && e.prop in {OnPointerUp, OnPointerCancel, OnPointerLeave} ==>
        !longPress.active && longPress.longPresses == old(longPress.longPresses)
      ensures e.Pointer? && e.prop == OnPointerDown ==> swipe.active && swipe.x == e.clientX && swipe.y == e.clientY
      ensures e.Pointer? && e.prop in {OnPointerUp, OnPointerCancel} ==> !swipe.active && swipe.x == old(swipe.x) && swipe.y == old(swipe.y)
      ensures (e.Timeout? || e.prop in {OnPointerLeave, OnPointerMove}) ==>
        swipe.active == old(swipe.active) && swipe.x == old(swipe.x) && swipe.y == old(swipe.y)
    {
      LongPressHandles(e);
      if e.Pointer? && e.prop in SWIPE_PROPS {
        SwipeHandles(e);
      }
    }
  }

  /**
   * As written, holding a card still on a phone opens nothing: no timeout
   * is ever scheduled, so there is nothing left to fire.
   */
  method HeldPressDoesNothing() returns (scheduled: set<nat>, calls: nat)
    ensures scheduled == {} && calls == 0
  {
    var card := new Card(true);
    card.Dispatch(Pointer(OnPointerDown, LongPress.Touch, 0, 50, 50));
    scheduled := card.longPress.pending;
    card.Dispatch(Pointer(OnPointerUp, LongPress.Touch, 0, 50, 50));
    calls := card.actions;
  }

  /** Composed as intended, the same held press fires its timeout and calls `onAction` once. */
  method HeldPressOpensWhenComposed() returns (calls: nat, afterRelease: nat)
    ensures calls == 1 && afterRelease == 1
  {
    var card := new Card(true);
    card.DispatchComposed(Pointer(OnPointerDown, LongPress.Touch, 0, 50, 50));
    var h := card.longPress.timer.value;
    card.DispatchComposed(Timeout(h));
    calls := card.actions;
    card.DispatchComposed(Pointer(OnPointerUp, LongPress.Touch, 0, 50, 50));
    afterRelease := card.actions;
  }

  /** The route of a meeting's summary. */
  function DetailPath(id: nat): string {
    "/meeting-summary/" + NatToString(id)
  }

  /**
   * The date badge: the first space-separated piece is the month, the second,
   * with its first comma removed, the day. A date without a space has no
   * second piece, and reading `.replace` on it throws (`None`).
   */
  function DateBadge(date: string): (r: Option<(string, string)>)
    ensures r.None? <==> ' ' !in date
  {
    var pieces := Split(date, ' ');
    SplitSingle(date, ' ');
    if |pieces| < 2 then None
    else Some((pieces[0], RemoveFirst(pieces[1], ',')))
  }

  lemma SplitSingle(s: string, sep: char)
    ensures |Split(s, sep)| == 1 <==> sep !in s
  {
    JoinSplit(s, sep);
    var r := Split(s, sep);
    if |r| > 1 {
      assert sep in Join(r, sep) by {
        assert Join(r, sep) == r[0] + [sep] + Join(r[1..], sep);
        assert Join(r, sep)[|r[0]|] == sep;
      }
    }
  }

  /** A date written "Mon D, YYYY" gives the month and the day without its comma. */
  lemma {:induction false} DateBadgeOfDate(month: string, day: string, year: string)
    requires ' ' !in month && ' ' !in day && ' ' !in year && ',' !in day
    ensures DateBadge(month + " " + day + ", " + year) == Some((month, day))
  {
    var date := month + " " + day + ", " + year;
    assert date == month + [' '] + (day + [','] + [' '] + year);
    SplitAfterPiece(month, day + [','] + [' '] + year, ' ');
    assert ' ' !in day + [','];
    SplitAfterPiece(day + [','], year, ' ');
    SplitWithoutSeparator(year, ' ');
    RemoveFirstSpec(day + [','], ',');
    assert IndexOf(day + [','], ',') == |day|;
    assert (day + [','])[..|day|] == day;
    assert (day + [','])[|day| + 1..] == [];
    var pieces := Split(date, ' ');
    assert pieces == [month, day + [','], year];
    assert RemoveFirst(pieces[1], ',') == day;
  }

  /** The sample dates give month and day; a date without a space throws. */
  lemma DateBadgeSamples()
    ensures DateBadge("Oct 24, 2025") == Some(("Oct", "24"))
    ensures DateBadge("Oct") == None
  {
    DateBadgeOfDate("Oct", "24", "2025");
    assert "Oct" + " " + "24" + ", " + "2025" == "Oct 24, 2025";
  }

  /** The page's search term, the meeting whose actions panel is open, and the routes pushed so far. */
  class MeetingHistoryPage {
    var searchTerm: string
    var actionMeeting: Option<Meeting>
    var navigations: seq<string>

    constructor ()
      ensures searchTerm == "" && actionMeeting == None && navigations == []
    {
      searchTerm, actionMeeting, navigations := "", None, [];
    }

    method SetSearchTerm(term: string)
      modifies this
      ensures searchTerm == term && actionMeeting == old(actionMeeting) && navigations == old(navigations)
    {
      searchTerm := term;
    }

    /** A card's `onAction`: it sets the meeting whose actions to show. */
    method OnAction(m: Meeting)
      modifies this
      ensures actionMeeting == Some(m)
      ensures searchTerm == old(searchTerm) && navigations == old(navigations)
    {
      actionMeeting := Some(m);
    }

    /** "Open details": nothing without a meeting, else navigate to its summary and close the panel. */
    method OpenDetails()
      modifies this
      ensures old(actionMeeting).None? ==> actionMeeting == None && navigations == old(navigations)
      ensures old(actionMeeting).Some? ==>
        actionMeeting == None && navigations == old(navigations) + [DetailPath(old(actionMeeting).value.id)]
      ensures searchTerm == old(searchTerm)
    {
      if actionMeeting.None? {
        return;
      }
      navigations := navigations + [DetailPath(actionMeeting.value.id)];
      actionMeeting := None;
    }

    /** Download, Archive and Close all just close the panel. */
    method Dismiss()
      modifies this
      ensures actionMeeting == None && searchTerm == old(searchTerm) && navigations == old(navigations)
    {
      actionMeeting := None;
    }

    /** The panel's `onOpenChange`: closing clears the meeting, opening does nothing. */
    method PanelOpenChange(open: bool)
      modifies this
      ensures actionMeeting == if open then old(actionMeeting) else None
      ensures searchTerm == old(searchTerm) && navigations == old(navigations)
    {
      if !open {
        actionMeeting := None;
      }
    }

    /** The panel is open while there is a meeting to act on. */
    function PanelOpen(): bool
      reads this
    {
      actionMeeting.Some?
    }
  }

  /**
   * A leftward swipe on a desktop card opens nothing; on a phone it opens
   * the panel, "Open details" navigates once and closes it, and a second
   * "Open details" does nothing.
   */
  method SwipeThenOpen(m: Meeting) returns (desktopOpen: bool, routes: seq<string>, openAfter: bool)
    ensures !desktopOpen && routes == [DetailPath(m.id)] && !openAfter
  {
    var page := new MeetingHistoryPage();
    var desktop := new Card(false);
    var phone := new Card(true);
    SwipeLeftOpensActionsOnMobile(true, -100, 0);
    desktop.Dispatch(Pointer(OnPointerDown, LongPress.Touch, 0, 100, 0));
    desktop.Dispatch(Pointer(OnPointerUp, LongPress.Touch, 0, 0, 0));
    phone.Dispatch(Pointer(OnPointerDown, LongPress.Touch, 0, 100, 0));
    phone.Dispatch(Pointer(OnPointerUp, LongPress.Touch, 0, 0, 0));
    assert desktop.actions == 0 && phone.actions == 1;
    desktopOpen := page.PanelOpen();
    // The phone card's `onAction`.
    page.OnAction(m);
    page.OpenDetails();
    page.OpenDetails();
    routes, openAfter := page.navigations, page.PanelOpen();
  }
}
