/**
 * `src/features/calendar/calendar-page.tsx`: the calendar page. The fixed
 * 35-cell December 2025 grid built by two counted loops, the sample events,
 * the mobile "Upcoming" list, the badge colours, and the page state: the
 * selected view, the event shown in the details panel and the new-event
 * sheet, which a window event can also open.
 */
module Calendar {
  import opened Optional
  import opened Strings
  import opened Seqs

  /** One grid cell: the day number shown, whether it is in December, and its ISO date. */
  datatype Day = Day(day: nat, currentMonth: bool, date: string)

  /** The fields of a calendar event that the page and the month view read. */
  datatype Event = Event(id: string, title: string, kind: string, date: string,
                         start: string, end: string, tags: seq<string>)

  const EVENTS: seq<Event> := [
    Event("1", "Monthly Team Standup", "team", "2025-12-15", "09:00", "10:00", ["TEAM"]),
    Event("2", "Client Presentation", "client", "2025-12-04", "14:00", "15:30", ["CLIENT"]),
    Event("3", "Sprint Planning", "work", "2025-12-29", "10:00", "11:00", ["WORK"])
  ]

  const DAYS_IN_MONTH: nat := 31
  const GRID_CELLS: nat := 35
  const UPCOMING_LIMIT: nat := 4
  const NEW_EVENT_EVENT: string := "open-new-event-modal"

  /** A date string made of a `YYYY-MM-` prefix and a padded day. */
  function DateOf(prefix: string, n: nat): string
  {
    prefix + Pad2(n)
  }

  /** With prefixes of one length, a date string determines its prefix and its day. */
  lemma DateOfInjective(p: string, a: nat, q: string, b: nat)
    requires |p| == |q|
    ensures DateOf(p, a) == DateOf(q, b) ==> p == q && a == b
  {
    if DateOf(p, a) == DateOf(q, b) {
      var d := DateOf(p, a);
      assert p == d[..|p|];
      assert q == d[..|q|];
      assert Pad2(a) == d[|p|..];
      assert Pad2(b) == d[|q|..];
      Pad2Injective(a, b);
    }
  }

  /**
   * The reference definition of the grid: 30 November, then 1..31 December,
   * then as many January days as fill 35 cells.
   */
  function Cell(k: nat): Day
    requires k < GRID_CELLS
  {
    if k == 0 then Day(30, false, "2025-11-30")
    else if k <= DAYS_IN_MONTH then Day(k, true, DateOf("2025-12-", k))
    else Day(k - DAYS_IN_MONTH, false, DateOf("2026-01-", k - DAYS_IN_MONTH))
  }

  /** The prefix and day number a cell's date is written from. */
  function CellParts(k: nat): (string, nat)
    requires k < GRID_CELLS
  {
    if k == 0 then ("2025-11-", 30)
    else if k <= DAYS_IN_MONTH then ("2025-12-", k)
    else ("2026-01-", k - DAYS_IN_MONTH)
  }

  lemma CellDateParts(k: nat)
    requires k < GRID_CELLS
    ensures Cell(k).date == DateOf(CellParts(k).0, CellParts(k).1)
  {
    if k == 0 {
      PaddedTwoDigits(30);
      assert NatToString(30) == NatToString(3) + [DigitChar(0)];
    }
  }

  /** No two cells share a date, so the dates can serve as keys. */
  lemma CellDatesDistinct(i: nat, j: nat)
    requires i < j < GRID_CELLS
    ensures Cell(i).date != Cell(j).date
  {
    CellDateParts(i);
    CellDateParts(j);
    var (p, a) := CellParts(i);
    var (q, b) := CellParts(j);
    DateOfInjective(p, a, q, b);
    assert "2025-11-"[6] != "2025-12-"[6];
    assert "2025-12-"[3] != "2026-01-"[3];
    assert "2025-11-"[3] != "2026-01-"[3];
  }

  /** The grid built cell by cell with `push`, as the page does on every render. */
  method CalendarDays() returns (days: seq<Day>)
    ensures |days| == GRID_CELLS
    ensures days[0] == Day(30, false, "2025-11-30")
    ensures forall k :: 1 <= k <= DAYS_IN_MONTH ==> days[k] == Day(k, true, DateOf("2025-12-", k))
    ensures forall k :: DAYS_IN_MONTH < k < GRID_CELLS ==>
      days[k] == Day(k - DAYS_IN_MONTH, false, DateOf("2026-01-", k - DAYS_IN_MONTH))
    ensures forall k :: 0 <= k < GRID_CELLS ==> days[k] == Cell(k)
    ensures forall i, j :: 0 <= i < j < |days| ==> days[i].date != days[j].date
  {
    days := [Day(30, false, "2025-11-30")];
    var i := 1;
    while i <= DAYS_IN_MONTH
      invariant 1 <= i <= DAYS_IN_MONTH + 1
      invariant |days| == i
      invariant forall k :: 0 <= k < i ==> days[k] == Cell(k)
    {
      days := days + [Day(i, true, "2025-12-" + Pad2(i))];
      i := i + 1;
    }
    var remainingCells := GRID_CELLS - |days|;
    assert remainingCells == 3;
    i := 1;
    while i <= remainingCells
      invariant 1 <= i <= remainingCells + 1
      invariant |days| == DAYS_IN_MONTH + i
      invariant forall k :: 0 <= k < |days| ==> days[k] == Cell(k)
    {
      days := days + [Day(i, false, "2026-01-" + Pad2(i))];
      i := i + 1;
    }
    forall i, j | 0 <= i < j < |days| ensures days[i].date != days[j].date {
      CellDatesDistinct(i, j);
    }
  }

  /** The mobile "Upcoming" list: `events.slice(0, 4)`. */
  function Upcoming(events: seq<Event>): (r: seq<Event>)
    ensures |r| == if |events| < UPCOMING_LIMIT then |events| else UPCOMING_LIMIT
    ensures r == events[..|r|]
  {
    Take(events, UPCOMING_LIMIT)
  }

  /** All three sample events fit in the list, in their own order. */
  lemma UpcomingShowsAllSamples()
    ensures Upcoming(EVENTS) == EVENTS
  {
  }

  /** The Tailwind classes of a badge in one colour, light and dark. */
  function Tone(colour: string): string
  {
    "bg-" + colour + "-100 text-" + colour + "-700 dark:bg-" + colour + "-900/30 dark:text-" + colour + "-300"
  }

  const MUTED_BADGE: string := "bg-muted text-muted-foreground"

  /** The badge colours of the details panel and the upcoming cards. */
  function BadgeStyles(kind: string): string
  {
    if kind == "team" then Tone("pink")
    else if kind == "client" then Tone("emerald")
    else if kind == "work" then Tone("blue")
    else if kind == "personal" then Tone("violet")
    else MUTED_BADGE
  }

  /** Badges of different colours have different classes. */
  lemma ToneInjective(a: string, b: string)
    ensures Tone(a) == Tone(b) ==> a == b
  {
    if Tone(a) == Tone(b) {
      assert |Tone(a)| == 4 * |a| + 48;
      assert |Tone(b)| == 4 * |b| + 48;
      assert Tone(a)[3..3 + |a|] == a;
      assert Tone(b)[3..3 + |b|] == b;
    }
  }

  const KNOWN_KINDS: seq<string> := ["team", "client", "work", "personal"]
  const BADGE_COLOURS: seq<string> := ["pink", "emerald", "blue", "violet"]

  lemma KnownBadges(i: nat)
    requires i < |KNOWN_KINDS|
    ensures BadgeStyles(KNOWN_KINDS[i]) == Tone(BADGE_COLOURS[i])
  {
    assert "client"[0] != "team"[0];
    assert "work"[0] != "team"[0] && "work"[0] != "client"[0];
    assert "personal"[0] != "team"[0] && "personal"[0] != "client"[0] && "personal"[0] != "work"[0];
  }

  /** The four known kinds get four different colours; every other kind gets the muted one. */
  lemma BadgeStylesColours(kind: string)
    ensures forall i :: 0 <= i < |KNOWN_KINDS| ==> BadgeStyles(KNOWN_KINDS[i]) == Tone(BADGE_COLOURS[i])
    ensures forall i, j :: 0 <= i < j < |KNOWN_KINDS| ==>
      BadgeStyles(KNOWN_KINDS[i]) != BadgeStyles(KNOWN_KINDS[j])
    ensures forall i :: 0 <= i < |KNOWN_KINDS| ==> BadgeStyles(KNOWN_KINDS[i]) != MUTED_BADGE
    ensures kind !in KNOWN_KINDS ==> BadgeStyles(kind) == MUTED_BADGE
  {
    forall i | 0 <= i < |KNOWN_KINDS|
      ensures BadgeStyles(KNOWN_KINDS[i]) == Tone(BADGE_COLOURS[i])
      ensures BadgeStyles(KNOWN_KINDS[i]) != MUTED_BADGE
    {
      KnownBadges(i);
      assert |Tone(BADGE_COLOURS[i])| > |MUTED_BADGE|;
    }
    forall i, j | 0 <= i < j < |KNOWN_KINDS|
      ensures BadgeStyles(KNOWN_KINDS[i]) != BadgeStyles(KNOWN_KINDS[j])
    {
      ToneInjective(BADGE_COLOURS[i], BADGE_COLOURS[j]);
      assert "pink"[0] != "blue"[0];
      assert BADGE_COLOURS[i] != BADGE_COLOURS[j];
    }
  }

  datatype View = Week | Month | DayView

  /** The calendar page's state. */
  class CalendarPage {
    var view: View
    var selectedEvent: Option<Event>
    var newEventOpen: bool
    /** Whether the mount effect's window listener is registered. */
    var listening: bool

    /** First render and the mount effect: month view, nothing open, listener added. */
    constructor()
      ensures view == Month && selectedEvent == None && !newEventOpen && listening
    {
      view := Month;
      selectedEvent := None;
      newEventOpen := false;
      listening := true;
    }

    /** Unmounting removes the window listener. */
    method Unmount()
      modifies this
      ensures !listening
      ensures view == old(view) && selectedEvent == old(selectedEvent) && newEventOpen == old(newEventOpen)
    {
      listening := false;
    }

    /** A window event: only `open-new-event-modal`, while listening, opens the sheet. */
    method Dispatch(name: string)
      modifies this
      ensures newEventOpen == (old(newEventOpen) || (old(listening) && name == NEW_EVENT_EVENT))
      ensures view == old(view) && selectedEvent == old(selectedEvent) && listening == old(listening)
    {
      if listening && name == NEW_EVENT_EVENT {
        newEventOpen := true;
      }
    }

    /** The Week / Month / Day switcher. */
    method SetView(v: View)
      modifies this
      ensures view == v
      ensures selectedEvent == old(selectedEvent) && newEventOpen == old(newEventOpen) && listening == old(listening)
    {
      view := v;
    }

    /** The sheet's `onOpenChange`, the New Event buttons (`true`) and Cancel (`false`). */
    method SetNewEventOpen(open: bool)
      modifies this
      ensures newEventOpen == open
      ensures view == old(view) && selectedEvent == old(selectedEvent) && listening == old(listening)
    {
      newEventOpen := open;
    }

    /** A pill, a day number or a "View" button selects an event. */
    method SelectEvent(e: Event)
      modifies this
      ensures selectedEvent == Some(e)
      ensures view == old(view) && newEventOpen == old(newEventOpen) && listening == old(listening)
    {
      selectedEvent := Some(e);
    }

    /** The details panel's `onOpenChange`: closing clears the selection, opening does nothing. */
    method DetailsOpenChange(nextOpen: bool)
      modifies this
      ensures selectedEvent == if nextOpen then old(selectedEvent) else None
      ensures view == old(view) && newEventOpen == old(newEventOpen) && listening == old(listening)
    {
      if !nextOpen {
        selectedEvent := None;
      }
    }

    /** The details panel is open exactly while an event is selected. */
    predicate DetailsOpen()
      reads this
    {
      selectedEvent.Some?
    }

    /** The panel title: the selected event's title, or "Event". */
    function DetailsTitle(): string
      reads this
    {
      if selectedEvent.Some? then selectedEvent.value.title else "Event"
    }

    /** Only the month view renders the grid; the other views show a placeholder. */
    predicate ShowsGrid()
      reads this
    {
      view == Month
    }
  }

  /** The window event opens the sheet while mounted, and not after unmounting. */
  method NewEventHook()
  {
    var page := new CalendarPage();
    page.Dispatch("resize");
    assert !page.newEventOpen;
    page.Dispatch(NEW_EVENT_EVENT);
    assert page.newEventOpen && page.ShowsGrid();
    page.SetNewEventOpen(false);
    page.Unmount();
    page.Dispatch(NEW_EVENT_EVENT);
    assert !page.newEventOpen;
  }

  /** Selecting then dismissing the details panel; the title falls back to "Event". */
  method DetailsRoundTrip()
  {
    var page := new CalendarPage();
    page.SelectEvent(EVENTS[1]);
    assert page.DetailsOpen() && page.DetailsTitle() == "Client Presentation";
    page.DetailsOpenChange(true);
    assert page.DetailsOpen();
    page.DetailsOpenChange(false);
    assert !page.DetailsOpen() && page.DetailsTitle() == "Event";
  }
}
