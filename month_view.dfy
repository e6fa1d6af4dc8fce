/**
 * `src/features/calendar/month-view.tsx`: the month grid. Each cell shows
 * the events of its own date, a limited number of pills, a "+N more" line on
 * phones, and callbacks for the day number, the add button and the pills.
 */
module MonthView {
  import opened Optional
  import opened Seqs
  import opened Strings
  import opened Calendar

  const TODAY: string := "2025-12-15"
  const MOBILE_PILLS: nat := 1
  const DESKTOP_PILLS: nat := 3
  const WEEK_LENGTH: nat := 7

  /** `events.filter(e => e.date === date)`: the events of one cell. */
  function DayEvents(events: seq<Event>, date: string): seq<Event>
  {
    Filter(events, (e: Event) => e.date == date)
  }

  /** A cell's events keep the input order and are exactly the events on its date. */
  lemma DayEventsSpec(events: seq<Event>, date: string)
    ensures IsSubsequence(DayEvents(events, date), events)
    ensures forall e :: e in DayEvents(events, date) ==> e.date == date
    ensures forall i :: 0 <= i < |events| ==> (events[i] in DayEvents(events, date) <==> events[i].date == date)
  {
    FilterIsSubsequence(events, (e: Event) => e.date == date);
  }

  /**
   * Over the calendar grid, an event sits in the cell of its own date and in
   * no other; an event whose date is not on the grid sits in none.
   */
  lemma EventInOneCell(events: seq<Event>, e: Event, i: nat)
    requires e in events && i < GRID_CELLS
    ensures e in DayEvents(events, Cell(i).date) <==> e.date == Cell(i).date
    ensures e.date == Cell(i).date ==>
      forall j :: 0 <= j < GRID_CELLS && j != i ==> e !in DayEvents(events, Cell(j).date)
  {
    DayEventsSpec(events, Cell(i).date);
    if e.date == Cell(i).date {
      forall j | 0 <= j < GRID_CELLS && j != i ensures e !in DayEvents(events, Cell(j).date) {
        DayEventsSpec(events, Cell(j).date);
        if j < i { CellDatesDistinct(j, i); } else { CellDatesDistinct(i, j); }
      }
    }
  }

  /** The three sample events land on 15, 4 and 29 December. */
  lemma SampleEventsPlaced()
    ensures Cell(15).date == EVENTS[0].date
    ensures Cell(4).date == EVENTS[1].date
    ensures Cell(29).date == EVENTS[2].date
  {
    PaddedTwoDigits(15);
    PaddedTwoDigits(4);
    PaddedTwoDigits(29);
    assert NatToString(15) == NatToString(1) + [DigitChar(5)];
    assert NatToString(29) == NatToString(2) + [DigitChar(9)];
  }

  /** How many pills a cell shows. */
  function PillLimit(isMobile: bool): nat
  {
    if isMobile then MOBILE_PILLS else DESKTOP_PILLS
  }

  /** `dayEvents.slice(0, isMobile ? 1 : 3)`. */
  function VisiblePills(dayEvents: seq<Event>, isMobile: bool): (r: seq<Event>)
    ensures |r| == if |dayEvents| < PillLimit(isMobile) then |dayEvents| else PillLimit(isMobile)
    ensures r == dayEvents[..|r|]
  {
    Take(dayEvents, PillLimit(isMobile))
  }

  /** The "+N more" line: its N, shown only on phones when a day has more than one event. */
  function MoreCount(dayEvents: seq<Event>, isMobile: bool): Option<nat>
  {
    if isMobile && |dayEvents| > 1 then Some(|dayEvents| - 1) else None
  }

  /**
   * On a phone the pill and the "+N more" line account for every event of the
   * day; on a wider screen no line is shown and events past the third are
   * not listed.
   */
  lemma PillsAndMore(dayEvents: seq<Event>, isMobile: bool)
    ensures MoreCount(dayEvents, isMobile).Some? <==> isMobile && |dayEvents| > 1
    ensures isMobile ==>
      |VisiblePills(dayEvents, isMobile)| + (if MoreCount(dayEvents, isMobile).Some? then MoreCount(dayEvents, isMobile).value else 0)
        == |dayEvents|
    ensures !isMobile ==> MoreCount(dayEvents, isMobile) == None
    ensures !isMobile ==>
      |dayEvents| - |VisiblePills(dayEvents, isMobile)| == (if |dayEvents| > DESKTOP_PILLS then |dayEvents| - DESKTOP_PILLS else 0)
  {
  }

  /** What a click in a cell asks the page to do. */
  datatype Request = SelectEvent(event: Event) | NewEvent

  datatype Target = DayNumber | AddButton | Pill(index: nat)

  /** The day number selects the day's first event, if it has one. */
  function DayClick(dayEvents: seq<Event>): (r: Option<Event>)
    ensures r.Some? <==> |dayEvents| > 0
    ensures r.Some? ==> r.value == dayEvents[0] && r.value in dayEvents
  {
    if |dayEvents| > 0 then Some(dayEvents[0]) else None
  }

  /**
   * The requests a click on a cell's target makes. The add button stops the
   * click's propagation and asks for a new event; a pill selects its own
   * event; a pill index that is not rendered makes no request.
   */
  function Click(dayEvents: seq<Event>, isMobile: bool, target: Target): seq<Request>
  {
    match target
    case DayNumber => if |dayEvents| > 0 then [SelectEvent(dayEvents[0])] else []
    case AddButton => [NewEvent]
    case Pill(k) =>
      var pills := VisiblePills(dayEvents, isMobile);
      if k < |pills| then [SelectEvent(pills[k])] else []
  }

  /** Every click makes at most one request, and every selected event is one of the day's own. */
  lemma ClickSelectsOwnEvents(dayEvents: seq<Event>, isMobile: bool, target: Target)
    ensures |Click(dayEvents, isMobile, target)| <= 1
    ensures forall r :: r in Click(dayEvents, isMobile, target) && r.SelectEvent? ==> r.event in dayEvents
    ensures target == DayNumber ==>
      Click(dayEvents, isMobile, target) == (if DayClick(dayEvents).Some? then [SelectEvent(DayClick(dayEvents).value)] else [])
    ensures target == AddButton ==> Click(dayEvents, isMobile, target) == [NewEvent]
  {
    if target.Pill? && target.index < |VisiblePills(dayEvents, isMobile)| {
      assert VisiblePills(dayEvents, isMobile)[target.index] == dayEvents[target.index];
    }
  }

  /** The cells in the last column of the seven-wide grid lose their right border. */
  predicate DropsRightBorder(i: nat)
  {
    (i + 1) % WEEK_LENGTH == 0
  }

  /** Over the 35 cells these are exactly cells 6, 13, 20, 27 and 34, one per week row. */
  lemma RightBorderLastColumn(i: nat)
    requires i < GRID_CELLS
    ensures DropsRightBorder(i) <==> i % WEEK_LENGTH == WEEK_LENGTH - 1
    ensures DropsRightBorder(i) <==> i in {6, 13, 20, 27, 34}
  {
  }

  /** The hard-coded "today". */
  predicate IsToday(date: string)
  {
    date == TODAY
  }

  /** Exactly one cell of the grid is highlighted: 15 December, cell 15. */
  lemma OneCellIsToday(i: nat)
    requires i < GRID_CELLS
    ensures IsToday(Cell(i).date) <==> i == 15
  {
    SampleEventsPlaced();
    if i < 15 { CellDatesDistinct(i, 15); }
    if i > 15 { CellDatesDistinct(15, i); }
  }

  /** The pill classes in one colour. */
  function PillTone(colour: string): string
  {
    "bg-" + colour + "-500 text-white border-" + colour + "-600"
  }

  /** `eventPill`: the four known kinds in their colours, anything else gray. */
  function EventPill(kind: string): string
  {
    if kind == "team" then PillTone("pink")
    else if kind == "client" then PillTone("emerald")
    else if kind == "work" then PillTone("blue")
    else if kind == "personal" then PillTone("violet")
    else PillTone("gray")
  }

  /** Pills of different colours have different classes. */
  lemma PillToneInjective(a: string, b: string)
    ensures PillTone(a) == PillTone(b) ==> a == b
  {
    if PillTone(a) == PillTone(b) {
      assert |PillTone(a)| == 2 * |a| + 30;
      assert |PillTone(b)| == 2 * |b| + 30;
      assert PillTone(a)[3..3 + |a|] == a;
      assert PillTone(b)[3..3 + |b|] == b;
    }
  }

  lemma KnownPill(i: nat)
    requires i < |KNOWN_KINDS|
    ensures EventPill(KNOWN_KINDS[i]) == PillTone(BADGE_COLOURS[i])
  {
    assert "client"[0] != "team"[0];
    assert "work"[0] != "team"[0] && "work"[0] != "client"[0];
    assert "personal"[0] != "team"[0] && "personal"[0] != "client"[0] && "personal"[0] != "work"[0];
  }

  /**
   * Team, client, work and personal pills are pink, emerald, blue and violet,
   * four different classes, none gray; every other kind is gray.
   */
  lemma EventPillColours(kind: string)
    ensures forall i :: 0 <= i < |KNOWN_KINDS| ==> EventPill(KNOWN_KINDS[i]) == PillTone(BADGE_COLOURS[i])
    ensures forall i, j :: 0 <= i < j < |KNOWN_KINDS| ==> EventPill(KNOWN_KINDS[i]) != EventPill(KNOWN_KINDS[j])
    ensures forall i :: 0 <= i < |KNOWN_KINDS| ==> EventPill(KNOWN_KINDS[i]) != PillTone("gray")
    ensures kind !in KNOWN_KINDS ==> EventPill(kind) == PillTone("gray")
  {
    forall i | 0 <= i < |KNOWN_KINDS|
      ensures EventPill(KNOWN_KINDS[i]) == PillTone(BADGE_COLOURS[i])
      ensures EventPill(KNOWN_KINDS[i]) != PillTone("gray")
    {
      KnownPill(i);
      PillToneInjective(BADGE_COLOURS[i], "gray");
      assert "gray"[0] != "pink"[0] && "gray"[0] != "blue"[0];
    }
    forall i, j | 0 <= i < j < |KNOWN_KINDS|
      ensures EventPill(KNOWN_KINDS[i]) != EventPill(KNOWN_KINDS[j])
    {
      PillToneInjective(BADGE_COLOURS[i], BADGE_COLOURS[j]);
      assert "pink"[0] != "blue"[0];
      assert BADGE_COLOURS[i] != BADGE_COLOURS[j];
    }
  }
}
