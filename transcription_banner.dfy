/**
 * `src/components/features/mobile-transcription-banner.tsx`: the strip that
 * shows a running transcription on phones. It mirrors the transcription
 * status and start time in session storage, follows the
 * `imms:transcription-state` window event, ticks a clock once a second while
 * a transcription is not idle, and offers Pause or Resume, and Stop.
 */
module TranscriptionBanner {
  import opened Optional
  import opened Strings

  const STATUS_KEY: string := "imms.transcription.status"
  const START_KEY: string := "imms.transcription.startedAt"
  const IDLE: string := "idle"
  const PAUSED: string := "paused"
  const PAUSE_EVENT: string := "imms:transcription:pause"
  const RESUME_EVENT: string := "imms:transcription:resume"
  const STOP_EVENT: string := "imms:transcription:stop"
  const NO_DURATION: string := "—"
  const TICK_MS: nat := 1000

  /** JavaScript's `%`: the remainder takes the sign of the dividend. */
  function JsRemainder(a: int, b: int): int
    requires b > 0
  {
    if a >= 0 then a % b else -((-a) % b)
  }

  /**
   * `formatDuration(ms)`: whole seconds rounded down, then minutes rounded
   * down and the remaining seconds, each padded to two characters. Dafny's
   * `/` by a positive number rounds down, as `Math.floor` does.
   */
  function FormatDuration(ms: int): string
  {
    var totalSeconds := ms / 1000;
    PadStart(IntToString(totalSeconds / 60), 2, '0') + ":"
      + PadStart(IntToString(JsRemainder(totalSeconds, 60)), 2, '0')
  }

  lemma FormatDurationParts(ms: int)
    requires ms >= 0
    ensures FormatDuration(ms) == Pad2(ms / 1000 / 60) + ":" + Pad2(ms / 1000 % 60)
  {
  }

  /** A string of digits holds no colon. */
  lemma DigitsLackSeparator(s: string)
    requires AllDigits(s)
    ensures ':' !in s
  {
    forall i | 0 <= i < |s| ensures s[i] != ':' {
      assert IsDigit(s[i]);
    }
  }

  /**
   * For a non-negative duration the label is two digit fields around one
   * colon; the seconds field is two digits below 60, the minutes field at
   * least two digits, and together they give back the whole seconds.
   */
  lemma FormatDurationRoundTrip(ms: int)
    requires ms >= 0
    ensures |Split(FormatDuration(ms), ':')| == 2
    ensures AllDigits(Split(FormatDuration(ms), ':')[0]) && AllDigits(Split(FormatDuration(ms), ':')[1])
    ensures |Split(FormatDuration(ms), ':')[0]| >= 2 && |Split(FormatDuration(ms), ':')[1]| == 2
    ensures ParseDigits(Split(FormatDuration(ms), ':')[1]) < 60
    ensures 60 * ParseDigits(Split(FormatDuration(ms), ':')[0]) + ParseDigits(Split(FormatDuration(ms), ':')[1])
      == ms / 1000
  {
    var t := ms / 1000;
    var mm := Pad2(t / 60);
    var ss := Pad2(t % 60);
    FormatDurationParts(ms);
    ParsePadded(t / 60);
    ParsePadded(t % 60);
    PaddedTwoDigits(t % 60);
    DigitsLackSeparator(mm);
    DigitsLackSeparator(ss);
    SplitAfterPiece(mm, ss, ':');
    SplitWithoutSeparator(ss, ':');
    assert Split(FormatDuration(ms), ':') == [mm, ss];
  }

  /** Numbers of three or more digits print with three or more characters. */
  lemma {:induction false} HundredsNeedThreeDigits(n: nat)
    requires n >= 100
    ensures |NatToString(n)| >= 3
  {
    assert NatToString(n) == NatToString(n / 10) + [DigitChar(n % 10)];
    assert n / 10 >= 10;
    assert NatToString(n / 10) == NatToString(n / 100) + [DigitChar(n / 10 % 10)];
  }

  /** The minutes are not capped: from 100 minutes on they take three or more digits. */
  lemma MinutesUncapped(ms: int)
    requires ms >= 6000000
    ensures |Split(FormatDuration(ms), ':')[0]| >= 3
  {
    FormatDurationRoundTrip(ms);
    var t := ms / 1000;
    var mm := Pad2(t / 60);
    var ss := Pad2(t % 60);
    FormatDurationParts(ms);
    ParsePadded(t / 60);
    ParsePadded(t % 60);
    DigitsLackSeparator(mm);
    DigitsLackSeparator(ss);
    SplitAfterPiece(mm, ss, ':');
    SplitWithoutSeparator(ss, ':');
    HundredsNeedThreeDigits(t / 60);
  }

  /** How the banner's `startedAt` changes with a state event. */
  datatype StartUpdate = Undefined | Null | Number(value: int)

  /**
   * The label as written: a dash when there is no start time (null, `NaN`
   * or 0), and otherwise the time from the start to the last clock tick.
   */
  function DurationLabelAsWritten(startedAt: Option<int>, now: int): string
  {
    if startedAt.None? || startedAt.value == 0 then NO_DURATION
    else FormatDuration(now - startedAt.value)
  }

  /**
   * The clock `now` only ticks while the status is not idle, so when a
   * transcription starts after an idle spell the start time lies after
   * `now` until the first tick, and the label shows a negative duration.
   */
  lemma StaleClockShowsNegative()
    ensures DurationLabelAsWritten(Some(300000), 0) == "-5:00"
    ensures DurationLabelAsWritten(Some(1000), 0) == "-1:-1"
  {
    assert IntToString(-1) == "-1" by { assert NatToString(1) == "1"; }
    assert DurationLabelAsWritten(Some(300000), 0) == "-5:00" by {
      assert -300000 / 1000 / 60 == -5 && JsRemainder(-300000 / 1000, 60) == 0;
      assert IntToString(-5) == "-5" by { assert NatToString(5) == "5"; }
      assert PadStart(IntToString(0), 2, '0') == "00" by { assert NatToString(0) == "0"; }
    }
    assert DurationLabelAsWritten(Some(1000), 0) == "-1:-1" by {
      assert -1000 / 1000 / 60 == -1 && JsRemainder(-1000 / 1000, 60) == -1;
    }
  }

  /** The label with the elapsed time taken as 0 while the clock lags the start. */
  function DurationLabel(startedAt: Option<int>, now: int): string
  {
    if startedAt.None? || startedAt.value == 0 then NO_DURATION
    else FormatDuration(if now < startedAt.value then 0 else now - startedAt.value)
  }

  /** The label is a dash exactly when there is no start time. */
  lemma DurationLabelDash(startedAt: Option<int>, now: int)
    ensures (DurationLabel(startedAt, now) == NO_DURATION) <==> (startedAt.None? || startedAt.value == 0)
  {
    if startedAt.Some? && startedAt.value != 0 {
      var elapsed := if now < startedAt.value then 0 else now - startedAt.value;
      FormatDurationParts(elapsed);
      assert |DurationLabel(startedAt, now)| >= 5;
    }
  }

  /**
   * With a start time the label is a well-formed `mm:ss` that reads back as
   * the elapsed whole seconds, never less than 0.
   */
  lemma DurationLabelReadsBack(startedAt: Option<int>, now: int)
    requires startedAt.Some? && startedAt.value != 0
    ensures |Split(DurationLabel(startedAt, now), ':')| == 2
    ensures AllDigits(Split(DurationLabel(startedAt, now), ':')[0])
    ensures AllDigits(Split(DurationLabel(startedAt, now), ':')[1])
    ensures ParseDigits(Split(DurationLabel(startedAt, now), ':')[1]) < 60
    ensures 60 * ParseDigits(Split(DurationLabel(startedAt, now), ':')[0])
      + ParseDigits(Split(DurationLabel(startedAt, now), ':')[1])
      == (if now < startedAt.value then 0 else (now - startedAt.value) / 1000)
  {
    var elapsed := if now < startedAt.value then 0 else now - startedAt.value;
    assert DurationLabel(startedAt, now) == FormatDuration(elapsed);
    FormatDurationRoundTrip(elapsed);
  }

  /** Whenever the clock is not behind the start, the label is the one as written. */
  lemma DurationLabelAgrees(startedAt: Option<int>, now: int)
    requires startedAt.Some? && now >= startedAt.value
    ensures DurationLabel(startedAt, now) == DurationLabelAsWritten(startedAt, now)
  {
  }

  /** One of the banner's buttons: its caption and the window event it fires. */
  datatype Control = Control(caption: string, fires: string)

  /** The buttons for a status: none when idle, Resume when paused, Pause otherwise, then Stop. */
  function Controls(status: string): seq<Control>
  {
    if status == IDLE then []
    else if status == PAUSED then [Control("Resume", RESUME_EVENT), Control("Stop", STOP_EVENT)]
    else [Control("Pause", PAUSE_EVENT), Control("Stop", STOP_EVENT)]
  }

  /** The headline: the capture problem first, then paused or running. */
  function Headline(status: string, supported: bool): string
  {
    if !supported then "Mic capture unsupported"
    else if status == PAUSED then "Transcription paused"
    else "Transcribing…"
  }

  /**
   * Idle shows nothing; any other status shows two buttons, the first
   * resuming exactly when paused and pausing otherwise, the second stopping.
   */
  lemma ControlsByStatus(status: string)
    ensures Controls(status) == [] <==> status == IDLE
    ensures status != IDLE ==> |Controls(status)| == 2 && Controls(status)[1] == Control("Stop", STOP_EVENT)
    ensures status != IDLE ==> (Controls(status)[0].fires == RESUME_EVENT <==> status == PAUSED)
    ensures status != IDLE ==> (Controls(status)[0].fires == PAUSE_EVENT <==> status != PAUSED)
  {
    assert RESUME_EVENT[19] == 'r' && PAUSE_EVENT[19] == 'p';
  }

  /** The status a mount reads back: the stored one, or idle when none is stored. */
  function StoredStatus(storage: map<string, string>): string
  {
    if STATUS_KEY in storage then storage[STATUS_KEY] else IDLE
  }

  /** The start time a mount reads back: `parseInt` of a non-empty stored value. */
  function StoredStart(storage: map<string, string>): Option<int>
  {
    if START_KEY in storage && storage[START_KEY] != "" then ParseInt(storage[START_KEY]) else None
  }

  /** The banner's state and the session storage it mirrors. */
  class Banner {
    var status: string
    var startedAt: Option<int>
    var now: int
    var storage: map<string, string>
    /** Whether the one-second interval is running. */
    var ticking: bool

    /** Storage and state agree, so a remount shows the same banner; the clock runs unless idle. */
    ghost predicate Valid()
      reads this
    {
      && status == StoredStatus(storage)
      && startedAt == StoredStart(storage)
      && ticking == (status != IDLE)
    }

    /** Mounting: read status and start time from storage and start the clock if not idle. */
    constructor(stored: map<string, string>, clock: int)
      ensures Valid()
      ensures storage == stored && status == StoredStatus(stored) && startedAt == StoredStart(stored)
      ensures now == clock
    {
      storage := stored;
      status := StoredStatus(stored);
      startedAt := StoredStart(stored);
      now := clock;
      ticking := StoredStatus(stored) != IDLE;
    }

    /**
     * `onState`: a non-empty status is stored and shown; a null start time
     * removes the stored one, a number is stored as text, and an absent one
     * changes nothing.
     */
    method OnState(newStatus: Option<string>, start: StartUpdate)
      requires Valid()
      modifies this
      ensures Valid()
      ensures status == if newStatus.Some? && newStatus.value != "" then newStatus.value else old(status)
      ensures startedAt == match start
        case Undefined => old(startedAt)
        case Null => None
        case Number(n) => Some(n)
      ensures STATUS_KEY in storage <==> (STATUS_KEY in old(storage) || (newStatus.Some? && newStatus.value != ""))
      ensures start.Null? ==> START_KEY !in storage
      ensures start.Number? ==> START_KEY in storage && storage[START_KEY] == IntToString(start.value)
      ensures start.Undefined? ==> (START_KEY in storage <==> START_KEY in old(storage))
      ensures forall k :: k in storage && k != STATUS_KEY && k != START_KEY ==> k in old(storage) && storage[k] == old(storage)[k]
      ensures forall k :: k in old(storage) && k != STATUS_KEY && k != START_KEY ==> k in storage
      ensures now == old(now)
    {
      if newStatus.Some? && newStatus.value != "" {
        storage := storage[STATUS_KEY := newStatus.value];
        status := newStatus.value;
      }
      match start {
        case Undefined =>
        case Null =>
          storage := storage - {START_KEY};
          startedAt := None;
        case Number(n) =>
          storage := storage[START_KEY := IntToString(n)];
          startedAt := Some(n);
          ParseIntIntToString(n);
          assert IntToString(n) != [];
      }
      ticking := status != IDLE;
    }

    /** The interval fires: the clock moves to the current time. */
    method Tick(clock: int)
      requires Valid() && ticking
      modifies this
      ensures Valid()
      ensures now == clock
      ensures status == old(status) && startedAt == old(startedAt) && storage == old(storage)
    {
      now := clock;
    }

    /** Nothing renders while idle. */
    predicate Renders()
      reads this
    {
      status != IDLE
    }

    /**
     * The duration shown beside the headline, as written: the dash without a
     * start time, and the corrected label whenever the clock has caught up.
     */
    function Label(): (r: string)
      reads this
      ensures startedAt.None? || startedAt.value == 0 ==> r == NO_DURATION
      ensures startedAt.Some? && now >= startedAt.value ==> r == DurationLabel(startedAt, now)
    {
      DurationLabelAsWritten(startedAt, now)
    }
  }

  /** Idle renders nothing, offers no buttons and runs no clock. */
  lemma IdleIsSilent(b: Banner)
    requires b.Valid() && b.status == IDLE
    ensures !b.Renders() && !b.ticking && Controls(b.status) == []
  {
  }

  /** A banner mounted afresh on the same storage shows the same status and duration. */
  method Remount(b: Banner) returns (again: Banner)
    requires b.Valid()
    ensures again.status == b.status && again.startedAt == b.startedAt && again.ticking == b.ticking
  {
    again := new Banner(b.storage, b.now);
  }

  /** One minute after the start the label reads "01:00". */
  lemma OneMinuteLabel()
    ensures DurationLabel(Some(1000), 61000) == "01:00"
  {
    FormatDurationParts(60000);
    PaddedTwoDigits(1);
    PaddedTwoDigits(0);
  }

  /** Start, tick, pause and stop. */
  method StartPauseStop()
  {
    var b := new Banner(map[], 0);
    assert !b.Renders() && !b.ticking;
    b.OnState(Some("recording"), Number(1000));
    assert b.Renders() && b.ticking;
    b.Tick(61000);
    OneMinuteLabel();
    assert b.Label() == "01:00";
    b.OnState(Some(PAUSED), Undefined);
    ControlsByStatus(b.status);
    assert Controls(b.status)[0].caption == "Resume";
    assert b.startedAt == Some(1000);
    b.OnState(Some(IDLE), Null);
    assert !b.Renders() && !b.ticking && START_KEY !in b.storage;
  }

  /**
   * A recording that starts five minutes after an idle mount: until the
   * interval first fires, the banner shows the negative label.
   */
  method StartAfterIdle() returns (shown: string)
    ensures shown == "-5:00"
  {
    var b := new Banner(map[], 0);
    b.OnState(Some("recording"), Number(300000));
    StaleClockShowsNegative();
    shown := b.Label();
  }
}
