/**
 * `src/features/meeting-room/meeting-room-page.tsx`: the live meeting
 * screen. One side panel (notes, chat or people) at a time, shown beside the
 * stage on wide screens and in a bottom sheet on phones; on a wide screen
 * the notes panel opens by itself once; mic and camera toggles.
 */
module MeetingRoom {
  import opened Optional
  import opened Strings

  datatype PanelKind = Notes | Chat | People

  const LEAVE_TO: string := "/meeting-history"
  const NO_PANEL_TITLE: string := "Panel"

  /** The panel's name as the source spells it. */
  function Name(p: PanelKind): string
  {
    match p
    case Notes => "notes"
    case Chat => "chat"
    case People => "people"
  }

  /** `panelTitle`: the name with its first letter upper-cased, or "Panel" with no panel. */
  function PanelTitle(active: Option<PanelKind>): string
  {
    if active.None? then NO_PANEL_TITLE
    else [UpperChar(Name(active.value)[0])] + Name(active.value)[1..]
  }

  /** The titles are "Notes", "Chat" and "People"; lower-casing a title gives back the panel's name. */
  lemma PanelTitles(p: PanelKind)
    ensures PanelTitle(Some(Notes)) == "Notes"
    ensures PanelTitle(Some(Chat)) == "Chat"
    ensures PanelTitle(Some(People)) == "People"
    ensures ToLower(PanelTitle(Some(p))) == Name(p)
    ensures PanelTitle(Some(p)) != NO_PANEL_TITLE
  {
    assert ToLower("Notes") == "notes";
    assert ToLower("Chat") == "chat";
    assert ToLower("People") == "people";
  }

  /** `togglePanel`: the same panel again closes it, another one replaces it. */
  function Toggled(active: Option<PanelKind>, p: PanelKind): Option<PanelKind>
  {
    if active == Some(p) then None else Some(p)
  }

  /** Toggling the same panel twice restores the state; toggling opens `p` unless `p` was open. */
  lemma ToggleTwice(active: Option<PanelKind>, p: PanelKind)
    ensures Toggled(Toggled(active, p), p) == (if active == Some(p) then Some(p) else None)
    ensures Toggled(active, p).Some? <==> active != Some(p)
    ensures Toggled(active, p).Some? ==> Toggled(active, p).value == p
  {
  }

  /** The page's state. */
  class Room {
    var isMobile: bool
    var isMicMuted: bool
    var isCameraOff: bool
    var activePanel: Option<PanelKind>
    /** The `hasSetDesktopDefaultPanel` ref. */
    var defaultDone: bool
    /** How many times the notes panel was opened by the default rule. */
    ghost var defaultsApplied: nat
    var navigations: seq<string>

    /**
     * The default is applied at most once, and only ever with the ref set;
     * on a wide screen the ref is always set after the effect has run.
     */
    ghost predicate Valid()
      reads this
    {
      && defaultsApplied <= 1
      && (defaultsApplied == 1 ==> defaultDone)
      && (!isMobile ==> defaultDone)
    }

    /**
     * The default-panel effect, run after every render where the viewport
     * class or the panel changed: on a wide screen, once, open the notes
     * panel if none is open.
     */
    method DefaultPanelEffect()
      requires defaultsApplied <= 1 && (defaultsApplied == 1 ==> defaultDone)
      modifies this
      ensures Valid()
      ensures defaultDone == (old(defaultDone) || !isMobile)
      ensures activePanel == if !isMobile && !old(defaultDone) && old(activePanel).None? then Some(Notes) else old(activePanel)
      ensures defaultsApplied == if activePanel != old(activePanel) then old(defaultsApplied) + 1 else old(defaultsApplied)
      ensures isMobile == old(isMobile) && isMicMuted == old(isMicMuted) && isCameraOff == old(isCameraOff)
      ensures navigations == old(navigations)
    {
      if isMobile {
        return;
      }
      if defaultDone {
        return;
      }
      if activePanel.Some? {
        defaultDone := true;
        return;
      }
      activePanel := Some(Notes);
      defaultsApplied := defaultsApplied + 1;
      defaultDone := true;
    }

    /** Mounting: nothing open, then the effect runs once. */
    constructor(mobile: bool)
      ensures Valid()
      ensures isMobile == mobile && !isMicMuted && !isCameraOff && navigations == []
      ensures activePanel == if mobile then None else Some(Notes)
      ensures defaultDone == !mobile
    {
      isMobile := mobile;
      isMicMuted := false;
      isCameraOff := false;
      activePanel := None;
      defaultDone := false;
      defaultsApplied := 0;
      navigations := [];
      new;
      DefaultPanelEffect();
    }

    /** The media query changes: the width class flips and the effect runs. */
    method SetMobile(mobile: bool)
      requires Valid()
      modifies this
      ensures Valid()
      ensures isMobile == mobile
      ensures activePanel == if !mobile && !old(defaultDone) && old(activePanel).None? then Some(Notes) else old(activePanel)
      ensures defaultDone == (old(defaultDone) || !mobile)
      ensures defaultsApplied == if activePanel != old(activePanel) then old(defaultsApplied) + 1 else old(defaultsApplied)
      ensures isMicMuted == old(isMicMuted) && isCameraOff == old(isCameraOff) && navigations == old(navigations)
    {
      isMobile := mobile;
      DefaultPanelEffect();
    }

    /** A chat, people or notes button, then the effect. */
    method TogglePanel(p: PanelKind)
      requires Valid()
      modifies this
      ensures Valid()
      ensures activePanel == Toggled(old(activePanel), p)
      ensures defaultDone == old(defaultDone)
      ensures isMobile == old(isMobile) && isMicMuted == old(isMicMuted) && isCameraOff == old(isCameraOff)
      ensures navigations == old(navigations)
    {
      activePanel := Toggled(activePanel, p);
      DefaultPanelEffect();
    }

    /** The aside's close button and the sheet closing both clear the panel, then the effect. */
    method ClosePanel()
      requires Valid()
      modifies this
      ensures Valid()
      ensures activePanel == None
      ensures defaultDone == old(defaultDone)
      ensures isMobile == old(isMobile) && isMicMuted == old(isMicMuted) && isCameraOff == old(isCameraOff)
      ensures navigations == old(navigations)
    {
      activePanel := None;
      DefaultPanelEffect();
    }

    /** The sheet's `onOpenChange`: closing clears the panel, opening does nothing. */
    method SheetOpenChange(open: bool)
      requires Valid()
      modifies this
      ensures Valid()
      ensures activePanel == if open then old(activePanel) else None
      ensures defaultDone == old(defaultDone)
      ensures isMobile == old(isMobile) && isMicMuted == old(isMicMuted) && isCameraOff == old(isCameraOff)
      ensures navigations == old(navigations)
    {
      if !open {
        ClosePanel();
      }
    }

    method ToggleMic()
      modifies this
      ensures isMicMuted == !old(isMicMuted)
      ensures isCameraOff == old(isCameraOff) && activePanel == old(activePanel) && isMobile == old(isMobile)
      ensures defaultDone == old(defaultDone) && defaultsApplied == old(defaultsApplied) && navigations == old(navigations)
    {
      isMicMuted := !isMicMuted;
    }

    method ToggleCamera()
      modifies this
      ensures isCameraOff == !old(isCameraOff)
      ensures isMicMuted == old(isMicMuted) && activePanel == old(activePanel) && isMobile == old(isMobile)
      ensures defaultDone == old(defaultDone) && defaultsApplied == old(defaultsApplied) && navigations == old(navigations)
    {
      isCameraOff := !isCameraOff;
    }

    /** Leave goes to the meeting history. */
    method Leave()
      modifies this
      ensures navigations == old(navigations) + [LEAVE_TO]
      ensures isMicMuted == old(isMicMuted) && isCameraOff == old(isCameraOff) && activePanel == old(activePanel)
      ensures isMobile == old(isMobile) && defaultDone == old(defaultDone) && defaultsApplied == old(defaultsApplied)
    {
      navigations := navigations + [LEAVE_TO];
    }

    /** The desktop aside. */
    predicate AsideShown()
      reads this
    {
      activePanel.Some? && !isMobile
    }

    /** The mobile sheet's `open`. */
    predicate SheetOpen()
      reads this
    {
      activePanel.Some? && isMobile
    }
  }

  /** The aside and the sheet never show together, and one of them shows exactly when a panel is active. */
  lemma OneSurface(r: Room)
    ensures !(r.AsideShown() && r.SheetOpen())
    ensures r.AsideShown() || r.SheetOpen() <==> r.activePanel.Some?
  {
  }

  /** On a wide screen, closing the default notes panel leaves it closed: the default is one-shot. */
  method DefaultIsOneShot()
  {
    var r := new Room(false);
    assert r.activePanel == Some(Notes) && r.AsideShown();
    r.ClosePanel();
    assert r.activePanel == None;
    r.TogglePanel(Chat);
    assert r.activePanel == Some(Chat);
    r.TogglePanel(Chat);
    assert r.activePanel == None && !r.AsideShown();
  }

  /** A phone gets no default; widening the screen with nothing open applies it then. */
  method DefaultOnFirstWideRender()
  {
    var r := new Room(true);
    assert r.activePanel == None;
    r.TogglePanel(People);
    assert r.SheetOpen() && PanelTitle(r.activePanel) == "People";
    r.SheetOpenChange(false);
    assert r.activePanel == None && !r.SheetOpen();
    r.SetMobile(false);
    assert r.activePanel == Some(Notes) && r.defaultsApplied == 1;
    r.ClosePanel();
    r.SetMobile(true);
    r.SetMobile(false);
    assert r.activePanel == None;
  }

  /** The toggles flip only their own switch. */
  method MediaToggles()
  {
    var r := new Room(false);
    r.ToggleMic();
    assert r.isMicMuted && !r.isCameraOff && r.activePanel == Some(Notes);
    r.ToggleCamera();
    r.ToggleMic();
    assert !r.isMicMuted && r.isCameraOff;
  }
}
