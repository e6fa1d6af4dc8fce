/**
 * `src/components/shared/pull-to-refresh.tsx`: a touch gesture on a scroll
 * container that, when pulled down far enough from the top and released,
 * runs `onRefresh`. The pull distance is capped at 120 px; a release at 80 px
 * or more refreshes.
 */
module PullToRefresh {
  import opened Optional

  const MAX_PULL: int := 120
  const REFRESH_AT: int := 80
  /** A capped pull above this many pixels stops the page's own scrolling. */
  const PREVENT_ABOVE: int := 8

  const REFRESHING_LABEL: string := "Refreshing…"
  const RELEASE_LABEL: string := "Release to refresh"
  const PULL_LABEL: string := "Pull to refresh"

  function Min(a: int, b: int): int {
    if a <= b then a else b
  }

  /** The indicator's text. */
  function Label(refreshing: bool, pull: int): (s: string)
    ensures refreshing ==> s == REFRESHING_LABEL
    ensures !refreshing ==> (s == RELEASE_LABEL <==> pull >= REFRESH_AT)
    ensures s in {REFRESHING_LABEL, RELEASE_LABEL, PULL_LABEL}
  {
    if refreshing then REFRESHING_LABEL else if pull >= REFRESH_AT then RELEASE_LABEL else PULL_LABEL
  }

  /** The indicator is visible while pulled or refreshing. */
  predicate Visible(refreshing: bool, pull: int) {
    pull > 0 || refreshing
  }

  /**
   * The component's state. `touchY` parameters are the first touch point's
   * `clientY`, absent when the event carries no touch; `scrollTop` is the
   * container's at the time of the event.
   */
  class Puller {
    const enabled: bool
    var pull: int
    var refreshing: bool
    var startY: Option<int>
    /** How many times `onRefresh` has been called. */
    var refreshCalls: nat

    ghost predicate Valid()
      reads this
    {
      0 <= pull <= MAX_PULL
    }

    constructor (enabled: bool)
      ensures Valid()
      ensures this.enabled == enabled && pull == 0 && !refreshing && startY == None && refreshCalls == 0
    {
      this.enabled := enabled;
      pull, refreshing, startY, refreshCalls := 0, false, None, 0;
    }

    /** Records where the touch began, but only at the top of the container and when not refreshing. */
    method TouchStart(scrollTop: int, touchY: Option<int>)
      requires Valid()
      modifies this
      ensures Valid()
      ensures pull == old(pull) && refreshing == old(refreshing) && refreshCalls == old(refreshCalls)
      ensures startY == if enabled && !refreshing && scrollTop <= 0 then touchY else old(startY)
    {
      if !enabled || refreshing || scrollTop > 0 {
        return;
      }
      startY := touchY;
    }

    /** Follows the finger: a downward delta becomes the pull, capped; anything else resets it. */
    method TouchMove(scrollTop: int, touchY: Option<int>) returns (prevented: bool)
      requires Valid()
      modifies this
      ensures Valid()
      ensures startY == old(startY) && refreshing == old(refreshing) && refreshCalls == old(refreshCalls)
      ensures !enabled || refreshing || startY.None? || scrollTop > 0 ==> pull == old(pull) && !prevented
      ensures enabled && !refreshing && startY.Some? && scrollTop <= 0 ==>
        var delta := (if touchY.Some? then touchY.value else startY.value) - startY.value;
        pull == (if delta <= 0 then 0 else Min(MAX_PULL, delta))
        && (prevented <==> pull > PREVENT_ABOVE)
    {
      prevented := false;
      if !enabled || refreshing || startY.None? || scrollTop > 0 {
        return;
      }
      var currentY := if touchY.Some? then touchY.value else startY.value;
      var delta := currentY - startY.value;
      if delta <= 0 {
        pull := 0;
        return;
      }
      var capped := Min(MAX_PULL, delta);
      pull := capped;
      if capped > PREVENT_ABOVE {
        prevented := true;
      }
    }

    /**
     * The finger lifts. Unless refreshing, the start is forgotten; below the
     * threshold the pull springs back, otherwise `onRefresh` is called.
     */
    method TouchEnd() returns (started: bool)
      requires Valid()
      modifies this
      ensures Valid()
      ensures !enabled || old(refreshing) ==>
        !started && pull == old(pull) && refreshing == old(refreshing) && startY == old(startY) && refreshCalls == old(refreshCalls)
      ensures enabled && !old(refreshing) ==>
        startY == None
        && (started <==> old(pull) >= REFRESH_AT)
        && (started ==> refreshing && pull == old(pull) && refreshCalls == old(refreshCalls) + 1)
        && (!started ==> !refreshing && pull == 0 && refreshCalls == old(refreshCalls))
    {
      started := false;
      if !enabled || refreshing {
        return;
      }
      var shouldRefresh := pull >= REFRESH_AT;
      startY := None;
      if !shouldRefresh {
        pull := 0;
        return;
      }
      refreshing := true;
      refreshCalls := refreshCalls + 1;
      started := true;
    }

    /** `onRefresh` settles, fulfilled or rejected: the `finally` block resets both. */
    method RefreshSettled(failed: bool)
      requires Valid() && refreshing
      modifies this
      ensures Valid()
      ensures !refreshing && pull == 0 && startY == old(startY) && refreshCalls == old(refreshCalls)
    {
      refreshing := false;
      pull := 0;
    }
  }

  /**
   * A 200 px drag from the top: the pull stops at 120, scrolling is
   * prevented, release starts exactly one refresh, and when it settles,
   * even by failing, the indicator is back at rest.
   */
  method LongPullRefreshesOnce(y: int, failed: bool)
    returns (pulled: int, prevented: bool, labelBeforeRelease: string, started: bool, labelDuring: string,
             repeated: bool, calls: nat, pullAfter: int, visibleAfter: bool)
    ensures pulled == MAX_PULL && prevented && labelBeforeRelease == RELEASE_LABEL
    ensures started && labelDuring == REFRESHING_LABEL && !repeated && calls == 1
    ensures pullAfter == 0 && !visibleAfter
  {
    var p := new Puller(true);
    p.TouchStart(0, Some(y));
    prevented := p.TouchMove(0, Some(y + 200));
    pulled, labelBeforeRelease := p.pull, Label(p.refreshing, p.pull);
    started := p.TouchEnd();
    labelDuring := Label(p.refreshing, p.pull);
    // A second release while the refresh is pending does nothing.
    repeated := p.TouchEnd();
    calls := p.refreshCalls;
    p.RefreshSettled(failed);
    pullAfter, visibleAfter := p.pull, Visible(p.refreshing, p.pull);
  }

  /** A 79 px pull springs back without refreshing; a gesture starting below the top never pulls. */
  method ShortOrScrolledPullDoesNothing(y: int)
    returns (started: bool, calls: nat, pullAfter: int, scrolledPull: int)
    ensures !started && calls == 0 && pullAfter == 0 && scrolledPull == 0
  {
    var p := new Puller(true);
    p.TouchStart(0, Some(y));
    var prevented := p.TouchMove(0, Some(y + 79));
    started := p.TouchEnd();
    calls, pullAfter := p.refreshCalls, p.pull;
    var q := new Puller(true);
    q.TouchStart(10, Some(y));
    prevented := q.TouchMove(0, Some(y + 200));
    scrolledPull := q.pull;
  }
}
