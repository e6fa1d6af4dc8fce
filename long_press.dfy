/**
 * The long-press recognizer of `src/hooks/use-long-press.ts`. The browser's
 * timeouts are explicit: pointer-down schedules one with a fresh handle,
 * `Fire(h)` is the browser running timeout `h`, and `pending` holds the
 * timeouts scheduled and neither run nor cleared.
 */
module LongPress {
  import opened Optional

  const DEFAULT_MS: nat := 520
  const DEFAULT_MOVE_TOLERANCE: int := 12

  datatype PointerType = Mouse | Touch | Pen

  /**
   * `Math.hypot(dx, dy) > moveTolerance`, in integers: the distance is never
   * negative, so a negative tolerance is always exceeded.
   */
  predicate MovedBeyond(dx: int, dy: int, tolerance: int) {
    tolerance < 0 || dx * dx + dy * dy > tolerance * tolerance
  }

  /** A move of exactly the tolerance does not cancel; one unit further along an axis does. */
  lemma ToleranceBoundary(tolerance: nat)
    ensures !MovedBeyond(tolerance, 0, tolerance) && !MovedBeyond(0, -(tolerance as int), tolerance)
    ensures MovedBeyond(tolerance + 1, 0, tolerance)
  {
  }

  class Recognizer {
    const ms: nat
    const moveTolerance: int
    var x: int
    var y: int
    var active: bool
    /** `timerRef.current`: the last handle stored, or null. */
    var timer: Option<nat>
    /** Timeouts scheduled with the browser that have neither run nor been cleared. */
    var pending: set<nat>
    /** The next handle `setTimeout` returns; browser handles are positive. */
    var nextHandle: nat
    /** How many times `onLongPress` has been called. */
    var longPresses: nat

    ghost predicate Valid()
      reads this
    {
      && nextHandle >= 1
      && (forall h :: h in pending ==> 1 <= h < nextHandle)
      && (timer.Some? ==> timer.value in pending)
    }

    constructor (ms: nat, moveTolerance: int)
      ensures Valid()
      ensures this.ms == ms && this.moveTolerance == moveTolerance
      ensures !active && timer == None && pending == {} && longPresses == 0
    {
      this.ms, this.moveTolerance := ms, moveTolerance;
      x, y, active := 0, 0, false;
      timer, pending, nextHandle, longPresses := None, {}, 1, 0;
    }

    /** `clear`: cancel the stored timeout, if any, and end the session. */
    method Clear()
      requires Valid()
      modifies this
      ensures Valid()
      ensures !active && timer == None
      ensures pending == if old(timer).Some? then old(pending) - {old(timer).value} else old(pending)
      ensures x == old(x) && y == old(y) && nextHandle == old(nextHandle) && longPresses == old(longPresses)
    {
      if timer.Some? {
        pending := pending - {timer.value};
      }
      timer := None;
      active := false;
    }

    /**
     * Arms the recognizer, unless a mouse button other than the primary one
     * was pressed. An earlier timeout is NOT cleared: only `timerRef` is
     * overwritten, so it stays pending.
     */
    method PointerDown(pointerType: PointerType, button: int, clientX: int, clientY: int)
      requires Valid()
      modifies this
      ensures Valid()
      ensures longPresses == old(longPresses)
      ensures pointerType == Mouse && button != 0 ==>
        x == old(x) && y == old(y) && active == old(active) && timer == old(timer)
        && pending == old(pending) && nextHandle == old(nextHandle)
      ensures !(pointerType == Mouse && button != 0) ==>
        x == clientX && y == clientY && active
        && timer == Some(old(nextHandle)) && pending == old(pending) + {old(nextHandle)}
        && old(nextHandle) !in old(pending) && nextHandle == old(nextHandle) + 1
    {
      if pointerType == Mouse && button != 0 {
        return;
      }
      x, y, active := clientX, clientY, true;
      var h := nextHandle;
      nextHandle := nextHandle + 1;
      pending := pending + {h};
      timer := Some(h);
    }

    /** The browser runs timeout `h`: the stored handle is dropped, and an active session fires once. */
    method Fire(h: nat)
      requires Valid() && h in pending
      modifies this
      ensures Valid()
      ensures pending == old(pending) - {h} && timer == None && !active
      ensures longPresses == if old(active) then old(longPresses) + 1 else old(longPresses)
      ensures x == old(x) && y == old(y) && nextHandle == old(nextHandle)
    {
      pending := pending - {h};
      timer := None;
      if !active {
        return;
      }
      longPresses := longPresses + 1;
      active := false;
    }

    method PointerMove(clientX: int, clientY: int)
      requires Valid()
      modifies this
      ensures Valid()
      ensures x == old(x) && y == old(y) && nextHandle == old(nextHandle) && longPresses == old(longPresses)
      ensures old(active) && MovedBeyond(clientX - x, clientY - y, moveTolerance) ==>
        !active && timer == None
        && pending == (if old(timer).Some? then old(pending) - {old(timer).value} else old(pending))
      ensures !(old(active) && MovedBeyond(clientX - x, clientY - y, moveTolerance)) ==>
        active == old(active) && timer == old(timer) && pending == old(pending)
    {
      if !active {
        return;
      }
      var dx := clientX - x;
      var dy := clientY - y;
      if MovedBeyond(dx, dy, moveTolerance) {
        Clear();
      }
    }

    /** Pointer-up, pointer-cancel and pointer-leave all run `clear`. */
    method PointerUp()
      requires Valid()
      modifies this
      ensures Valid() && !active && timer == None && longPresses == old(longPresses)
      ensures pending == if old(timer).Some? then old(pending) - {old(timer).value} else old(pending)
    {
      Clear();
    }

    method PointerCancel()
      requires Valid()
      modifies this
      ensures Valid() && !active && timer == None && longPresses == old(longPresses)
      ensures pending == if old(timer).Some? then old(pending) - {old(timer).value} else old(pending)
    {
      Clear();
    }

    method PointerLeave()
      requires Valid()
      modifies this
      ensures Valid() && !active && timer == None && longPresses == old(longPresses)
      ensures pending == if old(timer).Some? then old(pending) - {old(timer).value} else old(pending)
    {
      Clear();
    }
  }

  /** Held without moving: the timeout fires `onLongPress` once, and the release afterwards adds nothing. */
  method HeldPressFiresOnce() returns (calls: nat, afterRelease: nat)
    ensures calls == 1 && afterRelease == 1
  {
    var r := new Recognizer(DEFAULT_MS, DEFAULT_MOVE_TOLERANCE);
    r.PointerDown(Touch, 0, 10, 10);
    var h := r.timer.value;
    r.Fire(h);
    calls := r.longPresses;
    r.PointerUp();
    afterRelease := r.longPresses;
  }

  /** A move beyond the tolerance before the delay cancels the timeout: nothing is left to fire. */
  method MoveCancels(dx: int, dy: int) returns (calls: nat, left: set<nat>)
    requires MovedBeyond(dx, dy, DEFAULT_MOVE_TOLERANCE)
    ensures calls == 0 && left == {}
  {
    var r := new Recognizer(DEFAULT_MS, DEFAULT_MOVE_TOLERANCE);
    r.PointerDown(Pen, 0, 0, 0);
    r.PointerMove(dx, dy);
    calls, left := r.longPresses, r.pending;
  }

  /** A secondary mouse button does not arm the recognizer. */
  method SecondaryButtonIgnored() returns (armed: bool, scheduled: set<nat>)
    ensures !armed && scheduled == {}
  {
    var r := new Recognizer(DEFAULT_MS, DEFAULT_MOVE_TOLERANCE);
    r.PointerDown(Mouse, 2, 5, 5);
    armed, scheduled := r.active, r.pending;
  }

  /**
   * Two pointer-downs in a row: the first timeout stays scheduled, fires the
   * long press of the second session early, and the second timeout is then
   * beyond the reach of `clear` yet fires nothing.
   */
  method SecondDownKeepsFirstTimeout() returns (early: nat, stillPending: bool, total: nat)
    ensures early == 1 && stillPending && total == 1
  {
    var r := new Recognizer(DEFAULT_MS, DEFAULT_MOVE_TOLERANCE);
    r.PointerDown(Touch, 0, 0, 0);
    var first := r.timer.value;
    r.PointerDown(Touch, 0, 0, 0);
    var second := r.timer.value;
    r.Fire(first);
    early := r.longPresses;
    r.PointerUp();
    stillPending := second in r.pending;
    r.Fire(second);
    total := r.longPresses;
  }
}
