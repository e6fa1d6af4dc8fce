/**
 * The swipe recognizer of `src/hooks/use-swipe.ts`: pointer-down records an
 * origin and opens a session, pointer-up closes it and classifies the
 * displacement, pointer-cancel closes it silently.
 */
module Swipe {
  const DEFAULT_THRESHOLD: int := 80

  datatype Direction = Left | Right | Up | Down

  function Abs(x: int): nat {
    if x < 0 then -x else x
  }

  /**
   * The callbacks one handled pointer-up calls, in call order, for the
   * displacement `(dx, dy)`. A direction whose callback was not supplied is
   * still listed: calling it (`onSwipeLeft?.()`) does nothing.
   */
  function Classify(dx: int, dy: int, threshold: int): seq<Direction> {
    if Abs(dx) >= Abs(dy) then
      (if dx <= -threshold then [Left] else []) + (if dx >= threshold then [Right] else [])
    else
      (if dy <= -threshold then [Up] else []) + (if dy >= threshold then [Down] else [])
  }

  /** Horizontal movement (ties included) fires left or right, by threshold, and never up or down. */
  lemma ClassifyHorizontal(dx: int, dy: int, threshold: int)
    requires Abs(dx) >= Abs(dy)
    ensures var fired := Classify(dx, dy, threshold);
      && (Left in fired <==> dx <= -threshold)
      && (Right in fired <==> dx >= threshold)
      && Up !in fired && Down !in fired
  {
  }

  /** Vertical movement fires up or down, by threshold, and never left or right. */
  lemma ClassifyVertical(dx: int, dy: int, threshold: int)
    requires Abs(dx) < Abs(dy)
    ensures var fired := Classify(dx, dy, threshold);
      && (Up in fired <==> dy <= -threshold)
      && (Down in fired <==> dy >= threshold)
      && Left !in fired && Right !in fired
  {
  }

  /** With a positive threshold a session fires at most one callback, and none below the threshold. */
  lemma AtMostOneDirection(dx: int, dy: int, threshold: int)
    requires threshold > 0
    ensures |Classify(dx, dy, threshold)| <= 1
    ensures Abs(dx) < threshold && Abs(dy) < threshold ==> Classify(dx, dy, threshold) == []
    ensures Classify(dx, dy, threshold) != [] ==> Abs(dx) >= threshold || Abs(dy) >= threshold
  {
  }

  /** With a threshold of zero a motionless tap fires both left and right. */
  lemma ZeroThresholdFiresBoth()
    ensures Classify(0, 0, 0) == [Left, Right]
  {
  }

  class Recognizer {
    const threshold: int
    var x: int
    var y: int
    var active: bool

    /** `useSwipe({ threshold })`; the origin starts at `(0, 0)`, inactive. */
    constructor (threshold: int)
      ensures this.threshold == threshold
      ensures x == 0 && y == 0 && !active
    {
      this.threshold := threshold;
      x, y, active := 0, 0, false;
    }

    method PointerDown(clientX: int, clientY: int)
      modifies this
      ensures x == clientX && y == clientY && active
    {
      x, y, active := clientX, clientY, true;
    }

    /** Returns the callbacks called; an inactive session calls none and changes nothing. */
    method PointerUp(clientX: int, clientY: int) returns (fired: seq<Direction>)
      modifies this
      ensures !active && x == old(x) && y == old(y)
      ensures fired == if old(active) then Classify(clientX - x, clientY - y, threshold) else []
    {
      if !active {
        return [];
      }
      active := false;
      var dx := clientX - x;
      var dy := clientY - y;
      fired := [];
      if Abs(dx) >= Abs(dy) {
        if dx <= -threshold {
          fired := fired + [Left];
        }
        if dx >= threshold {
          fired := fired + [Right];
        }
        return;
      }
      if dy <= -threshold {
        fired := fired + [Up];
      }
      if dy >= threshold {
        fired := fired + [Down];
      }
    }

    method PointerCancel()
      modifies this
      ensures !active && x == old(x) && y == old(y)
    {
      active := false;
    }
  }

  /** Down at (0,0): up at (-79,0) fires nothing; up at (-80,0) fires left exactly once. */
  method ThresholdBoundary() returns (short: seq<Direction>, long: seq<Direction>)
    ensures short == [] && long == [Left]
  {
    var r := new Recognizer(DEFAULT_THRESHOLD);
    r.PointerDown(0, 0);
    short := r.PointerUp(-79, 0);
    r.PointerDown(0, 0);
    long := r.PointerUp(-80, 0);
  }

  /** A second pointer-up in the same session, and a pointer-up after a cancel, fire nothing. */
  method OneFiringPerSession(dx: int, dy: int) returns (first: seq<Direction>, second: seq<Direction>, cancelled: seq<Direction>)
    ensures first == Classify(dx, dy, DEFAULT_THRESHOLD)
    ensures second == [] && cancelled == []
  {
    var r := new Recognizer(DEFAULT_THRESHOLD);
    r.PointerDown(0, 0);
    first := r.PointerUp(dx, dy);
    second := r.PointerUp(dx, dy);
    r.PointerDown(0, 0);
    r.PointerCancel();
    cancelled := r.PointerUp(dx, dy);
  }
}
