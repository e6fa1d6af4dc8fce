/**
 * `src/hooks/use-viewport.ts`: the window's size and orientation, refreshed
 * on `resize` and `orientationchange`, and the three width classes derived
 * from the width.
 */
module Viewport {
  datatype Orientation = Portrait | Landscape

  const TABLET_MIN: int := 768
  const DESKTOP_MIN: int := 1024

  /** `getOrientation`: landscape when the width is at least the height. */
  function OrientationOf(width: int, height: int): Orientation
  {
    if width >= height then Landscape else Portrait
  }

  /** A square viewport counts as landscape, and swapping unequal sides swaps the orientation. */
  lemma OrientationSwaps(width: int, height: int)
    ensures OrientationOf(width, height) == Landscape <==> width >= height
    ensures width != height ==> OrientationOf(width, height) != OrientationOf(height, width)
    ensures OrientationOf(width, width) == Landscape
  {
  }

  predicate IsMobile(width: int)
  {
    width > 0 && width < TABLET_MIN
  }

  predicate IsTablet(width: int)
  {
    width >= TABLET_MIN && width < DESKTOP_MIN
  }

  predicate IsDesktop(width: int)
  {
    width >= DESKTOP_MIN
  }

  /**
   * At most one width class holds; a measured width (above 0) is in exactly
   * one; the unmeasured width 0 is in none.
   */
  lemma WidthClasses(width: int)
    ensures !(IsMobile(width) && IsTablet(width))
    ensures !(IsMobile(width) && IsDesktop(width))
    ensures !(IsTablet(width) && IsDesktop(width))
    ensures width > 0 ==> IsMobile(width) || IsTablet(width) || IsDesktop(width)
    ensures width <= 0 ==> !IsMobile(width) && !IsTablet(width) && !IsDesktop(width)
  {
  }

  /** The breakpoints sit at 768 and 1024: the last width of each class and the first of the next. */
  lemma Breakpoints()
    ensures IsMobile(767) && IsTablet(768)
    ensures IsTablet(1023) && IsDesktop(1024)
    ensures !IsMobile(0)
  {
  }

  /** The hook's state. */
  class ViewportState {
    var width: int
    var height: int
    var orientation: Orientation
    /** Whether `update` has run since mounting. */
    var measured: bool

    /** Once measured, the orientation is the one of the current size. */
    ghost predicate Valid()
      reads this
    {
      measured ==> orientation == OrientationOf(width, height)
    }

    /**
     * The initial state before the mount effect runs: 0 by 0 and portrait,
     * although 0 by 0 would be computed as landscape.
     */
    constructor()
      ensures Valid() && !measured
      ensures width == 0 && height == 0 && orientation == Portrait
    {
      width := 0;
      height := 0;
      orientation := Portrait;
      measured := false;
    }

    /** `update`: on mount, `resize` and `orientationchange`, take the window's size. */
    method Update(innerWidth: int, innerHeight: int)
      modifies this
      ensures Valid() && measured
      ensures width == innerWidth && height == innerHeight
      ensures orientation == OrientationOf(innerWidth, innerHeight)
    {
      width := innerWidth;
      height := innerHeight;
      orientation := OrientationOf(innerWidth, innerHeight);
      measured := true;
    }

    predicate Mobile()
      reads this
    {
      IsMobile(width)
    }

    predicate Tablet()
      reads this
    {
      IsTablet(width)
    }

    predicate Desktop()
      reads this
    {
      IsDesktop(width)
    }
  }

  /** Before measuring no class holds; rotating a phone keeps it mobile only while it stays under 768. */
  method RotatePhone()
  {
    var v := new ViewportState();
    assert !v.Mobile() && !v.Tablet() && !v.Desktop();
    v.Update(390, 844);
    assert v.Mobile() && v.orientation == Portrait;
    v.Update(844, 390);
    assert v.Tablet() && !v.Mobile() && v.orientation == Landscape;
  }
}
