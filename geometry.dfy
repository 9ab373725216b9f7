/**
 * The popup geometry calculator of background.js: the centred rectangle a new popup is
 * created with, and the maximised and restored rectangles of the maximize toggle.
 * JavaScript numbers are modelled as mathematical integers.
 */
module Geometry {

  /** A preferred popup size (the stored `popupWidth`/`popupHeight`). */
  datatype Size = Size(width: int, height: int)

  /** A window rectangle as the host reports or accepts it. */
  datatype Rect = Rect(left: int, top: int, width: int, height: int)

  /** The part of `screen` used by the maximize toggle. */
  datatype Screen = Screen(availWidth: int, availHeight: int)

  /** `Math.floor(d / 2)`: Dafny's `/` by a positive divisor rounds down, also for negative `d`. */
  function HalfFloor(d: int): (q: int)
    ensures 2 * q <= d < 2 * q + 2
  {
    d / 2
  }

  /**
   * The rectangle of a new popup: the preferred size, centred on the anchor window,
   * rounding the offset down; nothing is clamped to the anchor or to the screen.
   */
  function CenteredRect(anchor: Rect, size: Size): (r: Rect)
    ensures r.width == size.width && r.height == size.height
    ensures 2 * (r.left - anchor.left) <= anchor.width - size.width < 2 * (r.left - anchor.left) + 2
    ensures 2 * (r.top - anchor.top) <= anchor.height - size.height < 2 * (r.top - anchor.top) + 2
  {
    Rect(anchor.left + HalfFloor(anchor.width - size.width),
         anchor.top + HalfFloor(anchor.height - size.height),
         size.width, size.height)
  }

  /** The rectangle a popup is maximised to: the whole available screen, anchored at the origin. */
  function MaximizedRect(screen: Screen): (r: Rect)
    ensures r.left == 0 && r.top == 0
    ensures r.width == screen.availWidth && r.height == screen.availHeight
  {
    Rect(0, 0, screen.availWidth, screen.availHeight)
  }

  /**
   * The rectangle a maximised popup is restored to: the preferred size centred on the
   * available screen, which is the same as centring it on the maximised rectangle.
   */
  function RestoredRect(screen: Screen, size: Size): (r: Rect)
    ensures r == CenteredRect(MaximizedRect(screen), size)
  {
    Rect(HalfFloor(screen.availWidth - size.width),
         HalfFloor(screen.availHeight - size.height),
         size.width, size.height)
  }

  /** `inner` lies entirely within `outer`. */
  predicate Inside(inner: Rect, outer: Rect)
  {
    outer.left <= inner.left && inner.left + inner.width <= outer.left + outer.width &&
    outer.top <= inner.top && inner.top + inner.height <= outer.top + outer.height
  }

  function LeftMargin(inner: Rect, outer: Rect): int { inner.left - outer.left }
  function RightMargin(inner: Rect, outer: Rect): int { outer.left + outer.width - (inner.left + inner.width) }
  function TopMargin(inner: Rect, outer: Rect): int { inner.top - outer.top }
  function BottomMargin(inner: Rect, outer: Rect): int { outer.top + outer.height - (inner.top + inner.height) }

  /**
   * A popup that is no larger than its anchor lies inside it, with equal margins on
   * opposite sides up to one pixel, the extra pixel going to the right and bottom.
   */
  lemma CenteredFitsInside(anchor: Rect, size: Size)
    requires 0 <= size.width <= anchor.width && 0 <= size.height <= anchor.height
    ensures Inside(CenteredRect(anchor, size), anchor)
    ensures 0 <= RightMargin(CenteredRect(anchor, size), anchor) - LeftMargin(CenteredRect(anchor, size), anchor) <= 1
    ensures 0 <= BottomMargin(CenteredRect(anchor, size), anchor) - TopMargin(CenteredRect(anchor, size), anchor) <= 1
  {
  }

  /** There is no clamping: a popup wider than its anchor starts left of the anchor. */
  lemma WiderThanAnchorOverhangs(anchor: Rect, size: Size)
    requires size.width > anchor.width
    ensures CenteredRect(anchor, size).left < anchor.left
  {
  }
}
