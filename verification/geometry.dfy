/** Angle and rectangle conventions shared by every gauge.

    The drawing surface has y growing downward, so a canvas angle a (in
    degrees) turns clockwise from the positive x axis. The gauges place
    things on their dials in three ways, and each is read here as a clock
    bearing: degrees clockwise from 12 o'clock. The trigonometry itself is
    not modelled; these three correspondences are the conventions the
    model states its needle and mark positions in. */
module Geometry {

  /** A point at (cos a, sin a) · r lies at bearing a + 90. */
  function BearingOfPolar(a: real): real {
    a + 90.0
  }

  /** A shape drawn pointing up (toward negative y) and then rotated by t
      points at bearing t. */
  function BearingOfRotatedUp(t: real): real {
    t
  }

  /** A point at (sin a, -cos a) · r lies at bearing a. */
  function BearingOfCard(a: real): real {
    a
  }

  /** The point at offset (dx, dy) from a circle's centre lies strictly inside a circle of radius r. */
  predicate InsideCircle(dx: real, dy: real, r: real) {
    dx * dx + dy * dy < r * r
  }

  /** An axis-aligned rectangle as passed to `fillRect`/`rect`: top-left
      corner, width, height. */
  datatype Rect = Rect(left: real, top: real, width: real, height: real) {
    function Right(): real { left + width }
    function Bottom(): real { top + height }
  }

  /** a lies strictly above b, with no shared row. */
  predicate Above(a: Rect, b: Rect) {
    a.Bottom() < b.top
  }

  /** a lies within b. */
  predicate Within(a: Rect, b: Rect) {
    b.left <= a.left && a.Right() <= b.Right() && b.top <= a.top && a.Bottom() <= b.Bottom()
  }
}
