/** The state every gauge shares (its centre and size) and the geometry of
    the common chrome drawn behind each dial: the outer case, the dial
    face, the radial highlight and the glass arc. */
module Instrument {
  import opened Js
  import Geometry

  /** Position and size of a gauge: the centre of a circular dial (the
      top-left corner for the radio) and its diameter (width for the radio). */
  datatype Base = Base(x: real, y: real, size: real)

  function New(x: real, y: real, size: real): (b: Base)
    ensures b.x == x && b.y == y && b.size == size
  {
    Base(x, y, size)
  }

  /** The base class's `update` does nothing. */
  function Update(b: Base, data: JsValue): (r: Base)
    ensures r.x == b.x && r.y == b.y && r.size == b.size
  {
    b
  }

  /** The numbers behind `drawInstrumentBackground`. Angles in degrees on
      the canvas; the highlight focus is an absolute point. */
  datatype Chrome = Chrome(
    caseRadius: real,
    dialRadius: real,
    focusX: real,
    focusY: real,
    gradientRadius: real,
    glassRadius: real,
    glassFrom: real,
    glassTo: real)

  function Background(b: Base): (c: Chrome)
    ensures c.dialRadius == b.size / 2.0
    ensures c.caseRadius - c.dialRadius == 5.0 && c.caseRadius > c.dialRadius
    ensures c.dialRadius - c.glassRadius == 2.0
    ensures c.gradientRadius == c.dialRadius
    ensures c.focusX == b.x - b.size / 4.0 && c.focusY == b.y - b.size / 4.0
    ensures c.glassFrom == -90.0 && Geometry.BearingOfPolar(c.glassFrom) == 0.0
    ensures c.glassTo - c.glassFrom == 120.0
  {
    Chrome(b.size / 2.0 + 5.0, b.size / 2.0, b.x - b.size / 4.0, b.y - b.size / 4.0,
           b.size / 2.0, b.size / 2.0 - 2.0, -90.0, 30.0)
  }

  /** The highlight's focus, a quarter of the size up and to the left of
      the centre, lies inside the dial: its squared distance from the
      centre is size²/8, below the dial's size²/4. */
  lemma FocusInsideDial(b: Base)
    requires b.size > 0.0
    ensures Geometry.InsideCircle(Background(b).focusX - b.x, Background(b).focusY - b.y, Background(b).dialRadius)
  {
    QuarterOffsetsInside(b.size);
    assert Background(b).focusX - b.x == -(b.size / 4.0);
    assert Background(b).focusY - b.y == -(b.size / 4.0);
  }

  lemma QuarterOffsetsInside(s: real)
    requires s > 0.0
    ensures Geometry.InsideCircle(-(s / 4.0), -(s / 4.0), s / 2.0)
  {
  }

  /** The glass arc lies strictly inside the dial and, once the dial is
      wider than 4 pixels, has a positive radius. */
  lemma GlassInsideDial(b: Base)
    requires b.size > 4.0
    ensures 0.0 < Background(b).glassRadius < Background(b).dialRadius < Background(b).caseRadius
  {
  }
}
