/**
 * Plane vectors and the border line loop of MainProgram::InitBorder (FluidSim2D.cpp).
 * Coordinates are normalised device coordinates, [-1, 1] on both axes; glm's single-precision
 * floats are modelled as exact reals.
 */
module Geometry {
  datatype Vec2 = Vec2(x: real, y: real)
  {
    function Plus(other: Vec2): Vec2 { Vec2(x + other.x, y + other.y) }
    function Minus(other: Vec2): Vec2 { Vec2(x - other.x, y - other.y) }
    /** glm's component-wise product */
    function Times(other: Vec2): Vec2 { Vec2(x * other.x, y * other.y) }
  }

  /** A line primitive drawn by CStdLine, from start to end. */
  datatype Segment = Segment(start: Vec2, end: Vec2)

  datatype Border = Border(top: Segment, left: Segment, bottom: Segment, right: Segment)

  /** The segments, in the order SetBounds draws them. */
  function Segments(b: Border): seq<Segment> { [b.top, b.left, b.bottom, b.right] }

  /**
   * A coordinate lies in the outermost ring of cells of a grid of n cells across [-1, 1]:
   * strictly inside the first cell from the edge (which is 2/n wide).
   */
  predicate InOuterCell(c: real, n: int)
    requires n > 0
  {
    1.0 - 2.0 / n as real < c < 1.0
  }

  /**
   * The four border lines, half a cell's half-width (0.5/width) inside the edge of the view:
   * they run around the grid as one closed, axis-aligned loop, inside the one-cell border ring.
   */
  function InitBorder(width: int, height: int): (b: Border)
    requires width > 0 && height > 0
    // closed loop: top -> right -> bottom -> left -> top
    ensures b.top.end == b.right.start && b.right.end == b.bottom.start
    ensures b.bottom.end == b.left.start && b.left.end == b.top.start
    // horizontal top/bottom, vertical left/right; bottom is the top mirrored, right the left mirrored
    ensures b.top.start.y == b.top.end.y && b.bottom.start.y == b.bottom.end.y
    ensures b.left.start.x == b.left.end.x && b.right.start.x == b.right.end.x
    ensures b.bottom.start.y == -b.top.start.y && b.right.start.x == -b.left.start.x
    // every line lies in the outermost ring of cells
    ensures InOuterCell(b.right.start.x, width) && InOuterCell(b.bottom.start.y, height)
  {
    var c := Vec2(1.0 - 0.5 / width as real, 1.0 - 0.5 / height as real);
    Border(
      Segment(Vec2(-c.x, -c.y), Vec2(c.x, -c.y)),
      Segment(Vec2(-c.x, c.y), Vec2(-c.x, -c.y)),
      Segment(Vec2(c.x, c.y), Vec2(-c.x, c.y)),
      Segment(Vec2(c.x, -c.y), Vec2(c.x, c.y)))
  }
}
