/** The counting gates: two directed reference lines and the side test that
    decides whether a tracked centre counts as having crossed one of them.
    Coordinates are real because the tracker reports sub-pixel boxes and
    centres are half-pixel midpoints. */
module Geometry {

  datatype Point = Point(x: real, y: real)

  /** A reference line given by its two endpoints, in the order configured. */
  datatype Line = Line(p1: Point, p2: Point)
  {
    /** The same segment traversed in the opposite direction. */
    function Swapped(): Line { Line(p2, p1) }
  }

  /** Standard orientation determinant of the triangle (p, q, a), measured
      from p: positive when a lies counter-clockwise of the ray p -> q,
      negative when clockwise, zero when the three are collinear. */
  function Orientation(p: Point, q: Point, a: Point): real
  {
    (q.x - p.x) * (a.y - p.y) - (q.y - p.y) * (a.x - p.x)
  }

  /** The cross product the gate test computes: the line's direction vector
      against the vector from the point to the line's SECOND endpoint. */
  function GateProduct(line: Line, a: Point): (xp: real)
    ensures xp == -Orientation(line.p1, line.p2, a)
  {
    var v1x := line.p2.x - line.p1.x;
    var v1y := line.p2.y - line.p1.y;
    var v2x := line.p2.x - a.x;
    var v2y := line.p2.y - a.y;
    v1x * v2y - v1y * v2x
  }

  /** The gate test. It reads only the first point (the caller passes the
      previous centre there); the second point never affects the answer. */
  function CrossLine(line: Line, pointA: Point, pointB: Point): (isCross: bool)
    ensures isCross <==> Orientation(line.p1, line.p2, pointA) > 0.0
  {
    GateProduct(line, pointA) < 0.0
  }

  /** The immutable pair of gates configured once for a session. */
  datatype TrackingArea = TrackingArea(startLine: Line, endLine: Line)
  {
    function CrossStartLine(lastPoint: Point, currentPoint: Point): (r: bool)
      ensures r <==> Orientation(startLine.p1, startLine.p2, lastPoint) > 0.0
    {
      CrossLine(startLine, lastPoint, currentPoint)
    }

    function CrossEndLine(lastPoint: Point, currentPoint: Point): (r: bool)
      ensures r <==> Orientation(endLine.p1, endLine.p2, lastPoint) > 0.0
    {
      CrossLine(endLine, lastPoint, currentPoint)
    }
  }

  /** Swapping a line's endpoints negates the gate product. */
  lemma SwapNegatesProduct(line: Line, a: Point)
    ensures GateProduct(line.Swapped(), a) == -GateProduct(line, a)
  {
    var p, q := line.p1, line.p2;
    calc {
      Orientation(q, p, a);
      (p.x - q.x) * (a.y - q.y) - (p.y - q.y) * (a.x - q.x);
      { assert (p.x - q.x) * (a.y - q.y) == (p.x - q.x) * (a.y - p.y) + (p.x - q.x) * (p.y - q.y);
        assert (p.y - q.y) * (a.x - q.x) == (p.y - q.y) * (a.x - p.x) + (p.y - q.y) * (p.x - q.x); }
      (p.x - q.x) * (a.y - p.y) - (p.y - q.y) * (a.x - p.x);
      { assert (p.x - q.x) * (a.y - p.y) == -((q.x - p.x) * (a.y - p.y));
        assert (p.y - q.y) * (a.x - p.x) == -((q.y - p.y) * (a.x - p.x)); }
      -Orientation(p, q, a);
    }
  }

  /** A point strictly off the line's supporting line counts as crossed for
      exactly one of the two orientations of the line; a point on it is
      crossed for neither. */
  lemma ExactlyOneOrientationCrosses(line: Line, a: Point, b: Point)
    ensures Orientation(line.p1, line.p2, a) != 0.0 ==>
              CrossLine(line, a, b) != CrossLine(line.Swapped(), a, b)
    ensures Orientation(line.p1, line.p2, a) == 0.0 ==>
              !CrossLine(line, a, b) && !CrossLine(line.Swapped(), a, b)
  {
    SwapNegatesProduct(line, a);
  }

  /** The point of the line at parameter t (t = 0 is p1, t = 1 is p2). */
  function At(line: Line, t: real): Point
  {
    Point(line.p1.x + t * (line.p2.x - line.p1.x), line.p1.y + t * (line.p2.y - line.p1.y))
  }

  /** Re-parameterising the gate by two other points of the same line scales
      the gate product by the parameter difference: the same direction
      (s < t) keeps the side, the opposite direction flips it. */
  lemma ReparameterisedProduct(line: Line, s: real, t: real, a: Point)
    ensures GateProduct(Line(At(line, s), At(line, t)), a) == (t - s) * GateProduct(line, a)
  {
    var p, q := line.p1, line.p2;
    var dx, dy := q.x - p.x, q.y - p.y;
    var ax, ay := a.x - p.x, a.y - p.y;
    var u := At(line, s);
    assert Orientation(u, At(line, t), a) == (t - s) * dx * (ay - s * dy) - (t - s) * dy * (ax - s * dx);
    assert (t - s) * dx * (ay - s * dy) - (t - s) * dy * (ax - s * dx) == (t - s) * (dx * ay - dy * ax);
  }

  lemma SameDirectionKeepsSide(line: Line, s: real, t: real, a: Point, b: Point)
    requires s < t
    ensures CrossLine(Line(At(line, s), At(line, t)), a, b) == CrossLine(line, a, b)
  {
    ReparameterisedProduct(line, s, t, a);
    var g := GateProduct(line, a);
    if g < 0.0 { assert (t - s) * g < 0.0; }
    else { assert (t - s) * g >= 0.0; }
  }
}
