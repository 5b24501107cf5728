/** components/physics-hill-chart.tsx: the chart shown once a project has
    two dots. Each dot is placed on a V drawn as a three-point polyline. */
module PhysicsHillChart {
  import Geometry

  datatype Point = Point(x: real, y: real)

  function Abs(v: real): (r: real)
    ensures r >= 0.0 && (r == v || r == -v)
  {
    if v < 0.0 then -v else v
  }

  /** `calculatePosition(x, width, height)`: `posX = x * width` and
      `posY = 0.8 h - |x - 0.5| * 1.2 h`. */
  function CalculatePosition(x: real, width: real, height: real): (p: Point)
    ensures p.x == x * width
  {
    Point(x * width, height * 0.8 - Abs(x - 0.5) * height * 1.2)
  }

  /** The `d` attribute of the V: (0, 0.2 h), (w / 2, 0.8 h), (w, 0.2 h). */
  function Polyline(width: real, height: real): (pts: seq<Point>)
    ensures |pts| == 3
  {
    [Point(0.0, height * 0.2), Point(width / 2.0, height * 0.8), Point(width, height * 0.2)]
  }

  /** `p` lies on the segment from `a` to `b`: collinear with them and
      between them horizontally. */
  predicate OnSegment(a: Point, b: Point, p: Point)
  {
    (b.x - a.x) * (p.y - a.y) == (b.y - a.y) * (p.x - a.x)
    && (a.x <= p.x <= b.x || b.x <= p.x <= a.x)
  }

  predicate OnPolyline(pts: seq<Point>, p: Point)
  {
    exists k :: 0 <= k < |pts| - 1 && OnSegment(pts[k], pts[k + 1], p)
  }

  /** For progress in [0, 1] the dot is drawn inside the chart's width. */
  lemma PosXInWidth(x: real, width: real, height: real)
    requires 0.0 <= x <= 1.0 && width >= 0.0
    ensures 0.0 <= CalculatePosition(x, width, height).x <= width
  {
    Geometry.ScaleWithin(x, width);
    assert CalculatePosition(x, width, height).x == x * width;
  }

  /** For progress in [0, 1] and a non-negative height the dot is drawn
      between 20% and 80% of the height. */
  lemma PosYInRange(x: real, width: real, height: real)
    requires 0.0 <= x <= 1.0 && height >= 0.0
    ensures 0.2 * height <= CalculatePosition(x, width, height).y <= 0.8 * height
  {
    var a := Abs(x - 0.5);
    assert 0.0 <= a <= 0.5;
    Geometry.MulNonNegative(0.5 - a, height);
    Geometry.MulNonNegative(a, height);
    assert CalculatePosition(x, width, height).y == height * 0.8 - (a * height) * 1.2;
  }

  /** Progress `x` and `1 - x` are drawn at the same height. */
  lemma PosYSymmetric(x: real, width: real, height: real)
    ensures CalculatePosition(x, width, height).y == CalculatePosition(1.0 - x, width, height).y
  {
    assert Abs(x - 0.5) == Abs((1.0 - x) - 0.5);
  }

  /** On the left half `posY` grows with progress, on the right half it
      shrinks (for a non-negative height). */
  lemma PosYMonotone(x1: real, x2: real, width: real, height: real)
    requires x1 <= x2 && height >= 0.0
    ensures x2 <= 0.5 ==> CalculatePosition(x1, width, height).y <= CalculatePosition(x2, width, height).y
    ensures 0.5 <= x1 ==> CalculatePosition(x1, width, height).y >= CalculatePosition(x2, width, height).y
  {
    Geometry.MulNonNegative(x2 - x1, height);
    assert CalculatePosition(x1, width, height).y == height * 0.8 - Abs(x1 - 0.5) * height * 1.2;
    assert CalculatePosition(x2, width, height).y == height * 0.8 - Abs(x2 - 0.5) * height * 1.2;
    if x2 <= 0.5 {
      assert Abs(x1 - 0.5) * height - Abs(x2 - 0.5) * height == (x2 - x1) * height;
    }
    if 0.5 <= x1 {
      assert Abs(x2 - 0.5) * height - Abs(x1 - 0.5) * height == (x2 - x1) * height;
    }
  }

  /** The ends and the middle of the progress range land on the V's
      vertices. */
  lemma VerticesHit(width: real, height: real)
    ensures CalculatePosition(0.0, width, height) == Polyline(width, height)[0]
    ensures CalculatePosition(0.5, width, height) == Polyline(width, height)[1]
    ensures CalculatePosition(1.0, width, height) == Polyline(width, height)[2]
  {
  }

  /** Every dot with progress in [0, 1] lies on the drawn V. */
  lemma OnDrawnV(x: real, width: real, height: real)
    requires 0.0 <= x <= 1.0 && width >= 0.0
    ensures OnPolyline(Polyline(width, height), CalculatePosition(x, width, height))
  {
    var pts := Polyline(width, height);
    var p := CalculatePosition(x, width, height);
    PosXInWidth(x, width, height);
    assert p.x == x * width && 0.0 <= p.x <= width;
    assert pts[0].x == 0.0 && pts[1].x == width / 2.0 && pts[2].x == width;
    if x <= 0.5 {
      assert p.y - pts[0].y == (x * height) * 1.2;
      assert (pts[1].x - pts[0].x) * (p.y - pts[0].y) == (width / 2.0) * (x * height) * 1.2;
      assert (pts[1].y - pts[0].y) * (p.x - pts[0].x) == (height * 0.6) * (x * width);
      assert (width / 2.0) * (x * height) * 1.2 == (height * 0.6) * (x * width);
      assert x * width <= 0.5 * width by { Geometry.MulNonNegative(0.5 - x, width); }
      assert OnSegment(pts[0], pts[1], p);
    } else {
      assert p.y - pts[1].y == -((x - 0.5) * height) * 1.2;
      assert (pts[2].x - pts[1].x) * (p.y - pts[1].y) == (width / 2.0) * (-((x - 0.5) * height) * 1.2);
      assert (pts[2].y - pts[1].y) * (p.x - pts[1].x) == (-(height * 0.6)) * (x * width - width / 2.0);
      assert (width / 2.0) * (-((x - 0.5) * height) * 1.2) == (-(height * 0.6)) * (x * width - width / 2.0);
      assert 0.5 * width <= x * width by { Geometry.MulNonNegative(x - 0.5, width); }
      assert OnSegment(pts[1], pts[2], p);
    }
  }
}
