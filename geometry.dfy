/** Plane geometry of the robot: orientation, segment intersection, distances and rotation. */
module Geometry {
  import opened Wrappers
  import opened Utils
  import opened Numeric

  /** Twice the signed area of the triangle abc: positive when a, b, c turn counter-clockwise. */
  function Orient(a: Point, b: Point, c: Point): real {
    (b.x - a.x) * (c.y - a.y) - (b.y - a.y) * (c.x - a.x)
  }

  /** `ccw`: the strict comparison `(cy - ay) * (bx - ax) > (by - ay) * (cx - ax)`. */
  predicate Ccw(a: Point, b: Point, c: Point) {
    (c.y - a.y) * (b.x - a.x) > (b.y - a.y) * (c.x - a.x)
  }

  lemma CcwIsPositiveOrientation(a: Point, b: Point, c: Point)
    ensures Ccw(a, b, c) <==> Orient(a, b, c) > 0.0
  {}

  /** Orientation does not change when the triangle's corners are rotated. */
  lemma OrientCyclic(a: Point, b: Point, c: Point)
    ensures Orient(a, b, c) == Orient(b, c, a) == Orient(c, a, b)
  {
    assert (b.x - a.x) * (c.y - a.y) - (b.y - a.y) * (c.x - a.x)
        == b.x * c.y - b.x * a.y - a.x * c.y - b.y * c.x + b.y * a.x + a.y * c.x;
    assert (c.x - b.x) * (a.y - b.y) - (c.y - b.y) * (a.x - b.x)
        == c.x * a.y - c.x * b.y - b.x * a.y - c.y * a.x + c.y * b.x + b.y * a.x;
    assert (a.x - c.x) * (b.y - c.y) - (a.y - c.y) * (b.x - c.x)
        == a.x * b.y - a.x * c.y - c.x * b.y - a.y * b.x + a.y * c.x + c.y * b.x;
  }

  /** `intersect`: segments AB and CD intersect when A and B fall on different sides of CD and
      C and D fall on different sides of AB, sides being told apart by `Ccw`. */
  predicate Intersect(a: Point, b: Point, c: Point, d: Point) {
    Ccw(a, c, d) != Ccw(b, c, d) && Ccw(a, b, c) != Ccw(a, b, d)
  }

  /** The test does not depend on which segment is named first. */
  lemma IntersectSymmetric(a: Point, b: Point, c: Point, d: Point)
    ensures Intersect(a, b, c, d) == Intersect(c, d, a, b)
  {
    OrientCyclic(a, c, d);
    OrientCyclic(b, c, d);
    OrientCyclic(a, b, c);
    OrientCyclic(a, b, d);
    CcwIsPositiveOrientation(a, c, d);
    CcwIsPositiveOrientation(c, d, a);
    CcwIsPositiveOrientation(b, c, d);
    CcwIsPositiveOrientation(c, d, b);
    CcwIsPositiveOrientation(a, b, c);
    CcwIsPositiveOrientation(c, a, b);
    CcwIsPositiveOrientation(a, b, d);
    CcwIsPositiveOrientation(d, a, b);
  }

  /** When C and D lie strictly on the same side of line AB the segments do not intersect. */
  lemma SameSideNoIntersect(a: Point, b: Point, c: Point, d: Point)
    requires Orient(a, b, c) * Orient(a, b, d) > 0.0
    ensures !Intersect(a, b, c, d)
  {
    CcwIsPositiveOrientation(a, b, c);
    CcwIsPositiveOrientation(a, b, d);
    SameSigns(Orient(a, b, c), Orient(a, b, d));
  }

  /** Segments that properly cross (each strictly straddles the other's line) intersect. */
  lemma ProperCrossingIntersects(a: Point, b: Point, c: Point, d: Point)
    requires Orient(c, d, a) * Orient(c, d, b) < 0.0
    requires Orient(a, b, c) * Orient(a, b, d) < 0.0
    ensures Intersect(a, b, c, d)
  {
    OrientCyclic(a, c, d);
    OrientCyclic(b, c, d);
    CcwIsPositiveOrientation(a, c, d);
    CcwIsPositiveOrientation(b, c, d);
    CcwIsPositiveOrientation(a, b, c);
    CcwIsPositiveOrientation(a, b, d);
    OppositeSigns(Orient(c, d, a), Orient(c, d, b));
    OppositeSigns(Orient(a, b, c), Orient(a, b, d));
  }

  lemma OppositeSigns(u: real, v: real)
    requires u * v < 0.0
    ensures (u > 0.0 && v < 0.0) || (u < 0.0 && v > 0.0)
  {
  }

  lemma SameSigns(u: real, v: real)
    requires u * v > 0.0
    ensures (u > 0.0 && v > 0.0) || (u < 0.0 && v < 0.0)
  {
  }

  /** The line through two points as `a * x + b * y == k`. */
  datatype LineEq = LineEq(a: real, b: real, k: real)

  predicate OnLine(q: Point, l: LineEq) {
    l.a * q.x + l.b * q.y == l.k
  }

  /** `coefs`: the coefficients `[A, B, -C]` of the line through p1 and p2. */
  function Coefs(p1: Point, p2: Point): (l: LineEq)
    ensures OnLine(p1, l) && OnLine(p2, l)
    ensures l.a == 0.0 && l.b == 0.0 <==> p1 == p2
  {
    var A := p1.y - p2.y;
    var B := p2.x - p1.x;
    var C := p1.x * p2.y - p2.x * p1.y;
    LineEq(A, B, -C)
  }

  /** The determinant `A1 * B2 - B1 * A2` of two line equations. */
  function Det(l1: LineEq, l2: LineEq): real {
    l1.a * l2.b - l1.b * l2.a
  }

  /** `intersect_coefs`: Cramer's rule; no point when the determinant is zero. */
  function IntersectCoefs(l1: LineEq, l2: LineEq): (r: Option<Point>)
    ensures r.None? <==> Det(l1, l2) == 0.0
    ensures r.Some? ==> OnLine(r.value, l1) && OnLine(r.value, l2)
  {
    var D := Det(l1, l2);
    if D != 0.0 then
      var x := (l1.k * l2.b - l1.b * l2.k) / D;
      var y := (l1.a * l2.k - l1.k * l2.a) / D;
      CramerSolves(l1, l2, x, y);
      Some(Point(x, y))
    else
      None
  }

  /** The point found is the only one on both lines. */
  lemma IntersectCoefsUnique(l1: LineEq, l2: LineEq, q: Point)
    requires IntersectCoefs(l1, l2).Some?
    requires OnLine(q, l1) && OnLine(q, l2)
    ensures q == IntersectCoefs(l1, l2).value
  {
    var D := Det(l1, l2);
    CramerSolves(l1, l2, (l1.k * l2.b - l1.b * l2.k) / D, (l1.a * l2.k - l1.k * l2.a) / D);
  }

  lemma CramerSolves(l1: LineEq, l2: LineEq, x: real, y: real)
    requires Det(l1, l2) != 0.0
    requires x == (l1.k * l2.b - l1.b * l2.k) / Det(l1, l2)
    requires y == (l1.a * l2.k - l1.k * l2.a) / Det(l1, l2)
    ensures OnLine(Point(x, y), l1) && OnLine(Point(x, y), l2)
    ensures forall q :: OnLine(q, l1) && OnLine(q, l2) ==> q == Point(x, y)
  {
    var D := Det(l1, l2);
    assert x * D == l1.k * l2.b - l1.b * l2.k;
    assert y * D == l1.a * l2.k - l1.k * l2.a;
    assert (l1.a * x + l1.b * y) * D == l1.k * D by {
      calc {
        (l1.a * x + l1.b * y) * D;
        l1.a * (x * D) + l1.b * (y * D);
        l1.a * (l1.k * l2.b - l1.b * l2.k) + l1.b * (l1.a * l2.k - l1.k * l2.a);
        l1.k * D;
      }
    }
    assert (l2.a * x + l2.b * y) * D == l2.k * D by {
      calc {
        (l2.a * x + l2.b * y) * D;
        l2.a * (x * D) + l2.b * (y * D);
        l2.a * (l1.k * l2.b - l1.b * l2.k) + l2.b * (l1.a * l2.k - l1.k * l2.a);
        l2.k * D;
      }
    }
    forall q | OnLine(q, l1) && OnLine(q, l2)
      ensures q == Point(x, y)
    {
      assert q.x * D == l1.k * l2.b - l1.b * l2.k by {
        calc {
          q.x * D;
          (l1.a * q.x) * l2.b - l1.b * (l2.a * q.x);
          (l1.k - l1.b * q.y) * l2.b - l1.b * (l2.k - l2.b * q.y);
          l1.k * l2.b - l1.b * l2.k;
        }
      }
      assert q.y * D == l1.a * l2.k - l1.k * l2.a by {
        calc {
          q.y * D;
          l1.a * (l2.b * q.y) - (l1.b * q.y) * l2.a;
          l1.a * (l2.k - l2.a * q.x) - (l1.k - l1.a * q.x) * l2.a;
          l1.a * l2.k - l1.k * l2.a;
        }
      }
      DivideOut(q.x, x, D);
      DivideOut(q.y, y, D);
    }
  }

  lemma DivideOut(u: real, v: real, d: real)
    requires d != 0.0 && u * d == v * d
    ensures u == v
  {
    assert (u - v) * d == 0.0;
  }

  /** The two segments' directions are parallel (or one segment is a single point). */
  predicate Parallel(p1: Point, p2: Point, p3: Point, p4: Point) {
    (p2.x - p1.x) * (p4.y - p3.y) - (p2.y - p1.y) * (p4.x - p3.x) == 0.0
  }

  /** The slack added on every side of a segment's bounding box. */
  const Slack: real := 0.1

  /** q lies in the bounding box of p1 p2 widened by `Slack` on every side. */
  predicate InWidenedBox(q: Point, p1: Point, p2: Point) {
    Min(p1.x, p2.x) - Slack <= q.x <= Max(p1.x, p2.x) + Slack &&
    Min(p1.y, p2.y) - Slack <= q.y <= Max(p1.y, p2.y) + Slack
  }

  /** `intersect_hit`: the crossing point of the lines through the two segments, kept only
      when it lies in both segments' widened bounding boxes. */
  function IntersectHit(p1: Point, p2: Point, p3: Point, p4: Point): (r: Option<Point>)
    ensures r.Some? ==> OnLine(r.value, Coefs(p1, p2)) && OnLine(r.value, Coefs(p3, p4))
    ensures r.Some? ==> InWidenedBox(r.value, p1, p2) && InWidenedBox(r.value, p3, p4)
    ensures r.Some? ==> !Parallel(p1, p2, p3, p4)
  {
    var L1 := Coefs(p1, p2);
    var L2 := Coefs(p3, p4);
    assert Det(L1, L2) == 0.0 <==> Parallel(p1, p2, p3, p4);
    var xy := IntersectCoefs(L1, L2);
    if xy.Some? && InWidenedBox(xy.value, p1, p2) && InWidenedBox(xy.value, p3, p4) then xy
    else None
  }

  /** No point is missed: when there is no hit, either the segments are parallel or no point
      common to both lines lies in both widened boxes. */
  lemma IntersectHitMisses(p1: Point, p2: Point, p3: Point, p4: Point, q: Point)
    requires IntersectHit(p1, p2, p3, p4).None?
    requires OnLine(q, Coefs(p1, p2)) && OnLine(q, Coefs(p3, p4))
    ensures Parallel(p1, p2, p3, p4) || !(InWidenedBox(q, p1, p2) && InWidenedBox(q, p3, p4))
  {
    var L1 := Coefs(p1, p2);
    var L2 := Coefs(p3, p4);
    assert Det(L1, L2) == 0.0 <==> Parallel(p1, p2, p3, p4);
    if !Parallel(p1, p2, p3, p4) {
      IntersectCoefsUnique(L1, L2, q);
    }
  }

  /** Parallel segments never give a hit. */
  lemma ParallelNeverHit(p1: Point, p2: Point, p3: Point, p4: Point)
    requires Parallel(p1, p2, p3, p4)
    ensures IntersectHit(p1, p2, p3, p4) == None
  {}

  /** `distance`: the Euclidean distance, through the library square root. */
  function Distance(x1: real, y1: real, x2: real, y2: real, m: Math): (d: real)
    ensures d >= 0.0
  {
    Sqrt((x1 - x2) * (x1 - x2) + (y1 - y2) * (y1 - y2), m)
  }

  /** The distance from the origin to each diagonal neighbour is the same, the square root of two. */
  lemma DiagonalDistances(m: Math)
    ensures Distance(0.0, 0.0, 1.0, 1.0, m) == Sqrt(2.0, m)
    ensures Distance(0.0, 0.0, -1.0, -1.0, m) == Sqrt(2.0, m)
    ensures Distance(0.0, 0.0, -1.0, 1.0, m) == Sqrt(2.0, m)
    ensures Distance(0.0, 0.0, 1.0, -1.0, m) == Sqrt(2.0, m)
  {}

  lemma DistanceSymmetric(x1: real, y1: real, x2: real, y2: real, m: Math)
    ensures Distance(x1, y1, x2, y2, m) == Distance(x2, y2, x1, y1, m)
  {
    assert (x1 - x2) * (x1 - x2) == (x2 - x1) * (x2 - x1);
    assert (y1 - y2) * (y1 - y2) == (y2 - y1) * (y2 - y1);
  }

  /** `rotate_around`: the point at `length` from (x1, y1) in direction `angle`. */
  function RotateAround(x1: real, y1: real, length: real, angle: real, m: Math): Point {
    Point(x1 + length * Cos(-angle, m), y1 - length * Sin(-angle, m))
  }

  /** Each line ends where the next one starts, the last one where the first starts. */
  ghost predicate ClosedLoop(ls: seq<Line>) {
    forall i, j :: 0 <= i < |ls| && 0 <= j < |ls| && j == Following(i, |ls|) ==> ls[i].p2 == ls[j].p1
  }

  /** The index after i in a cycle of n. */
  function Following(i: int, n: int): int {
    if i + 1 == n then 0 else i + 1
  }

  /** The four lines p1-p2, p2-p3, p3-p4, p4-p1 of a quadrilateral. */
  function Loop4(p1: Point, p2: Point, p3: Point, p4: Point): (ls: seq<Line>)
    ensures |ls| == 4 && ClosedLoop(ls)
    ensures ls[0].p1 == p1 && ls[1].p1 == p2 && ls[2].p1 == p3 && ls[3].p1 == p4
  {
    [Line(p1, p2), Line(p2, p3), Line(p3, p4), Line(p4, p1)]
  }
}
