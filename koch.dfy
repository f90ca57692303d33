/**
 * The Koch curve and snowflake of `koch_snowflake`. The 60-degree rotation
 * `rotate60` is the parameter `rot60`: no property below depends on its value.
 */
module Koch {
  import opened Powers
  import opened Geometry

  /** `pA`: the point one third of the way from p1 to p2. */
  function FirstThird(p1: Point, p2: Point): Point
  {
    p1.Plus(p2.Minus(p1).Third())
  }

  /** `pB`: the point two thirds of the way from p1 to p2. */
  function SecondThird(p1: Point, p2: Point): Point
  {
    p1.Plus(p2.Minus(p1).Double().Third())
  }

  /** `pC`: the tip of the bump raised on the middle third. */
  function Apex(p1: Point, p2: Point, rot60: Point -> Point): Point
  {
    FirstThird(p1, p2).Plus(rot60(p2.Minus(p1).Third()))
  }

  /** pA and pB cut the segment from p1 to p2 into three equal parts. */
  lemma EqualThirds(p1: Point, p2: Point)
    ensures FirstThird(p1, p2).Minus(p1) == p2.Minus(p1).Third()
    ensures SecondThird(p1, p2).Minus(FirstThird(p1, p2)) == p2.Minus(p1).Third()
    ensures p2.Minus(SecondThird(p1, p2)) == p2.Minus(p1).Third()
  {
  }

  /**
   * `koch_curve(p1, p2, order)`: the polyline from p1 to p2 subdivided `order`
   * times. Every sub-curve after the first drops its first point, which is the
   * last point of the sub-curve before it, so the polyline has 4^order + 1
   * points and runs from p1 to p2.
   */
  function KochCurve(p1: Point, p2: Point, order: nat, rot60: Point -> Point): (r: seq<Point>)
    ensures |r| == Pow4(order) + 1
    ensures r[0] == p1 && r[|r| - 1] == p2
    decreases order
  {
    if order == 0 then
      [p1, p2]
    else
      var pA := FirstThird(p1, p2);
      var pB := SecondThird(p1, p2);
      var pC := Apex(p1, p2, rot60);
      KochCurve(p1, pA, order - 1, rot60) +
      KochCurve(pA, pC, order - 1, rot60)[1..] +
      KochCurve(pC, pB, order - 1, rot60)[1..] +
      KochCurve(pB, p2, order - 1, rot60)[1..]
  }

  /**
   * The curve of positive order passes through pA, the apex pC and pB at the
   * ends of its first, second and third quarters.
   */
  lemma KochQuarterMarks(p1: Point, p2: Point, order: nat, rot60: Point -> Point)
    requires order > 0
    ensures var r, q := KochCurve(p1, p2, order, rot60), Pow4(order - 1);
            r[q] == FirstThird(p1, p2) && r[2 * q] == Apex(p1, p2, rot60) && r[3 * q] == SecondThird(p1, p2)
  {
    var pA, pB, pC := FirstThird(p1, p2), SecondThird(p1, p2), Apex(p1, p2, rot60);
    var a := KochCurve(p1, pA, order - 1, rot60);
    var b := KochCurve(pA, pC, order - 1, rot60);
    var c := KochCurve(pC, pB, order - 1, rot60);
    var d := KochCurve(pB, p2, order - 1, rot60);
    assert KochCurve(p1, p2, order, rot60) == a + b[1..] + c[1..] + d[1..];
    JointMarks(a, b, c, d, Pow4(order - 1));
  }

  /**
   * Four runs of n + 1 points joined with the first point of each but the
   * first dropped: for n > 0 the last points of the first three runs sit at
   * n, 2n and 3n.
   */
  lemma JointMarks<T>(a: seq<T>, b: seq<T>, c: seq<T>, d: seq<T>, n: nat)
    requires n > 0 && |a| == |b| == |c| == |d| == n + 1
    ensures var r := a + b[1..] + c[1..] + d[1..];
            r[n] == a[n] && r[2 * n] == b[n] && r[3 * n] == c[n]
  {
    var r := a + b[1..] + c[1..] + d[1..];
    assert r[n] == a[n];
    assert r[2 * n] == b[1..][n - 1];
    assert r[3 * n] == c[1..][n - 1];
  }

  /** `p2` of `koch_snowflake`: (scale, 0) turned by 60 degrees about the origin. */
  function ThirdCorner(scale: real, rot60: Point -> Point): Point
  {
    rot60(Point(scale, 0.0).Minus(Point(0.0, 0.0))).Plus(Point(0.0, 0.0))
  }

  /**
   * `koch_snowflake(order, scale)`: the three sides of the triangle (0, 0),
   * (scale, 0), `p2` as Koch curves, each but the last with its final point
   * dropped, appended one after another to `pts`. Each side fills its own
   * 4^order positions (the last side one more), the result is closed (it ends
   * at the origin where it starts) and passes through the triangle's corners
   * at positions 4^order and 2 * 4^order.
   */
  method KochSnowflake(order: nat, scale: real, rot60: Point -> Point) returns (pts: seq<Point>)
    ensures |pts| == 3 * Pow4(order) + 1
    ensures pts[0] == Point(0.0, 0.0) && pts[|pts| - 1] == Point(0.0, 0.0)
    ensures pts[Pow4(order)] == Point(scale, 0.0) && pts[2 * Pow4(order)] == ThirdCorner(scale, rot60)
    ensures pts[..Pow4(order)] == KochCurve(Point(0.0, 0.0), Point(scale, 0.0), order, rot60)[..Pow4(order)]
    ensures pts[Pow4(order)..2 * Pow4(order)] == KochCurve(Point(scale, 0.0), ThirdCorner(scale, rot60), order, rot60)[..Pow4(order)]
    ensures pts[2 * Pow4(order)..] == KochCurve(ThirdCorner(scale, rot60), Point(0.0, 0.0), order, rot60)
    ensures order == 0 ==> pts == [Point(0.0, 0.0), Point(scale, 0.0), ThirdCorner(scale, rot60), Point(0.0, 0.0)]
  {
    var p0 := Point(0.0, 0.0);
    var p1 := Point(scale, 0.0);
    var p2 := rot60(p1.Minus(p0)).Plus(p0);
    var a := KochCurve(p0, p1, order, rot60);
    var b := KochCurve(p1, p2, order, rot60);
    var c := KochCurve(p2, p0, order, rot60);
    pts := a[..|a| - 1];
    pts := pts + b[..|b| - 1];
    pts := pts + c;
    Pieces(a[..|a| - 1], b[..|b| - 1], c);
  }

  /** The three pieces of u + v + w are found back at their own positions. */
  lemma Pieces<T>(u: seq<T>, v: seq<T>, w: seq<T>)
    ensures (u + v + w)[..|u|] == u
    ensures (u + v + w)[|u|..|u| + |v|] == v
    ensures (u + v + w)[|u| + |v|..] == w
  {
  }
}
