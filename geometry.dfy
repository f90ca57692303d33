/** Points and segments of the plane, with the vector arithmetic numpy performs on them. */
module Geometry {

  /** A point (or a 2-vector) with real coordinates; floating point is modelled by exact reals. */
  datatype Point = Point(x: real, y: real)
  {
    function Plus(o: Point): Point { Point(x + o.x, y + o.y) }
    function Minus(o: Point): Point { Point(x - o.x, y - o.y) }
    /** `v * 2` */
    function Double(): Point { Point(x * 2.0, y * 2.0) }
    /** `v / 3` */
    function Third(): Point { Point(x / 3.0, y / 3.0) }
  }

  /** A line segment from `start` to `end`, as the tree generator records it. */
  datatype Segment = Segment(start: Point, end: Point)

  function Sq(a: real): real { a * a }

  /** The squared Euclidean length of a segment. */
  function SqLength(s: Segment): real
  {
    Sq(s.end.x - s.start.x) + Sq(s.end.y - s.start.y)
  }

  /**
   * `np.pi` as the shortest decimal that reads back as that double. The
   * double's own value, 3.141592653589793115997963..., differs from it in
   * the seventeenth digit.
   */
  const Pi: real := 3.141592653589793
}
