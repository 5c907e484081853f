/** The routes drawn for forward edges: which sides they join, their corners, and the label's place
    half way along. */
module Routes {
  import opened Canvas
  import opened Graphs

  const STUB := 22.0

  datatype Side = Top | Bottom | Left | Right

  predicate Horizontal(s: Side) {
    s.Left? || s.Right?
  }

  function Abs(r: real): real {
    if r < 0.0 then -r else r
  }

  function Center(n: Point): Point {
    Point(n.x + NODE_WIDTH / 2.0, n.y + NODE_HEIGHT / 2.0)
  }

  function Anchor(n: Point, s: Side): Point {
    match s
    case Top => Point(n.x + NODE_WIDTH / 2.0, n.y)
    case Bottom => Point(n.x + NODE_WIDTH / 2.0, n.y + NODE_HEIGHT)
    case Left => Point(n.x, n.y + NODE_HEIGHT / 2.0)
    case Right => Point(n.x + NODE_WIDTH, n.y + NODE_HEIGHT / 2.0)
  }

  function Normal(s: Side): Point {
    match s
    case Top => Point(0.0, -1.0)
    case Bottom => Point(0.0, 1.0)
    case Left => Point(-1.0, 0.0)
    case Right => Point(1.0, 0.0)
  }

  /** The sides two nodes face each other with, by the diagonal their centers lie nearer to. */
  function Facing(a: Point, b: Point): (Side, Side) {
    var dx, dy := Center(b).x - Center(a).x, Center(b).y - Center(a).y;
    if Abs(dx) * NODE_HEIGHT >= Abs(dy) * NODE_WIDTH then (if dx >= 0.0 then (Right, Left) else (Left, Right))
    else (if dy >= 0.0 then (Bottom, Top) else (Top, Bottom))
  }

  function Out(p: Point, s: Side): Point {
    Point(p.x + Normal(s).x * STUB, p.y + Normal(s).y * STUB)
  }

  /** The corner points of the route. */
  function OrthoPath(a: Point, b: Point): seq<Point> {
    var (sa, sb) := Facing(a, b);
    var s, t := Anchor(a, sa), Anchor(b, sb);
    var s1, t1 := Out(s, sa), Out(t, sb);
    if Horizontal(sa) && Horizontal(sb) then
      var mx := (s1.x + t1.x) / 2.0;
      [s, s1, Point(mx, s1.y), Point(mx, t1.y), t1, t]
    else if !Horizontal(sa) && !Horizontal(sb) then
      var my := (s1.y + t1.y) / 2.0;
      [s, s1, Point(s1.x, my), Point(t1.x, my), t1, t]
    else
      [s, s1, if Horizontal(sa) then Point(t1.x, s1.y) else Point(s1.x, t1.y), t1, t]
  }

  predicate Aligned(p: Point, q: Point) {
    p.x == q.x || p.y == q.y
  }

  predicate AxisAligned(pts: seq<Point>) {
    forall i :: 0 < i < |pts| ==> Aligned(pts[i - 1], pts[i])
  }

  /** Facing sides are opposite, so the route has six points: it leaves one node and enters the other
      straight on, and runs along the axes all the way. */
  lemma RouteIsOrthogonal(a: Point, b: Point)
    ensures var (sa, sb) := Facing(a, b);
            Horizontal(sa) == Horizontal(sb) && sa != sb && |OrthoPath(a, b)| == 6
    ensures AxisAligned(OrthoPath(a, b))
  {
    var pts := OrthoPath(a, b);
    forall i | 0 < i < |pts|
      ensures Aligned(pts[i - 1], pts[i])
    {
      assert i == 1 || i == 2 || i == 3 || i == 4 || i == 5;
    }
  }

  function Reversed(pts: seq<Point>): (r: seq<Point>)
    ensures |r| == |pts| && forall i :: 0 <= i < |pts| ==> r[i] == pts[|pts| - 1 - i]
  {
    seq(|pts|, i requires 0 <= i < |pts| => pts[|pts| - 1 - i])
  }

  /** The middle of a side of the node at `n`, of the side the point `p` lies beyond by the stub. */
  predicate LeavesStraight(n: Point, s: Point, p: Point) {
    || (s == Point(Center(n).x, n.y) && p == Point(s.x, s.y - STUB))
    || (s == Point(Center(n).x, n.y + NODE_HEIGHT) && p == Point(s.x, s.y + STUB))
    || (s == Point(n.x, Center(n).y) && p == Point(s.x - STUB, s.y))
    || (s == Point(n.x + NODE_WIDTH, Center(n).y) && p == Point(s.x + STUB, s.y))
  }

  /** The route leaves one node from the middle of a side, straight outwards, and enters the other likewise;
      the way back is the same route. The side is the one through which the line from center to center
      leaves the node, and so the one that faces the other node. */
  lemma RouteJoins(a: Point, b: Point)
    ensures var pts := OrthoPath(a, b); LeavesStraight(a, pts[0], pts[1]) && LeavesStraight(b, pts[5], pts[4])
    ensures a != b ==> OrthoPath(b, a) == Reversed(OrthoPath(a, b))
    ensures var (sa, sb) := Facing(a, b);
            && (sa.Right? ==> b.x >= a.x) && (sa.Left? ==> b.x < a.x) && (sa.Bottom? ==> b.y >= a.y) && (sa.Top? ==> b.y < a.y)
            && (Horizontal(sa) <==> Abs(b.y - a.y) * NODE_WIDTH <= Abs(b.x - a.x) * NODE_HEIGHT)
  {
    var p, q := OrthoPath(a, b), OrthoPath(b, a);
    RouteIsOrthogonal(a, b);
    RouteIsOrthogonal(b, a);
    if a != b {
      forall i | 0 <= i < 6
        ensures q[i] == p[5 - i]
      {
        assert i == 0 || i == 1 || i == 2 || i == 3 || i == 4 || i == 5;
      }
    }
  }

  // ---- half way ----

  function Toward(p: Point, q: Point, t: real): Point {
    Point(p.x + (q.x - p.x) * t, p.y + (q.y - p.y) * t)
  }

  /** What the proofs need of the length of a segment: it is nothing from a point to itself and never
      negative, and along a segment it grows in proportion. */
  ghost predicate IsLength(len: (Point, Point) -> real) {
    && (forall p, q :: len(p, q) >= 0.0)
    && (forall p, q, t: real :: 0.0 <= t <= 1.0 ==>
          len(p, Toward(p, q, t)) == len(p, q) * t && len(Toward(p, q, t), q) == len(p, q) * (1.0 - t))
  }

  /** The length of a segment that runs along an axis. */
  function Span(p: Point, q: Point): real {
    Abs(q.x - p.x) + Abs(q.y - p.y)
  }

  lemma Scaled(r: real, t: real)
    requires t >= 0.0
    ensures Abs(r * t) == Abs(r) * t
  {
    if r < 0.0 {
      assert (-r) * t >= 0.0;
    } else {
      assert r * t >= 0.0;
    }
  }

  lemma SpanToward(p: Point, q: Point, t: real)
    requires 0.0 <= t <= 1.0
    ensures Span(p, Toward(p, q, t)) == Span(p, q) * t && Span(Toward(p, q, t), q) == Span(p, q) * (1.0 - t)
  {
    var dx, dy, u := q.x - p.x, q.y - p.y, 1.0 - t;
    Scaled(dx, t);
    Scaled(dy, t);
    Scaled(dx, u);
    Scaled(dy, u);
    var m := Toward(p, q, t);
    assert m.x - p.x == dx * t && m.y - p.y == dy * t;
    assert q.x - m.x == dx * u && q.y - m.y == dy * u;
    assert Span(p, m) == Abs(dx) * t + Abs(dy) * t == (Abs(dx) + Abs(dy)) * t;
    assert Span(m, q) == Abs(dx) * u + Abs(dy) * u == (Abs(dx) + Abs(dy)) * u;
  }

  /** For the routes of forward edges this is the length. */
  lemma SpanIsLength()
    ensures IsLength(Span)
  {
    forall p: Point, q: Point, t: real | 0.0 <= t <= 1.0
      ensures Span(p, Toward(p, q, t)) == Span(p, q) * t && Span(Toward(p, q, t), q) == Span(p, q) * (1.0 - t)
    {
      SpanToward(p, q, t);
    }
  }

  function Length(len: (Point, Point) -> real, pts: seq<Point>): real {
    if |pts| < 2 then 0.0
    else Length(len, pts[..|pts| - 1]) + len(pts[|pts| - 2], pts[|pts| - 1])
  }

  /** `m` lies on the segment from `p` to `q`, `d` along it. */
  ghost predicate On(len: (Point, Point) -> real, p: Point, q: Point, d: real, m: Point) {
    && (exists t: real :: 0.0 <= t <= 1.0 && m == Toward(p, q, t))
    && len(p, m) == d && len(m, q) == len(p, q) - d
  }

  /** `m` lies on the route, `d` along it. */
  ghost predicate Along(len: (Point, Point) -> real, pts: seq<Point>, d: real, m: Point) {
    exists i :: 0 < i < |pts| && On(len, pts[i - 1], pts[i], d - Length(len, pts[..i]), m)
  }

  lemma TowardIsOn(len: (Point, Point) -> real, p: Point, q: Point, d: real)
    requires IsLength(len) && 0.0 <= d <= len(p, q)
    ensures On(len, p, q, d, Toward(p, q, if len(p, q) == 0.0 then 0.0 else d / len(p, q)))
  {
    var t := if len(p, q) == 0.0 then 0.0 else d / len(p, q);
    assert len(p, q) * t == d;
    if len(p, q) != 0.0 {
      assert t >= 0.0 && t <= 1.0;
    }
    assert len(p, q) * (1.0 - t) == len(p, q) - len(p, q) * t;
  }

  lemma LengthNonNegative(len: (Point, Point) -> real, pts: seq<Point>)
    requires IsLength(len)
    ensures Length(len, pts) >= 0.0
  {
  }

  /** The label sits on the route, as far from its start as from its end, whatever its segments. */
  method PointAtMid(len: (Point, Point) -> real, pts: seq<Point>) returns (mid: Point)
    requires pts != [] && IsLength(len)
    ensures if |pts| == 1 then mid == pts[0] else Along(len, pts, Length(len, pts) / 2.0, mid)
  {
    var total := 0.0;
    for i := 1 to |pts|
      invariant total == Length(len, pts[..i])
    {
      assert pts[..i + 1][..i] == pts[..i];
      total := total + len(pts[i - 1], pts[i]);
    }
    assert pts[..|pts|] == pts;
    LengthNonNegative(len, pts);
    mid := pts[|pts| - 1];
    var d := total / 2.0;
    for i := 1 to |pts|
      invariant d == total / 2.0 - Length(len, pts[..i]) && d >= 0.0 && (i > 1 ==> d > 0.0)
    {
      var seg := len(pts[i - 1], pts[i]);
      if d <= seg {
        var t := if seg == 0.0 then 0.0 else d / seg;
        TowardIsOn(len, pts[i - 1], pts[i], d);
        return Toward(pts[i - 1], pts[i], t);
      }
      assert pts[..i + 1][..i] == pts[..i];
      d := d - seg;
    }
    assert |pts| == 1;
  }
}
