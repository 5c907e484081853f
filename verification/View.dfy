/** Panning, zooming and fitting the canvas: a scale, an offset, and the point under the cursor. */
module View {
  import opened Graphs
  import opened Canvas
  import opened Layout

  datatype Lens = Lens(x: real, y: real, k: real)

  const MIN_SCALE := 0.2
  const MAX_SCALE := 2.5
  const FIT_FLOOR := 0.25
  const FIT_CEILING := 1.3
  const FIT_MARGIN := 48.0
  const LOOP_GAP := 26.0

  predicate InRange(v: Lens) {
    MIN_SCALE <= v.k <= MAX_SCALE
  }

  function ToGraph(v: Lens, p: Point): Point
    requires v.k > 0.0
  {
    Point((p.x - v.x) / v.k, (p.y - v.y) / v.k)
  }

  /** What the transform of the drawing does to a point of the graph. */
  function ToScreen(v: Lens, p: Point): Point {
    Point(v.x + p.x * v.k, v.y + p.y * v.k)
  }

  function Clamp(k: real): (c: real)
    ensures MIN_SCALE <= c <= MAX_SCALE && (MIN_SCALE <= k <= MAX_SCALE ==> c == k)
  {
    if k < MIN_SCALE then MIN_SCALE else if k > MAX_SCALE then MAX_SCALE else k
  }

  function Rescale(k: real, factor: real): real {
    Clamp(k * factor)
  }

  /** Zooming by a factor about a point of the screen: the wheel's cursor, or the middle. */
  function Zoom(v: Lens, at: Point, factor: real): Lens
    requires v.k > 0.0
  {
    var nk := Rescale(v.k, factor);
    var kr := nk / v.k;
    Lens(at.x - (at.x - v.x) * kr, at.y - (at.y - v.y) * kr, nk)
  }

  lemma ThereAndBack(v: Lens, p: Point)
    requires v.k > 0.0
    ensures ToGraph(v, ToScreen(v, p)) == p && ToScreen(v, ToGraph(v, p)) == p
  {
  }

  /** The point of the graph under the cursor stays under it, clamped or not. */
  lemma ZoomKeepsPoint(v: Lens, at: Point, factor: real)
    requires v.k > 0.0
    ensures ToGraph(Zoom(v, at, factor), at) == ToGraph(v, at)
  {
  }

  function ZoomAll(v: Lens, at: Point, factors: seq<real>): (u: Lens)
    requires v.k > 0.0
    ensures u.k > 0.0
    decreases |factors|
  {
    if factors == [] then v else ZoomAll(Zoom(v, at, factors[0]), at, factors[1..])
  }

  lemma {:induction false} ZoomAllKeepsPoint(v: Lens, at: Point, factors: seq<real>)
    requires v.k > 0.0
    ensures ToGraph(ZoomAll(v, at, factors), at) == ToGraph(v, at)
    decreases |factors|
  {
    if factors != [] {
      ZoomKeepsPoint(v, at, factors[0]);
      ZoomAllKeepsPoint(Zoom(v, at, factors[0]), at, factors[1..]);
    }
  }

  /** Scaling by a factor and by its inverse restores the scale exactly when the first step was not
      clamped, or started at the bound opposite to the one it hit. */
  lemma RescaleUndone(k: real, factor: real)
    requires MIN_SCALE <= k <= MAX_SCALE && factor > 0.0
    ensures Rescale(Rescale(k, factor), 1.0 / factor) == k <==>
            MIN_SCALE <= k * factor <= MAX_SCALE ||
            (k == MIN_SCALE && k * factor > MAX_SCALE) || (k == MAX_SCALE && k * factor < MIN_SCALE)
  {
    var n := Clamp(k * factor);
    assert n * (1.0 / factor) * factor == n;
  }

  // ---- fitting ----

  function Min(a: real, b: real): real {
    if a <= b then a else b
  }

  /** The scale at which a drawing of `size` fills a window of `window` less its margins. */
  function FitScale(window: Point, size: Point): real
    requires size.x > 0.0 && size.y > 0.0
  {
    Min(Min((window.x - FIT_MARGIN * 2.0) / size.x, (window.y - FIT_MARGIN * 2.0) / size.y), FIT_CEILING)
  }

  /** A scale of nothing counts as one, and none goes below the floor. */
  function Fit(window: Point, size: Point): (v: Lens)
    requires size.x > 0.0 && size.y > 0.0
    ensures InRange(v) && FIT_FLOOR <= v.k <= FIT_CEILING
  {
    var wanted := FitScale(window, size);
    var k := if wanted == 0.0 then 1.0 else if wanted < FIT_FLOOR then FIT_FLOOR else wanted;
    Lens((window.x - size.x * k) / 2.0, (window.y - size.y * k) / 2.0, k)
  }

  predicate InsideMargins(window: Point, p: Point) {
    FIT_MARGIN <= p.x <= window.x - FIT_MARGIN && FIT_MARGIN <= p.y <= window.y - FIT_MARGIN
  }

  /** How far the drawing may stick out of the fitted area, on each side, and still be inside the
      margins: less than nothing along an axis the floor has cut. */
  function Slack(window: Point, size: Point): Point
    requires size.x > 0.0 && size.y > 0.0
  {
    var k := Fit(window, size).k;
    Point(((window.x - FIT_MARGIN * 2.0) / k - size.x) / 2.0, ((window.y - FIT_MARGIN * 2.0) / k - size.y) / 2.0)
  }

  lemma Quotient(a: real, b: real, k: real)
    requires b > 0.0
    ensures k <= a / b <==> b * k <= a
  {
    assert a / b * b == a;
    if k <= a / b {
      assert (a / b - k) * b >= 0.0;
    } else {
      assert (k - a / b) * b > 0.0;
    }
  }

  lemma QuotientBelow(a: real, b: real, k: real)
    requires b > 0.0
    ensures a / b <= k <==> a <= b * k
  {
    assert a / b * b == a;
    if a / b <= k {
      assert (k - a / b) * b >= 0.0;
    } else {
      assert (a / b - k) * b > 0.0;
    }
  }

  /** One axis of the screen: a coordinate is inside the margins exactly within the slack. */
  lemma AxisShown(window: real, size: real, k: real, p: real)
    requires k > 0.0
    ensures var v, slack := (window - size * k) / 2.0, ((window - FIT_MARGIN * 2.0) / k - size) / 2.0;
            && (FIT_MARGIN <= v + p * k <==> -slack <= p)
            && (v + p * k <= window - FIT_MARGIN <==> p <= size + slack)
  {
    Quotient(window - FIT_MARGIN * 2.0, k, size - p * 2.0);
    QuotientBelow(window - FIT_MARGIN * 2.0, k, size - p * 2.0);
    Quotient(window - FIT_MARGIN * 2.0, k, p * 2.0 - size);
    assert k * (size - p * 2.0) == size * k - p * k * 2.0;
    assert k * (p * 2.0 - size) == p * k * 2.0 - size * k;
  }

  lemma PointShown(window: Point, size: Point, p: Point)
    requires size.x > 0.0 && size.y > 0.0
    ensures var slack := Slack(window, size);
            InsideMargins(window, ToScreen(Fit(window, size), p)) <==>
            -slack.x <= p.x <= size.x + slack.x && -slack.y <= p.y <= size.y + slack.y
  {
    AxisShown(window.x, size.x, Fit(window, size).k, p.x);
    AxisShown(window.y, size.y, Fit(window, size).k, p.y);
  }

  /** The whole fitted area is inside the margins exactly when the scale it asks for is not below the
      floor; below the ceiling it then fills the window along some axis. */
  lemma AreaShown(window: Point, size: Point)
    requires size.x > 0.0 && size.y > 0.0
    ensures var slack := Slack(window, size);
            && (slack.x >= 0.0 && slack.y >= 0.0 <==> FitScale(window, size) >= FIT_FLOOR)
            && (FIT_FLOOR <= FitScale(window, size) < FIT_CEILING ==> slack.x == 0.0 || slack.y == 0.0)
  {
    var k := Fit(window, size).k;
    var w, h := window.x - FIT_MARGIN * 2.0, window.y - FIT_MARGIN * 2.0;
    Quotient(w, size.x, k);
    Quotient(h, size.y, k);
    Quotient(w, k, size.x);
    Quotient(h, k, size.y);
    QuotientBelow(w, size.x, k);
    QuotientBelow(h, size.y, k);
    QuotientBelow(w, k, size.x);
    QuotientBelow(h, k, size.y);
    assert size.x * k == k * size.x && size.y * k == k * size.y;
  }

  // ---- the area fitted ----

  /** The right edge of the rightmost node, or of a node at the origin. */
  function FarX(places: seq<Point>): (m: real)
    ensures m >= NODE_WIDTH && forall p <- places :: p.x + NODE_WIDTH <= m
  {
    if places == [] then NODE_WIDTH
    else
      var rest, last := FarX(places[..|places| - 1]), places[|places| - 1].x + NODE_WIDTH;
      if last > rest then last else rest
  }

  /** The lower edge of the lowest node, or of a node at the origin. */
  function FarY(places: seq<Point>): (m: real)
    ensures m >= NODE_HEIGHT && forall p <- places :: p.y + NODE_HEIGHT <= m
  {
    if places == [] then NODE_HEIGHT
    else
      var rest, last := FarY(places[..|places| - 1]), places[|places| - 1].y + NODE_HEIGHT;
      if last > rest then last else rest
  }

  /** Neither edge is further out than it has to be. */
  lemma {:induction false} FarIsTight(places: seq<Point>)
    ensures FarX(places) == NODE_WIDTH || exists p :: p in places && FarX(places) == p.x + NODE_WIDTH
    ensures FarY(places) == NODE_HEIGHT || exists p :: p in places && FarY(places) == p.y + NODE_HEIGHT
  {
    if places != [] {
      FarIsTight(places[..|places| - 1]);
      assert places[|places| - 1] in places;
    }
  }

  /** The room the loop edges take, each in a channel of its own. */
  function Channels(loops: nat): real {
    if loops > 0 then 16.0 + loops as real * LOOP_GAP + 8.0 else 0.0
  }

  /** The area fitted reaches from the origin around the nodes and, beside them, the loop edges. */
  function Bounds(places: seq<Point>, loops: nat, across: bool): (size: Point)
    ensures size.x > 0.0 && size.y > 0.0
  {
    var room := Channels(loops);
    Point(FarX(places) + PAD + (if across then 0.0 else room), FarY(places) + PAD + (if across then room else 0.0))
  }

  /** The corners of the `i`th loop edge, from a node at `a` around all nodes to one at `b`. */
  function LoopRoute(places: seq<Point>, a: Point, b: Point, i: nat, across: bool): seq<Point> {
    var off := 16.0 + i as real * LOOP_GAP;
    if across then
      var sx, tx, far := a.x + NODE_WIDTH / 2.0, b.x + NODE_WIDTH / 2.0, FarY(places) + off;
      [Point(sx, a.y + NODE_HEIGHT), Point(sx, far), Point(tx, far), Point(tx, b.y + NODE_HEIGHT)]
    else
      var sy, ty, far := a.y + NODE_HEIGHT / 2.0, b.y + NODE_HEIGHT / 2.0, FarX(places) + off;
      [Point(a.x + NODE_WIDTH, sy), Point(far, sy), Point(far, ty), Point(b.x + NODE_WIDTH, ty)]
  }

  /** Both extreme corners of the node at `p` are inside the margins. */
  predicate NodeShown(window: Point, v: Lens, p: Point) {
    && InsideMargins(window, ToScreen(v, p))
    && InsideMargins(window, ToScreen(v, Point(p.x + NODE_WIDTH, p.y + NODE_HEIGHT)))
  }

  /** The node at `p` keeps within the area but for the slack. */
  predicate WithinSlack(slack: Point, size: Point, p: Point) {
    && -slack.x <= p.x && p.x + NODE_WIDTH <= size.x + slack.x
    && -slack.y <= p.y && p.y + NODE_HEIGHT <= size.y + slack.y
  }

  /** Fitting shows exactly the nodes that keep within the slack. When the scale asked for is not below
      the floor, these are the nodes not too far to the left or above; so a drawing without negative
      coordinates is then shown whole. */
  lemma FitShowsAll(window: Point, places: seq<Point>, loops: nat, across: bool, p: Point)
    requires p in places
    ensures var size := Bounds(places, loops, across);
            var slack := Slack(window, size);
            var shown := NodeShown(window, Fit(window, size), p);
            && (shown <==> WithinSlack(slack, size, p))
            && (FitScale(window, size) >= FIT_FLOOR ==> (shown <==> p.x >= -slack.x && p.y >= -slack.y))
            && (FitScale(window, size) >= FIT_FLOOR && p.x >= 0.0 && p.y >= 0.0 ==> shown)
  {
    var size := Bounds(places, loops, across);
    PointShown(window, size, p);
    PointShown(window, size, Point(p.x + NODE_WIDTH, p.y + NODE_HEIGHT));
    AreaShown(window, size);
  }

  /** The same of the loop edges: between nodes without negative coordinates they are shown. */
  lemma FitShowsLoops(window: Point, places: seq<Point>, loops: nat, across: bool, a: Point, b: Point, i: nat, c: Point)
    requires a in places && b in places && i < loops && c in LoopRoute(places, a, b, i, across)
    requires a.x >= 0.0 && a.y >= 0.0 && b.x >= 0.0 && b.y >= 0.0
    requires FitScale(window, Bounds(places, loops, across)) >= FIT_FLOOR
    ensures InsideMargins(window, ToScreen(Fit(window, Bounds(places, loops, across)), c))
  {
    var size := Bounds(places, loops, across);
    assert i as real * LOOP_GAP <= loops as real * LOOP_GAP;
    AreaShown(window, size);
    PointShown(window, size, c);
  }

  // ---- the engine's view ----

  class Viewport {
    var x: real
    var y: real
    var k: real

    function State(): Lens
      reads this
    {
      Lens(x, y, k)
    }

    ghost predicate Valid()
      reads this
    {
      InRange(State())
    }

    constructor ()
      ensures Valid() && State() == Lens(60.0, 60.0, 1.0)
    {
      x, y, k := 60.0, 60.0, 1.0;
    }

    method Wheel(at: Point, factor: real)
      requires Valid()
      modifies this
      ensures Valid() && State() == Zoom(old(State()), at, factor)
      ensures ToGraph(State(), at) == old(ToGraph(State(), at))
    {
      ZoomKeepsPoint(State(), at, factor);
      var nk := Rescale(k, factor);
      var kr := nk / k;
      x := at.x - (at.x - x) * kr;
      y := at.y - (at.y - y) * kr;
      k := nk;
    }

    /** About the middle of the window. */
    method ZoomBy(window: Point, factor: real)
      requires Valid()
      modifies this
      ensures Valid() && State() == Zoom(old(State()), Point(window.x / 2.0, window.y / 2.0), factor)
    {
      Wheel(Point(window.x / 2.0, window.y / 2.0), factor);
    }

    /** A drag of the background: the point grabbed follows the pointer. */
    method Pan(grabbed: Point, pointer: Point)
      requires Valid()
      modifies this
      ensures Valid() && k == old(k) && ToGraph(State(), pointer) == old(ToGraph(State(), grabbed))
    {
      x := x + (pointer.x - grabbed.x);
      y := y + (pointer.y - grabbed.y);
    }

    /** The area is computed anew from where the nodes stand. */
    method FitTo(window: Point, places: seq<Point>, loops: nat, across: bool)
      requires Valid()
      modifies this
      ensures Valid() && State() == Fit(window, Bounds(places, loops, across))
    {
      var size := Bounds(places, loops, across);
      var wanted := FitScale(window, size);
      k := if wanted == 0.0 then 1.0 else wanted;
      if k < FIT_FLOOR {
        k := FIT_FLOOR;
      }
      x := (window.x - size.x * k) / 2.0;
      y := (window.y - size.y * k) / 2.0;
    }
  }
}
