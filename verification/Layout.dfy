/** The placement of nodes. */
module Layout {
  // The ranked nodes in layers, swept, and given exact coordinates.

  import opened Graphs
  import opened DepthFirst
  import opened Ranks
  import opened Canvas
  import opened Sweeps

  const GAP_X := 84.0
  const GAP_Y := 44.0
  const PAD := 48.0

  // ---- one slot per node ----

  /** Every node seen so far sits once in the layer of its rank, and nothing else sits anywhere. */
  ghost predicate Layered(seen: set<Id>, rank: map<Id, nat>, layers: Layers) {
    && (forall v :: v in seen ==> v in rank && rank[v] < |layers|)
    && (forall r, v {:trigger multiset(layers[r])[v]} :: 0 <= r < |layers| ==>
          multiset(layers[r])[v] == if v in seen && rank[v] == r then 1 else 0)
  }

  lemma CountOf(s: seq<Id>, i: nat)
    requires i < |s|
    ensures multiset(s)[s[i]] >= 1
  {
    assert s[i] in s;
  }

  /** Each slot belongs to the layer of its node's rank, and a node has only one. */
  lemma SlotUnique(seen: set<Id>, rank: map<Id, nat>, layers: Layers, r: nat, i: nat, s: nat, j: nat)
    requires Layered(seen, rank, layers) && r < |layers| && i < |layers[r]| && s < |layers| && j < |layers[s]|
    ensures layers[r][i] in seen && rank[layers[r][i]] == r
    ensures layers[r][i] == layers[s][j] ==> r == s && i == j
  {
    CountOf(layers[r], i);
    CountOf(layers[s], j);
    if layers[r][i] == layers[s][j] && r == s && i != j {
      CountedTwice(layers[r], if i < j then i else j, if i < j then j else i);
    }
  }

  lemma SlotExists(seen: set<Id>, rank: map<Id, nat>, layers: Layers, v: Id) returns (i: nat)
    requires Layered(seen, rank, layers) && v in seen
    ensures rank[v] < |layers| && i < |layers[rank[v]]| && layers[rank[v]][i] == v
  {
    var layer := layers[rank[v]];
    assert multiset(layers[rank[v]])[v] == 1;
    assert v in layer;
    i :| 0 <= i < |layer| && layer[i] == v;
  }

  /** The ids with rank `r`, in order. */
  function LayerOf(ids: seq<Id>, rank: map<Id, nat>, r: nat): seq<Id> {
    if ids == [] then []
    else LayerOf(ids[..|ids| - 1], rank, r) +
         var last := ids[|ids| - 1]; if last in rank && rank[last] == r then [last] else []
  }

  lemma {:induction false} LayerOfFrom(ids: seq<Id>, rank: map<Id, nat>, r: nat, j: nat) returns (b: nat)
    requires j < |LayerOf(ids, rank, r)|
    ensures b < |ids| && ids[b] == LayerOf(ids, rank, r)[j] && LayerOf(ids[..b], rank, r) == LayerOf(ids, rank, r)[..j]
  {
    var init := ids[..|ids| - 1];
    if j < |LayerOf(init, rank, r)| {
      b := LayerOfFrom(init, rank, r, j);
      assert init[..b] == ids[..b];
      assert LayerOf(init, rank, r)[..j] == LayerOf(ids, rank, r)[..j];
    } else {
      b := |ids| - 1;
      assert LayerOf(ids, rank, r)[..j] == LayerOf(init, rank, r);
    }
  }

  /** A layer keeps the order of declaration. */
  lemma LayerInOrder(ids: seq<Id>, rank: map<Id, nat>, r: nat, i: nat, j: nat) returns (a: nat, b: nat)
    requires i < j < |LayerOf(ids, rank, r)|
    ensures a < b < |ids| && ids[a] == LayerOf(ids, rank, r)[i] && ids[b] == LayerOf(ids, rank, r)[j]
  {
    b := LayerOfFrom(ids, rank, r, j);
    a := LayerOfFrom(ids[..b], rank, r, i);
  }

  /** One layer for each rank up to the highest, each in declaration order. */
  ghost predicate Started(ids: seq<Id>, rank: map<Id, nat>, layers: Layers) {
    && (forall id :: id in ids ==> id in rank && rank[id] < |layers|)
    && (|layers| == 1 || exists id :: id in ids && id in rank && rank[id] == |layers| - 1)
    && (forall r :: 0 <= r < |layers| ==> layers[r] == LayerOf(ids, rank, r))
  }

  method BuildLayers(g: Graph, rank: map<Id, nat>) returns (layers: Layers)
    requires forall v :: HasNode(g, v) ==> v in rank
    ensures |layers| >= 1 && Started(NodeIds(g.nodes), rank, layers)
  {
    var ids := NodeIds(g.nodes);
    var maxR := 0;
    for i := 0 to |ids|
      invariant forall j :: 0 <= j < i ==> ids[j] in rank && rank[ids[j]] <= maxR
      invariant maxR == 0 || exists id :: id in ids && id in rank && rank[id] == maxR
    {
      assert HasNode(g, ids[i]);
      if rank[ids[i]] > maxR {
        maxR := rank[ids[i]];
      }
    }
    layers := seq(maxR + 1, _ => []);
    for i := 0 to |ids|
      invariant |layers| == maxR + 1
      invariant forall r :: 0 <= r < |layers| ==> layers[r] == LayerOf(ids[..i], rank, r)
    {
      assert HasNode(g, ids[i]) && ids[..i + 1][..i] == ids[..i];
      var r := rank[ids[i]];
      layers := layers[r := layers[r] + [ids[i]]];
    }
    assert ids[..|ids|] == ids;
  }

  lemma {:induction false} LayerCounts(ids: seq<Id>, rank: map<Id, nat>, r: nat, v: Id)
    requires multiset(ids)[v] <= 1
    ensures multiset(LayerOf(ids, rank, r))[v] == if v in ids && v in rank && rank[v] == r then 1 else 0
  {
    if ids != [] {
      var init, last := ids[..|ids| - 1], ids[|ids| - 1];
      assert ids == init + [last];
      assert v in init <==> multiset(init)[v] > 0;
      LayerCounts(init, rank, r, v);
    }
  }

  lemma TwiceAt(g: Graph, v: Id) returns (i: nat, j: nat)
    requires multiset(NodeIds(g.nodes))[v] > 1
    ensures i < |g.nodes| && j < |g.nodes| && i != j && Nth(g.nodes, i).id == Nth(g.nodes, j).id
  {
    var ids := NodeIds(g.nodes);
    i :| 0 <= i < |ids| && ids[i] == v;
    assert ids == ids[..i] + [v] + ids[i + 1..];
    assert v in multiset(ids[..i]) || v in multiset(ids[i + 1..]);
    j :| 0 <= j < |ids| && j != i && ids[j] == v;
  }

  lemma IdsOnce(g: Graph, v: Id)
    requires UniqueNodeIds(g.nodes)
    ensures multiset(NodeIds(g.nodes))[v] <= 1
  {
    if multiset(NodeIds(g.nodes))[v] > 1 {
      var i, j := TwiceAt(g, v);
      assert false;
    }
  }

  lemma StartedLayered(g: Graph, rank: map<Id, nat>, layers: Layers)
    requires UniqueNodeIds(g.nodes) && Started(NodeIds(g.nodes), rank, layers)
    ensures Layered(IdSet(g), rank, layers)
  {
    forall r, v | 0 <= r < |layers|
      ensures multiset(layers[r])[v] == if v in IdSet(g) && rank[v] == r then 1 else 0
    {
      IdsOnce(g, v);
      LayerCounts(NodeIds(g.nodes), rank, r, v);
    }
  }

  /** The sweeps move nodes within their layers only. */
  lemma SweptLayered(seen: set<Id>, rank: map<Id, nat>, o: Order, p: Order)
    requires Layered(seen, rank, o.layers) && SameNodes(o, p)
    ensures Layered(seen, rank, p.layers)
  {
    forall r, v | 0 <= r < |p.layers|
      ensures multiset(p.layers[r])[v] == if v in seen && rank[v] == r then 1 else 0
    {
      assert multiset(o.layers[r]) == multiset(p.layers[r]);
      assert multiset(o.layers[r])[v] == if v in seen && rank[v] == r then 1 else 0;
    }
  }

  // ---- neighbours ----

  function Heads(fwd: seq<Edge>, v: Id): seq<Id> {
    if fwd == [] then []
    else Heads(fwd[..|fwd| - 1], v) + var e := fwd[|fwd| - 1]; if e.from == v then [e.to] else []
  }

  function Tails(fwd: seq<Edge>, v: Id): seq<Id> {
    if fwd == [] then []
    else Tails(fwd[..|fwd| - 1], v) + var e := fwd[|fwd| - 1]; if e.to == v then [e.from] else []
  }

  lemma {:induction false} HeadsAreTargets(fwd: seq<Edge>, v: Id)
    ensures Heads(fwd, v) == Targets(Out(fwd, v))
  {
    if fwd != [] {
      var init, e := fwd[..|fwd| - 1], fwd[|fwd| - 1];
      assert fwd == init + [e];
      HeadsAreTargets(init, v);
      OutAppend(init, e, v);
    }
  }

  function Flipped(fwd: seq<Edge>): (back: seq<Edge>)
    ensures |back| == |fwd| && forall i :: 0 <= i < |fwd| ==> back[i] == fwd[i].(from := fwd[i].to, to := fwd[i].from)
  {
    seq(|fwd|, i requires 0 <= i < |fwd| => fwd[i].(from := fwd[i].to, to := fwd[i].from))
  }

  /** The successors are the targets of the node's edges, in edge order; the predecessors are the successors
      when every edge is turned round. */
  lemma {:induction false} TailsAreHeads(fwd: seq<Edge>, v: Id)
    ensures Heads(fwd, v) == Targets(Out(fwd, v)) && Tails(fwd, v) == Heads(Flipped(fwd), v)
  {
    HeadsAreTargets(fwd, v);
    if fwd != [] {
      var init := fwd[..|fwd| - 1];
      TailsAreHeads(init, v);
      assert Flipped(fwd)[..|fwd| - 1] == Flipped(init);
    }
  }

  lemma {:induction false} HeadsHas(fwd: seq<Edge>, v: Id, w: Id)
    ensures w in Heads(fwd, v) <==> exists e :: e in fwd && e.from == v && e.to == w
    ensures w in Tails(fwd, v) <==> exists e :: e in fwd && e.to == v && e.from == w
  {
    if fwd != [] {
      var init, e := fwd[..|fwd| - 1], fwd[|fwd| - 1];
      assert fwd == init + [e];
      HeadsHas(init, v, w);
    }
  }

  lemma NeighboursNext(fwd: seq<Edge>, i: nat)
    requires i < |fwd|
    ensures forall v :: Heads(fwd[..i + 1], v) == if fwd[i].from == v then Heads(fwd[..i], v) + [fwd[i].to] else Heads(fwd[..i], v)
    ensures forall v :: Tails(fwd[..i + 1], v) == if fwd[i].to == v then Tails(fwd[..i], v) + [fwd[i].from] else Tails(fwd[..i], v)
  {
    assert fwd[..i + 1][..i] == fwd[..i];
  }

  ghost function Forward(g: Graph): seq<Edge> {
    Without(g.edges, set e | e in BackSeq(NodeIds(g.nodes), g.edges) :: e.id)
  }

  ghost function Succ(g: Graph): map<Id, seq<Id>> {
    map v | v in NodeIds(g.nodes) :: Heads(Forward(g), v)
  }

  ghost function Pred(g: Graph): map<Id, seq<Id>> {
    map v | v in NodeIds(g.nodes) :: Tails(Forward(g), v)
  }

  /** Predecessor and successor lists over the forward edges. */
  method Neighbours(g: Graph) returns (pred: map<Id, seq<Id>>, succ: map<Id, seq<Id>>)
    requires WellFormed(g)
    ensures pred == Pred(g) && succ == Succ(g)
  {
    var back := BackEdges(NodeIds(g.nodes), g.edges);
    var fwd := Without(g.edges, set e | e in back :: e.id);
    assert fwd == Forward(g);
    succ := map v | v in NodeIds(g.nodes) :: [];
    pred := succ;
    for i := 0 to |fwd|
      invariant forall v {:trigger v in succ} :: v in succ <==> v in NodeIds(g.nodes)
      invariant forall v {:trigger v in pred} :: v in pred <==> v in NodeIds(g.nodes)
      invariant forall v {:trigger succ[v]} :: v in succ ==> succ[v] == Heads(fwd[..i], v)
      invariant forall v {:trigger pred[v]} :: v in pred ==> pred[v] == Tails(fwd[..i], v)
    {
      var e := fwd[i];
      assert e in g.edges && HasNode(g, e.from) && HasNode(g, e.to);
      NeighboursNext(fwd, i);
      succ := succ[e.from := succ[e.from] + [e.to]];
      pred := pred[e.to := pred[e.to] + [e.from]];
    }
    assert fwd[..|fwd|] == fwd;
  }

  // ---- coordinates ----

  function MainStep(horizontal: bool): real {
    if horizontal then NODE_WIDTH + GAP_X else NODE_HEIGHT + GAP_Y
  }

  function CrossStep(horizontal: bool): real {
    if horizontal then NODE_HEIGHT + GAP_Y else NODE_WIDTH + GAP_X
  }

  function Longer(layers: Layers): (n: nat)
    ensures forall r :: 0 <= r < |layers| ==> |layers[r]| <= n
    ensures layers == [] || exists r :: 0 <= r < |layers| && |layers[r]| == n
  {
    if layers == [] then 0
    else
      var rest := Longer(layers[1..]);
      assert forall r :: 1 <= r < |layers| ==> layers[r] == layers[1..][r - 1];
      if |layers[0]| > rest then |layers[0]| else rest
  }

  function Slot(layers: Layers, horizontal: bool, r: nat, i: nat): Point
    requires r < |layers|
  {
    var main := PAD + r as real * MainStep(horizontal);
    var cross := PAD + (Longer(layers) - |layers[r]|) as real * CrossStep(horizontal) / 2.0 + i as real * CrossStep(horizontal);
    if horizontal then Point(main, cross) else Point(cross, main)
  }

  ghost predicate AtSlots(layers: Layers, horizontal: bool, place: map<Id, Point>, n: nat) {
    forall r, i {:trigger layers[r][i]} :: 0 <= r < n && r < |layers| && 0 <= i < |layers[r]| ==>
      layers[r][i] in place && place[layers[r][i]] == Slot(layers, horizontal, r, i)
  }

  method PlaceLayers(layers: Layers, horizontal: bool, ghost seen: set<Id>, ghost rank: map<Id, nat>) returns (place: map<Id, Point>)
    requires Layered(seen, rank, layers)
    ensures AtSlots(layers, horizontal, place, |layers|)
  {
    place := map[];
    for r := 0 to |layers|
      invariant AtSlots(layers, horizontal, place, r)
    {
      for i := 0 to |layers[r]|
        invariant AtSlots(layers, horizontal, place, r)
        invariant forall j :: 0 <= j < i ==> layers[r][j] in place && place[layers[r][j]] == Slot(layers, horizontal, r, j)
      {
        forall s, j | 0 <= s < |layers| && 0 <= j < |layers[s]| && layers[s][j] == layers[r][i] ensures s == r && j == i {
          SlotUnique(seen, rank, layers, s, j, r, i);
        }
        place := place[layers[r][i] := Slot(layers, horizontal, r, i)];
      }
    }
  }

  // ---- what the coordinates mean ----

  /** The two node rectangles are at least the gap apart along one axis. */
  predicate Apart(a: Point, b: Point) {
    || a.x + NODE_WIDTH + GAP_X <= b.x || b.x + NODE_WIDTH + GAP_X <= a.x
    || a.y + NODE_HEIGHT + GAP_Y <= b.y || b.y + NODE_HEIGHT + GAP_Y <= a.y
  }

  function Main(horizontal: bool, p: Point): real {
    if horizontal then p.x else p.y
  }

  lemma Spread(i: nat, j: nat, step: real)
    requires i < j && step >= 0.0
    ensures j as real * step >= i as real * step + step
  {
    var d := j - i;
    assert j as real == i as real + d as real && d as real >= 1.0;
    assert d as real * step >= 1.0 * step;
    assert j as real * step == i as real * step + d as real * step;
  }

  lemma MainSpread(layers: Layers, horizontal: bool, r: nat, i: nat, s: nat, j: nat)
    requires r < s < |layers|
    ensures Main(horizontal, Slot(layers, horizontal, s, j)) >= Main(horizontal, Slot(layers, horizontal, r, i)) + MainStep(horizontal)
  {
    Spread(r, s, MainStep(horizontal));
  }

  lemma CrossSpread(layers: Layers, horizontal: bool, r: nat, i: nat, j: nat)
    requires r < |layers| && i < j
    ensures Main(!horizontal, Slot(layers, horizontal, r, j)) >= Main(!horizontal, Slot(layers, horizontal, r, i)) + CrossStep(horizontal)
  {
    Spread(i, j, CrossStep(horizontal));
  }

  lemma StepsApart(horizontal: bool, a: Point, b: Point)
    requires Main(horizontal, b) >= Main(horizontal, a) + MainStep(horizontal) ||
             Main(!horizontal, b) >= Main(!horizontal, a) + CrossStep(horizontal)
    ensures Apart(a, b) && Apart(b, a)
  {
  }

  lemma SlotsApart(layers: Layers, horizontal: bool, r: nat, i: nat, s: nat, j: nat)
    requires r < |layers| && i < |layers[r]| && s < |layers| && j < |layers[s]| && (r != s || i != j)
    ensures Apart(Slot(layers, horizontal, r, i), Slot(layers, horizontal, s, j))
  {
    var a, b := Slot(layers, horizontal, r, i), Slot(layers, horizontal, s, j);
    if r < s {
      MainSpread(layers, horizontal, r, i, s, j);
      StepsApart(horizontal, a, b);
    } else if s < r {
      MainSpread(layers, horizontal, s, j, r, i);
      StepsApart(horizontal, b, a);
    } else if i < j {
      CrossSpread(layers, horizontal, r, i, j);
      StepsApart(horizontal, a, b);
    } else {
      CrossSpread(layers, horizontal, r, j, i);
      StepsApart(horizontal, b, a);
    }
  }

  lemma SlotInside(layers: Layers, horizontal: bool, r: nat, i: nat)
    requires r < |layers| && i < |layers[r]|
    ensures Slot(layers, horizontal, r, i).x >= PAD && Slot(layers, horizontal, r, i).y >= PAD
  {
    var slack := Longer(layers) - |layers[r]|;
    assert slack >= 0 && slack as real * CrossStep(horizontal) >= 0.0;
    assert i as real * CrossStep(horizontal) >= 0.0 && r as real * MainStep(horizontal) >= 0.0;
  }

  /** The order within the layers: declaration order, swept eight times. */
  ghost predicate Arranged(g: Graph, rank: map<Id, nat>, layers: Layers) {
    exists start {:trigger Started(NodeIds(g.nodes), rank, start)} :: Started(NodeIds(g.nodes), rank, start) &&
      layers == Passes(Order(start, StartPositions(start, |start|)), Pred(g), Succ(g), SWEEPS).layers
  }

  /** Across the main axis a layer's nodes follow one another step by step, with as much room before the first
      as the widest layer leaves after the last. */
  lemma LayerCentred(layers: Layers, horizontal: bool, r: nat, i: nat)
    requires r < |layers| && i < |layers[r]|
    ensures var cross, end := Main(!horizontal, Slot(layers, horizontal, r, i)), PAD + (Longer(layers) - 1) as real * CrossStep(horizontal);
            && cross == Main(!horizontal, Slot(layers, horizontal, r, 0)) + i as real * CrossStep(horizontal)
            && Main(!horizontal, Slot(layers, horizontal, r, 0)) - PAD == end - Main(!horizontal, Slot(layers, horizontal, r, |layers[r]| - 1))
  {
    var step, n, m := CrossStep(horizontal), |layers[r]|, Longer(layers);
    assert (m - n) as real * step + (n - 1) as real * step == (m - 1) as real * step;
    assert 0 as real * step == 0.0;
  }

  /** The index of each node in its layer. */
  function Indices(layers: Layers): map<Id, int> {
    StartPositions(layers, |layers|)
  }

  /** In every layer, of two nodes that both have successors, the one placed first has the smaller median of
      the indices its successors are placed at, or the same. */
  ghost predicate BySuccessors(g: Graph, layers: Layers) {
    forall r, i, j {:trigger Nth(layers[r], i), Nth(layers[r], j)} :: 0 <= r < |layers| && 0 <= i < j < |layers[r]| ==>
      var v, w := Nth(layers[r], i), Nth(layers[r], j);
      Heads(Forward(g), v) != [] && Heads(Forward(g), w) != [] ==>
        MedianOf(v, Heads(Forward(g), v), Indices(layers)) <= MedianOf(w, Heads(Forward(g), w), Indices(layers))
  }

  lemma LayeredOneSlot(seen: set<Id>, rank: map<Id, nat>, layers: Layers)
    requires Layered(seen, rank, layers)
    ensures OneSlot(layers, rank)
  {
  }

  /** Every edge leads to a higher rank. */
  ghost predicate Climbs(fwd: seq<Edge>, rank: map<Id, nat>) {
    forall e :: e in fwd ==> e.from in rank && e.to in rank && rank[e.from] < rank[e.to]
  }

  lemma HeadsClimb(fwd: seq<Edge>, rank: map<Id, nat>, v: Id, w: Id)
    requires Climbs(fwd, rank)
    ensures w in Heads(fwd, v) ==> LiesBeyond(rank, false, v, w)
    ensures w in Tails(fwd, v) ==> LiesBeyond(rank, true, v, w)
  {
    HeadsHas(fwd, v, w);
  }

  lemma ForwardClimbs(g: Graph, rank: map<Id, nat>)
    requires WellFormed(g) && Tight(ForwardSet(NodeIds(g.nodes), g.edges), rank)
    ensures Climbs(Forward(g), rank)
  {
    var back := BackSeq(NodeIds(g.nodes), g.edges);
    ForwardIsWithout(g, back, set e | e in back :: e.id);
  }

  lemma ListedClimb(g: Graph, rank: map<Id, nat>, v: Id, w: Id)
    requires Climbs(Forward(g), rank)
    ensures w in NeighboursOf(Succ(g), v) ==> LiesBeyond(rank, false, v, w)
    ensures w in NeighboursOf(Pred(g), v) ==> LiesBeyond(rank, true, v, w)
  {
    HeadsClimb(Forward(g), rank, v, w);
  }

  lemma NeighboursBeyond(g: Graph, rank: map<Id, nat>)
    requires Climbs(Forward(g), rank)
    ensures Beyond(rank, Pred(g), true) && Beyond(rank, Succ(g), false)
  {
    forall v, w
      ensures w in NeighboursOf(Pred(g), v) ==> LiesBeyond(rank, true, v, w)
      ensures w in NeighboursOf(Succ(g), v) ==> LiesBeyond(rank, false, v, w)
    {
      ListedClimb(g, rank, v, w);
    }
  }

  /** Positions that are indices are the indices. */
  lemma IndicesInStep(seen: set<Id>, rank: map<Id, nat>, p: Order, ids: seq<Id>)
    requires Layered(seen, rank, p.layers) && InStep(p) && forall v :: v in ids ==> v in seen
    ensures SamePlaces(ids, p.pos, Indices(p.layers)) && (ids != [] ==> Positions(ids, p.pos) != [])
  {
    LayeredOneSlot(seen, rank, p.layers);
    StartInStep(rank, p.layers, |p.layers|);
    forall v | v in ids
      ensures v in p.pos && v in Indices(p.layers) && p.pos[v] == Indices(p.layers)[v]
    {
      var i := SlotExists(seen, rank, p.layers, v);
      assert p.layers[rank[v]][i] == v;
    }
    if ids != [] {
      assert ids[0] in ids;
    }
  }

  lemma SuccessorsAreNodes(g: Graph, v: Id)
    requires WellFormed(g) && HasNode(g, v)
    ensures NeighboursOf(Succ(g), v) == Heads(Forward(g), v) && forall w :: w in Heads(Forward(g), v) ==> w in IdSet(g)
  {
    forall w | w in Heads(Forward(g), v)
      ensures w in IdSet(g)
    {
      HeadsHas(Forward(g), v, w);
    }
  }

  lemma SweptBySuccessors(g: Graph, rank: map<Id, nat>, p: Order)
    requires WellFormed(g) && Layered(IdSet(g), rank, p.layers) && InStep(p)
    requires forall r :: 0 <= r < |p.layers| ==> Untangled(p.layers[r], Succ(g), p.pos)
    ensures BySuccessors(g, p.layers)
  {
    forall r, i, j | 0 <= r < |p.layers| && 0 <= i < j < |p.layers[r]|
      ensures var v, w := Nth(p.layers[r], i), Nth(p.layers[r], j);
              Heads(Forward(g), v) != [] && Heads(Forward(g), w) != [] ==>
                MedianOf(v, Heads(Forward(g), v), Indices(p.layers)) <= MedianOf(w, Heads(Forward(g), w), Indices(p.layers))
    {
      var v, w := Nth(p.layers[r], i), Nth(p.layers[r], j);
      SlotUnique(IdSet(g), rank, p.layers, r, i, r, i);
      SlotUnique(IdSet(g), rank, p.layers, r, j, r, j);
      SuccessorsAreNodes(g, v);
      SuccessorsAreNodes(g, w);
      IndicesInStep(IdSet(g), rank, p, Heads(Forward(g), v));
      IndicesInStep(IdSet(g), rank, p, Heads(Forward(g), w));
      if Heads(Forward(g), v) != [] && Heads(Forward(g), w) != [] {
        MedianSame(v, Heads(Forward(g), v), p.pos, Indices(p.layers));
        MedianSame(w, Heads(Forward(g), w), p.pos, Indices(p.layers));
      }
    }
  }

  /** What any number of passes achieves whose last goes upwards. */
  lemma UpwardBySuccessors(g: Graph, rank: map<Id, nat>, start: Layers, layers: Layers, n: nat)
    requires WellFormed(g) && Tight(ForwardSet(NodeIds(g.nodes), g.edges), rank) && Layered(IdSet(g), rank, start)
    requires n > 0 && (n - 1) % 2 != 0
    requires layers == Passes(Order(start, StartPositions(start, |start|)), Pred(g), Succ(g), n).layers
    ensures Layered(IdSet(g), rank, layers) && BySuccessors(g, layers)
  {
    var o := Order(start, StartPositions(start, |start|));
    var p := Passes(o, Pred(g), Succ(g), n);
    LayeredOneSlot(IdSet(g), rank, start);
    ForwardClimbs(g, rank);
    NeighboursBeyond(g, rank);
    SweepsStayInStep(rank, start, Pred(g), Succ(g), n);
    SweptLayered(IdSet(g), rank, o, p);
    forall r | 0 <= r < |p.layers|
      ensures Untangled(p.layers[r], Succ(g), p.pos)
    {
      PassesUntangle(rank, o, Pred(g), Succ(g), n, r);
    }
    SweptBySuccessors(g, rank, p);
  }

  /** What the sweeps achieve: the last of them goes upwards. */
  lemma ArrangedWell(g: Graph, rank: map<Id, nat>, layers: Layers)
    requires WellFormed(g) && Tight(ForwardSet(NodeIds(g.nodes), g.edges), rank) && Arranged(g, rank, layers)
    ensures Layered(IdSet(g), rank, layers) && BySuccessors(g, layers)
  {
    var start :| Started(NodeIds(g.nodes), rank, start) &&
      layers == Passes(Order(start, StartPositions(start, |start|)), Pred(g), Succ(g), SWEEPS).layers;
    StartedLayered(g, rank, start);
    UpwardBySuccessors(g, rank, start, layers, SWEEPS);
  }

  lemma PlacedWell(g: Graph, rank: map<Id, nat>, layers: Layers, horizontal: bool, place: map<Id, Point>)
    requires Layered(IdSet(g), rank, layers) && AtSlots(layers, horizontal, place, |layers|)
    ensures forall v :: HasNode(g, v) ==> v in place && v in rank
    ensures forall v {:trigger place[v]} :: HasNode(g, v) ==> place[v].x >= PAD && place[v].y >= PAD
    ensures forall v {:trigger place[v]} :: HasNode(g, v) ==> Main(horizontal, place[v]) == PAD + rank[v] as real * MainStep(horizontal)
    ensures forall v, w {:trigger Apart(place[v], place[w])} :: HasNode(g, v) && HasNode(g, w) && v != w ==> Apart(place[v], place[w])
  {
    forall v | HasNode(g, v)
      ensures v in place && v in rank && place[v].x >= PAD && place[v].y >= PAD
      ensures Main(horizontal, place[v]) == PAD + rank[v] as real * MainStep(horizontal)
    {
      assert v in IdSet(g);
      var i := SlotExists(IdSet(g), rank, layers, v);
      SlotInside(layers, horizontal, rank[v], i);
    }
    forall v, w | HasNode(g, v) && HasNode(g, w) && v != w
      ensures Apart(place[v], place[w])
    {
      assert v in IdSet(g) && w in IdSet(g);
      var i := SlotExists(IdSet(g), rank, layers, v);
      var j := SlotExists(IdSet(g), rank, layers, w);
      SlotsApart(layers, horizontal, rank[v], i, rank[w], j);
    }
  }

  /** The whole layout. `rank` is the longest-path rank the placement follows, `layers` the swept order. */
  method LayoutGraph(g: Graph, horizontal: bool) returns (place: map<Id, Point>, ghost rank: map<Id, nat>, ghost layers: Layers)
    requires WellFormed(g)
    ensures Tight(ForwardSet(NodeIds(g.nodes), g.edges), rank) && Arranged(g, rank, layers)
    ensures Layered(IdSet(g), rank, layers) && AtSlots(layers, horizontal, place, |layers|)
    ensures BySuccessors(g, layers)
    ensures forall v :: HasNode(g, v) ==> v in place && v in rank
    ensures forall v {:trigger place[v]} :: HasNode(g, v) ==> place[v].x >= PAD && place[v].y >= PAD
    ensures forall v {:trigger place[v]} :: HasNode(g, v) ==> Main(horizontal, place[v]) == PAD + rank[v] as real * MainStep(horizontal)
    ensures forall v, w {:trigger Apart(place[v], place[w])} :: HasNode(g, v) && HasNode(g, w) && v != w ==> Apart(place[v], place[w])
  {
    var ranked;
    ghost var dequeued;
    ranked, dequeued := AssignRanks(g);
    rank := ranked;
    var start := BuildLayers(g, ranked);
    var pred, succ := Neighbours(g);
    var swept := RunSweeps(start, pred, succ);
    layers := swept;
    ArrangedWell(g, rank, layers);
    place := PlaceLayers(swept, horizontal, IdSet(g), rank);
    PlacedWell(g, rank, layers, horizontal, place);
  }

  /** A forward edge leads at least a full node and a gap further along the main axis. */
  lemma ForwardGoesForward(g: Graph, horizontal: bool, place: map<Id, Point>, rank: map<Id, nat>, e: Edge)
    requires Tight(ForwardSet(NodeIds(g.nodes), g.edges), rank) && e in ForwardSet(NodeIds(g.nodes), g.edges)
    requires e.from in place && e.from in rank && Main(horizontal, place[e.from]) == PAD + rank[e.from] as real * MainStep(horizontal)
    requires e.to in place && e.to in rank && Main(horizontal, place[e.to]) == PAD + rank[e.to] as real * MainStep(horizontal)
    ensures Main(horizontal, place[e.to]) >= Main(horizontal, place[e.from]) + MainStep(horizontal)
  {
    var r, s, step := rank[e.from], rank[e.to], MainStep(horizontal);
    assert r < s;
    assert s as real * step >= r as real * step + step by {
      Spread(r, s, step);
    }
  }
}
