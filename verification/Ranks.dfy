/** The longest paths of the layout. */
module Ranks {
  // Forward edges ranked by longest path, with a queue of nodes whose incoming edges have all been relaxed.

  import opened Graphs
  import opened DepthFirst
  import opened Interpreter

  /** The edges the classifier leaves: every edge that is not back, in declaration order. */
  function Without(edges: seq<Edge>, back: set<Id>): (kept: seq<Edge>)
    ensures forall e :: e in kept <==> e in edges && e.id !in back
  {
    if edges == [] then []
    else if edges[0].id !in back then [edges[0]] + Without(edges[1..], back)
    else Without(edges[1..], back)
  }

  lemma {:induction false} WithoutUnique(edges: seq<Edge>, back: set<Id>)
    requires UniqueEdgeIds(edges)
    ensures UniqueEdgeIds(Without(edges, back))
  {
    if edges != [] {
      assert edges == [edges[0]] + edges[1..];
      UniqueEdgesCons(edges[0], edges[1..]);
      WithoutUnique(edges[1..], back);
      UniqueEdgesCons(edges[0], Without(edges[1..], back));
    }
  }

  // ---- what a rank is ----

  /** The length of the longest path ending at `id`. */
  ghost predicate Longest(es: set<Edge>, id: Id, r: nat) {
    && (exists a, p :: Path(es, p, a, id) && |p| == r)
    && (forall a, p :: Path(es, p, a, id) ==> |p| <= r)
  }

  ghost predicate Climbed(es: set<Edge>, rank: map<Id, nat>, v: Id) {
    v in rank && exists e :: e in es && e.to == v && e.from in rank && rank[v] == rank[e.from] + 1
  }

  /** The local form: every edge climbs, and every positive rank is reached by one edge. */
  ghost predicate Tight(es: set<Edge>, rank: map<Id, nat>) {
    && (forall e :: e in es ==> e.from in rank && e.to in rank && rank[e.to] >= rank[e.from] + 1)
    && (forall v {:trigger Climbed(es, rank, v)} :: v in rank && rank[v] > 0 ==> Climbed(es, rank, v))
  }

  lemma {:induction false} TightBounds(es: set<Edge>, rank: map<Id, nat>, p: seq<Edge>, a: Id, id: Id)
    requires Tight(es, rank) && Path(es, p, a, id) && id in rank
    ensures |p| <= rank[id] && (p != [] ==> a in rank && rank[a] + |p| <= rank[id])
  {
    if p != [] {
      TightBounds(es, rank, p[1..], p[0].to, id);
    }
  }

  lemma {:induction false} TightReaches(es: set<Edge>, rank: map<Id, nat>, id: Id, r: nat) returns (a: Id, p: seq<Edge>)
    requires Tight(es, rank) && id in rank && rank[id] == r
    ensures Path(es, p, a, id) && |p| == r
    decreases r
  {
    if r == 0 {
      a, p := id, [];
    } else {
      assert Climbed(es, rank, id);
      var e :| e in es && e.to == id && e.from in rank && rank[id] == rank[e.from] + 1;
      var q;
      a, q := TightReaches(es, rank, e.from, r - 1);
      assert Path(es, [e], e.from, id);
      PathConcat(es, q, [e], a, e.from, id);
      p := q + [e];
    }
  }

  lemma TightIsLongest(es: set<Edge>, rank: map<Id, nat>, id: Id)
    requires Tight(es, rank) && id in rank
    ensures Longest(es, id, rank[id])
  {
    var a, p := TightReaches(es, rank, id, rank[id]);
    forall a, p | Path(es, p, a, id) ensures |p| <= rank[id] {
      TightBounds(es, rank, p, a, id);
    }
  }

  // ---- the queue ----

  /** Incoming edges of `v` not yet relaxed. */
  ghost function Unrelaxed(es: set<Edge>, relaxed: set<Edge>, v: Id): set<Edge> {
    set e | e in es && e.to == v && e !in relaxed
  }

  /** The state of the ranking: which nodes have left the queue, which wait in it, which edges have
      been relaxed. */
  datatype Progress = Progress(out: set<Id>, queue: seq<Id>, relaxed: set<Edge>, rank: map<Id, nat>)

  /** A node is out or queued exactly when all its incoming edges are relaxed. */
  ghost predicate Queued(ids: set<Id>, es: set<Edge>, s: Progress) {
    && (forall v {:trigger v in ids} :: v in ids ==> ((v in s.out || v in s.queue) <==> Unrelaxed(es, s.relaxed, v) == {}))
    && (forall v :: v in s.out || v in s.queue ==> v in ids)
    && (forall v :: v in s.queue ==> v !in s.out)
    && (forall i, j {:trigger Nth(s.queue, i), Nth(s.queue, j)} :: 0 <= i < j < |s.queue| ==> Nth(s.queue, i) != Nth(s.queue, j))
  }

  ghost predicate Witnessed(s: Progress, v: Id) {
    v in s.rank && exists e :: e in s.relaxed && e.to == v && e.from in s.rank && s.rank[v] == s.rank[e.from] + 1
  }

  /** Ranks account for exactly the relaxed edges. */
  ghost predicate RanksSoFar(es: set<Edge>, s: Progress) {
    && s.relaxed <= es
    && (forall v :: v in s.out || v in s.queue ==> v in s.rank)
    && (forall e :: e in s.relaxed ==> e.from in s.out && e.to in s.rank && s.rank[e.to] >= s.rank[e.from] + 1)
    && (forall v {:trigger Witnessed(s, v)} :: v in s.rank && s.rank[v] > 0 ==> Witnessed(s, v))
  }

  ghost predicate Counted(es: set<Edge>, s: Progress, ind: map<Id, nat>, ids: set<Id>) {
    forall v {:trigger v in ids} :: v in ids ==> v in ind && ind[v] == |Unrelaxed(es, s.relaxed, v)|
  }

  /** Relaxing one edge of the node just dequeued. */
  ghost function Relax(s: Progress, e: Edge, last: bool): Progress
    requires e.from in s.rank
  {
    var r := (if e.to in s.rank then s.rank[e.to] else 0);
    var r' := if r >= s.rank[e.from] + 1 then r else s.rank[e.from] + 1;
    Progress(s.out, if last then s.queue + [e.to] else s.queue, s.relaxed + {e}, s.rank[e.to := r'])
  }

  lemma RelaxCounts(es: set<Edge>, relaxed: set<Edge>, e: Edge, v: Id)
    requires e in es && e !in relaxed
    ensures v != e.to ==> Unrelaxed(es, relaxed + {e}, v) == Unrelaxed(es, relaxed, v)
    ensures |Unrelaxed(es, relaxed, e.to)| == |Unrelaxed(es, relaxed + {e}, e.to)| + 1
  {
    assert Unrelaxed(es, relaxed, e.to) == Unrelaxed(es, relaxed + {e}, e.to) + {e};
    if v != e.to {
      assert Unrelaxed(es, relaxed + {e}, v) == Unrelaxed(es, relaxed, v);
    }
  }

  lemma RelaxQueue(ids: set<Id>, es: set<Edge>, s: Progress, e: Edge, last: bool)
    requires Queued(ids, es, s) && e in es && e !in s.relaxed && e.to in ids && e.from in s.rank
    requires e.to !in s.out && e.to !in s.queue
    requires last <==> Unrelaxed(es, s.relaxed + {e}, e.to) == {}
    ensures Queued(ids, es, Relax(s, e, last))
  {
    var s' := Relax(s, e, last);
    forall v | v in ids ensures (v in s'.out || v in s'.queue) <==> Unrelaxed(es, s'.relaxed, v) == {} {
      RelaxCounts(es, s.relaxed, e, v);
    }
    forall i, j | 0 <= i < j < |s'.queue| ensures Nth(s'.queue, i) != Nth(s'.queue, j) {
      if j < |s.queue| {
        assert Nth(s.queue, i) != Nth(s.queue, j);
      }
    }
  }

  lemma RelaxWitness(es: set<Edge>, s: Progress, e: Edge, last: bool, v: Id)
    requires RanksSoFar(es, s) && e.from in s.out && e.from in s.rank && e.to != e.from && e.to !in s.out
    requires var s' := Relax(s, e, last); v in s'.rank && s'.rank[v] > 0
    ensures Witnessed(Relax(s, e, last), v)
  {
    var s' := Relax(s, e, last);
    if v == e.to && s'.rank[v] == s.rank[e.from] + 1 {
      assert e in s'.relaxed && s'.rank[e.from] == s.rank[e.from];
    } else {
      assert v in s.rank && s.rank[v] == s'.rank[v];
      assert Witnessed(s, v);
      var f :| f in s.relaxed && f.to == v && f.from in s.rank && s.rank[v] == s.rank[f.from] + 1;
      assert f in s'.relaxed && f.from in s.out && s'.rank[f.from] == s.rank[f.from];
    }
  }

  lemma RelaxRanks(es: set<Edge>, s: Progress, e: Edge, last: bool)
    requires RanksSoFar(es, s) && e in es && e.from in s.out && e.from in s.rank && e.to != e.from
    requires e.to !in s.out && e.to !in s.queue
    ensures RanksSoFar(es, Relax(s, e, last))
  {
    var s' := Relax(s, e, last);
    forall f | f in s'.relaxed ensures f.from in s'.out && f.to in s'.rank && s'.rank[f.to] >= s'.rank[f.from] + 1 {
      assert f == e || f in s.relaxed;
    }
    forall v | v in s'.rank && s'.rank[v] > 0 ensures Witnessed(s', v) {
      RelaxWitness(es, s, e, last, v);
    }
  }

  lemma RelaxKeeps(ids: set<Id>, es: set<Edge>, s: Progress, e: Edge, last: bool)
    requires Queued(ids, es, s) && RanksSoFar(es, s) && e in es && e !in s.relaxed
    requires e.from in s.out && e.from in s.rank && e.to in ids && e.to != e.from
    requires last <==> Unrelaxed(es, s.relaxed + {e}, e.to) == {}
    ensures Queued(ids, es, Relax(s, e, last)) && RanksSoFar(es, Relax(s, e, last))
    ensures e.to !in s.out && e.to !in s.queue
  {
    assert e in Unrelaxed(es, s.relaxed, e.to);
    RelaxQueue(ids, es, s, e, last);
    RelaxRanks(es, s, e, last);
  }

  // ---- the loop ----

  ghost function IdSet(g: Graph): (ids: set<Id>)
    ensures forall id :: id in ids <==> HasNode(g, id)
  {
    set id | id in NodeIds(g.nodes)
  }

  lemma ForwardIsWithout(g: Graph, back: seq<Edge>, ids: set<Id>)
    requires WellFormed(g) && back == BackSeq(NodeIds(g.nodes), g.edges) && ids == set e | e in back :: e.id
    ensures EdgeSet(Without(g.edges, ids)) == ForwardSet(NodeIds(g.nodes), g.edges)
  {
    forall e | e in g.edges ensures e.id in ids <==> e in BackSet(NodeIds(g.nodes), g.edges) {
      if e.id in ids {
        var b :| b in back && b.id == e.id;
        assert FromNodes(NodeIds(g.nodes), g.edges);
        BackClosesCycle(NodeIds(g.nodes), g.edges, b);
        EdgeByIdUnique(g.edges, e, b);
      }
    }
  }

  lemma CountNext(fwd: seq<Edge>, i: nat, v: Id)
    requires i < |fwd| && UniqueEdgeIds(fwd)
    ensures |Unrelaxed(EdgeSet(fwd[..i + 1]), {}, v)| == |Unrelaxed(EdgeSet(fwd[..i]), {}, v)| + (if fwd[i].to == v then 1 else 0)
  {
    var e := fwd[i];
    assert fwd[..i + 1] == fwd[..i] + [e];
    assert e !in fwd[..i] by {
      forall j | 0 <= j < i ensures fwd[j] != e {
        assert Nth(fwd, j).id != Nth(fwd, i).id;
      }
    }
    var old_ := Unrelaxed(EdgeSet(fwd[..i]), {}, v);
    var new_ := Unrelaxed(EdgeSet(fwd[..i + 1]), {}, v);
    if e.to == v {
      assert new_ == old_ + {e} && e !in old_;
    } else {
      assert new_ == old_;
    }
  }

  /** In-degrees, counted edge by edge. */
  method InDegrees(g: Graph, fwd: seq<Edge>) returns (ind: map<Id, nat>)
    requires UniqueEdgeIds(fwd) && forall e :: e in fwd ==> HasNode(g, e.to)
    ensures forall v {:trigger HasNode(g, v)} :: HasNode(g, v) ==> v in ind && ind[v] == |Unrelaxed(EdgeSet(fwd), {}, v)|
  {
    ind := map id | id in NodeIds(g.nodes) :: 0;
    for i := 0 to |fwd|
      invariant forall v {:trigger HasNode(g, v)} :: HasNode(g, v) ==> v in ind && ind[v] == |Unrelaxed(EdgeSet(fwd[..i]), {}, v)|
    {
      var e := fwd[i];
      assert e in fwd && HasNode(g, e.to);
      ghost var before := ind;
      ind := ind[e.to := ind[e.to] + 1];
      forall v | HasNode(g, v) ensures v in ind && ind[v] == |Unrelaxed(EdgeSet(fwd[..i + 1]), {}, v)| {
        CountNext(fwd, i, v);
      }
    }
    assert fwd[..|fwd|] == fwd;
  }

  method StartQueue(g: Graph, ind: map<Id, nat>, ghost es: set<Edge>) returns (queue: seq<Id>, rank: map<Id, nat>)
    requires UniqueNodeIds(g.nodes)
    requires forall v {:trigger HasNode(g, v)} :: HasNode(g, v) ==> v in ind && ind[v] == |Unrelaxed(es, {}, v)|
    ensures Queued(IdSet(g), es, Progress({}, queue, {}, rank)) && RanksSoFar(es, Progress({}, queue, {}, rank))
  {
    queue, rank := [], map[];
    for i := 0 to |g.nodes|
      invariant forall v :: v in queue <==> HasNode(g, v) && Unrelaxed(es, {}, v) == {} && exists j {:trigger Nth(g.nodes, j)} :: 0 <= j < i && Nth(g.nodes, j).id == v
      invariant forall a, b {:trigger Nth(queue, a), Nth(queue, b)} :: 0 <= a < b < |queue| ==> Nth(queue, a) != Nth(queue, b)
      invariant forall v :: v in rank <==> v in queue
      invariant forall v :: v in rank ==> rank[v] == 0
    {
      var id := g.nodes[i].id;
      assert NodeIds(g.nodes)[i] == id && HasNode(g, id) && Nth(g.nodes, i).id == id;
      if ind[id] == 0 {
        ghost var before := queue;
        queue := queue + [id];
        rank := rank[id := 0];
        forall a, b | 0 <= a < b < |queue| ensures Nth(queue, a) != Nth(queue, b) {
          if b < |before| {
            assert Nth(before, a) != Nth(before, b);
          } else {
            assert before[a] in before;
          }
        }
      }
    }
    forall v | HasNode(g, v) ensures exists j {:trigger Nth(g.nodes, j)} :: 0 <= j < |g.nodes| && Nth(g.nodes, j).id == v {
      var j :| 0 <= j < |NodeIds(g.nodes)| && NodeIds(g.nodes)[j] == v;
      assert Nth(g.nodes, j).id == v;
    }
  }

  ghost predicate Ranking(ids: set<Id>, es: set<Edge>, s: Progress) {
    Queued(ids, es, s) && RanksSoFar(es, s)
  }

  /** Taking the head of the queue. */
  ghost function Dequeue(s: Progress): Progress
    requires s.queue != []
  {
    Progress(s.out + {s.queue[0]}, s.queue[1..], s.relaxed, s.rank)
  }

  lemma DequeueKeeps(ids: set<Id>, es: set<Edge>, s: Progress)
    requires Ranking(ids, es, s) && s.queue != []
    ensures Ranking(ids, es, Dequeue(s))
    ensures s.queue[0] in ids && s.queue[0] !in s.out
  {
    var s' := Dequeue(s);
    assert s.queue == [s.queue[0]] + s.queue[1..];
    forall i, j | 0 <= i < j < |s'.queue| ensures Nth(s'.queue, i) != Nth(s'.queue, j) {
      assert Nth(s.queue, i + 1) != Nth(s.queue, j + 1);
    }
    forall j | 0 <= j < |s'.queue| ensures s'.queue[j] != s.queue[0] {
      assert Nth(s.queue, 0) != Nth(s.queue, j + 1);
    }
    forall v | v in s'.rank && s'.rank[v] > 0 ensures Witnessed(s', v) {
      assert Witnessed(s, v);
    }
  }

  lemma CountedNext(ids: set<Id>, es: set<Edge>, s: Progress, e: Edge, last: bool, ind0: map<Id, nat>, ind: map<Id, nat>)
    requires e in es && e !in s.relaxed && e.from in s.rank
    requires forall v {:trigger v in ids} :: v in ids ==> v in ind && ind[v] == |Unrelaxed(es, s.relaxed, v)| - (if v == e.to then 1 else 0)
    ensures Counted(es, Relax(s, e, last), ind, ids)
  {
    forall v | v in ids ensures v in ind && ind[v] == |Unrelaxed(es, s.relaxed + {e}, v)| {
      RelaxCounts(es, s.relaxed, e, v);
    }
  }

  /** Relax one edge: climb the target, count it down, and queue it when nothing else holds it. */
  method RelaxOne(ghost ids: set<Id>, ghost es: set<Edge>, e: Edge, ghost s0: Progress, queue0: seq<Id>,
                  rank0: map<Id, nat>, ind0: map<Id, nat>)
    returns (queue: seq<Id>, rank: map<Id, nat>, ind: map<Id, nat>, ghost s: Progress)
    requires Ranking(ids, es, s0) && Counted(es, s0, ind0, ids) && s0.queue == queue0 && s0.rank == rank0
    requires e in es && e.from in s0.out && e !in s0.relaxed && e.to in ids && e.to != e.from
    ensures Ranking(ids, es, s) && Counted(es, s, ind, ids) && s.queue == queue && s.rank == rank
    ensures s.out == s0.out && s.relaxed == s0.relaxed + {e}
  {
    assert e.to in ids;
    RelaxCounts(es, s0.relaxed, e, e.to);
    var climbed := rank0[e.from] + 1;
    rank := rank0[e.to := if e.to in rank0 && rank0[e.to] >= climbed then rank0[e.to] else climbed];
    ind := ind0[e.to := ind0[e.to] - 1];
    var last := ind[e.to] == 0;
    queue := if last then queue0 + [e.to] else queue0;
    RelaxKeeps(ids, es, s0, e, last);
    CountedNext(ids, es, s0, e, last, ind0, ind);
    s := Relax(s0, e, last);
  }

  /** The edges relaxed after the first `i` of `next`. */
  ghost function RelaxedUpTo(s0: Progress, next: seq<Edge>, i: nat): set<Edge>
    requires i <= |next|
  {
    s0.relaxed + set e | e in next[..i]
  }

  lemma RelaxedNext(s0: Progress, next: seq<Edge>, i: nat)
    requires i < |next| && UniqueEdgeIds(next) && forall e :: e in next ==> e !in s0.relaxed
    ensures next[i] !in RelaxedUpTo(s0, next, i)
    ensures RelaxedUpTo(s0, next, i + 1) == RelaxedUpTo(s0, next, i) + {next[i]}
  {
    assert next[..i + 1] == next[..i] + [next[i]];
    assert next[i] in next;
    forall j | 0 <= j < i ensures next[j] != next[i] {
      assert Nth(next, j).id != Nth(next, i).id;
    }
  }

  /** Relax every edge leaving the node just dequeued. */
  method RelaxFrom(ghost ids: set<Id>, ghost es: set<Edge>, u: Id, next: seq<Edge>, ghost s0: Progress, queue0: seq<Id>,
                   rank0: map<Id, nat>, ind0: map<Id, nat>)
    returns (queue: seq<Id>, rank: map<Id, nat>, ind: map<Id, nat>, ghost s: Progress)
    requires Ranking(ids, es, s0) && Counted(es, s0, ind0, ids) && s0.queue == queue0 && s0.rank == rank0
    requires u in s0.out && UniqueEdgeIds(next)
    requires forall e :: e in next ==> e in es && e.from == u && e !in s0.relaxed && e.to in ids && e.to != u
    ensures Ranking(ids, es, s) && Counted(es, s, ind, ids) && s.queue == queue && s.rank == rank
    ensures s.out == s0.out && forall e :: e in s.relaxed <==> e in s0.relaxed || e in next
  {
    queue, rank, ind, s := queue0, rank0, ind0, s0;
    for i := 0 to |next|
      invariant Ranking(ids, es, s) && Counted(es, s, ind, ids) && s.queue == queue && s.rank == rank
      invariant s.out == s0.out && s.relaxed == RelaxedUpTo(s0, next, i)
    {
      RelaxedNext(s0, next, i);
      assert next[i] in next;
      queue, rank, ind, s := RelaxOne(ids, es, next[i], s, queue, rank, ind);
    }
    assert next[..|next|] == next;
  }

  /** With an empty queue every node has been dequeued: a node left over would have an unrelaxed
      incoming edge from another one left over, against the forward edges, for ever. */
  lemma {:induction false} AllDequeued(g: Graph, s: Progress, v: Id)
    requires WellFormed(g) && s.queue == [] && HasNode(g, v)
    requires var es := ForwardSet(NodeIds(g.nodes), g.edges);
             Queued(IdSet(g), es, s) && forall e :: e in es && e.from in s.out ==> e in s.relaxed
    ensures v in s.out
    decreases Depth(g, v)
  {
    var es := ForwardSet(NodeIds(g.nodes), g.edges);
    if v !in s.out {
      assert v in IdSet(g) && Unrelaxed(es, s.relaxed, v) != {};
      var e :| e in Unrelaxed(es, s.relaxed, v);
      WellFormedFromNodes(g);
      ForwardDeepens(g, e);
      assert HasNode(g, e.from);
      AllDequeued(g, s, e.from);
    }
  }

  lemma ForwardNoLoop(g: Graph, e: Edge)
    requires WellFormed(g) && e in ForwardSet(NodeIds(g.nodes), g.edges)
    ensures HasNode(g, e.from) && HasNode(g, e.to) && e.to != e.from
  {
    WellFormedFromNodes(g);
    ForwardDeepens(g, e);
  }

  /** Ranks every node by the longest forward path that ends at it. Every node is dequeued, so the
      fallback rank for unranked nodes is never used. */
  method AssignRanks(g: Graph) returns (rank: map<Id, nat>, ghost dequeued: set<Id>)
    requires WellFormed(g)
    ensures forall v :: v in dequeued <==> HasNode(g, v)
    ensures forall v :: HasNode(g, v) ==> v in rank
    ensures Tight(ForwardSet(NodeIds(g.nodes), g.edges), rank)
  {
    var back := BackEdges(NodeIds(g.nodes), g.edges);
    var backIds := set e | e in back :: e.id;
    var fwd := Without(g.edges, backIds);
    ghost var es := ForwardSet(NodeIds(g.nodes), g.edges);
    ForwardIsWithout(g, back, backIds);
    WithoutUnique(g.edges, backIds);
    var succ := BuildOut(fwd);
    var ind := InDegrees(g, fwd);
    var queue;
    queue, rank := StartQueue(g, ind, es);
    ghost var s := Progress({}, queue, {}, rank);
    while queue != []
      invariant Ranking(IdSet(g), es, s) && Counted(es, s, ind, IdSet(g)) && s.queue == queue && s.rank == rank
      invariant forall e :: e in es ==> (e in s.relaxed <==> e.from in s.out)
      decreases IdSet(g) - s.out
    {
      var u := queue[0];
      DequeueKeeps(IdSet(g), es, s);
      ghost var s0 := Dequeue(s);
      var next := if u in succ then succ[u] else [];
      assert next == Out(fwd, u);
      OutDistinct(fwd, u);
      forall e | e in next ensures e in es && e.to in IdSet(g) && e.to != u {
        ForwardNoLoop(g, e);
      }
      ghost var out0 := s.out;
      queue, rank, ind, s := RelaxFrom(IdSet(g), es, u, next, s0, queue[1..], rank, ind);
      assert IdSet(g) - s.out < IdSet(g) - out0 by {
        assert u in IdSet(g) - out0 && u !in IdSet(g) - s.out;
      }
    }
    dequeued := s.out;
    forall v | HasNode(g, v) ensures v in s.out {
      AllDequeued(g, s, v);
    }
    forall e | e in es ensures e.from in rank && e.to in rank && rank[e.to] >= rank[e.from] + 1 {
      assert HasNode(g, e.from);
    }
    forall v | v in rank && rank[v] > 0 ensures Climbed(es, rank, v) {
      assert Witnessed(s, v);
    }
  }

  /** The two together: the rank is the longest-path length, and every forward edge climbs. */
  lemma RanksAreLongest(g: Graph, rank: map<Id, nat>, v: Id)
    requires Tight(ForwardSet(NodeIds(g.nodes), g.edges), rank) && v in rank
    ensures Longest(ForwardSet(NodeIds(g.nodes), g.edges), v, rank[v])
  {
    TightIsLongest(ForwardSet(NodeIds(g.nodes), g.edges), rank, v);
  }
}
