/** One walk. */
module Walk {
  // Adjacency, loop classification and rows indexed once, then a breadth-first pass that finds what is in
  // play and a readiness check over it.

  import opened Graphs
  import opened DepthFirst
  import opened Interpreter

  /** Declaration index, the first sort key of the ready list. */
  function DeclAt(g: Graph, id: Id): nat {
    FindNode(g.nodes, id)
  }

  predicate Before(g: Graph, a: Key, b: Key) {
    DeclAt(g, a.id) < DeclAt(g, b.id) || (DeclAt(g, a.id) == DeclAt(g, b.id) && a.iter < b.iter)
  }

  ghost predicate Ordered(g: Graph, ks: seq<Key>) {
    forall i, j {:trigger Nth(ks, i), Nth(ks, j)} :: 0 <= i < j < |ks| ==> Before(g, Nth(ks, i), Nth(ks, j))
  }

  lemma BeforeTotal(g: Graph, a: Key, b: Key)
    requires HasNode(g, a.id) && HasNode(g, b.id) && a != b
    ensures Before(g, a, b) || Before(g, b, a)
  {
    if DeclAt(g, a.id) == DeclAt(g, b.id) {
      assert g.nodes[DeclAt(g, a.id)].id == a.id;
    }
  }

  lemma OrderedAt(g: Graph, ks: seq<Key>, i: nat, j: nat)
    requires Ordered(g, ks) && i < j < |ks|
    ensures Before(g, ks[i], ks[j])
  {
    assert Before(g, Nth(ks, i), Nth(ks, j));
  }

  /** In declaration order of the nodes, and for one node by iteration. */
  lemma OrderedMeans(g: Graph, ks: seq<Key>, i: nat, j: nat)
    requires Ordered(g, ks) && i < j < |ks| && forall k :: k in ks ==> HasNode(g, k.id)
    ensures FindNode(g.nodes, ks[i].id) < FindNode(g.nodes, ks[j].id) || (ks[i].id == ks[j].id && ks[i].iter < ks[j].iter)
  {
    OrderedAt(g, ks, i, j);
    HasNodeIff(g, ks[i].id);
    HasNodeIff(g, ks[j].id);
  }

  lemma OrderedHead(g: Graph, ks: seq<Key>)
    requires Ordered(g, ks) && ks != []
    ensures Ordered(g, ks[1..])
    ensures forall k :: k in ks[1..] <==> k in ks && k != ks[0]
    ensures forall k :: k in ks && k != ks[0] ==> Before(g, ks[0], k)
  {
    forall i, j | 0 <= i < j < |ks[1..]| ensures Before(g, Nth(ks[1..], i), Nth(ks[1..], j)) {
      OrderedAt(g, ks, i + 1, j + 1);
    }
    forall k | k in ks && k != ks[0] ensures k in ks[1..] && Before(g, ks[0], k) {
      var i :| 0 <= i < |ks| && ks[i] == k;
      assert ks[1..][i - 1] == k;
      OrderedAt(g, ks, 0, i);
    }
    assert ks[0] !in ks[1..] by {
      forall j | 1 <= j < |ks| ensures Before(g, ks[0], ks[j]) {
        OrderedAt(g, ks, 0, j);
      }
    }
  }

  /** The ready list is canonical: the same keys always come in the same order, whatever order
      the reached set was enumerated in. */
  lemma {:induction false} OrderIsCanonical(g: Graph, ks: seq<Key>, ls: seq<Key>)
    requires Ordered(g, ks) && Ordered(g, ls)
    requires forall k :: k in ks <==> k in ls
    ensures ks == ls
  {
    if ks != [] { OrderedHead(g, ks); }
    if ls != [] { OrderedHead(g, ls); }
    assert ks != [] ==> ks[0] in ls;
    assert ls != [] ==> ls[0] in ks;
    if ks != [] && ls != [] {
      assert ks[0] == ls[0];
      OrderIsCanonical(g, ks[1..], ls[1..]);
    }
  }

  function InsertKey(g: Graph, ks: seq<Key>, k: Key): (r: seq<Key>)
    ensures forall x :: x in r <==> x in ks || x == k
  {
    if ks == [] || Before(g, k, ks[0]) then [k] + ks else [ks[0]] + InsertKey(g, ks[1..], k)
  }

  lemma OrderedCons(g: Graph, k: Key, ks: seq<Key>)
    requires Ordered(g, ks) && forall x :: x in ks ==> Before(g, k, x)
    ensures Ordered(g, [k] + ks)
  {
    var r := [k] + ks;
    forall i, j | 0 <= i < j < |r| ensures Before(g, Nth(r, i), Nth(r, j)) {
      if i > 0 {
        OrderedAt(g, ks, i - 1, j - 1);
      } else {
        assert r[j] in ks;
      }
    }
  }

  lemma {:induction false} InsertKeeps(g: Graph, ks: seq<Key>, k: Key)
    requires Ordered(g, ks) && k !in ks && HasNode(g, k.id)
    requires forall x :: x in ks ==> HasNode(g, x.id)
    ensures Ordered(g, InsertKey(g, ks, k))
  {
    var r := InsertKey(g, ks, k);
    if ks != [] {
      OrderedHead(g, ks);
      if Before(g, k, ks[0]) {
        OrderedCons(g, k, ks);
      } else {
        BeforeTotal(g, k, ks[0]);
        InsertKeeps(g, ks[1..], k);
        OrderedCons(g, ks[0], r[1..]);
        assert r == [ks[0]] + r[1..];
      }
    }
  }

  function NodeIdSet(nodes: seq<Node>): (ids: set<Id>)
    ensures forall id :: id in ids <==> exists i :: 0 <= i < |nodes| && nodes[i].id == id
  {
    set i | 0 <= i < |nodes| :: nodes[i].id
  }

  /** Every key the walk can put in play. */
  ghost function Universe(g: Graph): (u: set<Key>)
    ensures forall k :: k in u <==> HasNode(g, k.id) && k.iter <= MAX_ITERATIONS
  {
    set id, iter | id in NodeIdSet(g.nodes) && 0 <= iter <= MAX_ITERATIONS :: Key(id, iter)
  }

  // ---- the breadth-first pass, seen from outside ----

  /** A loop decision in play would start iteration MAX_ITERATIONS + 1 of node `to`. */
  ghost predicate CapExceeded(g: Graph, rows: Rows, to: Id) {
    exists e, k :: Overflows(g, rows, e, k) && e.to == to
  }

  ghost predicate WithinCap(g: Graph, rows: Rows) {
    forall e, k :: !Overflows(g, rows, e, k)
  }

  /** The first `n` out-edges of `k` lead to keys already found, none beyond the cap. */
  ghost predicate Expanded(g: Graph, rows: Rows, reached: set<Key>, k: Key, n: nat) {
    var es := Out(g.edges, k.id);
    n <= |es| && forall i :: 0 <= i < n && Passes(g, rows, es[i], k.iter) ==>
      Landing(g, es[i], k.iter) in reached && Landing(g, es[i], k.iter).iter <= MAX_ITERATIONS
  }

  lemma ExpandedNext(g: Graph, rows: Rows, reached: set<Key>, reached': set<Key>, k: Key, n: nat)
    requires Expanded(g, rows, reached, k, n) && n < |Out(g.edges, k.id)| && reached <= reached'
    requires var e := Out(g.edges, k.id)[n]; Passes(g, rows, e, k.iter) ==>
               Landing(g, e, k.iter) in reached' && Landing(g, e, k.iter).iter <= MAX_ITERATIONS
    ensures Expanded(g, rows, reached', k, n + 1)
  {
  }

  ghost predicate FullyExpanded(g: Graph, rows: Rows, reached: set<Key>, k: Key) {
    Expanded(g, rows, reached, k, |Out(g.edges, k.id)|)
  }

  /** Found keys really are in play, and within the cap. */
  ghost predicate Sure(g: Graph, rows: Rows, ks: set<Key>) {
    forall k :: k in ks ==> Reached(g, rows, k) && k in Universe(g)
  }

  lemma SureAppend(g: Graph, rows: Rows, ks: seq<Key>, k: Key)
    requires Sure(g, rows, set x | x in ks) && Reached(g, rows, k) && k in Universe(g)
    ensures Sure(g, rows, set x | x in ks + [k])
    ensures (set x | x in ks + [k]) == (set x | x in ks) + {k}
  {
  }

  /** The invariant of the pass: seeds found, everything found is queued or expanded. */
  ghost predicate Frontier(g: Graph, rows: Rows, reached: set<Key>, queue: seq<Key>) {
    && (forall k :: Seed(g, rows, k) ==> k in reached)
    && (forall k :: k in queue ==> k in reached)
    && Sure(g, rows, reached)
    && (forall k :: k in reached ==> k in queue || FullyExpanded(g, rows, reached, k))
  }

  lemma FullyExpandedMono(g: Graph, rows: Rows, reached: set<Key>, more: set<Key>, k: Key)
    requires FullyExpanded(g, rows, reached, k)
    ensures FullyExpanded(g, rows, reached + more, k)
  {
  }

  /** A key found is queued, or is the one just expanded, or was expanded before. */
  lemma FrontierKey(g: Graph, rows: Rows, reached: set<Key>, queue: seq<Key>, found: seq<Key>, k: Key)
    requires queue != [] && (k in reached || k in found)
    requires k in reached ==> k in queue || FullyExpanded(g, rows, reached, k)
    requires FullyExpanded(g, rows, reached + (set x | x in found), queue[0])
    ensures k in queue[1..] + found || FullyExpanded(g, rows, reached + (set x | x in found), k)
  {
    assert queue == [queue[0]] + queue[1..];
    if k !in found && k !in queue {
      FullyExpandedMono(g, rows, reached, (set x | x in found), k);
    }
  }

  lemma FrontierStep(g: Graph, rows: Rows, reached: set<Key>, queue: seq<Key>, found: seq<Key>)
    requires Frontier(g, rows, reached, queue) && queue != []
    requires Sure(g, rows, set k | k in found)
    requires FullyExpanded(g, rows, reached + (set k | k in found), queue[0])
    ensures Frontier(g, rows, reached + (set k | k in found), queue[1..] + found)
  {
    var reached' := reached + (set k | k in found);
    forall k | k in reached'
      ensures k in queue[1..] + found || FullyExpanded(g, rows, reached', k)
    {
      FrontierKey(g, rows, reached, queue, found, k);
    }
  }

  lemma FrontierShrinks(g: Graph, rows: Rows, reached: set<Key>, found: seq<Key>)
    requires Sure(g, rows, set k | k in found) && forall k :: k in found ==> k !in reached
    ensures found != [] ==> Universe(g) - (reached + set k | k in found) < Universe(g) - reached
    ensures found == [] ==> reached + (set k | k in found) == reached
  {
    if found != [] {
      assert found[0] in Universe(g) - reached;
    }
  }

  lemma FrontierDone(g: Graph, rows: Rows, reached: set<Key>)
    requires Frontier(g, rows, reached, [])
    ensures forall k :: k in reached <==> Reached(g, rows, k)
    ensures WithinCap(g, rows)
  {
    forall x, y | x in reached && Link(g, rows, x, y) ensures y in reached {
      var e :| e in g.edges && e.from == x.id && Passes(g, rows, e, x.iter) && y == Landing(g, e, x.iter);
      assert FullyExpanded(g, rows, reached, x);
      assert e in Out(g.edges, x.id);
    }
    forall k | Reached(g, rows, k) ensures k in reached {
      ReachedWithin(g, rows, reached, k);
    }
    forall e, k ensures !Overflows(g, rows, e, k) {
      assert e in g.edges && e.from == k.id ==> e in Out(g.edges, k.id);
      assert k in reached ==> FullyExpanded(g, rows, reached, k);
    }
  }

  // ---- readiness, edge by edge ----

  ghost predicate EdgeLive(g: Graph, rows: Rows, e: Edge, k: Key) {
    exists src :: LiveIn(g, rows, e, src, k)
  }

  ghost predicate EdgeWaits(g: Graph, rows: Rows, e: Edge, k: Key) {
    exists src :: LiveIn(g, rows, e, src, k) && !Done(rows, src)
  }

  ghost predicate LiveWithin(g: Graph, rows: Rows, k: Key, n: nat) {
    exists j {:trigger Nth(g.edges, j)} :: 0 <= j < n && j < |g.edges| && EdgeLive(g, rows, Nth(g.edges, j), k)
  }

  ghost predicate WaitsWithin(g: Graph, rows: Rows, k: Key, n: nat) {
    exists j {:trigger Nth(g.edges, j)} :: 0 <= j < n && j < |g.edges| && EdgeWaits(g, rows, Nth(g.edges, j), k)
  }

  lemma SatisfiedByEdges(g: Graph, rows: Rows, k: Key)
    ensures Satisfied(g, rows, k) <==> LiveWithin(g, rows, k, |g.edges|) && !WaitsWithin(g, rows, k, |g.edges|)
  {
    forall e, src | LiveIn(g, rows, e, src, k)
      ensures LiveWithin(g, rows, k, |g.edges|)
      ensures !Done(rows, src) ==> WaitsWithin(g, rows, k, |g.edges|)
    {
      var j :| 0 <= j < |g.edges| && g.edges[j] == e;
      assert EdgeLive(g, rows, Nth(g.edges, j), k);
    }
  }

  /** The only key an edge into `k` can come from. */
  lemma SourceOf(g: Graph, e: Edge, k: Key, src: Key)
    requires e in g.edges && e.to == k.id && (e in LoopEdges(g) ==> k.iter > 0)
    requires src == Key(e.from, if e in LoopEdges(g) then k.iter - 1 else k.iter)
    ensures forall s :: Feeds(g, e, s, k) <==> s == src
  {
  }

  /** A seed of one of the first `i` nodes. */
  ghost predicate SeedAmong(g: Graph, rows: Rows, i: nat, k: Key) {
    i <= |g.nodes| && Seed(g, rows, k) && exists j {:trigger Nth(g.nodes, j)} :: 0 <= j < i && Nth(g.nodes, j).id == k.id
  }

  lemma SeedNext(g: Graph, rows: Rows, i: nat, k: Key)
    requires UniqueNodeIds(g.nodes) && i < |g.nodes|
    ensures SeedAmong(g, rows, i + 1, k) <==>
            SeedAmong(g, rows, i, k) || (k == Key(g.nodes[i].id, 0) && g.nodes[i].kind == Trigger && k in rows)
  {
    NodeByIdUnique(g.nodes, g.nodes[i]);
    assert Nth(g.nodes, i) == g.nodes[i];
  }

  lemma SeedAnywhere(g: Graph, rows: Rows, k: Key)
    ensures SeedAmong(g, rows, |g.nodes|, k) <==> Seed(g, rows, k)
  {
    if Seed(g, rows, k) {
      HasNodeIff(g, k.id);
      var n := NodeById(g.nodes, k.id).value;
      var j :| 0 <= j < |g.nodes| && g.nodes[j] == n;
      assert Nth(g.nodes, j).id == k.id;
    }
  }

  class Walker {
    const g: Graph
    const rows: Rows
    var out: map<Id, seq<Edge>>
    var back: set<Id>

    ghost predicate Valid()
      reads this
    {
      && WellFormed(g)
      && (forall k :: k in rows ==> HasNode(g, k.id))
      && (forall id :: (if id in out then out[id] else []) == Out(g.edges, id))
      && (forall e :: e in g.edges ==> (e.id in back <==> e in LoopEdges(g)))
    }

    constructor (g: Graph, rows: Rows)
      requires WellFormed(g) && forall k :: k in rows ==> HasNode(g, k.id)
      ensures Valid() && this.g == g && this.rows == rows
    {
      this.g := g;
      this.rows := rows;
      out := map[];
      back := {};
      new;
      out := BuildOut(g.edges);
      WellFormedFromNodes(g);
      var loops := BackEdges(NodeIds(g.nodes), g.edges);
      back := set e | e in loops :: e.id;
      forall e | e in g.edges ensures e.id in back <==> e in LoopEdges(g) {
        if e.id in back {
          var b :| b in loops && b.id == e.id;
          BackClosesCycle(NodeIds(g.nodes), g.edges, b);
          EdgeByIdUnique(g.edges, e, b);
        }
      }
    }

    predicate PassesNow(e: Edge, iter: nat)
      requires Valid() && e in g.edges
      reads this
      ensures PassesNow(e, iter) <==> Passes(g, rows, e, iter)
    {
      if e.id in back then Taken(g, rows, e, iter) else !Pruned(g, rows, e, iter)
    }

    function LandingNow(e: Edge, iter: nat): (k: Key)
      requires Valid() && e in g.edges
      reads this
      ensures k == Landing(g, e, iter)
    {
      Key(e.to, if e.id in back then iter + 1 else iter)
    }

    /** The seeds: trigger nodes whose row exists at iteration 0. */
    method Seeds() returns (seeds: seq<Key>)
      requires Valid()
      ensures forall k :: k in seeds <==> Seed(g, rows, k)
    {
      seeds := [];
      for i := 0 to |g.nodes|
        invariant forall k {:trigger SeedAmong(g, rows, i, k)} :: k in seeds <==> SeedAmong(g, rows, i, k)
      {
        var n := g.nodes[i];
        ghost var before := seeds;
        if n.kind == Trigger && Key(n.id, 0) in rows && Key(n.id, 0) !in seeds {
          seeds := seeds + [Key(n.id, 0)];
        }
        forall k
          ensures k in seeds <==> SeedAmong(g, rows, i + 1, k)
        {
          SeedNext(g, rows, i, k);
          assert k in before <==> SeedAmong(g, rows, i, k);
          assert Key(n.id, 0) in before <==> SeedAmong(g, rows, i, Key(n.id, 0));
        }
      }
      forall k
        ensures SeedAmong(g, rows, |g.nodes|, k) <==> Seed(g, rows, k)
      {
        SeedAnywhere(g, rows, k);
      }
    }

    lemma FoundOne(e: Edge, cur: Key, k: Key)
      requires Valid() && e in g.edges && e.from == cur.id && Reached(g, rows, cur) && Passes(g, rows, e, cur.iter)
      requires k == Landing(g, e, cur.iter) && k.iter <= MAX_ITERATIONS
      ensures Reached(g, rows, k) && k in Universe(g)
    {
      assert Link(g, rows, cur, k);
      ReachedStep(g, rows, cur, k);
    }

    /** Follows every open edge of one key; returns the keys not found before. */
    method Expand(cur: Key, reached: set<Key>) returns (found: seq<Key>, overflow: Option<Id>)
      requires Valid() && Reached(g, rows, cur) && cur in Universe(g)
      ensures overflow.None? ==> FullyExpanded(g, rows, reached + (set k | k in found), cur)
      ensures overflow.None? ==> Sure(g, rows, set k | k in found) && forall k :: k in found ==> k !in reached
      ensures overflow.Some? ==> CapExceeded(g, rows, overflow.value)
    {
      var es := if cur.id in out then out[cur.id] else [];
      assert es == Out(g.edges, cur.id);
      found := [];
      for i := 0 to |es|
        invariant Sure(g, rows, set k | k in found) && forall k :: k in found ==> k !in reached
        invariant Expanded(g, rows, reached + (set k | k in found), cur, i)
      {
        var e := es[i];
        ghost var before := reached + (set k | k in found);
        assert e in es;
        if PassesNow(e, cur.iter) {
          var k := LandingNow(e, cur.iter);
          if k.iter > MAX_ITERATIONS {
            assert Overflows(g, rows, e, cur);
            return found, Some(e.to);
          }
          if k !in reached && k !in found {
            FoundOne(e, cur, k);
            SureAppend(g, rows, found, k);
            found := found + [k];
          }
        }
        ExpandedNext(g, rows, before, reached + (set k | k in found), cur, i);
      }
      overflow := None;
    }

    /** The breadth-first pass. */
    method InPlay() returns (reached: set<Key>, overflow: Option<Id>)
      requires Valid()
      ensures overflow.None? ==> forall k :: k in reached <==> Reached(g, rows, k)
      ensures overflow.None? ==> forall k :: k in reached ==> k.iter <= MAX_ITERATIONS
      ensures overflow.None? ==> WithinCap(g, rows)
      ensures overflow.Some? ==> CapExceeded(g, rows, overflow.value)
    {
      var queue := Seeds();
      reached := set k | k in queue;
      overflow := None;
      forall k | k in reached ensures Reached(g, rows, k) {
        ReachedSeed(g, rows, k);
      }
      while queue != []
        invariant overflow == None && Frontier(g, rows, reached, queue)
        decreases Universe(g) - reached, |queue|
      {
        var found;
        found, overflow := Expand(queue[0], reached);
        if overflow.Some? {
          return;
        }
        FrontierStep(g, rows, reached, queue, found);
        FrontierShrinks(g, rows, reached, found);
        queue := queue[1..] + found;
        reached := reached + set k | k in found;
      }
      FrontierDone(g, rows, reached);
    }

    /** One incoming edge: is it live, and if so is it still waiting for its source? */
    method Incoming(e: Edge, k: Key, reached: set<Key>) returns (live: bool, waits: bool)
      requires Valid() && e in g.edges && forall x :: x in reached <==> Reached(g, rows, x)
      ensures live <==> EdgeLive(g, rows, e, k)
      ensures waits <==> EdgeWaits(g, rows, e, k)
    {
      if e.to != k.id || (e.id in back && k.iter == 0) {
        return false, false;
      }
      var src := Key(e.from, if e.id in back then k.iter - 1 else k.iter);
      SourceOf(g, e, k, src);
      live := src in reached && !Pruned(g, rows, e, src.iter);
      assert live <==> LiveIn(g, rows, e, src, k);
      waits := live && !Done(rows, src);
    }

    method PredecessorsSatisfied(k: Key, reached: set<Key>) returns (yes: bool)
      requires Valid() && forall x :: x in reached <==> Reached(g, rows, x)
      ensures yes <==> Satisfied(g, rows, k)
    {
      SatisfiedByEdges(g, rows, k);
      yes := false;
      for i := 0 to |g.edges|
        invariant yes <==> LiveWithin(g, rows, k, i)
        invariant !WaitsWithin(g, rows, k, i)
      {
        var live, waits := Incoming(g.edges[i], k, reached);
        assert Nth(g.edges, i) == g.edges[i];
        if waits {
          assert WaitsWithin(g, rows, k, |g.edges|);
          return false;
        }
        yes := yes || live;
      }
    }

    /** The keys that may run now in declaration order, or the loop that would exceed the cap. */
    method ComputeReady() returns (ready: seq<Key>, overflow: Option<Id>)
      requires Valid()
      ensures overflow.None? ==> Ordered(g, ready) && forall k :: k in ready <==> Ready(g, rows, k)
      ensures forall i, j :: 0 <= i < j < |ready| ==>
                FindNode(g.nodes, ready[i].id) < FindNode(g.nodes, ready[j].id) ||
                (ready[i].id == ready[j].id && ready[i].iter < ready[j].iter)
      ensures forall k :: k in ready ==> k.iter <= MAX_ITERATIONS
      ensures overflow.None? ==> WithinCap(g, rows)
      ensures overflow.Some? ==> ready == [] && CapExceeded(g, rows, overflow.value)
    {
      var reached;
      reached, overflow := InPlay();
      ready := [];
      if overflow.Some? {
        return;
      }
      var todo := reached;
      while todo != {}
        invariant todo <= reached && Ordered(g, ready)
        invariant forall k :: k in ready <==> Ready(g, rows, k) && k !in todo
        invariant forall k :: k in ready ==> k.iter <= MAX_ITERATIONS
        decreases |todo|
      {
        var k :| k in todo;
        todo := todo - {k};
        var n := NodeById(g.nodes, k.id);
        if n.Some? && n.value.kind != Trigger && k !in rows {
          var ok := PredecessorsSatisfied(k, reached);
          if ok {
            InsertKeeps(g, ready, k);
            ready := InsertKey(g, ready, k);
          }
        }
      }
      forall i, j | 0 <= i < j < |ready|
        ensures FindNode(g.nodes, ready[i].id) < FindNode(g.nodes, ready[j].id) ||
                (ready[i].id == ready[j].id && ready[i].iter < ready[j].iter)
      {
        OrderedMeans(g, ready, i, j);
      }
    }
  }
}
