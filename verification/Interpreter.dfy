/** The interpreter. */
module Interpreter {
  // The frozen graph, the memoized node rows, and what they say may run next. Everything here is derived
  // from the recorded rows alone.

  import opened Graphs
  import opened DepthFirst

  const MAX_ITERATIONS: nat := 1000

  /** One (graph node, loop iteration). A back edge bumps the iteration by one. */
  datatype Key = Key(id: Id, iter: nat)

  datatype Status = Completed | Parked | Failed

  /** A node row. The result keeps only its string-valued fields. */
  datatype Row = Row(status: Status, result: map<string, string>)

  type Rows = map<Key, Row>

  type World = Key -> map<string, string>

  function Field(result: map<string, string>, name: string): string {
    if name in result then result[name] else ""
  }

  /** The out-port a result selects: a control's `port`, an approval's `decision`. */
  function PortOf(kind: Kind, result: map<string, string>): string {
    match kind
    case Control => Field(result, "port")
    case Approval => Field(result, "decision")
    case _ => ""
  }

  predicate Done(rows: Rows, k: Key) {
    k in rows && rows[k].status == Completed
  }

  function ChosenPort(g: Graph, rows: Rows, k: Key): string {
    if Done(rows, k) then PortOf(KindOf(g, k.id), rows[k].result) else ""
  }

  /** Definitively dead: the source is a resolved routing node that chose another port. */
  predicate Pruned(g: Graph, rows: Rows, e: Edge, iter: nat) {
    Routes(KindOf(g, e.from)) && Done(rows, Key(e.from, iter)) && ChosenPort(g, rows, Key(e.from, iter)) != e.port
  }

  /** Definitively alive: the source is completed and, if it routes, chose this port. */
  predicate Taken(g: Graph, rows: Rows, e: Edge, iter: nat) {
    Done(rows, Key(e.from, iter)) && (Routes(KindOf(g, e.from)) ==> ChosenPort(g, rows, Key(e.from, iter)) == e.port)
  }

  /** Edges with both endpoints present; the classifier ignores the others. */
  function ExistingEdges(g: Graph, edges: seq<Edge>): seq<Edge> {
    if edges == [] then []
    else if HasNode(g, edges[0].from) && HasNode(g, edges[0].to) then [edges[0]] + ExistingEdges(g, edges[1..])
    else ExistingEdges(g, edges[1..])
  }

  lemma {:induction false} AllEdgesExist(g: Graph, edges: seq<Edge>)
    requires forall e :: e in edges ==> HasNode(g, e.from) && HasNode(g, e.to)
    ensures ExistingEdges(g, edges) == edges
  {
    if edges != [] {
      assert edges[0] in edges;
      AllEdgesExist(g, edges[1..]);
    }
  }

  ghost function LoopEdges(g: Graph): set<Edge> {
    BackSet(NodeIds(g.nodes), ExistingEdges(g, g.edges))
  }

  /** Where an edge leads from iteration `iter` of its source. */
  ghost function Landing(g: Graph, e: Edge, iter: nat): Key {
    Key(e.to, if e in LoopEdges(g) then iter + 1 else iter)
  }

  /** Forward edges stay open until a decision closes them; loop edges open only by a decision. */
  ghost predicate Passes(g: Graph, rows: Rows, e: Edge, iter: nat) {
    if e in LoopEdges(g) then Taken(g, rows, e, iter) else !Pruned(g, rows, e, iter)
  }

  ghost predicate Link(g: Graph, rows: Rows, k: Key, k': Key) {
    exists e :: e in g.edges && e.from == k.id && Passes(g, rows, e, k.iter) && k' == Landing(g, e, k.iter)
  }

  ghost predicate Seed(g: Graph, rows: Rows, k: Key) {
    k.iter == 0 && k in rows && KindOf(g, k.id) == Trigger
  }

  ghost predicate ReachedIn(g: Graph, rows: Rows, n: nat, k: Key) {
    if n == 0 then Seed(g, rows, k)
    else exists src :: ReachedIn(g, rows, n - 1, src) && Link(g, rows, src, k)
  }

  /** In play: a seeded trigger leads here along edges that are still open. */
  ghost predicate Reached(g: Graph, rows: Rows, k: Key) {
    exists n: nat :: ReachedIn(g, rows, n, k)
  }

  /** The source key of an edge into `k`; meaningful when the iteration is not negative. */
  ghost predicate Feeds(g: Graph, e: Edge, src: Key, k: Key) {
    e in g.edges && e.from == src.id && k == Landing(g, e, src.iter)
  }

  ghost predicate LiveIn(g: Graph, rows: Rows, e: Edge, src: Key, k: Key) {
    Feeds(g, e, src, k) && Reached(g, rows, src) && !Pruned(g, rows, e, src.iter)
  }

  /** Every live incoming edge has a completed source, and there is one. */
  ghost predicate Satisfied(g: Graph, rows: Rows, k: Key) {
    && (exists e, src :: LiveIn(g, rows, e, src, k))
    && (forall e, src :: LiveIn(g, rows, e, src, k) ==> Done(rows, src))
  }

  ghost predicate Ready(g: Graph, rows: Rows, k: Key) {
    Reached(g, rows, k) && KindOf(g, k.id) != Trigger && HasNode(g, k.id) && k !in rows && Satisfied(g, rows, k)
  }

  /** Some edge in play would start an iteration beyond the cap. */
  ghost predicate Overflows(g: Graph, rows: Rows, e: Edge, k: Key) {
    && Reached(g, rows, k) && k.iter <= MAX_ITERATIONS && e in g.edges && e.from == k.id
    && Passes(g, rows, e, k.iter) && Landing(g, e, k.iter).iter > MAX_ITERATIONS
  }

  /** A key without a row can run exactly when everything in play that leads into it has completed, and at
      least one of those has taken its edge. */
  lemma ReadyMeans(g: Graph, rows: Rows, k: Key)
    requires Reached(g, rows, k) && HasNode(g, k.id) && KindOf(g, k.id) != Trigger && k !in rows
    ensures Ready(g, rows, k) <==>
            && (forall e, src :: Feeds(g, e, src, k) && Reached(g, rows, src) ==> Done(rows, src))
            && (exists e, src :: Feeds(g, e, src, k) && Reached(g, rows, src) && Taken(g, rows, e, src.iter))
  {
    forall e, src | Feeds(g, e, src, k) && Reached(g, rows, src)
      ensures LiveIn(g, rows, e, src, k) <==> !Pruned(g, rows, e, src.iter)
      ensures Done(rows, src) ==> (LiveIn(g, rows, e, src, k) <==> Taken(g, rows, e, src.iter))
      ensures !Done(rows, src) ==> LiveIn(g, rows, e, src, k) && !Taken(g, rows, e, src.iter)
    {
      assert Key(e.from, src.iter) == src;
    }
  }

  // ---- closure facts ----

  lemma ReachedSeed(g: Graph, rows: Rows, k: Key)
    requires Seed(g, rows, k)
    ensures Reached(g, rows, k)
  {
    assert ReachedIn(g, rows, 0, k);
  }

  lemma ReachedStep(g: Graph, rows: Rows, k: Key, k': Key)
    requires Reached(g, rows, k) && Link(g, rows, k, k')
    ensures Reached(g, rows, k')
  {
    var n: nat :| ReachedIn(g, rows, n, k);
    assert ReachedIn(g, rows, n + 1, k');
  }

  lemma {:induction false} ReachedInWithin(g: Graph, rows: Rows, s: set<Key>, n: nat, k: Key)
    requires forall x :: Seed(g, rows, x) ==> x in s
    requires forall x, y :: x in s && Link(g, rows, x, y) ==> y in s
    requires ReachedIn(g, rows, n, k)
    ensures k in s
  {
    if n > 0 {
      var src :| ReachedIn(g, rows, n - 1, src) && Link(g, rows, src, k);
      ReachedInWithin(g, rows, s, n - 1, src);
    }
  }

  /** A set holding the seeds and closed under links holds everything reached. */
  lemma ReachedWithin(g: Graph, rows: Rows, s: set<Key>, k: Key)
    requires forall x :: Seed(g, rows, x) ==> x in s
    requires forall x, y :: x in s && Link(g, rows, x, y) ==> y in s
    requires Reached(g, rows, k)
    ensures k in s
  {
    var n: nat :| ReachedIn(g, rows, n, k);
    ReachedInWithin(g, rows, s, n, k);
  }

  /** Whatever is reached without being a seed was reached over an open edge from something reached. */
  lemma ReachedFrom(g: Graph, rows: Rows, k: Key) returns (e: Edge, src: Key)
    requires Reached(g, rows, k) && !Seed(g, rows, k)
    ensures Reached(g, rows, src) && Feeds(g, e, src, k) && Passes(g, rows, e, src.iter)
  {
    var n: nat :| ReachedIn(g, rows, n, k);
    src :| ReachedIn(g, rows, n - 1, src) && Link(g, rows, src, k);
    e :| e in g.edges && e.from == src.id && Passes(g, rows, e, src.iter) && k == Landing(g, e, src.iter);
  }

  // ---- progress: the interpreter never deadlocks ----

  lemma {:induction false} IndexInBounded(done: seq<Id>, id: Id)
    ensures IndexIn(done, id) <= |done|
  {
    if done != [] {
      IndexInBounded(done[1..], id);
    }
  }

  /** Position of a node along the forward edges. */
  ghost function Depth(g: Graph, id: Id): nat {
    var done := Explore(NodeIds(g.nodes), g.edges).done;
    IndexInBounded(done, id);
    |done| - IndexIn(done, id)
  }

  lemma WellFormedFromNodes(g: Graph)
    requires WellFormed(g)
    ensures FromNodes(NodeIds(g.nodes), g.edges)
    ensures LoopEdges(g) == BackSet(NodeIds(g.nodes), g.edges)
  {
    AllEdgesExist(g, g.edges);
  }

  lemma ForwardDeepens(g: Graph, e: Edge)
    requires WellFormed(g) && e in g.edges && e !in LoopEdges(g)
    ensures Depth(g, e.from) < Depth(g, e.to)
  {
    WellFormedFromNodes(g);
    ForwardRanked(NodeIds(g.nodes), g.edges);
    assert e in ForwardSet(NodeIds(g.nodes), g.edges);
  }

  /** A completed predecessor has committed the run to a trigger node that holds no row: triggers
      are seeded and never scheduled, so such a key waits for ever. */
  ghost predicate StrayTrigger(g: Graph, rows: Rows, k: Key) {
    KindOf(g, k.id) == Trigger && k !in rows && exists e, src :: Feeds(g, e, src, k) && Taken(g, rows, e, src.iter)
  }

  /** If something in play has no row yet and every recorded row is completed, then something can
      run now, or the run has been led into a trigger. The descent goes against the forward edges
      within an iteration and to the previous iteration over a loop edge; that it ends is the
      acyclicity of the forward edges. */
  lemma {:induction false} Progress(g: Graph, rows: Rows, k: Key) returns (k': Key)
    requires WellFormed(g) && Reached(g, rows, k) && k !in rows
    requires forall x :: x in rows ==> rows[x].status == Completed
    ensures Ready(g, rows, k') || StrayTrigger(g, rows, k')
    decreases k.iter, Depth(g, k.id)
  {
    var e, src := ReachedFrom(g, rows, k);
    assert HasNode(g, k.id);
    if src !in rows {
      ForwardDeepens(g, e);
      k' := Progress(g, rows, src);
    } else if KindOf(g, k.id) == Trigger {
      assert Feeds(g, e, src, k) && Taken(g, rows, e, src.iter);
      k' := k;
    } else if exists e', src' :: LiveIn(g, rows, e', src', k) && !Done(rows, src') {
      var e', src' :| LiveIn(g, rows, e', src', k) && !Done(rows, src');
      if e' !in LoopEdges(g) {
        ForwardDeepens(g, e');
      }
      k' := Progress(g, rows, src');
    } else {
      assert LiveIn(g, rows, e, src, k);
      k' := k;
    }
  }

  // ---- commitment: what has been executed was never a guess ----

  ghost predicate TakenLink(g: Graph, rows: Rows, k: Key, k': Key) {
    exists e :: Feeds(g, e, k, k') && Taken(g, rows, e, k.iter)
  }

  ghost predicate CommittedIn(g: Graph, rows: Rows, n: nat, k: Key) {
    if n == 0 then Seed(g, rows, k) && Done(rows, k)
    else exists src :: CommittedIn(g, rows, n - 1, src) && TakenLink(g, rows, src, k)
  }

  /** A seeded trigger leads here along decisions that have actually been recorded. */
  ghost predicate Committed(g: Graph, rows: Rows, k: Key) {
    exists n: nat :: CommittedIn(g, rows, n, k)
  }

  lemma CommittedStep(g: Graph, rows: Rows, k: Key, k': Key)
    requires Committed(g, rows, k) && TakenLink(g, rows, k, k')
    ensures Committed(g, rows, k')
  {
    var n: nat :| CommittedIn(g, rows, n, k);
    assert CommittedIn(g, rows, n + 1, k');
  }

  lemma {:induction false} CommittedInIsReached(g: Graph, rows: Rows, n: nat, k: Key)
    requires CommittedIn(g, rows, n, k)
    ensures Reached(g, rows, k)
  {
    if n == 0 {
      ReachedSeed(g, rows, k);
    } else {
      var src :| CommittedIn(g, rows, n - 1, src) && TakenLink(g, rows, src, k);
      CommittedInIsReached(g, rows, n - 1, src);
      var e :| Feeds(g, e, src, k) && Taken(g, rows, e, src.iter);
      assert Passes(g, rows, e, src.iter);
      assert Link(g, rows, src, k);
      ReachedStep(g, rows, src, k);
    }
  }

  /** What is committed is in play. */
  lemma CommittedIsReached(g: Graph, rows: Rows, k: Key)
    requires Committed(g, rows, k)
    ensures Reached(g, rows, k)
  {
    var n: nat :| CommittedIn(g, rows, n, k);
    CommittedInIsReached(g, rows, n, k);
  }

  /** Record-once: a completed row is never lost or changed. */
  ghost predicate RecordOnce(rows: Rows, rows': Rows) {
    forall k :: Done(rows, k) ==> k in rows' && rows'[k] == rows[k]
  }

  lemma {:induction false} CommittedInMono(g: Graph, rows: Rows, rows': Rows, n: nat, k: Key)
    requires CommittedIn(g, rows, n, k) && RecordOnce(rows, rows')
    ensures CommittedIn(g, rows', n, k)
  {
    if n > 0 {
      var src :| CommittedIn(g, rows, n - 1, src) && TakenLink(g, rows, src, k);
      CommittedInMono(g, rows, rows', n - 1, src);
      var e :| Feeds(g, e, src, k) && Taken(g, rows, e, src.iter);
      assert Done(rows, Key(e.from, src.iter));
      assert Taken(g, rows', e, src.iter);
      assert TakenLink(g, rows', src, k);
    }
  }

  lemma CommittedMono(g: Graph, rows: Rows, rows': Rows, k: Key)
    requires Committed(g, rows, k) && RecordOnce(rows, rows')
    ensures Committed(g, rows', k)
  {
    var n: nat :| CommittedIn(g, rows, n, k);
    CommittedInMono(g, rows, rows', n, k);
  }

  // ---- destiny: what a world of node results determines ----

  ghost predicate DestinedLink(g: Graph, world: World, k: Key, k': Key) {
    exists e :: Feeds(g, e, k, k') && (Routes(KindOf(g, e.from)) ==> PortOf(KindOf(g, e.from), world(k)) == e.port)
  }

  ghost predicate DestinedIn(g: Graph, entry: Id, world: World, n: nat, k: Key) {
    if n == 0 then k == Key(entry, 0)
    else exists src :: DestinedIn(g, entry, world, n - 1, src) && DestinedLink(g, world, src, k)
  }

  /** The keys a run from `entry` must execute when node results are as in `world`. */
  ghost predicate Destined(g: Graph, entry: Id, world: World, k: Key) {
    exists n: nat :: DestinedIn(g, entry, world, n, k)
  }

  /** The recorded results are the world's. */
  ghost predicate Follows(rows: Rows, world: World) {
    forall k :: Done(rows, k) ==> rows[k].result == world(k)
  }

  /** What every reachable table of rows satisfies. */
  ghost predicate Sound(g: Graph, entry: Id, rows: Rows) {
    && WellFormed(g) && HasNode(g, entry) && KindOf(g, entry) == Trigger
    && Done(rows, Key(entry, 0))
    && (forall k :: k in rows ==> HasNode(g, k.id) && k.iter <= MAX_ITERATIONS)
    && (forall k :: k in rows && KindOf(g, k.id) == Trigger ==> k == Key(entry, 0))
    && (forall k {:trigger Committed(g, rows, k)} :: k in rows ==> Committed(g, rows, k))
  }

  lemma TakenIsDestined(g: Graph, world: World, rows: Rows, k: Key, k': Key)
    requires Follows(rows, world) && TakenLink(g, rows, k, k')
    ensures DestinedLink(g, world, k, k')
  {
    var e :| Feeds(g, e, k, k') && Taken(g, rows, e, k.iter);
    assert Key(e.from, k.iter) == k;
  }

  lemma {:induction false} CommittedInIsDestined(g: Graph, entry: Id, world: World, rows: Rows, n: nat, k: Key)
    requires forall x :: Seed(g, rows, x) ==> x == Key(entry, 0)
    requires Follows(rows, world) && CommittedIn(g, rows, n, k)
    ensures DestinedIn(g, entry, world, n, k)
  {
    if n > 0 {
      var src :| CommittedIn(g, rows, n - 1, src) && TakenLink(g, rows, src, k);
      CommittedInIsDestined(g, entry, world, rows, n - 1, src);
      TakenIsDestined(g, world, rows, src, k);
    }
  }

  lemma CommittedIsDestined(g: Graph, entry: Id, world: World, rows: Rows, k: Key)
    requires Sound(g, entry, rows) && Follows(rows, world) && Committed(g, rows, k)
    ensures Destined(g, entry, world, k)
  {
    var n: nat :| CommittedIn(g, rows, n, k);
    CommittedInIsDestined(g, entry, world, rows, n, k);
  }

  lemma {:induction false} DestinedWithin(g: Graph, entry: Id, world: World, rows: Rows, n: nat, k: Key)
    requires Done(rows, Key(entry, 0)) && Follows(rows, world)
    requires forall x, y :: Done(rows, x) && TakenLink(g, rows, x, y) ==> Done(rows, y)
    requires DestinedIn(g, entry, world, n, k)
    ensures Done(rows, k)
  {
    if n > 0 {
      var src :| DestinedIn(g, entry, world, n - 1, src) && DestinedLink(g, world, src, k);
      DestinedWithin(g, entry, world, rows, n - 1, src);
      var e :| Feeds(g, e, src, k) && (Routes(KindOf(g, e.from)) ==> PortOf(KindOf(g, e.from), world(src)) == e.port);
      assert Key(e.from, src.iter) == src;
      assert Taken(g, rows, e, src.iter);
      assert TakenLink(g, rows, src, k);
    }
  }

  ghost predicate NoFailedRow(rows: Rows) {
    forall k :: k in rows ==> rows[k].status != Failed
  }

  ghost predicate NoParkedRow(rows: Rows) {
    forall k :: k in rows ==> rows[k].status != Parked
  }

  ghost predicate NoStrayTrigger(g: Graph, rows: Rows) {
    forall k :: !StrayTrigger(g, rows, k)
  }

  /** Every edge a completed row has taken leads to a row. */
  ghost predicate Closed(g: Graph, rows: Rows) {
    forall k, k' {:trigger TakenLink(g, rows, k, k')} :: TakenLink(g, rows, k, k') ==> k' in rows
  }

  ghost predicate NothingReady(g: Graph, rows: Rows) {
    forall k :: !Ready(g, rows, k)
  }

  /** Nothing can run and no approval is pending. */
  ghost predicate Quiescent(g: Graph, rows: Rows) {
    NothingReady(g, rows) && NoParkedRow(rows)
  }

  /** What has been executed is exactly what the results call for. */
  ghost predicate Accurate(g: Graph, entry: Id, world: World, rows: Rows) {
    forall k :: Destined(g, entry, world, k) <==> Done(rows, k)
  }

  lemma ClosedIsAccurate(g: Graph, entry: Id, world: World, rows: Rows)
    requires Sound(g, entry, rows) && Follows(rows, world)
    requires (forall k :: k in rows ==> rows[k].status == Completed) && Closed(g, rows)
    ensures Accurate(g, entry, world, rows)
  {
    forall k | Done(rows, k)
      ensures Destined(g, entry, world, k)
    {
      assert Committed(g, rows, k);
      CommittedIsDestined(g, entry, world, rows, k);
    }
    forall k | Destined(g, entry, world, k)
      ensures Done(rows, k)
    {
      var n: nat :| DestinedIn(g, entry, world, n, k);
      DestinedWithin(g, entry, world, rows, n, k);
    }
  }

  lemma TakenIsCommitted(g: Graph, entry: Id, rows: Rows, k: Key, k': Key)
    requires Sound(g, entry, rows) && TakenLink(g, rows, k, k')
    ensures Committed(g, rows, k') && Reached(g, rows, k')
  {
    var e :| Feeds(g, e, k, k') && Taken(g, rows, e, k.iter);
    assert Key(e.from, k.iter) == k;
    assert Committed(g, rows, k);
    CommittedStep(g, rows, k, k');
    CommittedIsReached(g, rows, k');
  }

  /** The general statement: a table with no approval pending is complete and correct if and only if no
      row failed and every edge taken has led to a row. */
  lemma AccurateIffClosed(g: Graph, entry: Id, world: World, rows: Rows)
    requires Sound(g, entry, rows) && Follows(rows, world) && NoParkedRow(rows)
    ensures Accurate(g, entry, world, rows) <==> NoFailedRow(rows) && Closed(g, rows)
  {
    if NoFailedRow(rows) && Closed(g, rows) {
      ClosedIsAccurate(g, entry, world, rows);
    }
    if Accurate(g, entry, world, rows) {
      forall k | k in rows
        ensures rows[k].status != Failed
      {
        assert Committed(g, rows, k);
        CommittedIsDestined(g, entry, world, rows, k);
      }
      forall k, k' | TakenLink(g, rows, k, k')
        ensures k' in rows
      {
        TakenIsCommitted(g, entry, rows, k, k');
        CommittedIsDestined(g, entry, world, rows, k');
      }
    }
  }

  lemma ReadyIsTaken(g: Graph, rows: Rows, k: Key)
    requires Ready(g, rows, k)
    ensures exists src :: TakenLink(g, rows, src, k)
  {
    var e, src :| LiveIn(g, rows, e, src, k);
    assert Key(e.from, src.iter) == src;
    assert Taken(g, rows, e, src.iter);
    assert TakenLink(g, rows, src, k);
  }

  /** With every row completed, a table is closed exactly when nothing can run and nothing has been led
      into a trigger. */
  lemma ClosedIffQuiescent(g: Graph, entry: Id, rows: Rows)
    requires Sound(g, entry, rows) && NoParkedRow(rows) && NoFailedRow(rows)
    ensures Closed(g, rows) <==> Quiescent(g, rows) && NoStrayTrigger(g, rows)
  {
    if Quiescent(g, rows) && NoStrayTrigger(g, rows) {
      forall k, k' | TakenLink(g, rows, k, k')
        ensures k' in rows
      {
        TakenIsCommitted(g, entry, rows, k, k');
        if k' !in rows {
          var x := Progress(g, rows, k');
        }
      }
    }
    if Closed(g, rows) {
      forall k
        ensures !Ready(g, rows, k)
      {
        if Ready(g, rows, k) {
          ReadyIsTaken(g, rows, k);
        }
      }
      forall k
        ensures !StrayTrigger(g, rows, k)
      {
        if StrayTrigger(g, rows, k) {
          var e, src :| Feeds(g, e, src, k) && Taken(g, rows, e, src.iter);
          assert TakenLink(g, rows, src, k);
        }
      }
    }
  }

  /** When nothing can run and no approval is pending, the completed rows are exactly the keys the
      recorded decisions call for - if and only if no row failed and none has led into a trigger. */
  lemma CompletedIsAccurate(g: Graph, entry: Id, world: World, rows: Rows)
    requires Sound(g, entry, rows) && Follows(rows, world) && Quiescent(g, rows)
    ensures Accurate(g, entry, world, rows) <==> NoFailedRow(rows) && NoStrayTrigger(g, rows)
  {
    AccurateIffClosed(g, entry, world, rows);
    if NoFailedRow(rows) {
      ClosedIffQuiescent(g, entry, rows);
    }
  }

  /** Which no run of a graph without edges into triggers can do. */
  lemma NoEdgeNoStrayTrigger(g: Graph, rows: Rows)
    requires forall e :: e in g.edges ==> KindOf(g, e.to) != Trigger
    ensures NoStrayTrigger(g, rows)
  {
  }

  /** Determinacy: accurate tables that follow the same results and have completed rows only are the
      same table. */
  lemma Determinate(g: Graph, entry: Id, world: World, rows: Rows, rows': Rows)
    requires Follows(rows, world) && Follows(rows', world)
    requires Accurate(g, entry, world, rows) && Accurate(g, entry, world, rows')
    requires forall k :: k in rows ==> rows[k].status == Completed
    requires forall k :: k in rows' ==> rows'[k].status == Completed
    ensures rows == rows'
  {
    forall k ensures k in rows <==> k in rows' {
      assert Destined(g, entry, world, k) <==> Done(rows, k);
      assert Destined(g, entry, world, k) <==> Done(rows', k);
    }
    forall k | k in rows ensures rows[k] == rows'[k] {
      assert Done(rows, k) && Done(rows', k);
    }
  }

  /** A runaway loop is destiny too: the cap fires only when the recorded decisions really call
      for an iteration beyond it, and then no complete table exists within the cap. */
  lemma OverflowIsDestined(g: Graph, entry: Id, world: World, rows: Rows, e: Edge, k: Key)
    requires Sound(g, entry, rows) && Follows(rows, world) && Overflows(g, rows, e, k)
    ensures Destined(g, entry, world, Landing(g, e, k.iter)) && Landing(g, e, k.iter).iter > MAX_ITERATIONS
    ensures forall rows' :: Sound(g, entry, rows') ==> !Accurate(g, entry, world, rows')
  {
    var k' := Landing(g, e, k.iter);
    assert e in LoopEdges(g) && Taken(g, rows, e, k.iter);
    assert Key(e.from, k.iter) == k;
    assert Feeds(g, e, k, k');
    assert TakenLink(g, rows, k, k');
    CommittedStep(g, rows, k, k');
    CommittedIsDestined(g, entry, world, rows, k');
  }
}
