/** Two histories of the same nodes that complete the run with different results. */
module Races {
  // On a graph the validator accepts, an action may refer to an ancestor that no join makes it wait for: the
  // path between them takes the loop edge. Whether it sees a result depends on where a crash falls.

  import opened Graphs
  import opened DepthFirst
  import opened Interpreter
  import opened Walk
  import opened FlowRun
  import opened RunMachine
  import opened RunHistory
  import opened Reads
  import opened LoopFree
  import opened Validator
  import opened LoopOrder

  const Z := Id("z")
  const M := Id("m")
  const NZ := Plain(Z, Action, "fn_2")
  const NM := Plain(M, Action, "fn_3")
  const TZ := Edge(Id("tz"), T, Z, "")
  const ZA := Edge(Id("za"), Z, A, "")
  const TM := Edge(Id("tm"), T, M, "")
  const MC := Edge(Id("mc"), M, C, "")
  const LINKS := [TZ, ZA, AC, CA, TM, MC]

  /** trigger -> z -> action -> control, the control's retry edge back to the action, and, beside the action,
      trigger -> m -> control. */
  const RACED := Graph([NA, NT, NC, NZ, NM], LINKS)

  lemma Names()
    ensures Z != T && Z != A && Z != C && M != T && M != A && M != C && M != Z && T != A && A != C && T != C
  {
    DistinctIds();
    assert Z.name[0] == 'z' && M.name[0] == 'm' && T.name[0] == 't' && A.name[0] == 'a' && C.name[0] == 'c';
  }

  lemma EdgeNames()
    ensures TZ.id != ZA.id && TZ.id != AC.id && TZ.id != CA.id && TZ.id != TM.id && TZ.id != MC.id
    ensures ZA.id != AC.id && ZA.id != CA.id && ZA.id != TM.id && ZA.id != MC.id && AC.id != CA.id
    ensures AC.id != TM.id && AC.id != MC.id && CA.id != TM.id && CA.id != MC.id && TM.id != MC.id
  {
    assert TZ.id.name == "tz" && TM.id.name == "tm" && TZ.id.name[1] != TM.id.name[1];
    assert ZA.id.name[0] == 'z' && AC.id.name[0] == 'a' && CA.id.name[0] == 'c' && MC.id.name[0] == 'm';
    assert TZ.id.name[0] == 't' && TM.id.name[0] == 't';
  }

  lemma UniqueIds()
    ensures UniqueNodeIds(RACED.nodes) && UniqueEdgeIds(LINKS)
  {
    Names();
    EdgeNames();
    assert forall i :: 0 <= i < 5 ==> Nth(RACED.nodes, i) == RACED.nodes[i];
    assert forall i :: 0 <= i < 6 ==> Nth(LINKS, i) == LINKS[i];
  }

  lemma Found(n: Node)
    requires n in RACED.nodes
    ensures HasNode(RACED, n.id) && KindOf(RACED, n.id) == n.kind
  {
    UniqueIds();
    NodeByIdUnique(RACED.nodes, n);
    HasNodeIff(RACED, n.id);
  }

  lemma RacedKinds()
    ensures HasNode(RACED, T) && HasNode(RACED, A) && HasNode(RACED, C) && HasNode(RACED, Z) && HasNode(RACED, M)
    ensures KindOf(RACED, T) == Trigger && KindOf(RACED, A) == Action && KindOf(RACED, C) == Control
    ensures KindOf(RACED, Z) == Action && KindOf(RACED, M) == Action
  {
    var nodes := RACED.nodes;
    assert nodes == [NA, NT, NC, NZ, NM] && NT in nodes && NA in nodes && NC in nodes && NZ in nodes && NM in nodes;
    Found(NT);
    Found(NA);
    Found(NC);
    Found(NZ);
    Found(NM);
  }

  lemma RacedEndpoints(e: Edge)
    requires e in LINKS
    ensures HasNode(RACED, e.from) && HasNode(RACED, e.to)
  {
    RacedKinds();
    assert e == TZ || e == ZA || e == AC || e == CA || e == TM || e == MC;
  }

  lemma RacedWellFormed()
    ensures WellFormed(RACED)
  {
    UniqueIds();
    forall e | e in LINKS
      ensures HasNode(RACED, e.from) && HasNode(RACED, e.to)
    {
      RacedEndpoints(e);
    }
  }

  lemma RetryIsBack()
    ensures CA in LoopEdges(RACED)
  {
    RacedWellFormed();
    assert NodeIds(RACED.nodes) == [CA.to] + [T, C, Z, M];
    assert CA in LINKS && AC in LINKS;
    ReachEdge(EdgeSet(LINKS), AC);
    EnteredFirst(RACED, CA, [T, C, Z, M]);
  }

  lemma NotBack()
    ensures !Reach(EdgeSet(LINKS), A, Z) && !Reach(EdgeSet(LINKS), C, M)
    ensures !Reach(EdgeSet([TZ, ZA, AC, TM, MC]), C, A)
  {
    Names();
    NoWayBack(LINKS, [A, C], A, Z);
    NoWayBack(LINKS, [A, C], C, M);
    NoWayBack([TZ, ZA, AC, TM, MC], [C], C, A);
  }

  lemma NotToTrigger()
    ensures !Reach(EdgeSet(LINKS), Z, T) && !Reach(EdgeSet(LINKS), M, T)
  {
    Names();
    NoWayBack(LINKS, [Z, A, C], Z, T);
    NoWayBack(LINKS, [M, A, C], M, T);
  }

  lemma ActionNotLoop()
    ensures AC !in LoopEdges(RACED)
  {
    var ids, rest := NodeIds(RACED.nodes), EdgeSet([TZ, ZA, AC, TM, MC]);
    RacedWellFormed();
    WellFormedFromNodes(RACED);
    RetryIsBack();
    NotBack();
    if AC in LoopEdges(RACED) {
      BackClosesCycle(ids, LINKS, AC);
      assert ForwardSet(ids, LINKS) <= rest;
      ReachMono(ForwardSet(ids, LINKS), rest, C, A);
    }
  }

  /** The retry edge is the one loop edge. */
  lemma RacedLoops()
    ensures LoopEdges(RACED) == {CA}
  {
    RetryIsBack();
    ActionNotLoop();
    NotBack();
    NotToTrigger();
    forall e | e in LoopEdges(RACED)
      ensures e == CA
    {
      RacedWellFormed();
      LoopEdgeOnCycle(RACED, e);
      assert e == TZ || e == ZA || e == AC || e == CA || e == TM || e == MC;
    }
  }

  // ---- the validator accepts it ----

  lemma NewNodesFit()
    ensures NodeFits(NZ) && NodeFits(NM)
  {
    NotSpace("z");
    NotSpace("m");
    NotSpace("fn_2");
    NotSpace("fn_3");
  }

  lemma RacedNodesFit()
    ensures NodesFit(RACED)
  {
    AllNodesFit();
    NewNodesFit();
    assert NT in ACTION_FIRST.nodes && NA in ACTION_FIRST.nodes && NC in ACTION_FIRST.nodes;
  }

  lemma RacedEdgeNamed(e: Edge)
    requires e in LINKS
    ensures !IsBlank(e.id.name) && e.from != e.to
  {
    Names();
    NotSpace(e.id.name);
  }

  lemma UnroutedFits(kind: Kind)
    requires !Routes(kind)
    ensures PortFits(kind, "")
  {
  }

  lemma RacedSource(e: Edge)
    requires e in LINKS && e != CA
    ensures e.port == "" && e.from in {T, Z, A, M}
  {
  }

  lemma RacedUnrouted(id: Id)
    requires id in {T, Z, A, M}
    ensures !Routes(KindOf(RACED, id))
  {
    RacedKinds();
  }

  lemma RetryFits()
    ensures PortFits(KindOf(RACED, C), CA.port)
  {
    RacedKinds();
    NotSpace("retry");
  }

  lemma RacedPortFits(e: Edge)
    requires e in LINKS
    ensures PortFits(KindOf(RACED, e.from), e.port)
  {
    if e == CA {
      RetryFits();
    } else {
      RacedSource(e);
      RacedUnrouted(e.from);
      UnroutedFits(KindOf(RACED, e.from));
    }
  }

  lemma RacedEdgesFit()
    ensures EdgesFit(RACED)
  {
    forall e | e in LINKS
      ensures EdgeFits(RACED, e)
    {
      RacedEdgeNamed(e);
      RacedEndpoints(e);
      RacedPortFits(e);
    }
  }

  lemma RacedReached(n: Node)
    requires n in RACED.nodes
    ensures ReachedFromTrigger(RACED, n.id)
  {
    var es := EdgeSet(LINKS);
    assert NT in RACED.nodes;
    assert TZ in LINKS && ZA in LINKS && TM in LINKS && MC in LINKS;
    ReachRefl(es, T);
    ReachEdge(es, TZ);
    ReachEdge(es, ZA);
    ReachEdge(es, TM);
    ReachEdge(es, MC);
    ReachTrans(es, T, Z, A);
    ReachTrans(es, T, M, C);
  }

  lemma RacedGuarded()
    ensures LoopDiscipline(RACED)
  {
    RacedLoops();
    RacedKinds();
    assert CA.from == C;
  }

  lemma RacedTrigger()
    ensures HasTrigger(RACED)
  {
    assert NT in RACED.nodes && NT.kind == Trigger;
  }

  lemma RacedAllReached()
    ensures AllReached(RACED)
  {
    forall n | n in RACED.nodes
      ensures ReachedFromTrigger(RACED, n.id)
    {
      RacedReached(n);
    }
  }

  lemma RacedAccepted()
    ensures Accepts(RACED)
  {
    RacedWellFormed();
    RacedNodesFit();
    RacedEdgesFit();
    RacedAllReached();
    RacedGuarded();
    RacedTrigger();
  }

  // ---- what can run on it while the control does not retry ----

  predicate NoRetry(rows: Rows) {
    forall k :: k in rows && k.id == C ==> Field(rows[k].result, "port") != "retry"
  }

  lemma RacedFeeds(e: Edge, src: Key, k: Key)
    requires Feeds(RACED, e, src, k)
    ensures e == CA || (e in {TZ, ZA, AC, TM, MC} && src == Key(e.from, k.iter) && k.id == e.to)
    ensures e == CA ==> k == Key(A, src.iter + 1)
  {
    RacedLoops();
    EdgeNames();
    assert e == TZ || e == ZA || e == AC || e == CA || e == TM || e == MC;
  }

  lemma RetryClosed(rows: Rows, iter: nat)
    requires NoRetry(rows)
    ensures !Taken(RACED, rows, CA, iter)
  {
    RacedKinds();
  }

  lemma LinkSameIter(rows: Rows, x: Key, y: Key)
    requires NoRetry(rows) && Link(RACED, rows, x, y)
    ensures x.iter == y.iter
  {
    var e :| e in RACED.edges && e.from == x.id && Passes(RACED, rows, e, x.iter) && y == Landing(RACED, e, x.iter);
    RacedFeeds(e, x, y);
    RetryClosed(rows, x.iter);
    RacedLoops();
  }

  lemma FirstIter(rows: Rows, k: Key)
    requires NoRetry(rows) && Reached(RACED, rows, k)
    ensures k.iter == 0
  {
    forall x, y | Link(RACED, rows, x, y)
      ensures x.iter == y.iter
    {
      LinkSameIter(rows, x, y);
    }
    var n: nat :| ReachedIn(RACED, rows, n, k);
    AlongLinks(RACED, rows, (iset x: Key | x.iter == 0), n, k);
  }

  /** An edge that no routing node leaves never closes. */
  lemma ForwardLeads(rows: Rows, e: Edge)
    requires e in {TZ, ZA, AC, TM, MC} && Reached(RACED, rows, Key(e.from, 0))
    ensures Reached(RACED, rows, Key(e.to, 0)) && LiveIn(RACED, rows, e, Key(e.from, 0), Key(e.to, 0))
  {
    RacedLoops();
    RacedKinds();
    Names();
    EdgeNames();
    assert e in LINKS && Landing(RACED, e, 0) == Key(e.to, 0);
    assert Feeds(RACED, e, Key(e.from, 0), Key(e.to, 0)) && Passes(RACED, rows, e, 0);
    assert Link(RACED, rows, Key(e.from, 0), Key(e.to, 0));
    ReachedStep(RACED, rows, Key(e.from, 0), Key(e.to, 0));
  }

  lemma AllInPlay(rows: Rows)
    requires Done(rows, Key(T, 0))
    ensures Reached(RACED, rows, Key(T, 0)) && LiveIn(RACED, rows, TZ, Key(T, 0), Key(Z, 0)) && LiveIn(RACED, rows, TM, Key(T, 0), Key(M, 0))
    ensures LiveIn(RACED, rows, ZA, Key(Z, 0), Key(A, 0))
    ensures LiveIn(RACED, rows, AC, Key(A, 0), Key(C, 0)) && LiveIn(RACED, rows, MC, Key(M, 0), Key(C, 0))
    ensures Reached(RACED, rows, Key(Z, 0)) && Reached(RACED, rows, Key(M, 0)) && Reached(RACED, rows, Key(A, 0)) && Reached(RACED, rows, Key(C, 0))
  {
    RacedKinds();
    ReachedSeed(RACED, rows, Key(T, 0));
    ForwardLeads(rows, TZ);
    ForwardLeads(rows, TM);
    ForwardLeads(rows, ZA);
    ForwardLeads(rows, AC);
    ForwardLeads(rows, MC);
  }

  /** What has to have run before a key. */
  predicate Prepared(rows: Rows, k: Key) {
    k.iter == 0 && (k.id == Z || k.id == M || (k.id == A && Done(rows, Key(Z, 0)))
                    || (k.id == C && Done(rows, Key(A, 0)) && Done(rows, Key(M, 0))))
  }

  lemma ReadyIsPrepared(rows: Rows, k: Key)
    requires Done(rows, Key(T, 0)) && NoRetry(rows) && Ready(RACED, rows, k)
    ensures Prepared(rows, k) && k !in rows
  {
    Names();
    AllInPlay(rows);
    FirstIter(rows, k);
    var e, src :| LiveIn(RACED, rows, e, src, k);
    RacedFeeds(e, src, k);
  }

  lemma PreparedWaitsForNothing(rows: Rows, e: Edge, src: Key, k: Key)
    requires Done(rows, Key(T, 0)) && Prepared(rows, k) && Feeds(RACED, e, src, k)
    ensures Done(rows, src)
  {
    Names();
    RacedFeeds(e, src, k);
  }

  lemma PreparedIsReady(rows: Rows, k: Key)
    requires Done(rows, Key(T, 0)) && Prepared(rows, k) && k !in rows
    ensures Ready(RACED, rows, k)
  {
    RacedKinds();
    AllInPlay(rows);
    forall e, src | LiveIn(RACED, rows, e, src, k)
      ensures Done(rows, src)
    {
      PreparedWaitsForNothing(rows, e, src, k);
    }
  }

  lemma RacedWithinCap(rows: Rows)
    requires NoRetry(rows)
    ensures WithinCap(RACED, rows)
  {
    forall e, k
      ensures !Overflows(RACED, rows, e, k)
    {
      if Overflows(RACED, rows, e, k) {
        FirstIter(rows, k);
      }
    }
  }

  /** What a turn may find: m last, if at all with one other, and both at the first iteration. */
  predicate Sortable(ready: seq<Key>) {
    |ready| <= 1 || (|ready| == 2 && (ready[0].id == Z || ready[0].id == A) && ready[1] == Key(M, 0))
  }

  lemma Listed()
    ensures FindNode(RACED.nodes, A) == 0 && FindNode(RACED.nodes, Z) == 3 && FindNode(RACED.nodes, M) == 4
  {
    Names();
    var nodes := RACED.nodes;
    assert nodes[0].id == A && nodes[1].id == T && nodes[2].id == C && nodes[3].id == Z && nodes[4].id == M;
    var i, j := FindNode(nodes, Z), FindNode(nodes, M);
    assert i == 0 || i == 1 || i == 2 || i == 3 || i == 4;
    assert j == 0 || j == 1 || j == 2 || j == 3 || j == 4;
  }

  lemma RacedOrdered(ready: seq<Key>)
    requires Sortable(ready)
    ensures Ordered(RACED, ready)
  {
    Listed();
    if |ready| == 2 {
      assert Before(RACED, ready[0], ready[1]);
    }
    assert forall i :: 0 <= i < |ready| ==> Nth(ready, i) == ready[i];
  }

  lemma RacedBatch(rows: Rows, ready: seq<Key>)
    requires Done(rows, Key(T, 0)) && NoRetry(rows) && Sortable(ready)
    requires forall k {:trigger Prepared(rows, k)} :: k in ready <==> Prepared(rows, k) && k !in rows
    ensures WithinCap(RACED, rows) && Batch(RACED, rows, ready)
  {
    RacedWithinCap(rows);
    RacedOrdered(ready);
    forall k
      ensures k in ready <==> Ready(RACED, rows, k)
    {
      assert k in ready <==> Prepared(rows, k) && k !in rows;
      if Ready(RACED, rows, k) {
        ReadyIsPrepared(rows, k);
      } else if k in ready {
        PreparedIsReady(rows, k);
      }
    }
    assert forall i :: 0 <= i < |ready| ==> Prepared(rows, ready[i]);
  }

  // ---- the two histories ----

  /** The action says whether it has seen a result of m; the control never retries. */
  function Looks(k: Key, scope: map<Id, Outcome>): Outcome {
    if k.id == A then map["seen" := if M in scope && scope[M] != map[] then "yes" else "no"]
    else if k.id == C then map["port" := "stop"]
    else if k.id == M then map["m" := "1"]
    else map[]
  }

  function Looking(): Logic {
    Logic(map[], Looks, (k: Key) => map[])
  }

  /** The results of a history in which the action has seen m, or has not. */
  function Results(seen: bool): World {
    (k: Key) =>
      if k.id == A then map["seen" := if seen then "yes" else "no"]
      else if k.id == C then map["port" := "stop"]
      else if k.id == M then map["m" := "1"]
      else map[]
  }

  function RacedPlan(seen: bool): Plan {
    Plan(RACED, T, Results(seen))
  }

  function RowOf(seen: bool, id: Id): Row {
    Row(Completed, Results(seen)(Key(id, 0)))
  }

  /** The table of these keys, all completed. */
  function Table(seen: bool, ids: set<Id>): Rows {
    map id | id in ids :: Key(id, 0) := RowOf(seen, id)
  }

  lemma TableRows(seen: bool, ids: set<Id>)
    ensures forall id :: Done(Table(seen, ids), Key(id, 0)) <==> id in ids
    ensures forall k :: k in Table(seen, ids) <==> k.iter == 0 && k.id in ids
    ensures NoRetry(Table(seen, ids)) && NoParkedRow(Table(seen, ids)) && NoFailedRow(Table(seen, ids))
  {
    Names();
  }

  lemma TableNext(seen: bool, ids: set<Id>, id: Id)
    ensures Table(seen, ids)[Key(id, 0) := Row(Completed, RacedPlan(seen).world(Key(id, 0)))] == Table(seen, ids + {id})
  {
  }

  lemma MIsAncestor()
    ensures Ancestor(RACED, M, A) && M in NodeIds(RACED.nodes)
  {
    var es := EdgeSet(LINKS);
    assert MC in LINKS && CA in LINKS;
    ReachEdge(es, CA);
    assert MC in es && MC.from == M && Reach(es, MC.to, A);
    assert NodeIds(RACED.nodes)[4] == M;
  }

  lemma ShowsM(seen: bool, ids: set<Id>)
    ensures var scope := Scope(RACED, Table(seen, ids), Key(A, 0)); M in scope && (scope[M] != map[] <==> M in ids)
  {
    Names();
    TableRows(seen, ids);
    MIsAncestor();
    assert "m" in RowOf(seen, M).result;
    assert Scope(RACED, Table(seen, ids), Key(A, 0))[M] == Latest(Table(seen, ids), M, 0);
  }

  /** What the node makes of what it reads is the result of the history, if the action sees m in it or not
      as the history says. */
  lemma LooksRight(seen: bool, ids: set<Id>, id: Id)
    requires id == A ==> (M in ids <==> seen)
    ensures Results(seen)(Key(id, 0)) == Looks(Key(id, 0), Scope(RACED, Table(seen, ids), Key(id, 0)))
  {
    if id == A {
      ShowsM(seen, ids);
    }
  }

  /** A batch of these keys. */
  ghost predicate Finds(ids: set<Id>, ready: seq<Key>) {
    Sortable(ready) && T in ids && forall k :: k in ready <==>
      k.iter == 0 && k.id !in ids && (k.id == Z || k.id == M || (k.id == A && Z in ids) || (k.id == C && A in ids && M in ids))
  }

  lemma BatchOn(seen: bool, ids: set<Id>, ready: seq<Key>)
    requires Finds(ids, ready)
    ensures WithinCap(RACED, Table(seen, ids)) && Batch(RACED, Table(seen, ids), ready)
  {
    var rows := Table(seen, ids);
    TableRows(seen, ids);
    forall k
      ensures k in ready <==> Prepared(rows, k) && k !in rows
    {
    }
    RacedBatch(rows, ready);
  }

  ghost predicate BatchRight(p: Plan, seen: bool, ids: set<Id>, ready: seq<Key>) {
    WithinCap(p.g, Table(seen, ids)) && Batch(p.g, Table(seen, ids), ready)
  }

  ghost predicate RunsRight(l: Logic, p: Plan, seen: bool, start: set<Id>, id: Id) {
    var k := Key(id, 0);
    && NodeRow(p.g, p.world, false, k).status == Completed
    && p.world(k) == RowOf(seen, id).result && p.world(k) == l.run(k, Scope(p.g, Table(seen, start), k))
  }

  /** What the histories need of the graph and its nodes. */
  ghost predicate Staged(l: Logic, p: Plan, seen: bool) {
    && (forall ids, ready :: Finds(ids, ready) ==> BatchRight(p, seen, ids, ready))
    && (forall start, id {:trigger RunsRight(l, p, seen, start, id)} ::
          id in {Z, M, A, C} && (id == A ==> (M in start <==> seen)) ==> RunsRight(l, p, seen, start, id))
  }

  lemma RacedRows(seen: bool, id: Id)
    requires id in {Z, M, A, C}
    ensures NodeRow(RACED, Results(seen), false, Key(id, 0)).status == Completed
  {
    RacedKinds();
  }

  lemma RacedRuns(seen: bool, start: set<Id>, id: Id)
    requires id in {Z, M, A, C} && (id == A ==> (M in start <==> seen))
    ensures RunsRight(Looking(), RacedPlan(seen), seen, start, id)
  {
    RacedRows(seen, id);
    LooksRight(seen, start, id);
  }

  lemma RacedStaged(seen: bool)
    ensures Staged(Looking(), RacedPlan(seen), seen)
  {
    forall ids, ready | Finds(ids, ready)
      ensures BatchRight(RacedPlan(seen), seen, ids, ready)
    {
      BatchOn(seen, ids, ready);
    }
    forall start, id | id in {Z, M, A, C} && (id == A ==> (M in start <==> seen))
      ensures RunsRight(Looking(), RacedPlan(seen), seen, start, id)
    {
      RacedRuns(seen, start, id);
    }
  }

  lemma TurnOn(l: Logic, p: Plan, seen: bool, steps: seq<Step>, ids: set<Id>, ready: seq<Key>) returns (longer: seq<Step>)
    requires Staged(l, p, seen) && Finds(ids, ready) && ready != []
    requires LeadsBy(l, p, steps, Ran(Table(seen, ids), Walking(Table(seen, ids))))
    ensures LeadsBy(l, p, longer, Ran(Table(seen, ids), Batching(Table(seen, ids), Table(seen, ids), ready, 0, false)))
  {
    assert BatchRight(p, seen, ids, ready);
    longer := TurnBy(l, p, steps, Table(seen, ids), ready);
  }

  lemma CompleteOn(l: Logic, p: Plan, seen: bool, steps: seq<Step>, start: set<Id>, ids: set<Id>, ready: seq<Key>, next: nat,
      advanced: bool) returns (longer: seq<Step>)
    requires Staged(l, p, seen) && next < |ready| && ready[next].iter == 0 && ready[next].id in {Z, M, A, C} - ids
    requires ready[next].id == A ==> (M in start <==> seen)
    requires LeadsBy(l, p, steps, Ran(Table(seen, ids), Batching(Table(seen, start), Table(seen, ids), ready, next, advanced)))
    ensures var rows' := Table(seen, ids + {ready[next].id});
            LeadsBy(l, p, longer, Ran(rows', Batching(Table(seen, start), rows', ready, next + 1, true)))
  {
    var id := ready[next].id;
    assert ready[next] == Key(id, 0);
    assert RunsRight(l, p, seen, start, id);
    TableRows(seen, ids);
    TableNext(seen, ids, id);
    longer := CompleteBy(l, p, steps, Table(seen, start), Table(seen, ids), ready, next, advanced);
  }

  lemma OneOn(l: Logic, p: Plan, seen: bool, steps: seq<Step>, ids: set<Id>, id: Id) returns (longer: seq<Step>)
    requires Staged(l, p, seen) && Finds(ids, [Key(id, 0)])
    requires id in {Z, M, A, C} - ids && (id == A ==> (M in ids <==> seen))
    requires LeadsBy(l, p, steps, Ran(Table(seen, ids), Walking(Table(seen, ids))))
    ensures LeadsBy(l, p, longer, Ran(Table(seen, ids + {id}), Walking(Table(seen, ids + {id}))))
  {
    var ready := [Key(id, 0)];
    longer := TurnOn(l, p, seen, steps, ids, ready);
    longer := CompleteOn(l, p, seen, longer, ids, ids, ready, 0, false);
    longer := EndBatchBy(l, p, longer, Table(seen, ids), Table(seen, ids + {id}), ready);
  }

  lemma TwoOn(l: Logic, p: Plan, seen: bool, steps: seq<Step>, ids: set<Id>, id: Id) returns (longer: seq<Step>)
    requires Staged(l, p, seen) && Finds(ids, [Key(id, 0), Key(M, 0)])
    requires id in {Z, A} - ids && M !in ids && (id == A ==> !seen)
    requires LeadsBy(l, p, steps, Ran(Table(seen, ids), Walking(Table(seen, ids))))
    ensures LeadsBy(l, p, longer, Ran(Table(seen, ids + {id} + {M}), Walking(Table(seen, ids + {id} + {M}))))
  {
    Names();
    var ready := [Key(id, 0), Key(M, 0)];
    longer := TurnOn(l, p, seen, steps, ids, ready);
    longer := CompleteOn(l, p, seen, longer, ids, ids, ready, 0, false);
    longer := CompleteOn(l, p, seen, longer, ids, ids + {id}, ready, 1, true);
    longer := EndBatchBy(l, p, longer, Table(seen, ids), Table(seen, ids + {id} + {M}), ready);
  }

  lemma FinishOn(l: Logic, p: Plan, seen: bool, steps: seq<Step>, ids: set<Id>) returns (longer: seq<Step>)
    requires Staged(l, p, seen) && Finds(ids, [])
    requires LeadsBy(l, p, steps, Ran(Table(seen, ids), Walking(Table(seen, ids))))
    ensures LeadsBy(l, p, longer, Ended(Table(seen, ids)))
  {
    TableRows(seen, ids);
    assert BatchRight(p, seen, ids, []);
    longer := FinishBy(l, p, steps, Table(seen, ids));
  }

  lemma AllFound()
    ensures Finds({T, Z, M, A}, [Key(C, 0)]) && Finds({T, Z, M, A, C}, []) && {T, Z, M, A} + {C} == {T, Z, M, A, C}
  {
    Names();
  }

  /** The control and the end of the run. */
  lemma EndsOn(l: Logic, p: Plan, seen: bool, steps: seq<Step>) returns (longer: seq<Step>)
    requires Staged(l, p, seen)
    requires LeadsBy(l, p, steps, Ran(Table(seen, {T, Z, M, A}), Walking(Table(seen, {T, Z, M, A}))))
    ensures LeadsBy(l, p, longer, Ended(Table(seen, {T, Z, M, A, C})))
  {
    Names();
    AllFound();
    longer := OneOn(l, p, seen, steps, {T, Z, M, A}, C);
    longer := FinishOn(l, p, seen, longer, {T, Z, M, A, C});
  }

  /** z and m in one batch, then the action, which sees both. */
  lemma Quiet(l: Logic, p: Plan, steps0: seq<Step>) returns (steps: seq<Step>)
    requires Staged(l, p, true) && LeadsBy(l, p, steps0, Ran(Table(true, {T}), Walking(Table(true, {T}))))
    ensures LeadsBy(l, p, steps, Ended(Table(true, {T, Z, M, A, C})))
  {
    Names();
    steps := TwoOn(l, p, true, steps0, {T}, Z);
    assert {T} + {Z} + {M} == {T, Z, M};
    steps := OneOn(l, p, true, steps, {T, Z, M}, A);
    assert {T, Z, M} + {A} == {T, Z, M, A};
    steps := EndsOn(l, p, true, steps);
  }

  /** The drive dies after z. */
  lemma CrashesAfterZ(l: Logic, p: Plan, steps0: seq<Step>) returns (steps: seq<Step>)
    requires Staged(l, p, false) && LeadsBy(l, p, steps0, Ran(Table(false, {T}), Walking(Table(false, {T}))))
    ensures LeadsBy(l, p, steps, Ran(Table(false, {T, Z}), Off))
  {
    Names();
    var ready := [Key(Z, 0), Key(M, 0)];
    steps := TurnOn(l, p, false, steps0, {T}, ready);
    steps := CompleteOn(l, p, false, steps, {T}, {T}, ready, 0, false);
    assert {T} + {Z} == {T, Z};
    var rows := Table(false, {T, Z});
    steps := CrashBy(l, p, steps, rows, Batching(Table(false, {T}), rows, ready, 1, true));
  }

  /** The next one finds the action ready along with m. */
  lemma Crashed(l: Logic, p: Plan, steps0: seq<Step>) returns (steps: seq<Step>)
    requires Staged(l, p, false) && LeadsBy(l, p, steps0, Ran(Table(false, {T}), Walking(Table(false, {T}))))
    ensures LeadsBy(l, p, steps, Ended(Table(false, {T, Z, M, A, C})))
  {
    Names();
    steps := CrashesAfterZ(l, p, steps0);
    steps := LoadBy(l, p, steps, Table(false, {T, Z}));
    steps := TwoOn(l, p, false, steps, {T, Z}, A);
    assert {T, Z} + {A} + {M} == {T, Z, M, A};
    steps := EndsOn(l, p, false, steps);
  }

  lemma RacedRunnable(seen: bool)
    ensures Runnable(RacedPlan(seen))
  {
    RacedWellFormed();
    RacedKinds();
  }

  lemma RacedStarts(seen: bool) returns (steps: seq<Step>)
    ensures LeadsBy(Looking(), RacedPlan(seen), steps, Ran(Table(seen, {T}), Walking(Table(seen, {T}))))
  {
    var p := RacedPlan(seen);
    Names();
    RacedRunnable(seen);
    assert Seeded(p).rows == Table(seen, {T});
    assert LeadsBy(Looking(), p, [], Seeded(p));
    steps := LoadBy(Looking(), p, [], Table(seen, {T}));
  }

  lemma NotIntoTrigger(e: Edge)
    requires e in LINKS
    ensures KindOf(RACED, e.to) != Trigger
  {
    RacedKinds();
    assert e == TZ || e == ZA || e == AC || e == CA || e == TM || e == MC;
  }

  lemma RacedEndsRight(seen: bool)
    ensures var rows := Table(seen, {T, Z, M, A, C});
            NoFailedRow(rows) && NoStrayTrigger(RACED, rows) && NothingReady(RACED, rows)
  {
    var all := {T, Z, M, A, C};
    Names();
    TableRows(seen, all);
    BatchOn(seen, all, []);
    forall k
      ensures !Ready(RACED, Table(seen, all), k)
    {
      assert Ready(RACED, Table(seen, all), k) ==> k in [];
    }
    forall e | e in RACED.edges
      ensures KindOf(RACED, e.to) != Trigger
    {
      NotIntoTrigger(e);
    }
    NoEdgeNoStrayTrigger(RACED, Table(seen, all));
  }

  lemma EndsRight(l: Logic, p: Plan, steps: seq<Step>, rows: Rows)
    requires LeadsBy(l, p, steps, Ended(rows))
    requires NoFailedRow(rows) && NoStrayTrigger(p.g, rows) && NothingReady(p.g, rows)
    ensures CompletedRight(p, steps)
  {
  }

  lemma TablesDiffer()
    ensures Table(true, {T, Z, M, A, C}) != Table(false, {T, Z, M, A, C})
  {
    assert Table(true, {T, Z, M, A, C})[Key(A, 0)].result["seen"] == "yes";
    assert Table(false, {T, Z, M, A, C})[Key(A, 0)].result["seen"] == "no";
  }

  /** In none of their tables does a key with a row have a source it did not wait for, so no join that comes
      late is to blame: what is read is no source at all. */
  lemma NothingJoinsLate(seen: bool, ids: set<Id>)
    requires T in ids && ids <= {T, Z, M, A, C} && (A in ids ==> Z in ids) && (C in ids ==> A in ids && M in ids)
    ensures Joined(RACED, Table(seen, ids))
  {
    var rows := Table(seen, ids);
    Names();
    TableRows(seen, ids);
    forall e, src, k | k in rows && LiveIn(RACED, rows, e, src, k)
      ensures Done(rows, src)
    {
      RacedFeeds(e, src, k);
      if k.id != T {
        PreparedWaitsForNothing(rows, e, src, k);
      }
    }
  }

  /** Two histories of the same nodes on an accepted graph, without an approval in it and with nobody else at
      work, that differ in one crash: both complete the run correctly, and the results differ. */
  lemma CrashChangesTheResult() returns (quiet: seq<Step>, crashed: seq<Step>)
    ensures Accepts(RACED) && Ancestor(RACED, M, A)
    ensures LeadsBy(Looking(), RacedPlan(true), quiet, Ended(Table(true, {T, Z, M, A, C}))) && CompletedRight(RacedPlan(true), quiet)
    ensures LeadsBy(Looking(), RacedPlan(false), crashed, Ended(Table(false, {T, Z, M, A, C}))) && CompletedRight(RacedPlan(false), crashed)
    ensures Table(true, {T, Z, M, A, C}) != Table(false, {T, Z, M, A, C})
  {
    RacedAccepted();
    MIsAncestor();
    TablesDiffer();
    RacedStaged(true);
    RacedStaged(false);
    RacedEndsRight(true);
    RacedEndsRight(false);
    quiet := RacedStarts(true);
    quiet := Quiet(Looking(), RacedPlan(true), quiet);
    EndsRight(Looking(), RacedPlan(true), quiet, Table(true, {T, Z, M, A, C}));
    crashed := RacedStarts(false);
    crashed := Crashed(Looking(), RacedPlan(false), crashed);
    EndsRight(Looking(), RacedPlan(false), crashed, Table(false, {T, Z, M, A, C}));
  }
}
