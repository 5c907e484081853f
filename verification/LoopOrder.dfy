/** Listings. */
module LoopOrder {
  // The validator's loop check looks at the back edges of one particular search, and which edges those are
  // depends on the order in which the nodes are listed. What follows says for which graphs it does not
  // matter.

  import opened Graphs
  import opened DepthFirst
  import opened Interpreter
  import opened Validator

  /** The same nodes and edges, the nodes perhaps in another order. */
  ghost predicate Relisted(g: Graph, g': Graph) {
    multiset(g.nodes) == multiset(g'.nodes) && g.edges == g'.edges
  }

  /** Every edge that lies on a cycle leaves a node that chooses among its exits. */
  ghost predicate CyclesRouted(g: Graph) {
    forall e :: e in g.edges && Reach(EdgeSet(g.edges), e.to, e.from) ==> Routes(KindOf(g, e.from))
  }

  // ---- what no order of the nodes changes ----

  lemma {:induction false} CountedOnce(nodes: seq<Node>, n: Node)
    requires UniqueNodeIds(nodes)
    ensures multiset(nodes)[n] <= 1
  {
    if nodes != [] {
      assert nodes == [nodes[0]] + nodes[1..];
      UniqueNodesCons(nodes[0], nodes[1..]);
      CountedOnce(nodes[1..], n);
    }
  }

  lemma RelistedIn(g: Graph, g': Graph, n: Node)
    requires Relisted(g, g')
    ensures n in g.nodes <==> n in g'.nodes
  {
    assert n in multiset(g.nodes) <==> n in multiset(g'.nodes);
  }

  lemma RelistedUnique(g: Graph, g': Graph)
    requires Relisted(g, g') && UniqueNodeIds(g.nodes)
    ensures UniqueNodeIds(g'.nodes)
  {
    var s := g'.nodes;
    forall i, j | 0 <= i < j < |s|
      ensures Nth(s, i).id != Nth(s, j).id
    {
      RelistedIn(g, g', s[i]);
      RelistedIn(g, g', s[j]);
      NodeByIdUnique(g.nodes, s[i]);
      NodeByIdUnique(g.nodes, s[j]);
      if s[i] == s[j] {
        CountedTwice(s, i, j);
        CountedOnce(g.nodes, s[i]);
      }
    }
  }

  lemma RelistedFinds(g: Graph, g': Graph, id: Id)
    requires Relisted(g, g') && UniqueNodeIds(g.nodes)
    ensures NodeById(g'.nodes, id) == NodeById(g.nodes, id)
    ensures HasNode(g', id) <==> HasNode(g, id)
  {
    RelistedUnique(g, g');
    if n :| n in g.nodes && n.id == id {
      RelistedIn(g, g', n);
      NodeByIdUnique(g.nodes, n);
      NodeByIdUnique(g'.nodes, n);
    } else {
      forall n | n in g'.nodes
        ensures n.id != id
      {
        RelistedIn(g, g', n);
      }
    }
    HasNodeIff(g, id);
    HasNodeIff(g', id);
  }

  lemma RelistedWellFormed(g: Graph, g': Graph)
    requires Relisted(g, g') && WellFormed(g)
    ensures WellFormed(g')
  {
    RelistedUnique(g, g');
    forall e | e in g'.edges
      ensures HasNode(g', e.from) && HasNode(g', e.to)
    {
      RelistedFinds(g, g', e.from);
      RelistedFinds(g, g', e.to);
    }
  }

  /** The guardedness of loops is a matter of the graph alone, and so is every check but the loop check. */
  lemma RelistedGuarded(g: Graph, g': Graph)
    requires Relisted(g, g') && WellFormed(g)
    ensures LoopsGuarded(g) <==> LoopsGuarded(g')
  {
    forall e
      ensures e in UnroutedEdges(g) <==> e in UnroutedEdges(g')
    {
      RelistedFinds(g, g', e.from);
    }
    assert UnroutedEdges(g) == UnroutedEdges(g');
  }

  lemma RelistedNodes(g: Graph, g': Graph)
    requires Relisted(g, g') && Accepts(g)
    ensures g'.nodes != [] && NodesFit(g') && HasTrigger(g')
  {
    var t :| t in g.nodes && t.kind == Trigger;
    RelistedIn(g, g', t);
    forall n | n in g'.nodes
      ensures NodeFits(n)
    {
      RelistedIn(g, g', n);
    }
  }

  lemma RelistedEdge(g: Graph, g': Graph, e: Edge)
    requires Relisted(g, g') && Accepts(g) && e in g.edges
    ensures EdgeFits(g', e)
  {
    assert EdgeFits(g, e);
    RelistedFinds(g, g', e.from);
    RelistedFinds(g, g', e.to);
  }

  lemma RelistedReached(g: Graph, g': Graph, n: Node)
    requires Relisted(g, g') && Accepts(g) && n in g'.nodes
    ensures ReachedFromTrigger(g', n.id)
  {
    RelistedIn(g, g', n);
    assert ReachedFromTrigger(g, n.id);
    var t :| t in g.nodes && t.kind == Trigger && Reach(EdgeSet(g.edges), t.id, n.id);
    RelistedIn(g, g', t);
  }

  lemma RelistedChecks(g: Graph, g': Graph)
    requires Relisted(g, g') && Accepts(g)
    ensures Accepts(g') <==> LoopDiscipline(g')
  {
    RelistedWellFormed(g, g');
    RelistedNodes(g, g');
    forall e | e in g'.edges
      ensures EdgeFits(g', e)
    {
      RelistedEdge(g, g', e);
    }
    forall n | n in g'.nodes
      ensures ReachedFromTrigger(g', n.id)
    {
      RelistedReached(g, g', n);
    }
  }

  // ---- the exact condition ----

  /** The listing with one node moved to the front. */
  function Fronted(g: Graph, i: nat): Graph
    requires i < |g.nodes|
  {
    Graph([g.nodes[i]] + (g.nodes[..i] + g.nodes[i + 1..]), g.edges)
  }

  lemma FrontedRelisted(g: Graph, i: nat)
    requires i < |g.nodes|
    ensures Relisted(g, Fronted(g, i))
  {
    assert g.nodes == g.nodes[..i] + [g.nodes[i]] + g.nodes[i + 1..];
  }

  lemma FrontedIds(g: Graph, i: nat) returns (rest: seq<Id>)
    requires i < |g.nodes|
    ensures NodeIds(Fronted(g, i).nodes) == [g.nodes[i].id] + rest
  {
    rest := NodeIds(g.nodes[..i] + g.nodes[i + 1..]);
    assert NodeIds(Fronted(g, i).nodes)[1..] == rest;
  }

  lemma EnteredFirst(g: Graph, e: Edge, rest: seq<Id>)
    requires WellFormed(g) && NodeIds(g.nodes) == [e.to] + rest
    requires e in g.edges && Reach(EdgeSet(g.edges), e.to, e.from)
    ensures e in LoopEdges(g)
  {
    WellFormedFromNodes(g);
    FirstListedIsEntered(rest, g.edges, e);
  }

  /** An edge on a cycle is a loop edge of some listing: of any that starts with the node it leads to. */
  lemma CycleEdgeIsEntered(g: Graph, e: Edge) returns (g': Graph)
    requires WellFormed(g) && e in g.edges && Reach(EdgeSet(g.edges), e.to, e.from)
    ensures Relisted(g, g') && WellFormed(g') && e in LoopEdges(g')
  {
    var ids := NodeIds(g.nodes);
    assert HasNode(g, e.to);
    var i :| 0 <= i < |ids| && ids[i] == e.to;
    g' := Fronted(g, i);
    FrontedRelisted(g, i);
    RelistedWellFormed(g, g');
    var rest := FrontedIds(g, i);
    EnteredFirst(g', e, rest);
  }

  /** A loop edge of any listing lies on a cycle. */
  lemma LoopEdgeOnCycle(g: Graph, e: Edge)
    requires WellFormed(g) && e in LoopEdges(g)
    ensures e in g.edges && Reach(EdgeSet(g.edges), e.to, e.from)
  {
    WellFormedFromNodes(g);
    BackClosesCycle(NodeIds(g.nodes), g.edges, e);
    ReachMono(ForwardSet(NodeIds(g.nodes), g.edges), EdgeSet(g.edges), e.to, e.from);
  }

  /** The loop check passes in every listing if and only if every edge on a cycle leaves a control or an
      approval node. */
  lemma PassesInEveryListing(g: Graph)
    requires WellFormed(g)
    ensures (forall g' :: Relisted(g, g') ==> LoopDiscipline(g')) <==> CyclesRouted(g)
  {
    if forall g' :: Relisted(g, g') ==> LoopDiscipline(g') {
      forall e | e in g.edges && Reach(EdgeSet(g.edges), e.to, e.from)
        ensures Routes(KindOf(g, e.from))
      {
        var g' := CycleEdgeIsEntered(g, e);
        assert LoopDiscipline(g');
        RelistedFinds(g, g', e.from);
      }
    }
    if CyclesRouted(g) {
      forall g', e | Relisted(g, g') && e in LoopEdges(g')
        ensures Routes(KindOf(g', e.from))
      {
        RelistedWellFormed(g, g');
        LoopEdgeOnCycle(g', e);
        RelistedFinds(g, g', e.from);
      }
    }
  }

  /** So an accepted graph is accepted in whatever order its nodes are listed under that condition, and only
      under it. */
  lemma AcceptedInEveryListing(g: Graph)
    requires Accepts(g)
    ensures (forall g' :: Relisted(g, g') ==> Accepts(g')) <==> CyclesRouted(g)
  {
    PassesInEveryListing(g);
    forall g' | Relisted(g, g')
      ensures Accepts(g') <==> LoopDiscipline(g')
    {
      RelistedChecks(g, g');
    }
  }

  // ---- the smallest graph whose acceptance depends on the order ----

  const T := Id("t")
  const A := Id("a")
  const C := Id("c")
  const TA := Edge(Id("ta"), T, A, "")
  const AC := Edge(Id("ac"), A, C, "")
  const CA := Edge(Id("ca"), C, A, "retry")
  const EDGES := [TA, AC, CA]
  const NT := Plain(T, Trigger, "trg_1")
  const NA := Plain(A, Action, "fn_1")
  const NC := Plain(C, Control, "ctl_1")

  /** trigger -> action -> control, and the control's retry edge back to the action. */
  const ACTION_FIRST := Graph([NA, NT, NC], EDGES)
  const CONTROL_FIRST := Graph([NC, NT, NA], EDGES)

  lemma DistinctIds()
    ensures T != A && A != C && T != C && TA.id != AC.id && AC.id != CA.id && TA.id != CA.id
  {
    assert T.name[0] == 't' && A.name[0] == 'a' && C.name[0] == 'c';
    assert TA.id.name[0] == 't' && AC.id.name[0] == 'a' && CA.id.name[0] == 'c';
  }

  lemma BothListings()
    ensures Relisted(ACTION_FIRST, CONTROL_FIRST) && UniqueNodeIds(ACTION_FIRST.nodes) && UniqueEdgeIds(EDGES)
  {
    DistinctIds();
    assert forall i :: 0 <= i < 3 ==> Nth(ACTION_FIRST.nodes, i) == ACTION_FIRST.nodes[i];
    assert forall i :: 0 <= i < 3 ==> Nth(EDGES, i) == EDGES[i];
  }

  lemma Kinds()
    ensures KindOf(ACTION_FIRST, T) == Trigger && KindOf(ACTION_FIRST, A) == Action && KindOf(ACTION_FIRST, C) == Control
    ensures HasNode(ACTION_FIRST, T) && HasNode(ACTION_FIRST, A) && HasNode(ACTION_FIRST, C)
  {
    BothListings();
    var nodes := ACTION_FIRST.nodes;
    assert nodes == [NA, NT, NC] && NT in nodes && NA in nodes && NC in nodes;
    NodeByIdUnique(nodes, NT);
    NodeByIdUnique(nodes, NA);
    NodeByIdUnique(nodes, NC);
    HasNodeIff(ACTION_FIRST, T);
    HasNodeIff(ACTION_FIRST, A);
    HasNodeIff(ACTION_FIRST, C);
  }

  lemma BothWellFormed()
    ensures WellFormed(ACTION_FIRST) && WellFormed(CONTROL_FIRST)
  {
    BothListings();
    Kinds();
    RelistedWellFormed(ACTION_FIRST, CONTROL_FIRST);
  }

  /** Nothing outside a closed part of the graph is reached from inside. */
  lemma NoWayBack(edges: seq<Edge>, inside: seq<Id>, a: Id, b: Id)
    requires ClosedUnder(edges, inside) && a in inside && b !in inside
    ensures !Reach(EdgeSet(edges), a, b)
  {
    if p :| Path(EdgeSet(edges), p, a, b) {
      ClosedUnderPath(edges, inside, p, a, b);
    }
  }

  /** The trigger is on no cycle. */
  lemma NothingReturns()
    ensures !Reach(EdgeSet(EDGES), A, T)
  {
    DistinctIds();
    NoWayBack(EDGES, [A, C], A, T);
  }

  /** Without the retry edge the control leads nowhere. */
  lemma NothingElseReturns()
    ensures !Reach(EdgeSet([TA, AC]), C, A)
  {
    DistinctIds();
    NoWayBack([TA, AC], [C], C, A);
  }

  /** Once the retry edge is a loop edge, the edge it closes the loop with is none. */
  lemma OneLoopEdge()
    requires CA in LoopEdges(ACTION_FIRST)
    ensures AC !in LoopEdges(ACTION_FIRST)
  {
    DistinctIds();
    BothWellFormed();
    WellFormedFromNodes(ACTION_FIRST);
    var forward := ForwardSet(NodeIds(ACTION_FIRST.nodes), EDGES);
    if AC in LoopEdges(ACTION_FIRST) {
      BackClosesCycle(NodeIds(ACTION_FIRST.nodes), EDGES, AC);
      assert forward <= EdgeSet([TA, AC]);
      ReachMono(forward, EdgeSet([TA, AC]), C, A);
      NothingElseReturns();
    }
  }

  lemma Returns()
    ensures Reach(EdgeSet(EDGES), A, C) && Reach(EdgeSet(EDGES), C, A)
  {
    assert CA in EDGES && AC in EDGES;
    ReachEdge(EdgeSet(EDGES), AC);
    ReachEdge(EdgeSet(EDGES), CA);
  }

  lemma RetryIsLoop()
    ensures CA in LoopEdges(ACTION_FIRST)
  {
    BothWellFormed();
    Returns();
    assert NodeIds(ACTION_FIRST.nodes) == [CA.to] + [T, C];
    EnteredFirst(ACTION_FIRST, CA, [T, C]);
  }

  lemma ActionFirstPasses()
    ensures LoopDiscipline(ACTION_FIRST)
  {
    BothWellFormed();
    Kinds();
    RetryIsLoop();
    OneLoopEdge();
    NothingReturns();
    forall e | e in LoopEdges(ACTION_FIRST)
      ensures Routes(KindOf(ACTION_FIRST, e.from))
    {
      LoopEdgeOnCycle(ACTION_FIRST, e);
      assert e == TA || e == AC || e == CA;
    }
  }

  lemma ActionIsLoop()
    ensures AC in LoopEdges(CONTROL_FIRST)
  {
    BothWellFormed();
    Returns();
    assert NodeIds(CONTROL_FIRST.nodes) == [AC.to] + [T, A];
    EnteredFirst(CONTROL_FIRST, AC, [T, A]);
  }

  lemma ControlFirstFails()
    ensures !LoopDiscipline(CONTROL_FIRST)
  {
    ActionIsLoop();
    BothListings();
    Kinds();
    RelistedFinds(ACTION_FIRST, CONTROL_FIRST, A);
  }

  /** Two listings of one graph, both with a decision on every cycle: the loop check passes in the one and
      fails in the other. So the guardedness of loops, which the canvas maintains, is necessary for
      acceptance (AcceptedLoopsGuarded) but not sufficient. */
  lemma AcceptanceDependsOnOrder()
    ensures Relisted(ACTION_FIRST, CONTROL_FIRST)
    ensures LoopsGuarded(ACTION_FIRST) && LoopsGuarded(CONTROL_FIRST)
    ensures LoopDiscipline(ACTION_FIRST) && !LoopDiscipline(CONTROL_FIRST)
  {
    BothListings();
    BothWellFormed();
    ActionFirstPasses();
    ControlFirstFails();
    AcceptedLoopsGuarded(ACTION_FIRST);
    RelistedGuarded(ACTION_FIRST, CONTROL_FIRST);
  }

  lemma NotSpace(s: string)
    requires s != [] && s[0] in {'t', 'a', 'c', 'f', 'r', 'p', 'z', 'm'}
    ensures !IsBlank(s) && TrimLeft(s) == s
  {
    assert !IsSpace(s[0]);
  }

  lemma AllNodesFit()
    ensures NodesFit(ACTION_FIRST)
  {
    NotSpace("trg_1");
    NotSpace("fn_1");
    NotSpace("ctl_1");
    NotSpace("t");
    NotSpace("a");
    NotSpace("c");
    assert NodeFits(NT) && NodeFits(NA) && NodeFits(NC);
  }

  lemma EachEdgeFits(e: Edge)
    requires e in EDGES
    ensures EdgeFits(ACTION_FIRST, e)
  {
    Kinds();
    DistinctIds();
    NotSpace(e.id.name);
    NotSpace("retry");
  }

  lemma EachReached(n: Node)
    requires n in ACTION_FIRST.nodes
    ensures ReachedFromTrigger(ACTION_FIRST, n.id)
  {
    var es := EdgeSet(EDGES);
    assert NT in ACTION_FIRST.nodes;
    ReachRefl(es, T);
    assert TA in EDGES && AC in EDGES;
    ReachEdge(es, TA);
    ReachEdge(es, AC);
    ReachTrans(es, T, A, C);
  }

  /** With the action listed first it passes every other check too. */
  lemma OneListingAccepted()
    ensures Accepts(ACTION_FIRST) && !Accepts(CONTROL_FIRST)
  {
    BothWellFormed();
    ActionFirstPasses();
    ControlFirstFails();
    AllNodesFit();
    forall e | e in EDGES
      ensures EdgeFits(ACTION_FIRST, e)
    {
      EachEdgeFits(e);
    }
    forall n | n in ACTION_FIRST.nodes
      ensures ReachedFromTrigger(ACTION_FIRST, n.id)
    {
      EachReached(n);
    }
    assert NT in ACTION_FIRST.nodes && NT.kind == Trigger;
  }
}
