/** Edits. */
module Edits {
  // Functions of the graph, with the ops each one emits, and what every edit keeps.

  import opened Graphs
  import opened LoopOrder
  import opened Validator
  import opened WorkflowOps

  // ---- the edge validator's verdict ----

  datatype Reason = SelfEdge | AlreadyThere | LoopNeedsDecision | ApprovalFull

  datatype Verdict = Refused(reason: Reason) | Granted(isBack: bool, port: string)

  function Digit(n: nat): char
    requires n < 10
  {
    '0' + n as char
  }

  function Digits(n: nat): string {
    if n < 10 then [Digit(n)] else Digits(n / 10) + [Digit(n % 10)]
  }

  /** The number a row of decimal digits stands for. */
  function Value(s: string): int {
    if s == [] then 0 else Value(s[..|s| - 1]) * 10 + (s[|s| - 1] as int - '0' as int)
  }

  /** Decimal, without leading zeros. */
  lemma {:induction false} DigitsMean(n: nat)
    ensures Value(Digits(n)) == n && Digits(n) != [] && (|Digits(n)| > 1 ==> Digits(n)[0] != '0')
    ensures forall i :: 0 <= i < |Digits(n)| ==> '0' <= Digits(n)[i] <= '9'
  {
    if n >= 10 {
      DigitsMean(n / 10);
      assert Digits(n)[..|Digits(n)| - 1] == Digits(n / 10);
    }
  }

  /** The out-edges of a node that carry a port. */
  function PortsUsed(edges: seq<Edge>, from: Id): nat {
    if edges == [] then 0
    else (if edges[0].from == from && edges[0].port != "" then 1 else 0) + PortsUsed(edges[1..], from)
  }

  ghost predicate PortTaken(g: Graph, from: Id, port: string) {
    exists e :: e in g.edges && e.from == from && e.port == port
  }

  ghost predicate Parallel(g: Graph, from: Id, to: Id) {
    exists e :: e in g.edges && e.from == from && e.to == to
  }

  ghost predicate ClosesLoop(g: Graph, from: Id, to: Id) {
    ReachPlus(EdgeSet(g.edges), to, from)
  }

  ghost function EdgeVerdict(g: Graph, from: Id, to: Id): Verdict {
    var kind := KindOf(g, from);
    var isBack := ClosesLoop(g, from, to);
    if from == to then Refused(SelfEdge)
    else if Parallel(g, from, to) then Refused(AlreadyThere)
    else if isBack && !Routes(kind) then Refused(LoopNeedsDecision)
    else if kind == Control then Granted(isBack, if isBack then "retry" else "branch" + Digits(PortsUsed(g.edges, from) + 1))
    else if kind == Approval then
      (if !PortTaken(g, from, "yes") then Granted(isBack, "yes")
       else if !PortTaken(g, from, "no") then Granted(isBack, "no")
       else Refused(ApprovalFull))
    else Granted(isBack, "")
  }

  /** The verdict, and the port that goes with it: an edge from a control is called a retry exactly when it
      closes a cycle, and is otherwise the next branch; an approval says yes before it says no. */
  lemma VerdictMeans(g: Graph, from: Id, to: Id)
    ensures var v, kind := EdgeVerdict(g, from, to), KindOf(g, from);
            && (v.Granted? <==> from != to && !Parallel(g, from, to) && (ClosesLoop(g, from, to) ==> Routes(kind)) &&
                                (kind == Approval ==> !PortTaken(g, from, "yes") || !PortTaken(g, from, "no")))
            && (v.Granted? ==> (v.isBack <==> ClosesLoop(g, from, to)))
            && (v.Granted? && kind == Control ==>
                  (v.port == "retry" <==> v.isBack) && (!v.isBack ==> v.port == "branch" + Digits(PortsUsed(g.edges, from) + 1)))
            && (v.Granted? && kind == Approval ==>
                  v.port in {"yes", "no"} && !PortTaken(g, from, v.port) && (v.port == "no" ==> PortTaken(g, from, "yes")))
            && (v.Granted? && !Routes(kind) ==> v.port == "")
            && (v.Refused? ==>
                  && (v.reason == SelfEdge <==> from == to)
                  && (v.reason == AlreadyThere <==> from != to && Parallel(g, from, to))
                  && (v.reason == LoopNeedsDecision <==> from != to && !Parallel(g, from, to) && !Routes(kind)))
  {
    assert ("branch" + Digits(PortsUsed(g.edges, from) + 1))[0] == 'b' && "retry"[0] == 'r';
  }

  /** What `isBack` means: a new edge between distinct nodes is classified as a loop edge exactly
      when the grown graph has a cycle through it. */
  lemma IsBackMeansNewCycle(g: Graph, e: Edge)
    requires e.from != e.to && e !in g.edges
    ensures ClosesLoop(g, e.from, e.to) <==> exists p: seq<Edge> :: Cycle(EdgeSet(g.edges) + {e}, p) && p[0] == e
  {
    var es := EdgeSet(g.edges);
    ReachPlusReach(es, e.to, e.from);
    if ClosesLoop(g, e.from, e.to) {
      var p :| Path(es, p, e.to, e.from);
      PathMono(es, es + {e}, p, e.to, e.from);
      var c := [e] + p;
      assert c[1..] == p;
      assert Cycle(es + {e}, c) && c[0] == e;
    }
    if p: seq<Edge> :| Cycle(es + {e}, p) && p[0] == e {
      PathThroughNewEdge(es, e, p[1..], e.to, e.from);
      if Path(es, p[1..], e.to, e.from) {
        assert Reach(es, e.to, e.from);
      }
    }
  }

  // ---- commands ----

  datatype Command =
    | NewNode(node: Node)
    | NewEdge(id: Id, from: Id, to: Id)
    | DropNode(node_: Id)
    | DropEdge(edge: Id)
    | Move(moved: Id, pos: Position)

  function NodesWithout(nodes: seq<Node>, id: Id): (kept: seq<Node>)
    ensures forall n :: n in kept <==> n in nodes && n.id != id
  {
    if nodes == [] then []
    else if nodes[0].id != id then [nodes[0]] + NodesWithout(nodes[1..], id)
    else NodesWithout(nodes[1..], id)
  }

  function DropEdgeById(edges: seq<Edge>, id: Id): (kept: seq<Edge>)
    ensures forall e :: e in kept <==> e in edges && e.id != id
  {
    if edges == [] then []
    else if edges[0].id != id then [edges[0]] + DropEdgeById(edges[1..], id)
    else DropEdgeById(edges[1..], id)
  }

  /** Delete ops for the edges that touch a node, in edge order. */
  function Cascade(edges: seq<Edge>, id: Id): seq<Op> {
    if edges == [] then []
    else (if edges[0].from == id || edges[0].to == id then [DeleteEdge(edges[0].id)] else []) + Cascade(edges[1..], id)
  }

  function SetPos(nodes: seq<Node>, id: Id, pos: Position): (r: seq<Node>)
    ensures |r| == |nodes|
  {
    var i := FindNode(nodes, id);
    if i == |nodes| then nodes else nodes[i := nodes[i].(pos := Some(pos))]
  }

  const NO_PATCH := NodePatch(Keep, Keep, Keep, Keep, Keep, Keep)

  ghost function Perform(g: Graph, c: Command): Graph {
    match c
    case NewNode(n) => Graph(g.nodes + [n], g.edges)
    case NewEdge(id, from, to) =>
      var v := EdgeVerdict(g, from, to);
      if v.Granted? then Graph(g.nodes, g.edges + [Edge(id, from, to, v.port)]) else g
    case DropNode(id) => Graph(NodesWithout(g.nodes, id), EdgesWithout(g.edges, id))
    case DropEdge(id) => Graph(g.nodes, DropEdgeById(g.edges, id))
    case Move(id, pos) => Graph(SetPos(g.nodes, id, pos), g.edges)
  }

  ghost function Emitted(g: Graph, c: Command): seq<Op> {
    match c
    case NewNode(n) => [AddNode(NodeWire(n), false)]
    case NewEdge(id, from, to) =>
      var v := EdgeVerdict(g, from, to);
      if v.Granted? then [AddEdge(EdgeWire(Edge(id, from, to, v.port)))] else []
    case DropNode(id) => [DeleteNode(id)] + Cascade(g.edges, id)
    case DropEdge(id) => [DeleteEdge(id)]
    case Move(id, pos) => [UpdateNode(id, NO_PATCH.(pos := Put(Some(pos))))]
  }

  /** What the canvas guarantees about a command before performing it. */
  ghost predicate Legal(g: Graph, c: Command) {
    match c
    case NewNode(n) => !HasNode(g, n.id) && NodeFits(n) && n.notes == ""
    case NewEdge(id, from, to) => HasNode(g, from) && HasNode(g, to) && !IsBlank(id.name) && forall e :: e in g.edges ==> e.id != id
    case DropNode(_) => true
    case DropEdge(_) => true
    case Move(id, _) => HasNode(g, id)
  }

  // ---- what every edit keeps ----

  ghost predicate NoParallelEdges(edges: seq<Edge>) {
    forall e, f :: e in edges && f in edges && e.from == f.from && e.to == f.to ==> e == f
  }

  /** The out-edges of an approval carry distinct ports. */
  ghost predicate ApprovalPortsDistinct(g: Graph) {
    forall e, f :: e in g.edges && f in g.edges && e.from == f.from && KindOf(g, e.from) == Approval && e.port == f.port ==> e == f
  }

  ghost predicate Healthy(g: Graph) {
    && WellFormed(g)
    && NodesFit(g) && EdgesFit(g)
    && NoParallelEdges(g.edges)
    && ApprovalPortsDistinct(g)
    && LoopsGuarded(g)
  }

  /** What an edit keeps of each of the three. */
  ghost predicate Kept(g: Graph, g': Graph) {
    && WellFormed(g')
    && (LoopsGuarded(g) ==> LoopsGuarded(g'))
    && (Healthy(g) ==> Healthy(g'))
  }

  // ---- kinds are stable ----

  lemma {:induction false} NodeByIdAppend(nodes: seq<Node>, n: Node, id: Id)
    ensures NodeById(nodes + [n], id) ==
            if NodeById(nodes, id).Some? then NodeById(nodes, id) else if n.id == id then Some(n) else None
  {
    if nodes == [] {
      assert nodes + [n] == [n];
    } else {
      assert (nodes + [n])[1..] == nodes[1..] + [n];
      NodeByIdAppend(nodes[1..], n, id);
    }
  }

  lemma {:induction false} NodeByIdWithout(nodes: seq<Node>, gone: Id, id: Id)
    ensures NodeById(NodesWithout(nodes, gone), id) == if id == gone then None else NodeById(nodes, id)
  {
    if nodes != [] {
      NodeByIdWithout(nodes[1..], gone, id);
      var rest := NodesWithout(nodes[1..], gone);
      if nodes[0].id != gone {
        assert ([nodes[0]] + rest)[1..] == rest;
      }
    }
  }

  lemma {:induction false} NodeByIdSetPos(nodes: seq<Node>, moved: Id, pos: Position, id: Id)
    ensures NodeById(SetPos(nodes, moved, pos), id).Some? <==> NodeById(nodes, id).Some?
    ensures NodeById(nodes, id).Some? ==> NodeById(SetPos(nodes, moved, pos), id).value.kind == NodeById(nodes, id).value.kind
  {
    if nodes != [] {
      NodeByIdSetPos(nodes[1..], moved, pos, id);
      var r := SetPos(nodes, moved, pos);
      if nodes[0].id == moved {
        assert r[1..] == nodes[1..];
      } else {
        assert r[0] == nodes[0] && r[1..] == SetPos(nodes[1..], moved, pos);
      }
    }
  }

  // ---- uniqueness is stable ----

  lemma {:induction false} UniqueWithout(nodes: seq<Node>, gone: Id)
    requires UniqueNodeIds(nodes)
    ensures UniqueNodeIds(NodesWithout(nodes, gone))
  {
    if nodes != [] {
      assert nodes == [nodes[0]] + nodes[1..];
      UniqueNodesCons(nodes[0], nodes[1..]);
      UniqueWithout(nodes[1..], gone);
      UniqueNodesCons(nodes[0], NodesWithout(nodes[1..], gone));
    }
  }

  lemma {:induction false} UniqueEdgesWithout(edges: seq<Edge>, gone: Id)
    requires UniqueEdgeIds(edges)
    ensures UniqueEdgeIds(EdgesWithout(edges, gone)) && UniqueEdgeIds(DropEdgeById(edges, gone))
  {
    if edges != [] {
      assert edges == [edges[0]] + edges[1..];
      UniqueEdgesCons(edges[0], edges[1..]);
      UniqueEdgesWithout(edges[1..], gone);
      UniqueEdgesCons(edges[0], EdgesWithout(edges[1..], gone));
      UniqueEdgesCons(edges[0], DropEdgeById(edges[1..], gone));
    }
  }

  lemma UniqueNodesAppend(nodes: seq<Node>, n: Node)
    requires UniqueNodeIds(nodes) && forall m :: m in nodes ==> m.id != n.id
    ensures UniqueNodeIds(nodes + [n])
  {
    var all := nodes + [n];
    assert all[..|nodes|] == nodes && all[..|nodes| + 1] == all;
    UniqueSnoc(all, |nodes|);
  }

  lemma UniqueEdgesAppend(edges: seq<Edge>, e: Edge)
    requires UniqueEdgeIds(edges) && forall f :: f in edges ==> f.id != e.id
    ensures UniqueEdgeIds(edges + [e])
  {
    var all := edges + [e];
    assert all[..|edges|] == edges && all[..|edges| + 1] == all;
    UniqueEdgeSnoc(all, |edges|);
  }

  lemma UniqueSetPos(nodes: seq<Node>, moved: Id, pos: Position)
    requires UniqueNodeIds(nodes)
    ensures UniqueNodeIds(SetPos(nodes, moved, pos))
  {
    var r := SetPos(nodes, moved, pos);
    forall i, j | 0 <= i < j < |r| ensures Nth(r, i).id != Nth(r, j).id {
      assert Nth(nodes, i).id == r[i].id && Nth(nodes, j).id == r[j].id;
    }
  }

  // ---- what every edit keeps, command by command ----

  /** Same edges, same ids, same kinds: the edge conditions carry over. */
  lemma SameEdges(g: Graph, g': Graph)
    requires WellFormed(g) && g'.edges == g.edges && UniqueNodeIds(g'.nodes)
    requires forall id {:trigger HasNode(g', id)} :: HasNode(g, id) ==> HasNode(g', id) && KindOf(g', id) == KindOf(g, id)
    ensures WellFormed(g') && UnroutedEdges(g') == UnroutedEdges(g)
    ensures Healthy(g) && NodesFit(g') ==> Healthy(g')
  {
    forall e | e in g.edges
      ensures HasNode(g', e.from) && HasNode(g', e.to) && KindOf(g', e.from) == KindOf(g, e.from)
    {
      assert HasNode(g', e.from) && HasNode(g', e.to);
    }
    assert UnroutedEdges(g') == UnroutedEdges(g);
  }

  /** Fewer edges between surviving nodes of the same kinds: the edge conditions carry over. */
  lemma FewerEdges(g: Graph, g': Graph)
    requires WellFormed(g) && UniqueNodeIds(g'.nodes) && UniqueEdgeIds(g'.edges)
    requires forall e :: e in g'.edges ==> e in g.edges && HasNode(g', e.from) && HasNode(g', e.to) && KindOf(g', e.from) == KindOf(g, e.from)
    ensures WellFormed(g') && (LoopsGuarded(g) ==> LoopsGuarded(g'))
    ensures Healthy(g) && NodesFit(g') ==> Healthy(g')
  {
    assert UnroutedEdges(g') <= UnroutedEdges(g);
    if LoopsGuarded(g) {
      AcyclicMono(UnroutedEdges(g'), UnroutedEdges(g));
    }
  }

  lemma NewNodeKeeps(g: Graph, n: Node)
    requires WellFormed(g) && Legal(g, NewNode(n))
    ensures Kept(g, Perform(g, NewNode(n)))
  {
    var g' := Perform(g, NewNode(n));
    HasNodeIff(g, n.id);
    UniqueNodesAppend(g.nodes, n);
    forall id | HasNode(g, id) ensures HasNode(g', id) && KindOf(g', id) == KindOf(g, id) {
      HasNodeIff(g, id);
      HasNodeIff(g', id);
      NodeByIdAppend(g.nodes, n, id);
    }
    SameEdges(g, g');
  }

  lemma MovedNodesFit(g: Graph, id: Id, pos: Position)
    requires NodesFit(g)
    ensures NodesFit(Perform(g, Move(id, pos)))
  {
    var g' := Perform(g, Move(id, pos));
    forall n | n in g'.nodes ensures NodeFits(n) {
      var i :| 0 <= i < |g'.nodes| && g'.nodes[i] == n;
      assert g.nodes[i] in g.nodes && NodeShapeError(n) == NodeShapeError(g.nodes[i]);
    }
  }

  lemma MoveKeeps(g: Graph, id: Id, pos: Position)
    requires WellFormed(g)
    ensures Kept(g, Perform(g, Move(id, pos)))
  {
    var g' := Perform(g, Move(id, pos));
    UniqueSetPos(g.nodes, id, pos);
    forall x | HasNode(g, x) ensures HasNode(g', x) && KindOf(g', x) == KindOf(g, x) {
      HasNodeIff(g, x);
      HasNodeIff(g', x);
      NodeByIdSetPos(g.nodes, id, pos, x);
    }
    if NodesFit(g) {
      MovedNodesFit(g, id, pos);
    }
    SameEdges(g, g');
  }

  lemma SurvivorKept(g: Graph, gone: Id, id: Id)
    requires HasNode(g, id) && id != gone
    ensures var g' := Perform(g, DropNode(gone)); HasNode(g', id) && KindOf(g', id) == KindOf(g, id)
  {
    HasNodeIff(g, id);
    HasNodeIff(Perform(g, DropNode(gone)), id);
    NodeByIdWithout(g.nodes, gone, id);
  }

  lemma DropNodeKeeps(g: Graph, id: Id)
    requires WellFormed(g)
    ensures Kept(g, Perform(g, DropNode(id)))
  {
    var g' := Perform(g, DropNode(id));
    UniqueWithout(g.nodes, id);
    UniqueEdgesWithout(g.edges, id);
    forall e | e in g'.edges ensures HasNode(g', e.from) && HasNode(g', e.to) && KindOf(g', e.from) == KindOf(g, e.from) {
      assert HasNode(g, e.from) && HasNode(g, e.to);
      SurvivorKept(g, id, e.from);
      SurvivorKept(g, id, e.to);
    }
    FewerEdges(g, g');
  }

  lemma DropEdgeKeeps(g: Graph, id: Id)
    requires WellFormed(g)
    ensures Kept(g, Perform(g, DropEdge(id)))
  {
    UniqueEdgesWithout(g.edges, id);
    FewerEdges(g, Perform(g, DropEdge(id)));
  }

  /** The heart of the loop rule: a granted edge from a node that makes no decision closes no
      cycle, so no unguarded loop can appear. */
  lemma GrantedKeepsGuarded(g: Graph, id: Id, from: Id, to: Id)
    requires LoopsGuarded(g) && EdgeVerdict(g, from, to).Granted?
    ensures LoopsGuarded(Perform(g, NewEdge(id, from, to)))
  {
    var g' := Perform(g, NewEdge(id, from, to));
    var e := Edge(id, from, to, EdgeVerdict(g, from, to).port);
    var es := UnroutedEdges(g);
    if Routes(KindOf(g, from)) {
      assert UnroutedEdges(g') == es;
    } else {
      assert UnroutedEdges(g') == es + {e};
      if Reach(es, to, from) {
        ReachMono(es, EdgeSet(g.edges), to, from);
        ReachPlusReach(EdgeSet(g.edges), to, from);
      }
      AcyclicAddEdge(es, e);
    }
  }

  lemma GrantedPortFits(g: Graph, from: Id, to: Id)
    requires EdgeVerdict(g, from, to).Granted?
    ensures PortFits(KindOf(g, from), EdgeVerdict(g, from, to).port)
    ensures KindOf(g, from) == Approval ==> !PortTaken(g, from, EdgeVerdict(g, from, to).port)
  {
    var port := EdgeVerdict(g, from, to).port;
    if KindOf(g, from) == Control {
      assert port[0] == 'r' || port[0] == 'b';
      assert !IsSpace(port[0]);
    }
  }

  lemma GrantedHealthy(g: Graph, id: Id, from: Id, to: Id)
    requires Healthy(g) && Legal(g, NewEdge(id, from, to)) && EdgeVerdict(g, from, to).Granted?
    requires WellFormed(Perform(g, NewEdge(id, from, to)))
    ensures Healthy(Perform(g, NewEdge(id, from, to)))
  {
    var g' := Perform(g, NewEdge(id, from, to));
    var e := Edge(id, from, to, EdgeVerdict(g, from, to).port);
    GrantedKeepsGuarded(g, id, from, to);
    GrantedPortFits(g, from, to);
    assert forall f :: f in g'.edges <==> f in g.edges || f == e;
    assert forall x :: KindOf(g', x) == KindOf(g, x) && (HasNode(g', x) <==> HasNode(g, x));
    assert NodesFit(g') && EdgesFit(g');
    assert NoParallelEdges(g'.edges);
  }

  lemma NewEdgeKeeps(g: Graph, id: Id, from: Id, to: Id)
    requires WellFormed(g) && Legal(g, NewEdge(id, from, to))
    ensures Kept(g, Perform(g, NewEdge(id, from, to)))
  {
    var v := EdgeVerdict(g, from, to);
    if v.Granted? {
      var g' := Perform(g, NewEdge(id, from, to));
      var e := Edge(id, from, to, v.port);
      UniqueEdgesAppend(g.edges, e);
      assert forall f :: f in g'.edges <==> f in g.edges || f == e;
      assert forall x :: KindOf(g', x) == KindOf(g, x) && (HasNode(g', x) <==> HasNode(g, x));
      if LoopsGuarded(g) {
        GrantedKeepsGuarded(g, id, from, to);
      }
      if Healthy(g) {
        GrantedHealthy(g, id, from, to);
      }
    }
  }

  /** Whatever well-formed graph the canvas is given, every edit keeps it well formed, keeps a decision on
      every cycle if there was one, and keeps it healthy if it was. */
  lemma PerformKeeps(g: Graph, c: Command)
    requires WellFormed(g) && Legal(g, c)
    ensures WellFormed(Perform(g, c))
    ensures LoopsGuarded(g) ==> LoopsGuarded(Perform(g, c))
    ensures Healthy(g) ==> Healthy(Perform(g, c))
  {
    match c
    case NewNode(n) => NewNodeKeeps(g, n);
    case NewEdge(id, from, to) => NewEdgeKeeps(g, id, from, to);
    case DropNode(id) => DropNodeKeeps(g, id);
    case DropEdge(id) => DropEdgeKeeps(g, id);
    case Move(id, pos) => MoveKeeps(g, id, pos);
  }

  // ---- runs ----

  ghost predicate LegalRun(g: Graph, cs: seq<Command>)
    decreases |cs|
  {
    cs != [] ==> Legal(g, cs[0]) && LegalRun(Perform(g, cs[0]), cs[1..])
  }

  ghost function Final(g: Graph, cs: seq<Command>): Graph
    decreases |cs|
  {
    if cs == [] then g else Final(Perform(g, cs[0]), cs[1..])
  }

  ghost function AllOps(g: Graph, cs: seq<Command>): seq<Op>
    decreases |cs|
  {
    if cs == [] then [] else Emitted(g, cs[0]) + AllOps(Perform(g, cs[0]), cs[1..])
  }

  /** Over every run: unique ids and no dangling edge; a decision on every cycle, if the canvas was given
      such a graph, as every accepted one is; and no self or parallel edge, legal and distinct ports, if it
      was given a healthy one. */
  lemma {:induction false} RunKeeps(g: Graph, cs: seq<Command>)
    requires WellFormed(g) && LegalRun(g, cs)
    ensures WellFormed(Final(g, cs))
    ensures LoopsGuarded(g) ==> LoopsGuarded(Final(g, cs))
    ensures Healthy(g) ==> Healthy(Final(g, cs))
    decreases |cs|
  {
    if cs != [] {
      PerformKeeps(g, cs[0]);
      RunKeeps(Perform(g, cs[0]), cs[1..]);
    }
  }

  lemma ApprovalHasTwoExits(g: Graph, e: Edge, f: Edge, h: Edge)
    requires Healthy(g) && e in g.edges && f in g.edges && h in g.edges
    requires e.from == f.from == h.from && KindOf(g, e.from) == Approval
    ensures e == f || f == h || e == h
  {
  }

  /** A healthy graph meets every local check of the server; what remains for acceptance is a
      trigger, reachability, and the order-dependent loop test. */
  lemma HealthyAcceptance(g: Graph)
    requires Healthy(g)
    ensures Accepts(g) <==>
            HasTrigger(g) && AllReached(g) && LoopDiscipline(g)
  {
    if t :| t in g.nodes && t.kind == Trigger {
      assert g.nodes != [];
    }
  }

  /** Which it meets in every order of its nodes if and only if every edge on a cycle leaves a control or
      an approval node. */
  lemma HealthyInEveryListing(g: Graph)
    requires Healthy(g)
    ensures (forall g' :: Relisted(g, g') ==> Accepts(g')) <==> HasTrigger(g) && AllReached(g) && CyclesRouted(g)
  {
    assert Relisted(g, g);
    PassesInEveryListing(g);
    HealthyAcceptance(g);
    if Accepts(g) {
      AcceptedInEveryListing(g);
    }
  }

  // ---- replaying the emitted ops on the server ----

  ghost predicate Touched(g: Graph, id: Id) {
    exists e :: e in g.edges && (e.from == id || e.to == id)
  }

  /** The commands whose ops the server takes: deleting a node emits the node deletion and then a
      deletion for each of its edges, which the server has by then already removed itself. */
  ghost predicate Replayable(g: Graph, c: Command) {
    match c
    case DropNode(id) => HasNode(g, id) && !Touched(g, id)
    case DropEdge(id) => exists e :: e in g.edges && e.id == id
    case _ => true
  }

  ghost predicate ReplayableRun(g: Graph, cs: seq<Command>)
    decreases |cs|
  {
    cs != [] ==> Replayable(g, cs[0]) && ReplayableRun(Perform(g, cs[0]), cs[1..])
  }

  lemma TakeOut<T>(s: seq<T>, i: nat)
    requires 0 < i < |s|
    ensures s[..i] + s[i + 1..] == [s[0]] + (s[1..][..i - 1] + s[1..][i..])
  {
  }

  lemma {:induction false} NothingWithout(nodes: seq<Node>, id: Id)
    requires forall n :: n in nodes ==> n.id != id
    ensures NodesWithout(nodes, id) == nodes
  {
    if nodes != [] {
      NothingWithout(nodes[1..], id);
    }
  }

  lemma {:induction false} RemoveNodeAt(nodes: seq<Node>, id: Id)
    requires UniqueNodeIds(nodes) && FindNode(nodes, id) < |nodes|
    ensures var i := FindNode(nodes, id); nodes[..i] + nodes[i + 1..] == NodesWithout(nodes, id)
  {
    assert nodes == [nodes[0]] + nodes[1..];
    UniqueNodesCons(nodes[0], nodes[1..]);
    if nodes[0].id == id {
      NothingWithout(nodes[1..], id);
    } else {
      RemoveNodeAt(nodes[1..], id);
      var i := FindNode(nodes[1..], id);
      TakeOut(nodes, i + 1);
    }
  }

  lemma {:induction false} NoSuchEdge(edges: seq<Edge>, id: Id)
    requires forall e :: e in edges ==> e.id != id
    ensures DropEdgeById(edges, id) == edges
  {
    if edges != [] {
      NoSuchEdge(edges[1..], id);
    }
  }

  lemma {:induction false} RemoveEdgeAt(edges: seq<Edge>, id: Id)
    requires UniqueEdgeIds(edges) && FindEdge(edges, id) < |edges|
    ensures var i := FindEdge(edges, id); edges[..i] + edges[i + 1..] == DropEdgeById(edges, id)
  {
    assert edges == [edges[0]] + edges[1..];
    UniqueEdgesCons(edges[0], edges[1..]);
    if edges[0].id == id {
      NoSuchEdge(edges[1..], id);
    } else {
      RemoveEdgeAt(edges[1..], id);
      var i := FindEdge(edges[1..], id);
      TakeOut(edges, i + 1);
    }
  }

  lemma {:induction false} CascadeHead(edges: seq<Edge>, id: Id)
    ensures Cascade(edges, id) == [] <==> forall e :: e in edges ==> e.from != id && e.to != id
    ensures Cascade(edges, id) != [] ==>
              exists e :: e in edges && (e.from == id || e.to == id) && Cascade(edges, id)[0] == DeleteEdge(e.id)
  {
    if edges != [] {
      CascadeHead(edges[1..], id);
      if edges[0].from == id || edges[0].to == id {
        assert Cascade(edges, id)[0] == DeleteEdge(edges[0].id) && edges[0] in edges;
      }
    }
  }

  lemma FindEdgeIff(edges: seq<Edge>, id: Id)
    ensures FindEdge(edges, id) < |edges| <==> exists e :: e in edges && e.id == id
  {
    if e :| e in edges && e.id == id {
      var i :| 0 <= i < |edges| && edges[i] == e;
    }
  }

  lemma ApplySingle(g: Graph, op: Op, at: nat)
    ensures ApplyFrom(g, [op], at) == ApplyOne(g, op, at)
  {
    assert [op][1..] == [];
  }

  lemma DeleteNodeApplied(g: Graph, id: Id)
    requires UniqueNodeIds(g.nodes) && FindNode(g.nodes, id) < |g.nodes|
    ensures ApplyOne(g, DeleteNode(id), 0) == Ok(Graph(NodesWithout(g.nodes, id), EdgesWithout(g.edges, id)))
  {
    RemoveNodeAt(g.nodes, id);
  }

  /** The server cascades on its own: the node deletion alone already gives the canvas's graph. */
  lemma ServerCascades(g: Graph, id: Id)
    requires UniqueNodeIds(g.nodes)
    ensures HasNode(g, id) ==> ApplyOne(g, DeleteNode(id), 0) == Ok(Perform(g, DropNode(id)))
    ensures !HasNode(g, id) ==> ApplyOne(g, DeleteNode(id), 0).Err?
  {
    HasNodeIff(g, id);
    if HasNode(g, id) {
      DeleteNodeApplied(g, id);
    }
  }

  /** The first edge deletion of the cascade finds its edge gone. */
  lemma CascadeFails(g: Graph, edges: seq<Edge>, id: Id)
    requires UniqueEdgeIds(edges) && g.edges == EdgesWithout(edges, id) && Cascade(edges, id) != []
    ensures ApplyFrom(g, Cascade(edges, id), 1).Err?
  {
    CascadeHead(edges, id);
    var e :| e in edges && (e.from == id || e.to == id) && Cascade(edges, id)[0] == DeleteEdge(e.id);
    FindEdgeIff(g.edges, e.id);
    forall f | f in g.edges
      ensures f.id != e.id
    {
      if f.id == e.id {
        EdgeByIdUnique(edges, e, f);
      }
    }
  }

  /** The redundant edge deletion fails, and with it the whole op list. */
  lemma DropNodeReplays(g: Graph, id: Id)
    requires WellFormed(g)
    ensures var r := Apply(g, Emitted(g, DropNode(id)));
            (r.Ok? <==> Replayable(g, DropNode(id))) && (r.Ok? ==> r.graph == Perform(g, DropNode(id)))
  {
    var rest := Cascade(g.edges, id);
    ServerCascades(g, id);
    CascadeHead(g.edges, id);
    ApplyHead(g, DeleteNode(id), rest, 0);
    if HasNode(g, id) && rest != [] {
      CascadeFails(Perform(g, DropNode(id)), g.edges, id);
    }
  }

  lemma NewNodeReplays(g: Graph, n: Node)
    requires Legal(g, NewNode(n))
    ensures Apply(g, Emitted(g, NewNode(n))) == Ok(Perform(g, NewNode(n)))
  {
    HasNodeIff(g, n.id);
    ApplySingle(g, AddNode(NodeWire(n), false), 0);
  }

  lemma NewEdgeReplays(g: Graph, id: Id, from: Id, to: Id)
    requires Legal(g, NewEdge(id, from, to))
    ensures Apply(g, Emitted(g, NewEdge(id, from, to))) == Ok(Perform(g, NewEdge(id, from, to)))
  {
    var v := EdgeVerdict(g, from, to);
    if v.Granted? {
      FindEdgeIff(g.edges, id);
      ApplySingle(g, AddEdge(EdgeWire(Edge(id, from, to, v.port))), 0);
    }
  }

  lemma DropEdgeReplays(g: Graph, id: Id)
    requires UniqueEdgeIds(g.edges)
    ensures var r := Apply(g, Emitted(g, DropEdge(id)));
            (r.Ok? <==> Replayable(g, DropEdge(id))) && (r.Ok? ==> r.graph == Perform(g, DropEdge(id)))
  {
    FindEdgeIff(g.edges, id);
    ApplySingle(g, DeleteEdge(id), 0);
    if FindEdge(g.edges, id) < |g.edges| {
      RemoveEdgeAt(g.edges, id);
    }
  }

  lemma MoveReplays(g: Graph, id: Id, pos: Position)
    requires Legal(g, Move(id, pos))
    ensures Apply(g, Emitted(g, Move(id, pos))) == Ok(Perform(g, Move(id, pos)))
  {
    HasNodeIff(g, id);
    ApplySingle(g, UpdateNode(id, NO_PATCH.(pos := Put(Some(pos)))), 0);
  }

  /** One command's ops, replayed on the server's copy of the graph. */
  ghost predicate ReplaysAs(r: Result, replayable: bool, g: Graph) {
    (r.Ok? <==> replayable) && (replayable ==> r == Ok(g))
  }

  lemma PerformReplays(g: Graph, c: Command)
    requires WellFormed(g) && Legal(g, c)
    ensures ReplaysAs(Apply(g, Emitted(g, c)), Replayable(g, c), Perform(g, c))
  {
    match c
    case NewNode(n) => NewNodeReplays(g, n);
    case NewEdge(id, from, to) => NewEdgeReplays(g, id, from, to);
    case DropNode(id) => DropNodeReplays(g, id);
    case DropEdge(id) => DropEdgeReplays(g, id);
    case Move(id, pos) => MoveReplays(g, id, pos);
  }

  lemma ReplaysThen(g: Graph, g': Graph, ops: seq<Op>, rest: seq<Op>, first: bool, later: bool, final: Graph)
    requires ReplaysAs(Apply(g, ops), first, g') && ReplaysAs(Apply(g', rest), later, final)
    ensures ReplaysAs(Apply(g, ops + rest), first && later, final)
  {
    ApplyConcat(g, ops, rest, 0);
    ApplyShift(g', rest, 0, |ops|);
  }

  /** Replaying a run's ops on the server's copy of the starting graph succeeds exactly when no
      step deleted a node that had edges (or something no longer there); and when it succeeds it
      gives the graph on the canvas. */
  lemma {:induction false} RunReplays(g: Graph, cs: seq<Command>)
    requires WellFormed(g) && LegalRun(g, cs)
    ensures Apply(g, AllOps(g, cs)).Ok? <==> ReplayableRun(g, cs)
    ensures ReplayableRun(g, cs) ==> Apply(g, AllOps(g, cs)) == Ok(Final(g, cs))
    decreases |cs|
  {
    if cs != [] {
      var g' := Perform(g, cs[0]);
      PerformReplays(g, cs[0]);
      PerformKeeps(g, cs[0]);
      RunReplays(g', cs[1..]);
      ReplaysThen(g, g', Emitted(g, cs[0]), AllOps(g', cs[1..]), Replayable(g, cs[0]), ReplayableRun(g', cs[1..]), Final(g', cs[1..]));
    }
  }

  /** The smallest case: deleting the head of a single edge. */
  lemma ConnectedDeletionRefused()
    ensures var a := Plain(Id("a"), Action, "fn_a"); var b := Plain(Id("b"), Action, "fn_b");
            var g := Graph([a, b], [Edge(Id("e"), Id("a"), Id("b"), "")]);
            Apply(g, Emitted(g, DropNode(Id("b")))) == Err(1, UnknownEdge(Id("e")))
  {
    var a := Plain(Id("a"), Action, "fn_a");
    var b := Plain(Id("b"), Action, "fn_b");
    var e := Edge(Id("e"), Id("a"), Id("b"), "");
    var g := Graph([a, b], [e]);
    assert Id("a").name[0] == 'a' && Id("b").name[0] == 'b';
    var ops := Emitted(g, DropNode(Id("b")));
    assert g.edges[1..] == [] && Cascade(g.edges, Id("b")) == [DeleteEdge(Id("e"))];
    assert ops[0] == DeleteNode(Id("b")) && ops[1..] == [DeleteEdge(Id("e"))] && ops[1..][1..] == [];
    assert g.nodes[1..] == [b] && FindNode(g.nodes, Id("b")) == 1;
    var g' := Graph([a], []);
    assert g.nodes[..1] + g.nodes[2..] == [a] && EdgesWithout(g.edges, Id("b")) == [];
    assert ApplyOne(g, ops[0], 0) == Ok(g');
    ApplySingle(g', DeleteEdge(Id("e")), 1);
  }
}
