/** The canvas engine, which edits in place. */
module Canvas {
  // The graph it edits in place, the selection, and the ops it emits.

  import opened Graphs
  import opened DepthFirst
  import opened Validator
  import opened WorkflowOps
  import opened Edits

  datatype Selection = NothingSelected | NodeSelected(node: Id) | EdgeSelected(edge: Id)

  const NODE_WIDTH := 188.0
  const NODE_HEIGHT := 60.0

  /** Rounds half up. */
  function Round(r: real): int {
    (r + 0.5).Floor
  }

  /** To the nearest whole number, and up when there are two. */
  lemma RoundIsNearest(r: real)
    ensures Round(r) as real - 0.5 <= r < Round(r) as real + 0.5
  {
  }

  function RoundPoint(p: Point): Position {
    Position(Round(p.x), Round(p.y))
  }

  // ---- reachability along at least one edge ----

  /** Everything seen is reachable, and what has left the queue leads only to seen nodes and not
      to the target. */
  ghost predicate Searched(es: set<Edge>, from: Id, to: Id, seen: set<Id>, queue: seq<Id>) {
    && from in seen
    && (forall id {:trigger Reach(es, from, id)} :: id in seen ==> Reach(es, from, id))
    && (forall id :: id in queue ==> id in seen)
    && (forall e :: e in es && e.from in seen && e.from !in queue ==> e.to in seen && e.to != to)
  }

  lemma {:induction false} SearchedPath(es: set<Edge>, from: Id, to: Id, seen: set<Id>, p: seq<Edge>, a: Id)
    requires Searched(es, from, to, seen, []) && a in seen && Path(es, p, a, to)
    ensures p == []
  {
    if p != [] {
      SearchedPath(es, from, to, seen, p[1..], p[0].to);
    }
  }

  lemma SearchExhausted(es: set<Edge>, from: Id, to: Id, seen: set<Id>)
    requires Searched(es, from, to, seen, [])
    ensures !ReachPlus(es, from, to)
  {
    forall e | e in es && e.from == from ensures !Reach(es, e.to, to) {
      if p :| Path(es, p, e.to, to) {
        SearchedPath(es, from, to, seen, p, e.to);
      }
    }
  }

  lemma HitTarget(es: set<Edge>, from: Id, e: Edge)
    requires e in es && Reach(es, from, e.from)
    ensures ReachPlus(es, from, e.to)
  {
    var p :| Path(es, p, from, e.from);
    assert Path(es, [e], e.from, e.to);
    PathConcat(es, p, [e], from, e.from, e.to);
    ReachPlusPath(es, p + [e], from, e.to);
  }

  /** Visits the successors of one node; stops at the target. */
  method VisitFrom(edges: seq<Edge>, from: Id, to: Id, cur: Id, next: seq<Edge>, seen0: set<Id>)
    returns (hit: bool, seen: set<Id>, found: seq<Id>)
    requires Reach(EdgeSet(edges), from, cur) && forall e :: e in next ==> e in edges && e.from == cur
    requires forall id {:trigger Reach(EdgeSet(edges), from, id)} :: id in seen0 ==> Reach(EdgeSet(edges), from, id)
    ensures hit ==> ReachPlus(EdgeSet(edges), from, to)
    ensures !hit ==> forall e :: e in next ==> e.to in seen && e.to != to
    ensures forall id :: id in seen <==> id in seen0 || id in found
    ensures forall id :: id in found ==> id !in seen0 && Reach(EdgeSet(edges), from, id) && exists e :: e in edges && e.to == id
  {
    var es := EdgeSet(edges);
    hit, seen, found := false, seen0, [];
    for i := 0 to |next|
      invariant forall j :: 0 <= j < i ==> next[j].to in seen && next[j].to != to
      invariant forall id :: id in seen <==> id in seen0 || id in found
      invariant forall id :: id in found ==> id !in seen0 && Reach(es, from, id) && exists e :: e in edges && e.to == id
    {
      var e := next[i];
      assert e in next && e in es;
      if e.to == to {
        HitTarget(es, from, e);
        return true, seen, found;
      }
      if e.to !in seen {
        ReachEdge(es, e);
        ReachTrans(es, from, cur, e.to);
        seen := seen + {e.to};
        found := found + [e.to];
      }
    }
  }

  ghost function EdgeTargets(edges: seq<Edge>): set<Id> {
    set e | e in edges :: e.to
  }

  lemma SearchNext(edges: seq<Edge>, from: Id, to: Id, seen: set<Id>, queue: seq<Id>, seen': set<Id>, found: seq<Id>)
    requires queue != [] && Searched(EdgeSet(edges), from, to, seen, queue)
    requires forall id :: id in seen' <==> id in seen || id in found
    requires forall id :: id in found ==> id !in seen && Reach(EdgeSet(edges), from, id) && exists e :: e in edges && e.to == id
    requires forall e :: e in Out(edges, queue[0]) ==> e.to in seen' && e.to != to
    ensures Searched(EdgeSet(edges), from, to, seen', queue[1..] + found)
    ensures found == [] ==> seen' == seen
    ensures found != [] ==> EdgeTargets(edges) - seen' < EdgeTargets(edges) - seen
  {
    var es := EdgeSet(edges);
    var queue' := queue[1..] + found;
    forall id | id in seen' ensures Reach(es, from, id) {
      assert id in seen ==> Reach(es, from, id);
    }
    forall e | e in es && e.from in seen' && e.from !in queue' ensures e.to in seen' && e.to != to {
      if e.from == queue[0] {
        assert e in Out(edges, queue[0]);
      } else {
        assert e.from !in queue;
      }
    }
    if found != [] {
      assert found[0] in found;
      var e :| e in edges && e.to == found[0];
      assert found[0] in EdgeTargets(edges) - seen && found[0] in seen';
    }
  }

  method Reachable(edges: seq<Edge>, from: Id, to: Id) returns (yes: bool)
    ensures yes <==> ReachPlus(EdgeSet(edges), from, to)
  {
    var adj := BuildOut(edges);
    var seen := {from};
    var queue := [from];
    ReachRefl(EdgeSet(edges), from);
    while queue != []
      invariant Searched(EdgeSet(edges), from, to, seen, queue)
      decreases EdgeTargets(edges) - seen, |queue|
    {
      var u := queue[0];
      var next := if u in adj then adj[u] else [];
      assert next == Out(edges, u) && Reach(EdgeSet(edges), from, u);
      ghost var before := seen;
      var hit, found;
      hit, seen, found := VisitFrom(edges, from, to, u, next, seen);
      if hit {
        return true;
      }
      SearchNext(edges, from, to, before, queue, seen, found);
      queue := queue[1..] + found;
    }
    SearchExhausted(EdgeSet(edges), from, to, seen);
    return false;
  }

  // ---- the validator ----

  lemma {:induction false} PortsUsedSnoc(edges: seq<Edge>, e: Edge, from: Id)
    ensures PortsUsed(edges + [e], from) == PortsUsed(edges, from) + if e.from == from && e.port != "" then 1 else 0
  {
    if edges == [] {
      assert edges + [e] == [e];
    } else {
      assert (edges + [e])[1..] == edges[1..] + [e];
      PortsUsedSnoc(edges[1..], e, from);
    }
  }

  method CountPorts(edges: seq<Edge>, from: Id) returns (used: nat)
    ensures used == PortsUsed(edges, from)
  {
    used := 0;
    for i := 0 to |edges|
      invariant used == PortsUsed(edges[..i], from)
    {
      assert edges[..i + 1] == edges[..i] + [edges[i]];
      PortsUsedSnoc(edges[..i], edges[i], from);
      if edges[i].from == from && edges[i].port != "" {
        used := used + 1;
      }
    }
    assert edges[..|edges|] == edges;
  }

  method ValidateEdge(g: Graph, from: Id, to: Id) returns (v: Verdict)
    requires HasNode(g, from)
    ensures v == EdgeVerdict(g, from, to)
  {
    if from == to {
      return Refused(SelfEdge);
    }
    if exists e :: e in g.edges && e.from == from && e.to == to {
      return Refused(AlreadyThere);
    }
    var kind := KindOf(g, from);
    var isBack := Reachable(g.edges, to, from);
    if isBack && !Routes(kind) {
      return Refused(LoopNeedsDecision);
    }
    var port := "";
    if kind == Control {
      var used := CountPorts(g.edges, from);
      port := if isBack then "retry" else "branch" + Digits(used + 1);
    } else if kind == Approval {
      var taken := set e | e in g.edges && e.from == from :: e.port;
      port := if "yes" !in taken then "yes" else if "no" !in taken then "no" else "";
      if port == "" {
        return Refused(ApprovalFull);
      }
    }
    return Granted(isBack, port);
  }

  // ---- fresh node ids ----

  function BaseName(kind: Kind): string {
    match kind
    case Trigger => "trigger"
    case Action => "task"
    case Agent => "agent"
    case Control => "route"
    case Approval => "review"
    case Other(_) => "x"
  }

  function RefPrefix(kind: Kind): string {
    match kind
    case Trigger => "trg_"
    case Action => "fn_"
    case Agent => "ag_"
    case Control => "ctl_"
    case Approval => "apf_"
    case Other(_) => ""
  }

  /** The i-th candidate: the base name, then the base name followed by 2, 3, ... */
  function Candidate(kind: Kind, i: nat): Id
    requires i >= 1
  {
    Id(if i == 1 then BaseName(kind) else BaseName(kind) + Digits(i))
  }

  lemma {:induction false} DigitsNonempty(n: nat)
    ensures |Digits(n)| >= 1
    decreases n
  {
    if n >= 10 {
      DigitsNonempty(n / 10);
    }
  }

  lemma {:induction false} DigitsInjective(a: nat, b: nat)
    requires Digits(a) == Digits(b)
    ensures a == b
    decreases a
  {
    DigitsNonempty(a / 10);
    DigitsNonempty(b / 10);
    if a >= 10 && b >= 10 {
      var da, db := Digits(a), Digits(b);
      assert da[|da| - 1] == Digit(a % 10) && db[|db| - 1] == Digit(b % 10);
      assert da[..|da| - 1] == Digits(a / 10) && db[..|db| - 1] == Digits(b / 10);
      DigitsInjective(a / 10, b / 10);
      assert a == a / 10 * 10 + a % 10 && b == b / 10 * 10 + b % 10;
    } else if a < 10 && b < 10 {
      assert Digits(a)[0] == Digit(a) && Digits(b)[0] == Digit(b);
    }
  }

  lemma CandidatesDistinct(kind: Kind, i: nat, j: nat)
    requires 1 <= i < j
    ensures Candidate(kind, i) != Candidate(kind, j)
  {
    var base := BaseName(kind);
    DigitsNonempty(j);
    assert |base| < |base + Digits(j)| && (base + Digits(j))[|base|..] == Digits(j);
    if i > 1 && Candidate(kind, i) == Candidate(kind, j) {
      assert (base + Digits(i))[|base|..] == Digits(i);
      DigitsInjective(i, j);
    }
  }

  /** The first `n` candidates are all names of nodes. */
  ghost predicate AllTaken(g: Graph, kind: Kind, n: int) {
    forall j {:trigger Candidate(kind, j)} :: 1 <= j <= n ==> HasNode(g, Candidate(kind, j))
  }

  ghost function FirstCandidates(kind: Kind, n: nat): set<Id> {
    if n == 0 then {} else FirstCandidates(kind, n - 1) + {Candidate(kind, n)}
  }

  lemma {:induction false} FirstCandidatesSize(g: Graph, kind: Kind, n: nat)
    requires AllTaken(g, kind, n)
    ensures |FirstCandidates(kind, n)| == n && FirstCandidates(kind, n) <= set x | x in NodeIds(g.nodes)
    ensures forall x :: x in FirstCandidates(kind, n) ==> exists j {:trigger Candidate(kind, j)} :: 1 <= j <= n && x == Candidate(kind, j)
  {
    if n > 0 {
      FirstCandidatesSize(g, kind, n - 1);
      assert Candidate(kind, n) !in FirstCandidates(kind, n - 1) by {
        forall j | 1 <= j < n ensures Candidate(kind, j) != Candidate(kind, n) {
          CandidatesDistinct(kind, j, n);
        }
      }
    }
  }

  lemma {:induction false} NamesBound(ids: seq<Id>)
    ensures |set n | n in ids| <= |ids|
  {
    if ids != [] {
      NamesBound(ids[1..]);
      assert (set n | n in ids) == (set n | n in ids[1..]) + {ids[0]};
    }
  }

  lemma {:induction false} SubsetSize(a: set<Id>, b: set<Id>)
    requires a <= b
    ensures |a| <= |b|
  {
    if a != {} {
      var x :| x in a;
      SubsetSize(a - {x}, b - {x});
    }
  }

  /** Pigeonhole. */
  lemma TakenBound(g: Graph, kind: Kind, n: nat)
    requires AllTaken(g, kind, n)
    ensures n <= |g.nodes|
  {
    FirstCandidatesSize(g, kind, n);
    SubsetSize(FirstCandidates(kind, n), set x | x in NodeIds(g.nodes));
    NamesBound(NodeIds(g.nodes));
  }

  /** Tries candidates until one is free. It ends because the candidates are distinct and only
      finitely many names are taken: after |nodes| + 1 of them at the latest. */
  method UniqueId(g: Graph, kind: Kind) returns (id: Id, ghost tries: nat)
    ensures 1 <= tries <= |g.nodes| + 1 && id == Candidate(kind, tries) && !HasNode(g, id)
    ensures AllTaken(g, kind, tries - 1)
  {
    var i := 1;
    id := Candidate(kind, 1);
    while NodeById(g.nodes, id).Some?
      invariant i >= 1 && id == Candidate(kind, i) && AllTaken(g, kind, i - 1) && i <= |g.nodes| + 1
      decreases |g.nodes| + 1 - i
    {
      HasNodeIff(g, id);
      TakenBound(g, kind, i);
      i := i + 1;
      id := Candidate(kind, i);
    }
    HasNodeIff(g, id);
    tries := i;
  }

  /** Nodes of different kinds are never given the same name, and none but the first of a kind goes unnumbered. */
  lemma KindsNamedApart(one: Kind, other: Kind, i: nat, j: nat)
    requires !one.Other? && !other.Other? && i >= 1 && j >= 1
    ensures Candidate(one, i) == Candidate(other, j) ==> one == other && i == j
  {
    assert Candidate(one, i).name[0] == BaseName(one)[0] && Candidate(one, i).name[1] == BaseName(one)[1];
    assert Candidate(other, j).name[0] == BaseName(other)[0] && Candidate(other, j).name[1] == BaseName(other)[1];
    if one == other && i != j {
      CandidatesDistinct(one, if i < j then i else j, if i < j then j else i);
    }
  }

  /** What the palette adds: a node without wiring, where it was dropped. */
  function NewAt(id: Id, kind: Kind, at: Point): Node {
    Node(id, kind, RefPrefix(kind) + "new", map[], None, Some(RoundPoint(at)), "")
  }

  /** A node dropped at a point is what one dropped elsewhere becomes by being dragged there. */
  lemma DroppedIsDragged(id: Id, kind: Kind, p: Point, at: Point)
    ensures Perform(Graph([NewAt(id, kind, p)], []), Move(id, RoundPoint(at))) == Graph([NewAt(id, kind, at)], [])
  {
    assert FindNode([NewAt(id, kind, p)], id) == 0;
  }

  lemma NewNodeFits(id: Id, kind: Kind, i: nat, at: Point)
    requires !kind.Other? && i >= 1 && id == Candidate(kind, i)
    ensures NodeFits(NewAt(id, kind, at))
  {
    var ref := RefPrefix(kind) + "new";
    assert id.name[0] == BaseName(kind)[0] && !IsSpace(id.name[0]);
    assert ref[0] == RefPrefix(kind)[0] && !IsSpace(ref[0]);
    assert TrimLeft(ref) == ref;
  }

  // ---- the engine ----

  class Engine {
    var graph: Graph
    var place: map<Id, Point>
    var selection: Selection
    var editing: bool
    var log: seq<Op>
    ghost var base: Graph
    ghost var clean: bool

    /** The graph is well formed, and replaying the log on the graph the engine started from gives the
        live graph, unless a deletion the server cannot replay has happened. */
    ghost predicate Valid()
      reads this
    {
      WellFormed(graph) && ReplaysAs(Apply(base, log), clean, graph)
    }

    constructor (graph: Graph, place: map<Id, Point>, editing: bool)
      requires WellFormed(graph)
      ensures Valid() && clean && log == [] && this.graph == graph && this.editing == editing && selection == NothingSelected
    {
      this.graph := graph;
      this.place := place;
      this.editing := editing;
      selection := NothingSelected;
      log := [];
      base := graph;
      clean := true;
    }

    /** What one command does to the engine. */
    twostate predicate Performed(c: Command)
      reads this
    {
      && graph == Perform(old(graph), c)
      && log == old(log) + Emitted(old(graph), c)
      && clean == (old(clean) && Replayable(old(graph), c))
      && base == old(base) && editing == old(editing)
      && (LoopsGuarded(old(graph)) ==> LoopsGuarded(graph))
      && (Healthy(old(graph)) ==> Healthy(graph))
    }

    /** Bookkeeping shared by the edits: the command's effect on a valid engine is valid. */
    lemma Keeps(c: Command)
      requires Valid() && Legal(graph, c)
      ensures WellFormed(Perform(graph, c))
      ensures LoopsGuarded(graph) ==> LoopsGuarded(Perform(graph, c))
      ensures Healthy(graph) ==> Healthy(Perform(graph, c))
      ensures ReplaysAs(Apply(base, log + Emitted(graph, c)), clean && Replayable(graph, c), Perform(graph, c))
    {
      PerformKeeps(graph, c);
      PerformReplays(graph, c);
      ReplaysThen(base, graph, log, Emitted(graph, c), clean, Replayable(graph, c), Perform(graph, c));
    }

    /** The graph and the log are updated together. */
    method Commit(ops: seq<Op>, edited: Graph, ghost c: Command)
      requires Valid() && Legal(graph, c) && ops == Emitted(graph, c) && edited == Perform(graph, c)
      modifies this`graph, this`log, this`clean
      ensures Valid() && Performed(c)
    {
      Keeps(c);
      clean := clean && Replayable(graph, c);
      log := log + ops;
      graph := edited;
    }

    method AddNode(kind: Kind, at: Point) returns (id: Id)
      requires Valid() && !kind.Other?
      modifies this
      ensures Valid() && !HasNode(old(graph), id)
      ensures Performed(NewNode(NewAt(id, kind, at)))
      ensures selection == NodeSelected(id) && place == old(place)[id := at]
    {
      ghost var tries;
      id, tries := UniqueId(graph, kind);
      var node := NewAt(id, kind, at);
      NewNodeFits(id, kind, tries, at);
      Commit([Op.AddNode(NodeWire(node), false)], Graph(graph.nodes + [node], graph.edges), NewNode(node));
      place := place[id := at];
      selection := NodeSelected(id);
    }

    /** `uid` is the fresh part of the new edge's id. */
    method AddEdge(from: Id, to: Id, uid: string) returns (v: Verdict)
      requires Valid() && HasNode(graph, from) && HasNode(graph, to)
      requires forall e :: e in graph.edges ==> e.id != Id("e_" + uid)
      modifies this
      ensures Valid() && v == EdgeVerdict(old(graph), from, to)
      ensures Performed(NewEdge(Id("e_" + uid), from, to))
      ensures selection == (if v.Granted? then EdgeSelected(Id("e_" + uid)) else old(selection)) && place == old(place)
    {
      var id := Id("e_" + uid);
      v := ValidateEdge(graph, from, to);
      assert !IsBlank(id.name) by {
        assert id.name[0] == 'e' && !IsSpace(id.name[0]);
      }
      Keeps(NewEdge(id, from, to));
      assert log + [] == log;
      if v.Granted? {
        var edge := Edge(id, from, to, v.port);
        graph := Graph(graph.nodes, graph.edges + [edge]);
        log := log + [Op.AddEdge(EdgeWire(edge))];
        selection := EdgeSelected(id);
      }
    }

    method DeleteNodeAndEdges(id: Id)
      requires Valid()
      modifies this
      ensures Valid() && Performed(DropNode(id)) && place == old(place) && selection == old(selection)
    {
      var left := Graph(NodesWithout(graph.nodes, id), EdgesWithout(graph.edges, id));
      Commit([DeleteNode(id)] + Cascade(graph.edges, id), left, DropNode(id));
    }

    method DeleteEdgeOnly(id: Id)
      requires Valid()
      modifies this
      ensures Valid() && Performed(DropEdge(id)) && place == old(place) && selection == old(selection)
    {
      Commit([DeleteEdge(id)], Graph(graph.nodes, DropEdgeById(graph.edges, id)), DropEdge(id));
    }

    method DeleteSelected()
      requires Valid()
      modifies this
      ensures Valid() && place == old(place)
      ensures old(selection) == NothingSelected || !old(editing) ==>
                graph == old(graph) && log == old(log) && selection == old(selection)
      ensures old(editing) && old(selection).NodeSelected? ==> Performed(DropNode(old(selection).node)) && selection == NothingSelected
      ensures old(editing) && old(selection).EdgeSelected? ==> Performed(DropEdge(old(selection).edge)) && selection == NothingSelected
    {
      if selection == NothingSelected || !editing {
        return;
      }
      match selection {
        case NodeSelected(id) => DeleteNodeAndEdges(id);
        case EdgeSelected(id) => DeleteEdgeOnly(id);
      }
      selection := NothingSelected;
    }

    /** End of a drag: only a drag that moved records the rounded position. */
    method EndDrag(id: Id, at: Point, moved: bool)
      requires Valid() && HasNode(graph, id)
      modifies this
      ensures Valid() && selection == old(selection) && place == old(place)[id := at]
      ensures moved ==> Performed(Move(id, RoundPoint(at)))
      ensures !moved ==> graph == old(graph) && log == old(log) && clean == old(clean)
    {
      place := place[id := at];
      if moved {
        var pos := RoundPoint(at);
        Commit([UpdateNode(id, NO_PATCH.(pos := Put(Some(pos))))], Graph(SetPos(graph.nodes, id, pos), graph.edges), Move(id, pos));
      }
    }
  }
}
