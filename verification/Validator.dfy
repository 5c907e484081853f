/** The server's validator. */
module Validator {
  // The structural gate on a workflow graph.

  import opened Graphs
  import opened DepthFirst
  import opened Interpreter

  datatype GraphError =
    | EmptyNodeId | DuplicateNode(id: Id) | UnknownKind(id: Id) | EmptyRef(id: Id) | RefMismatch(id: Id) | EmptyWiring(id: Id)
    | NoNodes | NoTrigger
    | EmptyEdgeId | DuplicateEdge(id: Id) | UnknownFrom(id: Id) | UnknownTo(id: Id) | SelfLoop(id: Id) | BadPort(id: Id)
    | Unreachable(id: Id) | UnguardedLoop(id: Id)

  // ---- strings ----

  predicate IsSpace(c: char) {
    c in {'\t', '\n', '\U{0B}', '\U{0C}', '\r', ' ', '\U{85}', '\U{A0}', '\U{1680}', '\U{2028}', '\U{2029}', '\U{202F}', '\U{205F}', '\U{3000}'}
    || '\U{2000}' <= c <= '\U{200A}'
  }

  predicate IsBlank(s: string) {
    forall i :: 0 <= i < |s| ==> IsSpace(s[i])
  }

  function TrimLeft(s: string): string {
    if s != [] && IsSpace(s[0]) then TrimLeft(s[1..]) else s
  }

  /** What is left after the blank beginning. */
  lemma {:induction false} TrimMeans(s: string)
    ensures var t := TrimLeft(s);
            (t == [] || !IsSpace(t[0])) && |t| <= |s| && s[|s| - |t|..] == t && forall i :: 0 <= i < |s| - |t| ==> IsSpace(s[i])
  {
    if s != [] && IsSpace(s[0]) {
      TrimMeans(s[1..]);
    }
  }

  /** Trailing space does not matter to a prefix test, unless everything is blank. */
  predicate RefHasPrefix(ref: string, prefix: string) {
    prefix <= TrimLeft(ref)
  }

  predicate RefMatchesKind(kind: Kind, ref: string) {
    match kind
    case Trigger => RefHasPrefix(ref, "trg_")
    case Action => RefHasPrefix(ref, "fn_") || RefHasPrefix(ref, "hd_") || RefHasPrefix(ref, "mcp:")
    case Agent => RefHasPrefix(ref, "ag_")
    case Control => RefHasPrefix(ref, "ctl_")
    case Approval => RefHasPrefix(ref, "apf_")
    case Other(_) => false
  }

  /** A reference fits one kind of node only. */
  lemma RefNamesOneKind(one: Kind, other: Kind, ref: string)
    requires RefMatchesKind(one, ref) && RefMatchesKind(other, ref)
    ensures one == other
  {
    var r := TrimLeft(ref);
    assert "trg_" <= r ==> r[0] == 't';
    assert "fn_" <= r ==> r[0] == 'f';
    assert "hd_" <= r ==> r[0] == 'h';
    assert "mcp:" <= r ==> r[0] == 'm';
    assert "ag_" <= r ==> r[0] == 'a' && r[1] == 'g';
    assert "ctl_" <= r ==> r[0] == 'c';
    assert "apf_" <= r ==> r[0] == 'a' && r[1] == 'p';
  }

  // ---- per node and per edge ----

  function NodeShapeError(n: Node): Option<GraphError> {
    if n.kind.Other? then Some(UnknownKind(n.id))
    else if IsBlank(n.ref) then Some(EmptyRef(n.id))
    else if !RefMatchesKind(n.kind, n.ref) then Some(RefMismatch(n.id))
    else if n.kind == Action && exists f :: f in n.input && IsBlank(n.input[f]) then Some(EmptyWiring(n.id))
    else None
  }

  /** The shape checks together: a reference that fits the kind, and no blank wiring into an action. */
  lemma ShapeMeans(n: Node)
    ensures NodeShapeError(n).None? <==>
            !IsBlank(n.ref) && RefMatchesKind(n.kind, n.ref) && (n.kind == Action ==> forall f :: f in n.input ==> !IsBlank(n.input[f]))
  {
  }

  predicate PortFits(kind: Kind, port: string) {
    match kind
    case Approval => port == "yes" || port == "no"
    case Control => !IsBlank(port)
    case _ => port == ""
  }

  /** The ports fit what decides them: an edge of an approval is taken by a yes or a no, one of a control by
      naming its port and never by naming none, and the others are always taken. */
  lemma PortsDecide(kind: Kind, port: string)
    requires PortFits(kind, port)
    ensures kind == Approval ==> port in ["yes", "no"] && PortOf(Approval, map["decision" := port]) == port
    ensures kind == Control ==> PortOf(Control, map["port" := port]) == port && PortOf(Control, map[]) != port
    ensures !Routes(kind) ==> forall result :: PortOf(kind, result) == port
  {
  }

  predicate NodeFits(n: Node) {
    !IsBlank(n.id.name) && NodeShapeError(n).None?
  }

  predicate EdgeFits(g: Graph, e: Edge) {
    !IsBlank(e.id.name) && HasNode(g, e.from) && HasNode(g, e.to) && e.from != e.to && PortFits(KindOf(g, e.from), e.port)
  }

  // ---- the whole graph ----

  ghost predicate NodesFit(g: Graph) {
    forall n :: n in g.nodes ==> NodeFits(n)
  }

  ghost predicate EdgesFit(g: Graph) {
    forall e :: e in g.edges ==> EdgeFits(g, e)
  }

  ghost predicate HasTrigger(g: Graph) {
    exists t :: t in g.nodes && t.kind == Trigger
  }

  ghost predicate ReachedFromTrigger(g: Graph, id: Id) {
    exists t :: t in g.nodes && t.kind == Trigger && Reach(EdgeSet(g.edges), t.id, id)
  }

  ghost predicate AllReached(g: Graph) {
    forall n :: n in g.nodes ==> ReachedFromTrigger(g, n.id)
  }

  ghost predicate LoopDiscipline(g: Graph) {
    forall e :: e in LoopEdges(g) ==> Routes(KindOf(g, e.from))
  }

  ghost predicate Accepts(g: Graph) {
    && WellFormed(g) && g.nodes != []
    && NodesFit(g) && EdgesFit(g) && HasTrigger(g) && AllReached(g) && LoopDiscipline(g)
  }

  // ---- what acceptance buys ----

  /** Edges whose source makes no choice. */
  ghost function UnroutedEdges(g: Graph): set<Edge> {
    set e | e in g.edges && !Routes(KindOf(g, e.from))
  }

  /** Every directed cycle passes through a control or approval node. */
  ghost predicate LoopsGuarded(g: Graph) {
    Acyclic(UnroutedEdges(g))
  }

  lemma {:induction false} PathWithin(es: set<Edge>, p: seq<Edge>, a: Id, b: Id)
    requires Path(es, p, a, b)
    ensures forall i :: 0 <= i < |p| ==> p[i] in es
  {
    if p != [] {
      PathWithin(es, p[1..], p[0].to, b);
      assert forall i :: 1 <= i < |p| ==> p[i] == p[1..][i - 1];
    }
  }

  lemma {:induction false} UnroutedPath(g: Graph, p: seq<Edge>, a: Id, b: Id)
    requires Path(EdgeSet(g.edges), p, a, b)
    requires forall i :: 0 <= i < |p| && p[i] in g.edges ==> !Routes(KindOf(g, p[i].from))
    ensures Path(UnroutedEdges(g), p, a, b)
  {
    if p != [] {
      assert forall i :: 0 <= i < |p[1..]| ==> p[1..][i] == p[i + 1];
      UnroutedPath(g, p[1..], p[0].to, b);
    }
  }

  /** The two readings of guardedness: no cycle of unrouted edges, and a routed edge on every cycle. */
  lemma LoopsGuardedMeans(g: Graph, p: seq<Edge>)
    requires LoopsGuarded(g) && Cycle(EdgeSet(g.edges), p)
    ensures exists i :: 0 <= i < |p| && p[i] in g.edges && Routes(KindOf(g, p[i].from))
  {
    assert !Cycle(UnroutedEdges(g), p);
    if forall i :: 0 <= i < |p| && p[i] in g.edges ==> !Routes(KindOf(g, p[i].from)) {
      UnroutedPath(g, p, p[0].from, p[0].from);
    }
    PathWithin(EdgeSet(g.edges), p, p[0].from, p[0].from);
  }

  /** The back-edge test is enough: an accepted graph has a decision on every cycle, although the
      validator looks at one edge per cycle only. */
  lemma AcceptedLoopsGuarded(g: Graph)
    requires WellFormed(g) && LoopDiscipline(g)
    ensures LoopsGuarded(g)
  {
    WellFormedFromNodes(g);
    ForwardRanked(NodeIds(g.nodes), g.edges);
    AcyclicMono(UnroutedEdges(g), ForwardSet(NodeIds(g.nodes), g.edges));
  }

  // ---- the loops the validator runs ----

  lemma UniqueSnoc(nodes: seq<Node>, i: nat)
    requires i < |nodes| && UniqueNodeIds(nodes[..i])
    requires forall j {:trigger Nth(nodes, j)} :: 0 <= j < i ==> Nth(nodes, j).id != nodes[i].id
    ensures UniqueNodeIds(nodes[..i + 1])
  {
    var longer := nodes[..i + 1];
    forall a, b | 0 <= a < b < |longer| ensures Nth(longer, a).id != Nth(longer, b).id {
      assert Nth(nodes, a) == longer[a];
      if b < i {
        assert Nth(nodes[..i], a).id != Nth(nodes[..i], b).id;
      }
    }
  }

  method IndexNodes(g: Graph) returns (err: Option<GraphError>)
    ensures err.None? <==> UniqueNodeIds(g.nodes) && g.nodes != [] && NodesFit(g) && HasTrigger(g)
  {
    var seen: set<Id> := {};
    var triggers := 0;
    for i := 0 to |g.nodes|
      invariant forall id :: id in seen <==> exists j {:trigger Nth(g.nodes, j)} :: 0 <= j < i && Nth(g.nodes, j).id == id
      invariant UniqueNodeIds(g.nodes[..i])
      invariant forall n :: n in g.nodes[..i] ==> NodeFits(n)
      invariant triggers > 0 <==> exists t :: t in g.nodes[..i] && t.kind == Trigger
      invariant triggers >= 0
    {
      var n := g.nodes[i];
      assert n in g.nodes && g.nodes[..i + 1] == g.nodes[..i] + [n];
      if IsBlank(n.id.name) {
        return Some(EmptyNodeId);
      }
      if n.id in seen {
        assert Nth(g.nodes, i) == n;
        return Some(DuplicateNode(n.id));
      }
      seen := seen + {n.id};
      var shape := NodeShapeError(n);
      if shape.Some? {
        return shape;
      }
      if n.kind == Trigger {
        triggers := triggers + 1;
      }
      UniqueSnoc(g.nodes, i);
      assert Nth(g.nodes, i) == n;
    }
    assert g.nodes[..|g.nodes|] == g.nodes;
    return if g.nodes == [] then Some(NoNodes) else if triggers == 0 then Some(NoTrigger) else None;
  }

  lemma UniqueEdgeSnoc(edges: seq<Edge>, i: nat)
    requires i < |edges| && UniqueEdgeIds(edges[..i])
    requires forall j {:trigger Nth(edges, j)} :: 0 <= j < i ==> Nth(edges, j).id != edges[i].id
    ensures UniqueEdgeIds(edges[..i + 1])
  {
    var longer := edges[..i + 1];
    forall a, b | 0 <= a < b < |longer| ensures Nth(longer, a).id != Nth(longer, b).id {
      assert Nth(edges, a) == longer[a];
      if b < i {
        assert Nth(edges[..i], a).id != Nth(edges[..i], b).id;
      }
    }
  }

  function EdgeError(g: Graph, e: Edge): (r: Option<GraphError>)
    ensures r.None? <==> EdgeFits(g, e)
  {
    if IsBlank(e.id.name) then Some(EmptyEdgeId)
    else if !HasNode(g, e.from) then Some(UnknownFrom(e.id))
    else if !HasNode(g, e.to) then Some(UnknownTo(e.id))
    else if e.from == e.to then Some(SelfLoop(e.id))
    else if !PortFits(KindOf(g, e.from), e.port) then Some(BadPort(e.id))
    else None
  }

  method CheckEdges(g: Graph) returns (err: Option<GraphError>)
    ensures err.None? <==> UniqueEdgeIds(g.edges) && EdgesFit(g)
  {
    var seen: set<Id> := {};
    for i := 0 to |g.edges|
      invariant forall id :: id in seen <==> exists j {:trigger Nth(g.edges, j)} :: 0 <= j < i && Nth(g.edges, j).id == id
      invariant UniqueEdgeIds(g.edges[..i])
      invariant forall e :: e in g.edges[..i] ==> EdgeFits(g, e)
    {
      var e := g.edges[i];
      assert e in g.edges && g.edges[..i + 1] == g.edges[..i] + [e] && Nth(g.edges, i) == e;
      if IsBlank(e.id.name) {
        return Some(EmptyEdgeId);
      }
      if e.id in seen {
        return Some(DuplicateEdge(e.id));
      }
      seen := seen + {e.id};
      var bad := EdgeError(g, e);
      if bad.Some? {
        return bad;
      }
      UniqueEdgeSnoc(g.edges, i);
    }
    assert g.edges[..|g.edges|] == g.edges;
    return None;
  }

  /** Everything found so far is genuine, and its successors are found or still pending. */
  ghost predicate Swept(g: Graph, reached: set<Id>, stack: seq<Id>) {
    && (forall id {:trigger ReachedFromTrigger(g, id)} :: id in reached ==> ReachedFromTrigger(g, id))
    && (forall t :: t in g.nodes && t.kind == Trigger ==> t.id in reached)
    && (forall e :: e in g.edges && e.from in reached ==> e.to in reached || e.from in stack)
  }

  lemma {:induction false} SweptPath(g: Graph, reached: set<Id>, p: seq<Edge>, a: Id, b: Id)
    requires Swept(g, reached, []) && a in reached && Path(EdgeSet(g.edges), p, a, b)
    ensures b in reached
  {
    if p != [] {
      SweptPath(g, reached, p[1..], p[0].to, b);
    }
  }

  lemma SweptAll(g: Graph, reached: set<Id>, id: Id)
    requires Swept(g, reached, [])
    ensures id in reached <==> ReachedFromTrigger(g, id)
  {
    if ReachedFromTrigger(g, id) {
      var t :| t in g.nodes && t.kind == Trigger && Reach(EdgeSet(g.edges), t.id, id);
      var p :| Path(EdgeSet(g.edges), p, t.id, id);
      SweptPath(g, reached, p, t.id, id);
    }
  }

  lemma SweptStep(g: Graph, e: Edge)
    requires e in g.edges && ReachedFromTrigger(g, e.from)
    ensures ReachedFromTrigger(g, e.to)
  {
    var t :| t in g.nodes && t.kind == Trigger && Reach(EdgeSet(g.edges), t.id, e.from);
    ReachEdge(EdgeSet(g.edges), e);
    ReachTrans(EdgeSet(g.edges), t.id, e.from, e.to);
  }

  ghost function Targets(g: Graph): set<Id> {
    set e | e in g.edges :: e.to
  }

  method SeedTriggers(g: Graph) returns (reached: set<Id>, stack: seq<Id>)
    ensures Swept(g, reached, stack) && forall id :: id in stack ==> id in reached
  {
    reached, stack := {}, [];
    for i := 0 to |g.nodes|
      invariant forall id :: id in reached <==> id in stack
      invariant forall id {:trigger ReachedFromTrigger(g, id)} :: id in reached ==> ReachedFromTrigger(g, id)
      invariant forall t :: t in g.nodes[..i] && t.kind == Trigger ==> t.id in reached
    {
      var n := g.nodes[i];
      assert n in g.nodes && g.nodes[..i + 1] == g.nodes[..i] + [n];
      if n.kind == Trigger && n.id !in reached {
        ReachRefl(EdgeSet(g.edges), n.id);
        reached := reached + {n.id};
        stack := stack + [n.id];
      }
    }
    assert g.nodes[..|g.nodes|] == g.nodes;
  }

  /** Mark and push the unseen targets of some edges. */
  method PushUnseen(g: Graph, cur: Id, next: seq<Edge>, reached0: set<Id>) returns (reached: set<Id>, found: seq<Id>)
    requires ReachedFromTrigger(g, cur) && forall e :: e in next ==> e in g.edges && e.from == cur
    requires forall id {:trigger ReachedFromTrigger(g, id)} :: id in reached0 ==> ReachedFromTrigger(g, id)
    ensures forall id :: id in reached <==> id in reached0 || id in found
    ensures forall id :: id in found ==> id in Targets(g) && id !in reached0 && ReachedFromTrigger(g, id)
    ensures forall e :: e in next ==> e.to in reached
  {
    reached, found := reached0, [];
    for i := 0 to |next|
      invariant forall id :: id in reached <==> id in reached0 || id in found
      invariant forall id :: id in found ==> id in Targets(g) && id !in reached0 && ReachedFromTrigger(g, id)
      invariant forall j :: 0 <= j < i ==> next[j].to in reached
    {
      var e := next[i];
      assert e in next;
      if e.to !in reached {
        SweptStep(g, e);
        reached := reached + {e.to};
        found := found + [e.to];
      }
    }
  }

  lemma TargetsShrink(g: Graph, reached: set<Id>, reached': set<Id>, found: seq<Id>)
    requires forall id :: id in reached' <==> id in reached || id in found
    requires forall id :: id in found ==> id in Targets(g) && id !in reached
    ensures found != [] ==> Targets(g) - reached' < Targets(g) - reached
    ensures found == [] ==> reached' == reached
  {
    if found != [] {
      assert found[0] in Targets(g) - reached && found[0] in reached';
    }
  }

  lemma SweptNext(g: Graph, reached: set<Id>, rest: seq<Id>, cur: Id, reached': set<Id>, found: seq<Id>)
    requires Swept(g, reached, rest + [cur])
    requires forall id :: id in reached' <==> id in reached || id in found
    requires forall id :: id in found ==> ReachedFromTrigger(g, id)
    requires forall e :: e in Out(g.edges, cur) ==> e.to in reached'
    ensures Swept(g, reached', rest + found)
  {
    forall e | e in g.edges && e.from in reached' ensures e.to in reached' || e.from in rest + found {
      assert e.from == cur ==> e in Out(g.edges, cur);
      assert e.from in rest + [cur] ==> e.from in rest || e.from == cur;
    }
  }

  method Sweep(g: Graph) returns (reached: set<Id>)
    ensures Swept(g, reached, [])
  {
    var out := BuildOut(g.edges);
    var stack;
    reached, stack := SeedTriggers(g);
    while stack != []
      invariant Swept(g, reached, stack)
      invariant forall id :: id in stack ==> id in reached
      decreases Targets(g) - reached, |stack|
    {
      var cur := stack[|stack| - 1];
      var rest := stack[..|stack| - 1];
      assert stack == rest + [cur];
      var next := if cur in out then out[cur] else [];
      assert next == Out(g.edges, cur);
      assert ReachedFromTrigger(g, cur);
      ghost var before := reached;
      var found;
      reached, found := PushUnseen(g, cur, next, reached);
      TargetsShrink(g, before, reached, found);
      SweptNext(g, before, rest, cur, reached, found);
      stack := rest + found;
    }
  }

  method CheckReachability(g: Graph) returns (err: Option<GraphError>)
    ensures err.None? <==> AllReached(g)
  {
    var reached := Sweep(g);
    for i := 0 to |g.nodes|
      invariant forall j :: 0 <= j < i ==> ReachedFromTrigger(g, g.nodes[j].id)
    {
      assert g.nodes[i] in g.nodes;
      SweptAll(g, reached, g.nodes[i].id);
      if g.nodes[i].id !in reached {
        return Some(Unreachable(g.nodes[i].id));
      }
    }
    return None;
  }

  method CheckLoops(g: Graph) returns (err: Option<GraphError>)
    ensures err.None? <==> LoopDiscipline(g)
  {
    var back := BackEdges(NodeIds(g.nodes), ExistingEdges(g, g.edges));
    for i := 0 to |back|
      invariant forall j :: 0 <= j < i ==> Routes(KindOf(g, back[j].from))
    {
      assert back[i] in LoopEdges(g);
      if !Routes(KindOf(g, back[i].from)) {
        return Some(UnguardedLoop(back[i].id));
      }
    }
    return None;
  }

  /** The gate: the first failing check, or nothing exactly for the graphs that meet them all. */
  method ValidateGraph(g: Graph) returns (err: Option<GraphError>)
    ensures err.None? <==> Accepts(g)
  {
    err := IndexNodes(g);
    if err.None? {
      err := CheckEdges(g);
      assert err.None? ==> NoDanglingEdges(g);
      if err.None? {
        err := CheckReachability(g);
        if err.None? {
          err := CheckLoops(g);
        }
      }
    }
  }
}
