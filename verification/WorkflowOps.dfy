/** The edit-op wire format, and the server's application of ops to a stored graph. */
module WorkflowOps {
  import opened Graphs
  import opened Validator

  // ---- wire form: absent fields are left out ----

  datatype WireNode = WireNode(id: Id, kind: Kind, ref: string, input: Option<map<string, string>>,
                               retry: Option<Retry>, pos: Option<Position>, notes: Option<string>)

  datatype WireEdge = WireEdge(id: Id, from: Id, to: Id, fromPort: Option<string>)

  /** The canvas sends no notes. */
  function NodeWire(n: Node): WireNode {
    WireNode(n.id, n.kind, n.ref, if n.input == map[] then None else Some(n.input), n.retry, n.pos, None)
  }

  function EdgeWire(e: Edge): WireEdge {
    WireEdge(e.id, e.from, e.to, if e.port == "" then None else Some(e.port))
  }

  function Or<T>(o: Option<T>, default: T): T {
    if o.Some? then o.value else default
  }

  function DecodeNode(w: WireNode): Node {
    Node(w.id, w.kind, w.ref, Or(w.input, map[]), w.retry, w.pos, Or(w.notes, ""))
  }

  function DecodeEdge(w: WireEdge): Edge {
    Edge(w.id, w.from, w.to, Or(w.fromPort, ""))
  }

  /** What the canvas sends is what the server reads, but for a node's notes. */
  lemma WireRoundTrip(n: Node, e: Edge)
    ensures DecodeNode(NodeWire(n)) == n.(notes := "")
    ensures DecodeNode(NodeWire(n)) == n <==> n.notes == ""
    ensures DecodeEdge(EdgeWire(e)) == e
  {
  }

  // ---- ops ----

  /** One field of a merge patch: absent, null, or present. */
  datatype Field<+T> = Keep | Clear | Put(value: T)

  /** A field that is present wins; null decodes to the field's zero value. */
  function Merge<T>(f: Field<T>, now: T, zero: T): T {
    match f
    case Keep => now
    case Clear => zero
    case Put(value) => value
  }

  /** A patch names the fields it overwrites, each as a whole; the id cannot be patched. */
  datatype NodePatch = NodePatch(kind: Field<Kind>, ref: Field<string>, input: Field<map<string, string>>,
                                 retry: Field<Option<Retry>>, pos: Field<Option<Position>>, notes: Field<string>)

  datatype EdgePatch = EdgePatch(from: Field<Id>, to: Field<Id>, fromPort: Field<string>)

  /** The header fields an op sets, each if present. */
  datatype MetaPatch = MetaPatch(name: Option<string>, description: Option<string>, tags: Option<seq<string>>, concurrency: Option<string>)

  /** `stray` says that content keys of the node stand beside it instead of inside it; a body that does not
      decode is `Malformed`, a kind of op nobody knows `Unknown`. */
  datatype Op =
    | SetMeta(meta: MetaPatch)
    | AddNode(node: WireNode, stray: bool)
    | UpdateNode(id: Id, nodePatch: NodePatch)
    | DeleteNode(id: Id)
    | AddEdge(edge: WireEdge)
    | UpdateEdge(id: Id, edgePatch: EdgePatch)
    | DeleteEdge(id: Id)
    | Malformed
    | Unknown

  datatype OpError =
    | StrayKeys | BlankNodeId | NodeExists(id: Id) | UnknownNode(id: Id)
    | BlankEdgeId | EdgeExists(id: Id) | UnknownEdge(id: Id) | BadBody | UnknownOp

  datatype Result = Ok(graph: Graph) | Err(at: nat, error: OpError)

  /** Index of the first edge with this id, or the length. */
  function FindEdge(edges: seq<Edge>, id: Id): (i: nat)
    ensures i <= |edges| && (i < |edges| ==> edges[i].id == id)
    ensures i == |edges| <==> forall j :: 0 <= j < |edges| ==> edges[j].id != id
  {
    if edges == [] || edges[0].id == id then 0 else 1 + FindEdge(edges[1..], id)
  }

  /** The edges that do not touch a node, in order. */
  function EdgesWithout(edges: seq<Edge>, id: Id): (kept: seq<Edge>)
    ensures forall e :: e in kept <==> e in edges && e.from != id && e.to != id
  {
    if edges == [] then []
    else if edges[0].from != id && edges[0].to != id then [edges[0]] + EdgesWithout(edges[1..], id)
    else EdgesWithout(edges[1..], id)
  }

  function MergeNode(n: Node, p: NodePatch): Node {
    Node(n.id, Merge(p.kind, n.kind, Other("")), Merge(p.ref, n.ref, ""), Merge(p.input, n.input, map[]),
         Merge(p.retry, n.retry, None), Merge(p.pos, n.pos, None), Merge(p.notes, n.notes, ""))
  }

  function MergeEdge(e: Edge, p: EdgePatch): Edge {
    Edge(e.id, Merge(p.from, e.from, Id("")), Merge(p.to, e.to, Id("")), Merge(p.fromPort, e.port, ""))
  }

  /** A patch that puts every field makes the node or edge another one under its own id; one that names none
      leaves it alone; one that clears all leaves nothing but the id. */
  lemma PatchMeans(n: Node, m: Node, e: Edge, f: Edge)
    ensures MergeNode(n, NodePatch(Put(m.kind), Put(m.ref), Put(m.input), Put(m.retry), Put(m.pos), Put(m.notes))) == m.(id := n.id)
    ensures MergeNode(n, NodePatch(Keep, Keep, Keep, Keep, Keep, Keep)) == n
    ensures MergeNode(n, NodePatch(Clear, Clear, Clear, Clear, Clear, Clear)) == Node(n.id, Other(""), "", map[], None, None, "")
    ensures MergeEdge(e, EdgePatch(Put(f.from), Put(f.to), Put(f.port))) == f.(id := e.id)
    ensures MergeEdge(e, EdgePatch(Keep, Keep, Keep)) == e
    ensures MergeEdge(e, EdgePatch(Clear, Clear, Clear)) == Edge(e.id, Id(""), Id(""), "")
  {
  }

  function ApplyOne(g: Graph, op: Op, at: nat): Result {
    match op
    case SetMeta(_) => Ok(g)
    case AddNode(w, stray) =>
      if stray then Err(at, StrayKeys)
      else if IsBlank(w.id.name) then Err(at, BlankNodeId)
      else if FindNode(g.nodes, w.id) < |g.nodes| then Err(at, NodeExists(w.id))
      else Ok(Graph(g.nodes + [DecodeNode(w)], g.edges))
    case UpdateNode(id, p) =>
      var i := FindNode(g.nodes, id);
      if i == |g.nodes| then Err(at, UnknownNode(id))
      else Ok(Graph(g.nodes[i := MergeNode(g.nodes[i], p)], g.edges))
    case DeleteNode(id) =>
      var i := FindNode(g.nodes, id);
      if i == |g.nodes| then Err(at, UnknownNode(id))
      else Ok(Graph(g.nodes[..i] + g.nodes[i + 1..], EdgesWithout(g.edges, id)))
    case AddEdge(w) =>
      if IsBlank(w.id.name) then Err(at, BlankEdgeId)
      else if FindEdge(g.edges, w.id) < |g.edges| then Err(at, EdgeExists(w.id))
      else Ok(Graph(g.nodes, g.edges + [DecodeEdge(w)]))
    case UpdateEdge(id, p) =>
      var i := FindEdge(g.edges, id);
      if i == |g.edges| then Err(at, UnknownEdge(id))
      else Ok(Graph(g.nodes, g.edges[i := MergeEdge(g.edges[i], p)]))
    case DeleteEdge(id) =>
      var i := FindEdge(g.edges, id);
      if i == |g.edges| then Err(at, UnknownEdge(id))
      else Ok(Graph(g.nodes, g.edges[..i] + g.edges[i + 1..]))
    case Malformed => Err(at, BadBody)
    case Unknown => Err(at, UnknownOp)
  }

  /** When an op is taken: what is added must be new and named, what is changed or deleted must be there, and
      the header op always is. */
  lemma OpTaken(g: Graph, op: Op, at: nat)
    ensures ApplyOne(g, op, at).Ok? <==>
            match op
            case SetMeta(_) => true
            case AddNode(w, stray) => !stray && !IsBlank(w.id.name) && !HasNode(g, w.id)
            case UpdateNode(id, _) => HasNode(g, id)
            case DeleteNode(id) => HasNode(g, id)
            case AddEdge(w) => !IsBlank(w.id.name) && forall e :: e in g.edges ==> e.id != w.id
            case UpdateEdge(id, _) => exists e :: e in g.edges && e.id == id
            case DeleteEdge(id) => exists e :: e in g.edges && e.id == id
            case Malformed => false
            case Unknown => false
  {
    match op
    case AddNode(w, _) => HasNodeIff(g, w.id);
    case UpdateNode(id, _) => HasNodeIff(g, id);
    case DeleteNode(id) => HasNodeIff(g, id);
    case _ =>
  }

  /** What an op that is taken changes: the header op nothing, an update the one node or edge, in its place. */
  lemma OpChanges(g: Graph, op: Op, at: nat)
    requires ApplyOne(g, op, at).Ok?
    ensures var g' := ApplyOne(g, op, at).graph;
            match op
            case SetMeta(_) => g' == g
            case UpdateNode(id, p) =>
              && g'.edges == g.edges && |g'.nodes| == |g.nodes|
              && forall i :: 0 <= i < |g.nodes| ==> g'.nodes[i] == if i == FindNode(g.nodes, id) then MergeNode(g.nodes[i], p) else g.nodes[i]
            case UpdateEdge(id, p) =>
              && g'.nodes == g.nodes && |g'.edges| == |g.edges|
              && forall i :: 0 <= i < |g.edges| ==> g'.edges[i] == if i == FindEdge(g.edges, id) then MergeEdge(g.edges[i], p) else g.edges[i]
            case AddNode(w, _) => g'.edges == g.edges && g'.nodes == g.nodes + [DecodeNode(w)]
            case AddEdge(w) => g'.nodes == g.nodes && g'.edges == g.edges + [DecodeEdge(w)]
            case _ => (forall n :: n in g'.nodes ==> n in g.nodes) && forall e :: e in g'.edges ==> e in g.edges
  {
  }

  /** Ops take effect in order; the first that fails refuses the whole list. */
  function ApplyFrom(g: Graph, ops: seq<Op>, at: nat): Result
    decreases |ops|
  {
    if ops == [] then Ok(g)
    else
      var r := ApplyOne(g, ops[0], at);
      if r.Ok? then ApplyFrom(r.graph, ops[1..], at + 1) else r
  }

  function Apply(g: Graph, ops: seq<Op>): Result {
    ApplyFrom(g, ops, 0)
  }

  /** The loop over the op list, on a working copy of the graph. */
  method ApplyOps(base: Graph, ops: seq<Op>) returns (r: Result)
    ensures r == Apply(base, ops)
  {
    var g := base;
    for i := 0 to |ops|
      invariant ApplyFrom(g, ops[i..], i) == Apply(base, ops)
    {
      var step := ApplyOne(g, ops[i], i);
      if step.Err? {
        return step;
      }
      g := step.graph;
    }
    return Ok(g);
  }

  ghost function Then(r: Result, ops: seq<Op>, at: nat): Result {
    if r.Ok? then ApplyFrom(r.graph, ops, at) else r
  }

  lemma ApplyHead(g: Graph, op: Op, rest: seq<Op>, at: nat)
    ensures ApplyFrom(g, [op] + rest, at) == Then(ApplyOne(g, op, at), rest, at + 1)
  {
    assert ([op] + rest)[0] == op && ([op] + rest)[1..] == rest;
  }

  /** Two lists in a row: the second starts from what the first leaves. */
  lemma {:induction false} ApplyConcat(g: Graph, xs: seq<Op>, ys: seq<Op>, at: nat)
    ensures ApplyFrom(g, xs + ys, at) == Then(ApplyFrom(g, xs, at), ys, at + |xs|)
    decreases |xs|, 0
  {
    if xs == [] {
      assert xs + ys == ys;
    } else {
      var op, tail := xs[0], xs[1..];
      var r := ApplyOne(g, op, at);
      assert xs == [op] + tail;
      assert xs + ys == [op] + (tail + ys);
      ApplyHead(g, op, tail, at);
      ApplyHead(g, op, tail + ys, at);
      ThenConcat(r, tail, ys, at + 1);
    }
  }

  lemma {:induction false} ThenConcat(r: Result, xs: seq<Op>, ys: seq<Op>, at: nat)
    ensures Then(r, xs + ys, at) == Then(Then(r, xs, at), ys, at + |xs|)
    decreases |xs|, 1
  {
    if r.Ok? {
      ApplyConcat(r.graph, xs, ys, at);
    }
  }

  /** The same outcome, but for the position reported with an error. */
  ghost predicate SameOutcome(r: Result, r': Result) {
    (r.Ok? <==> r'.Ok?) && (r.Ok? ==> r == r')
  }

  lemma OneShift(g: Graph, op: Op, at: nat, at': nat)
    ensures SameOutcome(ApplyOne(g, op, at), ApplyOne(g, op, at'))
  {
  }

  lemma {:induction false} ApplyShift(g: Graph, ops: seq<Op>, at: nat, at': nat)
    ensures SameOutcome(ApplyFrom(g, ops, at), ApplyFrom(g, ops, at'))
    decreases |ops|
  {
    if ops != [] {
      OneShift(g, ops[0], at, at');
      var r := ApplyOne(g, ops[0], at);
      if r.Ok? {
        ApplyShift(r.graph, ops[1..], at + 1, at' + 1);
      }
    }
  }
}
