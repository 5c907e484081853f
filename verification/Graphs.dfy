/** Graphs, paths and ranks. */
module Graphs {
  // What both the canvas and the server hold, and the graph theory the rest of the project leans on:
  // paths, reachability, acyclicity and rankings.

  datatype Option<+T> = None | Some(value: T)

  /** The five node kinds; `Other` is a kind string no part of the program knows. */
  datatype Kind = Trigger | Action | Agent | Control | Approval | Other(name: string)

  /** The two kinds whose out-edges are chosen among, and which may therefore close a loop. */
  predicate Routes(kind: Kind) {
    kind == Control || kind == Approval
  }

  /** A node or edge id: only its identity matters to the algorithms. */
  datatype Id = Id(name: string)

  datatype Position = Position(x: int, y: int)

  /** A place on the canvas or on the screen. */
  datatype Point = Point(x: real, y: real)

  datatype Retry = Retry(maxAttempts: int, backoff: string, delayMs: int)

  datatype Node = Node(id: Id, kind: Kind, ref: string, input: map<string, string>,
                       retry: Option<Retry>, pos: Option<Position>, notes: string)

  /** A node with nothing set but what every node has. */
  function Plain(id: Id, kind: Kind, ref: string): Node {
    Node(id, kind, ref, map[], None, None, "")
  }

  datatype Edge = Edge(id: Id, from: Id, to: Id, port: string)

  datatype Graph = Graph(nodes: seq<Node>, edges: seq<Edge>)

  // ---- well-formedness ----

  function NodeIds(nodes: seq<Node>): (ids: seq<Id>)
    ensures |ids| == |nodes|
    ensures forall i :: 0 <= i < |ids| ==> ids[i] == nodes[i].id
  {
    seq(|nodes|, i requires 0 <= i < |nodes| => nodes[i].id)
  }

  predicate HasNode(g: Graph, id: Id) {
    id in NodeIds(g.nodes)
  }

  /** Names an element of a sequence. Uniqueness is stated through it so that the verifier
      compares two elements only where a proof names them. */
  function Nth<T>(s: seq<T>, i: nat): T
    requires i < |s|
  {
    s[i]
  }

  ghost predicate UniqueNodeIds(nodes: seq<Node>) {
    forall i, j {:trigger Nth(nodes, i), Nth(nodes, j)} :: 0 <= i < j < |nodes| ==> Nth(nodes, i).id != Nth(nodes, j).id
  }

  ghost predicate UniqueEdgeIds(edges: seq<Edge>) {
    forall i, j {:trigger Nth(edges, i), Nth(edges, j)} :: 0 <= i < j < |edges| ==> Nth(edges, i).id != Nth(edges, j).id
  }

  ghost predicate NoDanglingEdges(g: Graph) {
    forall e :: e in g.edges ==> HasNode(g, e.from) && HasNode(g, e.to)
  }

  /** What the algorithms rely on: unique node ids, unique edge ids, no dangling edge. */
  ghost predicate WellFormed(g: Graph) {
    UniqueNodeIds(g.nodes) && UniqueEdgeIds(g.edges) && NoDanglingEdges(g)
  }

  /** The first node with this id, as a lookup by id finds it. */
  function NodeById(nodes: seq<Node>, id: Id): (r: Option<Node>)
    ensures r.Some? ==> r.value in nodes && r.value.id == id
    ensures r.None? <==> forall i :: 0 <= i < |nodes| ==> nodes[i].id != id
  {
    if nodes == [] then None
    else if nodes[0].id == id then Some(nodes[0])
    else NodeById(nodes[1..], id)
  }

  function KindOf(g: Graph, id: Id): Kind {
    match NodeById(g.nodes, id)
    case Some(n) => n.kind
    case None => Other("")
  }

  /** Index of the first node with this id, or the length. */
  function FindNode(nodes: seq<Node>, id: Id): (i: nat)
    ensures i <= |nodes| && (i < |nodes| ==> nodes[i].id == id)
    ensures i == |nodes| <==> forall j :: 0 <= j < |nodes| ==> nodes[j].id != id
  {
    if nodes == [] || nodes[0].id == id then 0 else 1 + FindNode(nodes[1..], id)
  }

  lemma HasNodeIff(g: Graph, id: Id)
    ensures HasNode(g, id) <==> exists n :: n in g.nodes && n.id == id
    ensures HasNode(g, id) <==> NodeById(g.nodes, id).Some?
    ensures HasNode(g, id) <==> FindNode(g.nodes, id) < |g.nodes|
  {
    if HasNode(g, id) {
      var i :| 0 <= i < |NodeIds(g.nodes)| && NodeIds(g.nodes)[i] == id;
      assert g.nodes[i] in g.nodes && g.nodes[i].id == id;
    }
    if n :| n in g.nodes && n.id == id {
      var i :| 0 <= i < |g.nodes| && g.nodes[i] == n;
      assert NodeIds(g.nodes)[i] == id;
    }
  }

  lemma CountedTwice<T>(s: seq<T>, i: nat, j: nat)
    requires i < j < |s| && s[i] == s[j]
    ensures multiset(s)[s[i]] >= 2
  {
    assert s == s[..i] + [s[i]] + s[i + 1..];
    assert s[i + 1..][j - i - 1] == s[j];
  }

  lemma NodeByIdUnique(nodes: seq<Node>, n: Node)
    requires UniqueNodeIds(nodes) && n in nodes
    ensures NodeById(nodes, n.id) == Some(n)
  {
    var r := NodeById(nodes, n.id);
    var i :| 0 <= i < |nodes| && nodes[i] == n;
    var j :| 0 <= j < |nodes| && nodes[j] == r.value;
    assert Nth(nodes, i).id == Nth(nodes, j).id;
  }

  lemma EdgeByIdUnique(edges: seq<Edge>, e: Edge, e': Edge)
    requires UniqueEdgeIds(edges) && e in edges && e' in edges && e.id == e'.id
    ensures e == e'
  {
    var i :| 0 <= i < |edges| && edges[i] == e;
    var j :| 0 <= j < |edges| && edges[j] == e';
    assert Nth(edges, i).id == Nth(edges, j).id;
  }

  lemma UniqueNodesCons(n: Node, nodes: seq<Node>)
    ensures UniqueNodeIds([n] + nodes) <==> UniqueNodeIds(nodes) && forall m :: m in nodes ==> m.id != n.id
  {
    var all := [n] + nodes;
    if UniqueNodeIds(all) {
      forall i, j | 0 <= i < j < |nodes| ensures Nth(nodes, i).id != Nth(nodes, j).id {
        assert Nth(all, i + 1) == nodes[i] && Nth(all, j + 1) == nodes[j];
      }
      forall m | m in nodes ensures m.id != n.id {
        var j :| 0 <= j < |nodes| && nodes[j] == m;
        assert Nth(all, 0) == n && Nth(all, j + 1) == m;
      }
    }
    if UniqueNodeIds(nodes) && forall m :: m in nodes ==> m.id != n.id {
      forall i, j | 0 <= i < j < |all| ensures Nth(all, i).id != Nth(all, j).id {
        if i > 0 {
          assert Nth(nodes, i - 1) == all[i] && Nth(nodes, j - 1) == all[j];
        } else {
          assert all[j] in nodes;
        }
      }
    }
  }

  lemma UniqueEdgesCons(e: Edge, edges: seq<Edge>)
    ensures UniqueEdgeIds([e] + edges) <==> UniqueEdgeIds(edges) && forall f :: f in edges ==> f.id != e.id
  {
    var all := [e] + edges;
    if UniqueEdgeIds(all) {
      forall i, j | 0 <= i < j < |edges| ensures Nth(edges, i).id != Nth(edges, j).id {
        assert Nth(all, i + 1) == edges[i] && Nth(all, j + 1) == edges[j];
      }
      forall f | f in edges ensures f.id != e.id {
        var j :| 0 <= j < |edges| && edges[j] == f;
        assert Nth(all, 0) == e && Nth(all, j + 1) == f;
      }
    }
    if UniqueEdgeIds(edges) && forall f :: f in edges ==> f.id != e.id {
      forall i, j | 0 <= i < j < |all| ensures Nth(all, i).id != Nth(all, j).id {
        if i > 0 {
          assert Nth(edges, i - 1) == all[i] && Nth(edges, j - 1) == all[j];
        } else {
          assert all[j] in edges;
        }
      }
    }
  }

  function EdgeSet(edges: seq<Edge>): set<Edge> {
    set e | e in edges
  }

  // ---- paths ----

  /** `p` leads from `a` to `b` along edges of `es`; the empty path leads from a node to itself. */
  ghost predicate Path(es: set<Edge>, p: seq<Edge>, a: Id, b: Id) {
    if p == [] then a == b
    else p[0] in es && p[0].from == a && Path(es, p[1..], p[0].to, b)
  }

  ghost predicate Reach(es: set<Edge>, a: Id, b: Id) {
    exists p :: Path(es, p, a, b)
  }

  /** Reachability along at least one edge. */
  ghost predicate ReachPlus(es: set<Edge>, a: Id, b: Id) {
    exists e :: e in es && e.from == a && Reach(es, e.to, b)
  }

  ghost predicate Cycle(es: set<Edge>, p: seq<Edge>) {
    p != [] && Path(es, p, p[0].from, p[0].from)
  }

  ghost predicate Acyclic(es: set<Edge>) {
    forall p :: !Cycle(es, p)
  }

  lemma ReachRefl(es: set<Edge>, a: Id)
    ensures Reach(es, a, a)
  {
    assert Path(es, [], a, a);
  }

  lemma {:induction false} PathConcat(es: set<Edge>, p: seq<Edge>, q: seq<Edge>, a: Id, b: Id, c: Id)
    requires Path(es, p, a, b) && Path(es, q, b, c)
    ensures Path(es, p + q, a, c)
  {
    if p == [] {
      assert p + q == q;
    } else {
      PathConcat(es, p[1..], q, p[0].to, b, c);
      assert (p + q)[1..] == p[1..] + q;
    }
  }

  lemma ReachTrans(es: set<Edge>, a: Id, b: Id, c: Id)
    requires Reach(es, a, b) && Reach(es, b, c)
    ensures Reach(es, a, c)
  {
    var p :| Path(es, p, a, b);
    var q :| Path(es, q, b, c);
    PathConcat(es, p, q, a, b, c);
  }

  lemma ReachEdge(es: set<Edge>, e: Edge)
    requires e in es
    ensures Reach(es, e.from, e.to)
  {
    assert Path(es, [e], e.from, e.to);
  }

  lemma {:induction false} PathMono(es: set<Edge>, es': set<Edge>, p: seq<Edge>, a: Id, b: Id)
    requires es <= es' && Path(es, p, a, b)
    ensures Path(es', p, a, b)
  {
    if p != [] {
      PathMono(es, es', p[1..], p[0].to, b);
    }
  }

  lemma ReachMono(es: set<Edge>, es': set<Edge>, a: Id, b: Id)
    requires es <= es' && Reach(es, a, b)
    ensures Reach(es', a, b)
  {
    var p :| Path(es, p, a, b);
    PathMono(es, es', p, a, b);
  }

  lemma AcyclicMono(es: set<Edge>, es': set<Edge>)
    requires es <= es' && Acyclic(es')
    ensures Acyclic(es)
  {
    forall p: seq<Edge> | Cycle(es, p) ensures false {
      PathMono(es, es', p, p[0].from, p[0].from);
      assert Cycle(es', p);
    }
  }

  /** A reachability query that comes back to its own start along one edge is a cycle. */
  lemma ReachClosesCycle(es: set<Edge>, e: Edge)
    requires e in es && Reach(es, e.to, e.from)
    ensures !Acyclic(es)
  {
    var p :| Path(es, p, e.to, e.from);
    assert ([e] + p)[1..] == p;
    assert Cycle(es, [e] + p);
  }

  /** Adding one edge: a path in the larger set either avoids the edge or passes through it. */
  lemma {:induction false} PathThroughNewEdge(es: set<Edge>, e: Edge, p: seq<Edge>, a: Id, b: Id)
    requires Path(es + {e}, p, a, b)
    ensures Path(es, p, a, b) || (Reach(es, a, e.from) && Reach(es, e.to, b))
  {
    if p != [] {
      PathThroughNewEdge(es, e, p[1..], p[0].to, b);
      if p[0] in es {
        if !Path(es, p[1..], p[0].to, b) {
          ReachEdge(es, p[0]);
          ReachTrans(es, a, p[0].to, e.from);
        }
      } else {
        ReachRefl(es, a);
        if Path(es, p[1..], p[0].to, b) {
          assert Reach(es, e.to, b);
        }
      }
    }
  }

  /** An acyclic set stays acyclic under a new edge exactly when its target does not already
      reach its source. */
  lemma AcyclicAddEdge(es: set<Edge>, e: Edge)
    requires Acyclic(es)
    ensures Acyclic(es + {e}) <==> !Reach(es, e.to, e.from)
  {
    if Reach(es, e.to, e.from) {
      ReachMono(es, es + {e}, e.to, e.from);
      ReachClosesCycle(es + {e}, e);
    } else {
      forall p: seq<Edge> | Cycle(es + {e}, p) ensures false {
        assert !Cycle(es, p);
        PathThroughNewEdge(es, e, p, p[0].from, p[0].from);
        ReachTrans(es, e.to, p[0].from, e.from);
      }
    }
  }

  /** A ranking that every edge increases rules out cycles. */
  ghost predicate Ranked(es: set<Edge>, rank: Id -> int) {
    forall e :: e in es ==> rank(e.from) < rank(e.to)
  }

  lemma {:induction false} RankedPath(es: set<Edge>, rank: Id -> int, p: seq<Edge>, a: Id, b: Id)
    requires Ranked(es, rank) && Path(es, p, a, b)
    ensures rank(a) + |p| <= rank(b)
  {
    if p != [] {
      RankedPath(es, rank, p[1..], p[0].to, b);
    }
  }

  lemma RankedAcyclic(es: set<Edge>, rank: Id -> int)
    requires Ranked(es, rank)
    ensures Acyclic(es)
  {
    forall p: seq<Edge> | Cycle(es, p) ensures false {
      RankedPath(es, rank, p, p[0].from, p[0].from);
    }
  }

  lemma ReachPlusPath(es: set<Edge>, p: seq<Edge>, a: Id, b: Id)
    requires |p| > 0 && Path(es, p, a, b)
    ensures ReachPlus(es, a, b)
  {
    assert Path(es, p[1..], p[0].to, b);
    assert Reach(es, p[0].to, b);
    var e := p[0];
    assert e in es && e.from == a && Reach(es, e.to, b);
  }

  lemma ReachPlusReach(es: set<Edge>, a: Id, b: Id)
    ensures ReachPlus(es, a, b) ==> Reach(es, a, b)
    ensures Reach(es, a, b) && a != b ==> ReachPlus(es, a, b)
  {
    if ReachPlus(es, a, b) {
      var e :| e in es && e.from == a && Reach(es, e.to, b);
      ReachEdge(es, e);
      ReachTrans(es, a, e.to, b);
    }
    if Reach(es, a, b) && a != b {
      var p :| Path(es, p, a, b);
      ReachPlusPath(es, p, a, b);
    }
  }
}
