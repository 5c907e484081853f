/** Loop edges. */
module DepthFirst {
  // Shared by the canvas, the validator and the durable interpreter: a three-colour depth-first search
  // whose edges into a grey node are "back". The search is given twice: as a step function, about which
  // everything is proved, and as the imperative loop the program runs, which refines it.

  import opened Graphs

  /** The edges leaving a node, in declaration order. */
  function Out(edges: seq<Edge>, id: Id): (out: seq<Edge>)
    ensures forall e :: e in out <==> e in edges && e.from == id
  {
    if edges == [] then []
    else if edges[0].from == id then [edges[0]] + Out(edges[1..], id)
    else Out(edges[1..], id)
  }

  lemma OutCons(e: Edge, rest: seq<Edge>, id: Id)
    ensures Out([e] + rest, id) == (if e.from == id then [e] else []) + Out(rest, id)
  {
    assert ([e] + rest)[1..] == rest;
  }

  lemma {:induction false} OutAppend(edges: seq<Edge>, e: Edge, id: Id)
    ensures Out(edges + [e], id) == Out(edges, id) + if e.from == id then [e] else []
  {
    if edges == [] {
      assert edges + [e] == [e] + [];
      OutCons(e, [], id);
    } else {
      var first, rest := edges[0], edges[1..];
      assert edges == [first] + rest && edges + [e] == [first] + (rest + [e]);
      OutAppend(rest, e, id);
      OutCons(first, rest, id);
      OutCons(first, rest + [e], id);
    }
  }

  lemma {:induction false} OutDistinct(edges: seq<Edge>, id: Id)
    requires UniqueEdgeIds(edges)
    ensures UniqueEdgeIds(Out(edges, id))
  {
    if edges != [] {
      assert edges == [edges[0]] + edges[1..];
      UniqueEdgesCons(edges[0], edges[1..]);
      OutDistinct(edges[1..], id);
      UniqueEdgesCons(edges[0], Out(edges[1..], id));
    }
  }

  // ---- the search as a step function ----

  /** A node on the recursion stack and the index of its next out-edge. */
  datatype Frame = Frame(id: Id, i: nat)

  /** `stack` holds the grey nodes, `done` the black ones in the order they were finished. */
  datatype Search = Search(stack: seq<Frame>, done: seq<Id>, back: seq<Edge>)

  ghost predicate Grey(s: Search, id: Id) {
    exists k :: 0 <= k < |s.stack| && s.stack[k].id == id
  }

  ghost function Discovered(s: Search): set<Id> {
    (set f | f in s.stack :: f.id) + (set id | id in s.done)
  }

  ghost function Step(edges: seq<Edge>, s: Search): Search
    requires s.stack != []
  {
    var last := |s.stack| - 1;
    var top := s.stack[last];
    var out := Out(edges, top.id);
    if top.i >= |out| then s.(stack := s.stack[..last], done := s.done + [top.id])
    else
      var e := out[top.i];
      var moved := s.stack[..last] + [Frame(top.id, top.i + 1)];
      if Grey(s, e.to) then s.(stack := moved, back := s.back + [e])
      else if e.to in s.done then s.(stack := moved)
      else s.(stack := moved + [Frame(e.to, 0)])
  }

  ghost function Undiscovered(edges: seq<Edge>, s: Search): set<Id> {
    (set e | e in edges :: e.to) - Discovered(s)
  }

  ghost function Remaining(edges: seq<Edge>, s: Search): nat {
    if s.stack == [] then 0
    else
      var top := s.stack[|s.stack| - 1];
      if top.i >= |Out(edges, top.id)| then 0 else |Out(edges, top.id)| - top.i
  }

  lemma StepDiscovers(edges: seq<Edge>, s: Search)
    requires s.stack != []
    ensures var s' := Step(edges, s);
            || (Discovered(s') == Discovered(s) && |s'.stack| < |s.stack|)
            || (Discovered(s') == Discovered(s) && |s'.stack| == |s.stack| && Remaining(edges, s') < Remaining(edges, s))
            || (Undiscovered(edges, s') < Undiscovered(edges, s))
  {
    var s' := Step(edges, s);
    var last := |s.stack| - 1;
    var top := s.stack[last];
    var out := Out(edges, top.id);
    assert s.stack == s.stack[..last] + [top];
    if top.i < |out| {
      var e := out[top.i];
      var moved := s.stack[..last] + [Frame(top.id, top.i + 1)];
      assert Discovered(s) <= Discovered(s') by {
        forall f | f in s.stack ensures f.id in Discovered(s') {
          assert f in s.stack[..last] || f == top;
          assert f in s'.stack || Frame(top.id, top.i + 1) in s'.stack;
        }
      }
      if !Grey(s, e.to) && e.to !in s.done {
        assert Frame(e.to, 0) in s'.stack;
        assert e.to in Discovered(s') && e.to !in Discovered(s);
        assert e.to in Undiscovered(edges, s);
      } else {
        assert s'.stack == moved;
      }
    } else {
      forall id ensures id in Discovered(s) <==> id in Discovered(s') {
        if id in Discovered(s) && id !in s.done {
          var f :| f in s.stack && f.id == id;
          assert f in s.stack[..last] || f == top;
        }
      }
    }
  }

  /** Runs the loop until the stack is empty. */
  ghost function Run(edges: seq<Edge>, s: Search): Search
    decreases Undiscovered(edges, s), |s.stack|, Remaining(edges, s)
  {
    if s.stack == [] then s
    else
      StepDiscovers(edges, s);
      Run(edges, Step(edges, s))
  }

  /** Starts a search from every node not yet coloured, in declaration order. */
  ghost function Visit(nodes: seq<Id>, edges: seq<Edge>, s: Search): Search {
    if nodes == [] then s
    else Visit(nodes[1..], edges, if nodes[0] in Discovered(s) then s else Run(edges, s.(stack := [Frame(nodes[0], 0)])))
  }

  ghost function Explore(nodes: seq<Id>, edges: seq<Edge>): Search {
    Visit(nodes, edges, Search([], [], []))
  }

  /** The back edges, in the order the search meets them. */
  ghost function BackSeq(nodes: seq<Id>, edges: seq<Edge>): seq<Edge> {
    Explore(nodes, edges).back
  }

  ghost function BackSet(nodes: seq<Id>, edges: seq<Edge>): set<Edge> {
    EdgeSet(BackSeq(nodes, edges))
  }

  ghost function ForwardSet(nodes: seq<Id>, edges: seq<Edge>): set<Edge> {
    EdgeSet(edges) - BackSet(nodes, edges)
  }

  // ---- what every step keeps ----

  /** Each node has one colour. */
  ghost predicate OneColour(s: Search) {
    && (forall k, l {:trigger Nth(s.stack, k), Nth(s.stack, l)} :: 0 <= k < l < |s.stack| ==>
          Nth(s.stack, k).id != Nth(s.stack, l).id)
    && (forall k :: 0 <= k < |s.stack| ==> s.stack[k].id !in s.done)
  }

  /** `f` waits on the edge that led to `g`, which is not back. */
  ghost predicate TreeEdge(edges: seq<Edge>, back: seq<Edge>, f: Frame, g: Frame) {
    var out := Out(edges, f.id);
    0 < f.i <= |out| && out[f.i - 1].to == g.id && out[f.i - 1] !in back
  }

  /** Every stack frame but the top waits on the edge to the frame above it. */
  ghost predicate TreeLinked(edges: seq<Edge>, s: Search) {
    forall k :: 0 <= k < |s.stack| - 1 ==> TreeEdge(edges, s.back, s.stack[k], s.stack[k + 1])
  }

  /** The first `n` out-edges of `id` are back or lead to a black node. */
  ghost predicate PrefixSettled(edges: seq<Edge>, done: seq<Id>, back: seq<Edge>, id: Id, n: int) {
    var out := Out(edges, id);
    n <= |out| && forall j :: 0 <= j < n ==> out[j] in back || out[j].to in done
  }

  ghost predicate LowerSettled(edges: seq<Edge>, s: Search, n: int) {
    n <= |s.stack| && forall k :: 0 <= k < n ==> PrefixSettled(edges, s.done, s.back, s.stack[k].id, s.stack[k].i - 1)
  }

  /** A grey node has settled every edge it has followed, but for the one it waits on. */
  ghost predicate Settled(edges: seq<Edge>, s: Search) {
    && LowerSettled(edges, s, |s.stack| - 1)
    && (s.stack != [] ==> var top := s.stack[|s.stack| - 1]; PrefixSettled(edges, s.done, s.back, top.id, top.i))
  }

  /** Non-back edges of a black node lead to nodes finished before it. */
  ghost predicate Finished(edges: seq<Edge>, done: seq<Id>, back: seq<Edge>) {
    forall b, e :: 0 <= b < |done| && e in edges && e.from == done[b] && e !in back ==> e.to in done[..b]
  }

  ghost predicate FollowedAt(edges: seq<Edge>, f: Frame, e: Edge) {
    && f.id == e.from && f.i <= |Out(edges, f.id)|
    && exists j {:trigger Nth(Out(edges, f.id), j)} :: 0 <= j < f.i && Nth(Out(edges, f.id), j) == e
  }

  /** The edge has been followed. */
  ghost predicate Followed(edges: seq<Edge>, s: Search, e: Edge) {
    e.from in s.done || exists k :: 0 <= k < |s.stack| && FollowedAt(edges, s.stack[k], e)
  }

  /** Edges followed and not classified back: these never become back later. */
  ghost function Kept(edges: seq<Edge>, s: Search): set<Edge> {
    set e | e in edges && Followed(edges, s, e) && e !in s.back
  }

  /** Every back edge has been followed, and closes a cycle through edges that are not back. */
  ghost predicate Closed(edges: seq<Edge>, s: Search) {
    forall e :: e in s.back ==> e in edges && Followed(edges, s, e) && Reach(Kept(edges, s), e.to, e.from)
  }

  ghost predicate Inv(edges: seq<Edge>, s: Search) {
    OneColour(s) && TreeLinked(edges, s) && Settled(edges, s) && Finished(edges, s.done, s.back) && Closed(edges, s)
  }

  lemma TopAlone(s: Search)
    requires s.stack != [] && OneColour(s)
    ensures forall k :: 0 <= k < |s.stack| - 1 ==> s.stack[k].id != s.stack[|s.stack| - 1].id
  {
    forall k | 0 <= k < |s.stack| - 1 ensures s.stack[k].id != s.stack[|s.stack| - 1].id {
      assert Nth(s.stack, k).id != Nth(s.stack, |s.stack| - 1).id;
    }
  }

  lemma StepColours(edges: seq<Edge>, s: Search)
    requires s.stack != [] && OneColour(s)
    ensures OneColour(Step(edges, s))
  {
    var s' := Step(edges, s);
    var last := |s.stack| - 1;
    TopAlone(s);
    forall k, l | 0 <= k < l < |s'.stack| ensures Nth(s'.stack, k).id != Nth(s'.stack, l).id {
      assert Nth(s'.stack, k).id == Nth(s.stack, k).id;
      if l <= last {
        assert Nth(s'.stack, l).id == Nth(s.stack, l).id;
      } else {
        assert !Grey(s, s'.stack[l].id);
      }
    }
  }

  /** The edge the top frame is about to follow has not been followed before. */
  lemma FreshEdge(edges: seq<Edge>, s: Search)
    requires s.stack != [] && UniqueEdgeIds(edges) && OneColour(s)
    requires s.stack[|s.stack| - 1].i < |Out(edges, s.stack[|s.stack| - 1].id)|
    ensures !Followed(edges, s, Out(edges, s.stack[|s.stack| - 1].id)[s.stack[|s.stack| - 1].i])
  {
    var top := s.stack[|s.stack| - 1];
    var out := Out(edges, top.id);
    TopAlone(s);
    OutDistinct(edges, top.id);
    assert out[top.i] in out && Nth(out, top.i) == out[top.i];
  }

  /** Following an edge from the top, whatever comes of it, keeps followed edges followed. */
  lemma FollowMono(edges: seq<Edge>, s: Search, s': Search, e: Edge)
    requires s.stack != [] && Followed(edges, s, e)
    requires s' == Step(edges, s)
    ensures Followed(edges, s', e)
  {
    var last := |s.stack| - 1;
    if e.from !in s.done {
      var k :| 0 <= k < |s.stack| && FollowedAt(edges, s.stack[k], e);
      if k < |s'.stack| {
        assert s'.stack[k].id == s.stack[k].id && s.stack[k].i <= s'.stack[k].i;
        assert FollowedAt(edges, s'.stack[k], e);
      } else {
        assert s'.done[|s.done|] == e.from;
      }
    }
  }

  /** Along the tree edges each grey node reaches the top of the stack. */
  lemma {:induction false} TreePath(edges: seq<Edge>, s: Search, k: nat)
    requires k < |s.stack| && Inv(edges, s)
    ensures Reach(Kept(edges, s), s.stack[k].id, s.stack[|s.stack| - 1].id)
    decreases |s.stack| - k
  {
    if k == |s.stack| - 1 {
      ReachRefl(Kept(edges, s), s.stack[k].id);
    } else {
      var f := s.stack[k];
      assert TreeEdge(edges, s.back, f, s.stack[k + 1]);
      var e := Out(edges, f.id)[f.i - 1];
      assert Nth(Out(edges, f.id), f.i - 1) == e && e in Out(edges, f.id);
      assert FollowedAt(edges, f, e);
      assert e in Kept(edges, s);
      ReachEdge(Kept(edges, s), e);
      TreePath(edges, s, k + 1);
      ReachTrans(Kept(edges, s), f.id, s.stack[k + 1].id, s.stack[|s.stack| - 1].id);
    }
  }

  lemma StepCloses(edges: seq<Edge>, s: Search)
    requires s.stack != [] && UniqueEdgeIds(edges) && Inv(edges, s)
    ensures Closed(edges, Step(edges, s))
  {
    var s' := Step(edges, s);
    var last := |s.stack| - 1;
    var top := s.stack[last];
    var out := Out(edges, top.id);
    assert Kept(edges, s) <= Kept(edges, s') by {
      forall e | e in Kept(edges, s) ensures e in Kept(edges, s') {
        FollowMono(edges, s, s', e);
        if top.i < |out| { FreshEdge(edges, s); }
      }
    }
    forall e | e in s'.back ensures e in edges && Followed(edges, s', e) && Reach(Kept(edges, s'), e.to, e.from) {
      if e in s.back {
        FollowMono(edges, s, s', e);
        ReachMono(Kept(edges, s), Kept(edges, s'), e.to, e.from);
      } else {
        assert e == Nth(out, top.i) && e in out;
        assert FollowedAt(edges, s'.stack[last], e);
        var k :| 0 <= k < |s.stack| && s.stack[k].id == e.to;
        TreePath(edges, s, k);
        ReachMono(Kept(edges, s), Kept(edges, s'), e.to, e.from);
      }
    }
  }

  lemma LastSettled(edges: seq<Edge>, s: Search, e: Edge)
    requires s.stack != [] && Settled(edges, s) && s.stack[|s.stack| - 1].i >= |Out(edges, s.stack[|s.stack| - 1].id)|
    requires e in edges && e.from == s.stack[|s.stack| - 1].id
    ensures e in s.back || e.to in s.done
  {
    var out := Out(edges, e.from);
    assert e in out;
    var j :| 0 <= j < |out| && out[j] == e;
  }

  /** A node is finished once all its edges are settled, which is what the post-order needs. */
  lemma StepFinishes(edges: seq<Edge>, s: Search)
    requires s.stack != [] && Inv(edges, s)
    ensures Finished(edges, Step(edges, s).done, Step(edges, s).back)
  {
    var s' := Step(edges, s);
    forall b, e | 0 <= b < |s'.done| && e in edges && e.from == s'.done[b] && e !in s'.back
      ensures e in edges && e.to in s'.done[..b]
    {
      if b < |s.done| {
        assert s'.done[..b] == s.done[..b];
      } else {
        assert s'.done[..b] == s.done;
        LastSettled(edges, s, e);
      }
    }
  }

  /** The edge a lower frame waits on has been followed, so it is not the one classified now. */
  lemma WaitingNotBack(edges: seq<Edge>, s: Search, k: nat)
    requires s.stack != [] && UniqueEdgeIds(edges) && OneColour(s) && k < |s.stack| - 1
    requires TreeEdge(edges, s.back, s.stack[k], s.stack[k + 1])
    ensures TreeEdge(edges, Step(edges, s).back, s.stack[k], s.stack[k + 1])
  {
    var f := s.stack[k];
    var top := s.stack[|s.stack| - 1];
    var e := Out(edges, f.id)[f.i - 1];
    assert e in Out(edges, f.id);
    assert FollowedAt(edges, f, e) by {
      assert Nth(Out(edges, f.id), f.i - 1) == e;
    }
    if top.i < |Out(edges, top.id)| {
      FreshEdge(edges, s);
    }
  }

  /** A descent leaves the old top waiting on the edge just followed. */
  lemma DescentWaits(edges: seq<Edge>, s: Search)
    requires s.stack != [] && UniqueEdgeIds(edges) && OneColour(s) && forall e :: e in s.back ==> Followed(edges, s, e)
    requires |Step(edges, s).stack| > |s.stack|
    ensures var s' := Step(edges, s); TreeEdge(edges, s'.back, s'.stack[|s.stack| - 1], s'.stack[|s.stack|])
  {
    FreshEdge(edges, s);
  }

  lemma StepLinks(edges: seq<Edge>, s: Search)
    requires s.stack != [] && UniqueEdgeIds(edges) && Inv(edges, s)
    ensures TreeLinked(edges, Step(edges, s))
  {
    var s' := Step(edges, s);
    var last := |s.stack| - 1;
    var top := s.stack[last];
    forall k | 0 <= k < |s'.stack| - 1 ensures TreeEdge(edges, s'.back, s'.stack[k], s'.stack[k + 1]) {
      if k < last {
        WaitingNotBack(edges, s, k);
        assert s'.stack[k] == s.stack[k] && s'.stack[k + 1].id == s.stack[k + 1].id;
      } else {
        DescentWaits(edges, s);
      }
    }
  }

  lemma SettledMono(edges: seq<Edge>, s: Search, id: Id, n: int)
    requires s.stack != [] && PrefixSettled(edges, s.done, s.back, id, n)
    ensures PrefixSettled(edges, Step(edges, s).done, Step(edges, s).back, id, n)
  {
  }

  lemma LowerKept(edges: seq<Edge>, s: Search, n: int)
    requires s.stack != [] && n < |s.stack| && n <= |Step(edges, s).stack| && LowerSettled(edges, s, n)
    ensures LowerSettled(edges, Step(edges, s), n)
  {
    var s' := Step(edges, s);
    forall k | 0 <= k < n ensures PrefixSettled(edges, s'.done, s'.back, s'.stack[k].id, s'.stack[k].i - 1) {
      assert s'.stack[k] == s.stack[k];
      SettledMono(edges, s, s.stack[k].id, s.stack[k].i - 1);
    }
  }

  /** Finishing the top node settles the edge that led to it. */
  lemma PopSettles(edges: seq<Edge>, s: Search)
    requires |s.stack| >= 2
    requires s.stack[|s.stack| - 1].i >= |Out(edges, s.stack[|s.stack| - 1].id)|
    requires var f := s.stack[|s.stack| - 2];
             TreeEdge(edges, s.back, f, s.stack[|s.stack| - 1]) && PrefixSettled(edges, s.done, s.back, f.id, f.i - 1)
    ensures var s' := Step(edges, s); var f := s.stack[|s.stack| - 2]; PrefixSettled(edges, s'.done, s'.back, f.id, f.i)
  {
    var s' := Step(edges, s);
    var f := s.stack[|s.stack| - 2];
    SettledMono(edges, s, f.id, f.i - 1);
    assert s'.done[|s.done|] == s.stack[|s.stack| - 1].id;
  }

  lemma NextSettled(edges: seq<Edge>, s: Search)
    requires s.stack != []
    requires s.stack[|s.stack| - 1].i < |Out(edges, s.stack[|s.stack| - 1].id)|
    requires |Step(edges, s).stack| == |s.stack|
    ensures var s' := Step(edges, s); var top := s.stack[|s.stack| - 1]; var e := Out(edges, top.id)[top.i];
            e in s'.back || e.to in s'.done
  {
  }

  /** Following an edge that does not descend settles it; one that descends leaves it waiting. */
  lemma PushSettles(edges: seq<Edge>, s: Search)
    requires s.stack != []
    requires var top := s.stack[|s.stack| - 1]; top.i < |Out(edges, top.id)| && PrefixSettled(edges, s.done, s.back, top.id, top.i)
    ensures var s' := Step(edges, s); var last := |s.stack| - 1;
            && PrefixSettled(edges, s'.done, s'.back, s'.stack[last].id, s'.stack[last].i - 1)
            && (|s'.stack| == |s.stack| ==> PrefixSettled(edges, s'.done, s'.back, s'.stack[last].id, s'.stack[last].i))
            && (|s'.stack| > |s.stack| ==> s'.stack[last + 1].i == 0)
  {
    var s' := Step(edges, s);
    var last := |s.stack| - 1;
    var top := s.stack[last];
    assert s'.stack[last] == Frame(top.id, top.i + 1);
    SettledMono(edges, s, top.id, top.i);
    if |s'.stack| == |s.stack| {
      NextSettled(edges, s);
    }
  }

  lemma StepSettles(edges: seq<Edge>, s: Search)
    requires s.stack != [] && TreeLinked(edges, s) && Settled(edges, s)
    ensures Settled(edges, Step(edges, s))
  {
    var last := |s.stack| - 1;
    if s.stack[last].i < |Out(edges, s.stack[last].id)| {
      LowerKept(edges, s, last);
      PushSettles(edges, s);
    } else {
      LowerKept(edges, s, last - 1);
      if last > 0 {
        assert TreeEdge(edges, s.back, s.stack[last - 1], s.stack[last]);
        PopSettles(edges, s);
      }
    }
  }

  lemma StepKeeps(edges: seq<Edge>, s: Search)
    requires s.stack != [] && UniqueEdgeIds(edges) && Inv(edges, s)
    ensures Inv(edges, Step(edges, s))
  {
    StepColours(edges, s);
    StepCloses(edges, s);
    StepFinishes(edges, s);
    StepLinks(edges, s);
    StepSettles(edges, s);
  }

  // ---- the whole search ----

  lemma StepGrows(edges: seq<Edge>, s: Search)
    requires s.stack != []
    ensures Discovered(s) <= Discovered(Step(edges, s))
  {
    var s' := Step(edges, s);
    var last := |s.stack| - 1;
    forall f | f in s.stack ensures f.id in Discovered(s') {
      var k :| 0 <= k < |s.stack| && s.stack[k] == f;
      if k < |s'.stack| {
        assert s'.stack[k].id == f.id && s'.stack[k] in s'.stack;
      }
    }
  }

  lemma {:induction false} RunKeeps(edges: seq<Edge>, s: Search)
    requires UniqueEdgeIds(edges) && Inv(edges, s)
    ensures Inv(edges, Run(edges, s)) && Run(edges, s).stack == []
    ensures Discovered(s) <= Discovered(Run(edges, s))
    decreases Undiscovered(edges, s), |s.stack|, Remaining(edges, s)
  {
    if s.stack != [] {
      StepDiscovers(edges, s);
      StepKeeps(edges, s);
      StepGrows(edges, s);
      RunKeeps(edges, Step(edges, s));
    }
  }

  lemma RootInv(edges: seq<Edge>, s: Search, root: Id)
    requires Inv(edges, s) && s.stack == [] && root !in Discovered(s)
    ensures Inv(edges, s.(stack := [Frame(root, 0)]))
  {
    assert Kept(edges, s.(stack := [Frame(root, 0)])) == Kept(edges, s);
  }

  lemma {:induction false} VisitKeeps(nodes: seq<Id>, edges: seq<Edge>, s: Search)
    requires UniqueEdgeIds(edges) && Inv(edges, s) && s.stack == []
    ensures Inv(edges, Visit(nodes, edges, s)) && Visit(nodes, edges, s).stack == []
    ensures Discovered(s) <= Discovered(Visit(nodes, edges, s))
    ensures forall n :: n in nodes ==> n in Discovered(Visit(nodes, edges, s))
  {
    if nodes != [] {
      if nodes[0] in Discovered(s) {
        VisitKeeps(nodes[1..], edges, s);
      } else {
        var s0 := s.(stack := [Frame(nodes[0], 0)]);
        RootInv(edges, s, nodes[0]);
        RunKeeps(edges, s0);
        assert s0.stack[0] in s0.stack;
        VisitKeeps(nodes[1..], edges, Run(edges, s0));
      }
    }
  }

  /** Position of a node in the finishing order. */
  ghost function IndexIn(done: seq<Id>, id: Id): nat {
    if done == [] then 0 else if done[0] == id then 0 else 1 + IndexIn(done[1..], id)
  }

  lemma {:induction false} IndexInPrefix(done: seq<Id>, id: Id, b: nat)
    requires b <= |done|
    ensures id in done[..b] <==> IndexIn(done, id) < b
    ensures id in done ==> IndexIn(done, id) < |done| && done[IndexIn(done, id)] == id
  {
    if done != [] && done[0] != id && b > 0 {
      IndexInPrefix(done[1..], id, b - 1);
      assert done[..b] == [done[0]] + done[1..][..b - 1];
    } else if done != [] && done[0] != id {
      IndexInPrefix(done[1..], id, 0);
    } else if b > 0 {
      assert done[..b][0] == done[0];
    }
  }

  /** A ranking of the nodes that every forward edge increases: finished later, ranked lower. */
  ghost function TopoRank(nodes: seq<Id>, edges: seq<Edge>): Id -> int {
    var done := Explore(nodes, edges).done;
    (id: Id) => (var i: int := IndexIn(done, id); -i)
  }

  ghost predicate FromNodes(nodes: seq<Id>, edges: seq<Edge>) {
    UniqueEdgeIds(edges) && forall e :: e in edges ==> e.from in nodes
  }

  /** Main result, first half: without its back edges the graph is acyclic, and the finishing
      order of the search is a topological order of what is left. */
  lemma ForwardRanked(nodes: seq<Id>, edges: seq<Edge>)
    requires FromNodes(nodes, edges)
    ensures Ranked(ForwardSet(nodes, edges), TopoRank(nodes, edges))
    ensures Acyclic(ForwardSet(nodes, edges))
  {
    var rank := TopoRank(nodes, edges);
    var s := Explore(nodes, edges);
    VisitKeeps(nodes, edges, Search([], [], []));
    forall e | e in ForwardSet(nodes, edges) ensures rank(e.from) < rank(e.to) {
      assert e.from in s.done;
      IndexInPrefix(s.done, e.from, |s.done|);
      var b := IndexIn(s.done, e.from);
      assert s.done[b] == e.from;
      IndexInPrefix(s.done, e.to, b);
    }
    RankedAcyclic(ForwardSet(nodes, edges), rank);
  }

  /** Main result, second half: each back edge is needed, because it closes a cycle made of
      itself and forward edges. */
  lemma BackClosesCycle(nodes: seq<Id>, edges: seq<Edge>, e: Edge)
    requires FromNodes(nodes, edges) && e in BackSet(nodes, edges)
    ensures e in edges && Reach(ForwardSet(nodes, edges), e.to, e.from)
    ensures !Acyclic(ForwardSet(nodes, edges) + {e})
  {
    var s := Explore(nodes, edges);
    VisitKeeps(nodes, edges, Search([], [], []));
    assert Kept(edges, s) <= ForwardSet(nodes, edges);
    ReachMono(Kept(edges, s), ForwardSet(nodes, edges), e.to, e.from);
    ReachMono(ForwardSet(nodes, edges), ForwardSet(nodes, edges) + {e}, e.to, e.from);
    ReachClosesCycle(ForwardSet(nodes, edges) + {e}, e);
  }

  /** The back edges are an inclusion-minimal feedback edge set: removing exactly them leaves no
      cycle, removing any proper subset leaves one. */
  lemma BackIsMinimalFeedbackSet(nodes: seq<Id>, edges: seq<Edge>, removed: set<Edge>)
    requires FromNodes(nodes, edges) && removed <= BackSet(nodes, edges)
    ensures Acyclic(EdgeSet(edges) - removed) <==> removed == BackSet(nodes, edges)
  {
    var back := BackSet(nodes, edges);
    ForwardRanked(nodes, edges);
    if removed != back {
      var e :| e in back && e !in removed;
      BackClosesCycle(nodes, edges, e);
      if Acyclic(EdgeSet(edges) - removed) {
        AcyclicMono(ForwardSet(nodes, edges) + {e}, EdgeSet(edges) - removed);
      }
    }
  }

  lemma BackEmptyIffAcyclic(nodes: seq<Id>, edges: seq<Edge>)
    requires FromNodes(nodes, edges)
    ensures BackSet(nodes, edges) == {} <==> Acyclic(EdgeSet(edges))
  {
    BackIsMinimalFeedbackSet(nodes, edges, {});
    assert EdgeSet(edges) - {} == EdgeSet(edges);
  }

  lemma BackWithinEdges(nodes: seq<Id>, edges: seq<Edge>)
    requires FromNodes(nodes, edges)
    ensures BackSet(nodes, edges) <= EdgeSet(edges)
  {
    forall e | e in BackSet(nodes, edges) ensures e in EdgeSet(edges) {
      BackClosesCycle(nodes, edges, e);
    }
  }

  // ---- which edges are back depends on where the search starts ----

  ghost predicate ClosedUnder(edges: seq<Edge>, done: seq<Id>) {
    forall e :: e in edges && e.from in done ==> e.to in done
  }

  /** When the stack is empty, everything a black node leads to is black. */
  lemma RestIsClosed(edges: seq<Edge>, s: Search)
    requires Inv(edges, s) && s.stack == []
    ensures ClosedUnder(edges, s.done)
  {
    forall e | e in edges && e.from in s.done
      ensures e.to in s.done
    {
      if e in s.back {
        var p :| Path(Kept(edges, s), p, e.to, e.from);
        assert p != [] ==> p[0] in Kept(edges, s);
      } else {
        var b :| 0 <= b < |s.done| && s.done[b] == e.from;
      }
    }
  }

  lemma {:induction false} ClosedUnderPath(edges: seq<Edge>, done: seq<Id>, p: seq<Edge>, a: Id, b: Id)
    requires ClosedUnder(edges, done) && a in done && Path(EdgeSet(edges), p, a, b)
    ensures b in done
  {
    if p != [] {
      ClosedUnderPath(edges, done, p[1..], p[0].to, b);
    }
  }

  /** The node a search starts from is finished last. */
  lemma {:induction false} RootFinishesLast(edges: seq<Edge>, s: Search, root: Id) returns (before: seq<Id>)
    requires OneColour(s) && s.stack != [] && s.stack[0].id == root
    ensures Run(edges, s).done == before + [root] && root !in before
    decreases Undiscovered(edges, s), |s.stack|, Remaining(edges, s)
  {
    StepDiscovers(edges, s);
    StepColours(edges, s);
    var s' := Step(edges, s);
    if s'.stack == [] {
      before := s.done;
    } else {
      before := RootFinishesLast(edges, s', root);
    }
  }

  lemma {:induction false} RunAppends(edges: seq<Edge>, s: Search)
    ensures s.done <= Run(edges, s).done
    decreases Undiscovered(edges, s), |s.stack|, Remaining(edges, s)
  {
    if s.stack != [] {
      StepDiscovers(edges, s);
      RunAppends(edges, Step(edges, s));
    }
  }

  lemma {:induction false} VisitAppends(nodes: seq<Id>, edges: seq<Edge>, s: Search)
    ensures s.done <= Visit(nodes, edges, s).done
  {
    if nodes != [] {
      var s' := if nodes[0] in Discovered(s) then s else Run(edges, s.(stack := [Frame(nodes[0], 0)]));
      RunAppends(edges, s.(stack := [Frame(nodes[0], 0)]));
      VisitAppends(nodes[1..], edges, s');
    }
  }

  lemma StepReached(edges: seq<Edge>, s: Search, ok: iset<Id>)
    requires s.stack != [] && (forall id :: id in s.done ==> id in ok) && forall f :: f in s.stack ==> f.id in ok
    requires forall e :: e in edges && e.from in ok ==> e.to in ok
    ensures var s' := Step(edges, s); (forall id :: id in s'.done ==> id in ok) && forall f :: f in s'.stack ==> f.id in ok
  {
    var last := |s.stack| - 1;
    var top := s.stack[last];
    assert top in s.stack;
    if top.i < |Out(edges, top.id)| {
      assert Out(edges, top.id)[top.i] in Out(edges, top.id);
    }
  }

  lemma {:induction false} RunReached(edges: seq<Edge>, s: Search, ok: iset<Id>)
    requires (forall id :: id in s.done ==> id in ok) && forall f :: f in s.stack ==> f.id in ok
    requires forall e :: e in edges && e.from in ok ==> e.to in ok
    ensures Run(edges, s).stack == [] && forall id :: id in Run(edges, s).done ==> id in ok
    decreases Undiscovered(edges, s), |s.stack|, Remaining(edges, s)
  {
    if s.stack != [] {
      StepDiscovers(edges, s);
      StepReached(edges, s, ok);
      RunReached(edges, Step(edges, s), ok);
    }
  }

  /** Everything the search from these roots finds is reached from one of them. */
  lemma {:induction false} VisitReached(nodes: seq<Id>, edges: seq<Edge>, s: Search, ok: iset<Id>)
    requires s.stack == [] && (forall id :: id in s.done ==> id in ok) && forall n :: n in nodes ==> n in ok
    requires forall e :: e in edges && e.from in ok ==> e.to in ok
    ensures forall id :: id in Visit(nodes, edges, s).done ==> id in ok
    ensures Visit(nodes, edges, s).stack == []
  {
    if nodes != [] {
      var s' := s;
      if nodes[0] !in Discovered(s) {
        s' := Run(edges, s.(stack := [Frame(nodes[0], 0)]));
        RunReached(edges, s.(stack := [Frame(nodes[0], 0)]), ok);
      }
      VisitReached(nodes[1..], edges, s', ok);
    }
  }

  ghost predicate RootReaches(edges: seq<Edge>, nodes: seq<Id>, id: Id) {
    exists n :: n in nodes && Reach(EdgeSet(edges), n, id)
  }

  lemma VisitDone(nodes: seq<Id>, edges: seq<Edge>, id: Id)
    requires id in Explore(nodes, edges).done
    ensures RootReaches(edges, nodes, id)
  {
    var ok := iset id | RootReaches(edges, nodes, id);
    var es := EdgeSet(edges);
    forall n | n in nodes
      ensures n in ok
    {
      ReachRefl(es, n);
    }
    forall e | e in edges && e.from in ok
      ensures e.to in ok
    {
      var n :| n in nodes && Reach(es, n, e.from);
      ReachEdge(es, e);
      ReachTrans(es, n, e.from, e.to);
    }
    VisitReached(nodes, edges, Search([], [], []), ok);
  }

  lemma {:induction false} VisitConcat(a: seq<Id>, b: seq<Id>, edges: seq<Edge>, s: Search)
    ensures Visit(a + b, edges, s) == Visit(b, edges, Visit(a, edges, s))
  {
    if a == [] {
      assert a + b == b;
    } else {
      assert (a + b)[1..] == a[1..] + b;
      VisitConcat(a[1..], b, edges, if a[0] in Discovered(s) then s else Run(edges, s.(stack := [Frame(a[0], 0)])));
    }
  }

  /** The state of the search when it comes to a node that nothing listed before it reaches. */
  lemma EnteredFresh(before: seq<Id>, root: Id, rest: seq<Id>, edges: seq<Edge>) returns (s: Search)
    requires UniqueEdgeIds(edges) && forall n :: n in before ==> !Reach(EdgeSet(edges), n, root)
    ensures Inv(edges, s) && s.stack == [] && root !in Discovered(s)
    ensures Explore(before + [root] + rest, edges) == Visit(rest, edges, Run(edges, s.(stack := [Frame(root, 0)])))
  {
    s := Explore(before, edges);
    VisitKeeps(before, edges, Search([], [], []));
    if root in Discovered(s) {
      VisitDone(before, edges, root);
    }
    assert before + [root] + rest == before + ([root] + rest);
    VisitConcat(before, [root] + rest, edges, Search([], [], []));
    assert ([root] + rest)[1..] == rest;
  }

  lemma EnteredIsBack(before: seq<Id>, rest: seq<Id>, edges: seq<Edge>, e: Edge)
    requires UniqueEdgeIds(edges) && e in edges && Reach(EdgeSet(edges), e.to, e.from)
    requires forall n :: n in before ==> !Reach(EdgeSet(edges), n, e.to)
    ensures e in BackSet(before + [e.to] + rest, edges)
  {
    var s0 := EnteredFresh(before, e.to, rest, edges);
    var start := s0.(stack := [Frame(e.to, 0)]);
    var s1 := Run(edges, start);
    RootInv(edges, s0, e.to);
    RunKeeps(edges, start);
    RestIsClosed(edges, s1);
    var earlier := RootFinishesLast(edges, start, e.to);
    assert s1.done[|earlier|] == e.to;
    var p :| Path(EdgeSet(edges), p, e.to, e.from);
    ClosedUnderPath(edges, s1.done, p, e.to, e.from);
    VisitKeeps(rest, edges, s1);
    VisitAppends(rest, edges, s1);
    var s := Visit(rest, edges, s1);
    var b :| 0 <= b < |s1.done| && s1.done[b] == e.from;
    assert s.done[b] == e.from && s.done[..b] == earlier[..b];
  }

  /** The order of the roots: an edge into a node that no node listed before it reaches is a loop edge exactly
      when it is on a cycle, for the node is then entered before anything else on the cycle. */
  lemma EnteredIffOnCycle(before: seq<Id>, rest: seq<Id>, edges: seq<Edge>, e: Edge)
    requires FromNodes(before + [e.to] + rest, edges) && e in edges
    requires forall n :: n in before ==> !Reach(EdgeSet(edges), n, e.to)
    ensures e in BackSet(before + [e.to] + rest, edges) <==> Reach(EdgeSet(edges), e.to, e.from)
  {
    var nodes := before + [e.to] + rest;
    if Reach(EdgeSet(edges), e.to, e.from) {
      EnteredIsBack(before, rest, edges, e);
    }
    if e in BackSet(nodes, edges) {
      BackClosesCycle(nodes, edges, e);
      ReachMono(ForwardSet(nodes, edges), EdgeSet(edges), e.to, e.from);
    }
  }

  /** In particular when the node it leads to is the first one listed. */
  lemma FirstListedIsEntered(rest: seq<Id>, edges: seq<Edge>, e: Edge)
    requires UniqueEdgeIds(edges) && e in edges && Reach(EdgeSet(edges), e.to, e.from)
    ensures e in BackSet([e.to] + rest, edges)
  {
    EnteredIsBack([], rest, edges, e);
    assert [] + [e.to] + rest == [e.to] + rest;
  }

  // ---- the textbook recursion ----

  function Targets(out: seq<Edge>): (ids: seq<Id>)
    ensures |ids| == |out| && forall i :: 0 <= i < |out| ==> ids[i] == out[i].to
  {
    seq(|out|, i requires 0 <= i < |out| => out[i].to)
  }

  ghost function Unseen(edges: seq<Edge>, seen: set<Id>, todo: seq<Id>): set<Id> {
    (set e | e in edges :: e.to) + (set id | id in todo) - seen
  }

  lemma TargetsUnseen(edges: seq<Edge>, seen: set<Id>, todo: seq<Id>)
    requires todo != [] && todo[0] !in seen
    ensures Unseen(edges, seen + {todo[0]}, Targets(Out(edges, todo[0]))) < Unseen(edges, seen, todo)
  {
    assert todo[0] in Unseen(edges, seen, todo);
    forall id | id in Targets(Out(edges, todo[0]))
      ensures id in set e | e in edges :: e.to
    {
      var i :| 0 <= i < |Out(edges, todo[0])| && Out(edges, todo[0])[i].to == id;
      assert Out(edges, todo[0])[i] in Out(edges, todo[0]);
    }
  }

  lemma RestUnseen(edges: seq<Edge>, seen: set<Id>, more: set<Id>, todo: seq<Id>)
    requires todo != []
    ensures Unseen(edges, seen + more, todo[1..]) <= Unseen(edges, seen, todo)
    ensures todo[0] !in seen && todo[0] in more ==> Unseen(edges, seen + more, todo[1..]) < Unseen(edges, seen, todo)
  {
    assert todo[0] !in seen ==> todo[0] in Unseen(edges, seen, todo);
    assert seen + {} == seen;
  }

  /** Depth-first search as a recursion: the nodes to do, one after the other, each after all it leads to that
      has not been seen. The result is the order in which they finish. */
  ghost function PostOrder(edges: seq<Edge>, seen: set<Id>, todo: seq<Id>): seq<Id>
    decreases Unseen(edges, seen, todo), |todo|
  {
    if todo == [] then []
    else if todo[0] in seen then
      RestUnseen(edges, seen, {}, todo);
      assert seen + {} == seen;
      PostOrder(edges, seen, todo[1..])
    else
      TargetsUnseen(edges, seen, todo);
      var inner := PostOrder(edges, seen + {todo[0]}, Targets(Out(edges, todo[0]))) + [todo[0]];
      RestUnseen(edges, seen, (set id | id in inner), todo);
      inner + PostOrder(edges, seen + (set id | id in inner), todo[1..])
  }

  lemma PostSkips(edges: seq<Edge>, seen: set<Id>, w: Id, rest: seq<Id>)
    requires w in seen
    ensures PostOrder(edges, seen, [w] + rest) == PostOrder(edges, seen, rest)
  {
    assert ([w] + rest)[1..] == rest;
  }

  lemma PostEnters(edges: seq<Edge>, seen: set<Id>, w: Id, rest: seq<Id>)
    requires w !in seen
    ensures var inner := PostOrder(edges, seen + {w}, Targets(Out(edges, w))) + [w];
            PostOrder(edges, seen, [w] + rest) == inner + PostOrder(edges, seen + (set id | id in inner), rest)
  {
    assert ([w] + rest)[1..] == rest;
  }

  lemma RunSteps(edges: seq<Edge>, s: Search)
    requires s.stack != []
    ensures Run(edges, s) == Run(edges, Step(edges, s))
  {
    StepDiscovers(edges, s);
  }

  /** What has been discovered: the nodes of the frames and those finished. */
  ghost function Seen(lower: seq<Frame>, done: seq<Id>): set<Id> {
    Discovered(Search(lower, done, []))
  }

  lemma SeenParts(lower: seq<Frame>, f: Frame, done: seq<Id>, back: seq<Edge>)
    ensures Discovered(Search(lower + [f], done, back)) == Seen(lower, done) + {f.id}
  {
    var s := Search(lower + [f], done, back);
    assert s.stack[|lower|] == f;
    forall g | g in lower
      ensures g in s.stack
    {
    }
  }

  lemma SeenDone(lower: seq<Frame>, done: seq<Id>, more: seq<Id>)
    ensures Seen(lower, done + more) == Seen(lower, done) + set id | id in more
  {
  }

  /** One step of the loop at an edge into a node that has been seen. */
  lemma StepSkips(edges: seq<Edge>, lower: seq<Frame>, u: Id, i: nat, done: seq<Id>, back: seq<Edge>) returns (b: seq<Edge>)
    requires i < |Out(edges, u)| && Out(edges, u)[i].to in Seen(lower, done) + {u}
    ensures Step(edges, Search(lower + [Frame(u, i)], done, back)) == Search(lower + [Frame(u, i + 1)], done, b)
  {
    var s := Search(lower + [Frame(u, i)], done, back);
    var e := Out(edges, u)[i];
    assert s.stack[..|lower|] == lower && s.stack[|lower|] == Frame(u, i);
    SeenParts(lower, Frame(u, i), done, back);
    if e.to !in done {
      var f :| f in s.stack && f.id == e.to;
      assert Grey(s, e.to);
    }
    b := if Grey(s, e.to) then back + [e] else back;
  }

  /** And at one into a node that has not. */
  lemma StepEnters(edges: seq<Edge>, lower: seq<Frame>, u: Id, i: nat, done: seq<Id>, back: seq<Edge>)
    requires i < |Out(edges, u)| && Out(edges, u)[i].to !in Seen(lower, done) + {u}
    ensures Step(edges, Search(lower + [Frame(u, i)], done, back)) ==
            Search(lower + [Frame(u, i + 1)] + [Frame(Out(edges, u)[i].to, 0)], done, back)
  {
    var s := Search(lower + [Frame(u, i)], done, back);
    var e := Out(edges, u)[i];
    assert s.stack[..|lower|] == lower && s.stack[|lower|] == Frame(u, i);
    SeenParts(lower, Frame(u, i), done, back);
    assert e.to !in Discovered(s);
    assert forall k :: 0 <= k < |s.stack| ==> s.stack[k] in s.stack;
  }

  /** The targets not seen yet. */
  ghost function Ahead(edges: seq<Edge>, seen: set<Id>): set<Id> {
    (set e | e in edges :: e.to) - seen
  }

  lemma EnteringLowers(edges: seq<Edge>, u: Id, i: nat, seen: set<Id>, more: set<Id>)
    requires i < |Out(edges, u)| && Out(edges, u)[i].to !in seen && Out(edges, u)[i].to in more
    ensures Ahead(edges, seen + more) < Ahead(edges, seen)
  {
    assert Out(edges, u)[i] in Out(edges, u);
    assert Out(edges, u)[i].to in Ahead(edges, seen);
  }

  /** From its top frame on, the loop finishes these nodes, and then the frame's own. */
  ghost predicate Finishes(edges: seq<Edge>, lower: seq<Frame>, u: Id, i: nat, done: seq<Id>, back: seq<Edge>, more: seq<Id>, back': seq<Edge>) {
    Run(edges, Search(lower + [Frame(u, i)], done, back)) == Run(edges, Search(lower, done + more + [u], back'))
  }

  lemma PopFinishes(edges: seq<Edge>, lower: seq<Frame>, u: Id, done: seq<Id>, back: seq<Edge>)
    ensures Finishes(edges, lower, u, |Out(edges, u)|, done, back, [], back)
  {
    var s := Search(lower + [Frame(u, |Out(edges, u)|)], done, back);
    assert s.stack[..|lower|] == lower && s.stack[|lower|] == Frame(u, |Out(edges, u)|);
    RunSteps(edges, s);
    assert done + [] + [u] == done + [u];
  }

  lemma SkipFinishes(edges: seq<Edge>, lower: seq<Frame>, u: Id, i: nat, done: seq<Id>, back: seq<Edge>, b: seq<Edge>, more: seq<Id>, back': seq<Edge>)
    requires Step(edges, Search(lower + [Frame(u, i)], done, back)) == Search(lower + [Frame(u, i + 1)], done, b)
    requires Finishes(edges, lower, u, i + 1, done, b, more, back')
    ensures Finishes(edges, lower, u, i, done, back, more, back')
  {
    RunSteps(edges, Search(lower + [Frame(u, i)], done, back));
  }

  lemma Regroup(a: seq<Id>, b: seq<Id>, c: seq<Id>, d: seq<Id>)
    ensures a + b + c == a + (b + c) && a + (b + c) + d == a + (b + c + d)
  {
  }

  /** Three stretches of the loop, one after the other. */
  lemma RunsOn(edges: seq<Edge>, s: Search, s1: Search, s2: Search, s3: Search)
    requires s.stack != [] && Step(edges, s) == s1 && Run(edges, s1) == Run(edges, s2) && Run(edges, s2) == Run(edges, s3)
    ensures Run(edges, s) == Run(edges, s3)
  {
    RunSteps(edges, s);
  }

  lemma EnterFinishes(edges: seq<Edge>, lower: seq<Frame>, u: Id, i: nat, done: seq<Id>, back: seq<Edge>, inner: seq<Id>, b: seq<Edge>,
                      after: seq<Id>, back': seq<Edge>)
    requires i < |Out(edges, u)| && Out(edges, u)[i].to !in Seen(lower, done) + {u}
    requires var w := Out(edges, u)[i].to;
             && Finishes(edges, lower + [Frame(u, i + 1)], w, 0, done, back, inner, b)
             && Finishes(edges, lower, u, i + 1, done + (inner + [w]), b, after, back')
    ensures Finishes(edges, lower, u, i, done, back, inner + [Out(edges, u)[i].to] + after, back')
  {
    var w := Out(edges, u)[i].to;
    Regroup(done, inner, [w], after);
    StepEnters(edges, lower, u, i, done, back);
    RunsOn(edges, Search(lower + [Frame(u, i)], done, back), Search(lower + [Frame(u, i + 1)] + [Frame(w, 0)], done, back),
           Search(lower + [Frame(u, i + 1)], done + (inner + [w]), b),
           Search(lower, done + (inner + [w]) + after + [u], back'));
  }

  /** The recursion on a node's edges from the `i`th on. */
  ghost function PostFrom(edges: seq<Edge>, seen: set<Id>, u: Id, i: nat): seq<Id>
    requires i <= |Out(edges, u)|
  {
    PostOrder(edges, seen, Targets(Out(edges, u))[i..])
  }

  lemma PostFromNext(edges: seq<Edge>, seen: set<Id>, u: Id, i: nat)
    requires i < |Out(edges, u)|
    ensures var w := Out(edges, u)[i].to;
            if w in seen then PostFrom(edges, seen, u, i) == PostFrom(edges, seen, u, i + 1)
            else
              var inner := PostFrom(edges, seen + {w}, w, 0) + [w];
              PostFrom(edges, seen, u, i) == inner + PostFrom(edges, seen + (set id | id in inner), u, i + 1)
  {
    var w, ids := Out(edges, u)[i].to, Targets(Out(edges, u));
    assert ids[i..] == [w] + ids[i + 1..];
    assert Targets(Out(edges, w))[0..] == Targets(Out(edges, w));
    if w in seen {
      PostSkips(edges, seen, w, ids[i + 1..]);
    } else {
      PostEnters(edges, seen, w, ids[i + 1..]);
    }
  }

  lemma SeenEntered(lower: seq<Frame>, u: Id, done: seq<Id>, inner: seq<Id>, w: Id)
    ensures Seen(lower, done + (inner + [w])) + {u} == Seen(lower, done) + {u} + set id | id in inner + [w]
    ensures w in set id | id in inner + [w]
  {
    SeenDone(lower, done, inner + [w]);
    assert (inner + [w])[|inner|] == w;
  }

  lemma {:induction false} RunIsPostOrder(edges: seq<Edge>, lower: seq<Frame>, u: Id, i: nat, done: seq<Id>, back: seq<Edge>)
    returns (back': seq<Edge>)
    requires i <= |Out(edges, u)|
    ensures Finishes(edges, lower, u, i, done, back, PostFrom(edges, Seen(lower, done) + {u}, u, i), back')
    decreases Ahead(edges, Seen(lower, done) + {u}), |Out(edges, u)| - i
  {
    var seen := Seen(lower, done) + {u};
    if i == |Out(edges, u)| {
      PopFinishes(edges, lower, u, done, back);
      back' := back;
    } else {
      var w := Out(edges, u)[i].to;
      PostFromNext(edges, seen, u, i);
      if w in seen {
        var b := StepSkips(edges, lower, u, i, done, back);
        back' := RunIsPostOrder(edges, lower, u, i + 1, done, b);
        SkipFinishes(edges, lower, u, i, done, back, b, PostFrom(edges, seen, u, i + 1), back');
      } else {
        var inner := PostFrom(edges, seen + {w}, w, 0);
        SeenParts(lower, Frame(u, i + 1), done, []);
        EnteringLowers(edges, u, i, seen, {w});
        var b := RunIsPostOrder(edges, lower + [Frame(u, i + 1)], w, 0, done, back);
        SeenEntered(lower, u, done, inner, w);
        EnteringLowers(edges, u, i, seen, set id | id in inner + [w]);
        back' := RunIsPostOrder(edges, lower, u, i + 1, done + (inner + [w]), b);
        EnterFinishes(edges, lower, u, i, done, back, inner, b, PostFrom(edges, seen + (set id | id in inner + [w]), u, i + 1), back');
      }
    }
  }

  /** A search from one more root. */
  lemma RootIsPostOrder(edges: seq<Edge>, w: Id, s: Search)
    requires s.stack == [] && w !in Seen([], s.done)
    ensures var s' := Run(edges, s.(stack := [Frame(w, 0)]));
            s'.stack == [] && s'.done == s.done + (PostFrom(edges, Seen([], s.done) + {w}, w, 0) + [w])
  {
    var inner := PostFrom(edges, Seen([], s.done) + {w}, w, 0);
    var b := RunIsPostOrder(edges, [], w, 0, s.done, s.back);
    assert [] + [Frame(w, 0)] == [Frame(w, 0)];
    assert s.done + inner + [w] == s.done + (inner + [w]);
  }

  lemma VisitNext(w: Id, rest: seq<Id>, edges: seq<Edge>, s: Search)
    requires s.stack == [] && w !in Seen([], s.done)
    ensures var inner := PostFrom(edges, Seen([], s.done) + {w}, w, 0) + [w];
            && Run(edges, s.(stack := [Frame(w, 0)])).done == s.done + inner
            && Seen([], s.done + inner) == Seen([], s.done) + (set id | id in inner)
            && PostOrder(edges, Seen([], s.done), [w] + rest) ==
               inner + PostOrder(edges, Seen([], s.done) + (set id | id in inner), rest)
  {
    RootIsPostOrder(edges, w, s);
    SeenDone([], s.done, PostFrom(edges, Seen([], s.done) + {w}, w, 0) + [w]);
    assert Targets(Out(edges, w))[0..] == Targets(Out(edges, w));
    PostEnters(edges, Seen([], s.done), w, rest);
  }

  lemma {:induction false} VisitIsPostOrder(nodes: seq<Id>, edges: seq<Edge>, s: Search)
    requires s.stack == []
    ensures Visit(nodes, edges, s).done == s.done + PostOrder(edges, Seen([], s.done), nodes)
    decreases |nodes|
  {
    if nodes == [] {
      assert s.done + [] == s.done;
    } else {
      var w, rest, seen := nodes[0], nodes[1..], Seen([], s.done);
      assert nodes == [w] + rest && Discovered(s) == seen;
      if w in seen {
        PostSkips(edges, seen, w, rest);
        VisitIsPostOrder(rest, edges, s);
      } else {
        var inner := PostFrom(edges, seen + {w}, w, 0) + [w];
        var s' := Run(edges, s.(stack := [Frame(w, 0)]));
        RootIsPostOrder(edges, w, s);
        VisitNext(w, rest, edges, s);
        VisitIsPostOrder(rest, edges, s');
        Regroup(s.done, inner, PostOrder(edges, seen + (set id | id in inner), rest), []);
      }
    }
  }

  /** The nodes in the order the recursion finishes them. */
  ghost function Finishing(nodes: seq<Id>, edges: seq<Edge>): seq<Id> {
    PostOrder(edges, {}, nodes)
  }

  lemma ExploreIsPostOrder(nodes: seq<Id>, edges: seq<Edge>)
    ensures Explore(nodes, edges).done == Finishing(nodes, edges)
  {
    VisitIsPostOrder(nodes, edges, Search([], [], []));
    assert Seen([], []) == {};
    assert [] + Finishing(nodes, edges) == Finishing(nodes, edges);
  }

  /** Which edges are back, then, is what the recursion says: those into a node that does not finish before
      the one they leave. */
  lemma BackIsUnfinished(nodes: seq<Id>, edges: seq<Edge>, e: Edge)
    requires FromNodes(nodes, edges) && e in edges
    ensures var order := Finishing(nodes, edges);
            e.from in order && (e in BackSet(nodes, edges) <==> IndexIn(order, e.from) <= IndexIn(order, e.to))
  {
    var s := Explore(nodes, edges);
    ExploreIsPostOrder(nodes, edges);
    VisitKeeps(nodes, edges, Search([], [], []));
    ForwardRanked(nodes, edges);
    if e in BackSet(nodes, edges) {
      BackClosesCycle(nodes, edges, e);
      var p :| Path(ForwardSet(nodes, edges), p, e.to, e.from);
      RankedPath(ForwardSet(nodes, edges), TopoRank(nodes, edges), p, e.to, e.from);
    } else {
      assert e in ForwardSet(nodes, edges);
    }
  }

  // ---- the loop the program runs ----

  /** The adjacency lists, built edge by edge. */
  method BuildOut(edges: seq<Edge>) returns (out: map<Id, seq<Edge>>)
    ensures forall id :: (if id in out then out[id] else []) == Out(edges, id)
  {
    out := map[];
    for k := 0 to |edges|
      invariant forall id :: (if id in out then out[id] else []) == Out(edges[..k], id)
    {
      var e := edges[k];
      ghost var before := out;
      out := out[e.from := (if e.from in out then out[e.from] else []) + [e]];
      assert edges[..k + 1] == edges[..k] + [e];
      forall id ensures (if id in out then out[id] else []) == Out(edges[..k + 1], id) {
        assert (if id in before then before[id] else []) == Out(edges[..k], id);
        OutAppend(edges[..k], e, id);
      }
    }
    assert edges[..|edges|] == edges;
  }

  const WHITE := 0
  const GREY := 1
  const BLACK := 2

  function ColourOf(color: map<Id, int>, id: Id): int {
    if id in color then color[id] else WHITE
  }

  ghost predicate Coloured(color: map<Id, int>, s: Search) {
    forall id :: ColourOf(color, id) == if Grey(s, id) then GREY else if id in s.done then BLACK else WHITE
  }

  lemma ColourTells(color: map<Id, int>, s: Search, id: Id)
    requires Coloured(color, s)
    ensures ColourOf(color, id) == GREY <==> Grey(s, id)
    ensures ColourOf(color, id) == WHITE <==> !Grey(s, id) && id !in s.done
  {
    assert ColourOf(color, id) == (if Grey(s, id) then GREY else if id in s.done then BLACK else WHITE);
  }

  lemma ColouredDiscovered(color: map<Id, int>, s: Search, id: Id)
    requires Coloured(color, s)
    ensures ColourOf(color, id) != WHITE <==> id in Discovered(s)
  {
    ColourTells(color, s, id);
    if Grey(s, id) {
      var k :| 0 <= k < |s.stack| && s.stack[k].id == id;
      assert s.stack[k] in s.stack;
    }
  }

  lemma SameGrey(edges: seq<Edge>, s: Search)
    requires s.stack != []
    requires var top := s.stack[|s.stack| - 1]; top.i < |Out(edges, top.id)|
    ensures var s' := Step(edges, s); var top := s.stack[|s.stack| - 1]; var e := Out(edges, top.id)[top.i];
            forall id :: Grey(s', id) <==> Grey(s, id) || (id == e.to && e.to !in s.done)
  {
    var s' := Step(edges, s);
    var last := |s.stack| - 1;
    var top := s.stack[last];
    var e := Out(edges, top.id)[top.i];
    assert s'.stack[last].id == top.id;
    forall id ensures Grey(s', id) <==> Grey(s, id) || (id == e.to && e.to !in s.done) {
      if Grey(s, id) {
        var k :| 0 <= k < |s.stack| && s.stack[k].id == id;
        assert s'.stack[k].id == id;
      }
      if id == e.to && !Grey(s, id) && e.to !in s.done {
        assert s'.stack[last + 1].id == id;
      }
    }
  }

  /** One turn of the loop recolours at most one node, in step with the abstract search. */
  lemma StepColoured(edges: seq<Edge>, s: Search, color: map<Id, int>, color': map<Id, int>)
    requires s.stack != [] && OneColour(s) && Coloured(color, s)
    requires var top := s.stack[|s.stack| - 1]; var out := Out(edges, top.id);
             color' == if top.i >= |out| then color[top.id := BLACK]
                       else if ColourOf(color, out[top.i].to) == WHITE then color[out[top.i].to := GREY]
                       else color
    ensures Coloured(color', Step(edges, s))
  {
    var s' := Step(edges, s);
    var last := |s.stack| - 1;
    var top := s.stack[last];
    var out := Out(edges, top.id);
    if top.i >= |out| {
      TopAlone(s);
      forall id ensures Grey(s', id) <==> Grey(s, id) && id != top.id {
        if Grey(s, id) && id != top.id {
          var k :| 0 <= k < |s.stack| && s.stack[k].id == id;
          assert s'.stack[k].id == id;
        }
      }
    } else {
      SameGrey(edges, s);
    }
  }

  /** One turn of the loop: advance the cursor of the top frame, or finish its node. */
  method Turn(edges: seq<Edge>, out: map<Id, seq<Edge>>, stack0: seq<Frame>, color0: map<Id, int>,
              back0: seq<Edge>, ghost done0: seq<Id>)
    returns (stack: seq<Frame>, color: map<Id, int>, back: seq<Edge>, ghost done: seq<Id>)
    requires stack0 != [] && forall id :: (if id in out then out[id] else []) == Out(edges, id)
    requires var s := Search(stack0, done0, back0); OneColour(s) && Coloured(color0, s)
    ensures Search(stack, done, back) == Step(edges, Search(stack0, done0, back0))
    ensures Coloured(color, Search(stack, done, back))
  {
    ghost var cur := Search(stack0, done0, back0);
    stack, color, back, done := stack0, color0, back0, done0;
    var last := |stack| - 1;
    var f := stack[last];
    var es := if f.id in out then out[f.id] else [];
    assert es == Out(edges, f.id);
    if f.i >= |es| {
      color := color[f.id := BLACK];
      stack := stack[..last];
      done := done + [f.id];
    } else {
      var e := es[f.i];
      var c := ColourOf(color, e.to);
      ColourTells(color, cur, e.to);
      stack := stack[..last] + [Frame(f.id, f.i + 1)];
      if c == GREY {
        back := back + [e];
      } else if c == WHITE {
        color := color[e.to := GREY];
        stack := stack + [Frame(e.to, 0)];
      }
    }
    assert Search(stack, done, back) == Step(edges, cur);
    StepColoured(edges, cur, color0, color);
  }

  /** The iterative search from one node: a colour table and an explicit stack whose top cursor
      is advanced in place. */
  method ExploreFrom(edges: seq<Edge>, out: map<Id, seq<Edge>>, root: Id, color0: map<Id, int>,
                     back0: seq<Edge>, ghost done0: seq<Id>)
    returns (color: map<Id, int>, back: seq<Edge>, ghost done: seq<Id>)
    requires forall id :: (if id in out then out[id] else []) == Out(edges, id)
    requires var s0 := Search([Frame(root, 0)], done0, back0); OneColour(s0) && Coloured(color0, s0)
    ensures Search([], done, back) == Run(edges, Search([Frame(root, 0)], done0, back0))
    ensures Coloured(color, Search([], done, back))
  {
    var stack := [Frame(root, 0)];
    color, back, done := color0, back0, done0;
    ghost var s := Search(stack, done, back);
    while stack != []
      invariant s == Search(stack, done, back) && OneColour(s) && Coloured(color, s)
      invariant Run(edges, s) == Run(edges, Search([Frame(root, 0)], done0, back0))
      decreases Undiscovered(edges, s), |s.stack|, Remaining(edges, s)
    {
      StepColours(edges, s);
      StepDiscovers(edges, s);
      stack, color, back, done := Turn(edges, out, stack, color, back, done);
      s := Step(edges, s);
    }
  }

  method BackEdges(nodes: seq<Id>, edges: seq<Edge>) returns (back: seq<Edge>)
    ensures back == BackSeq(nodes, edges)
  {
    var out := BuildOut(edges);
    var color: map<Id, int> := map[];
    ghost var s := Search([], [], []);
    back := [];
    for k := 0 to |nodes|
      invariant s.stack == [] && s.back == back && Coloured(color, s)
      invariant Visit(nodes[k..], edges, s) == Explore(nodes, edges)
    {
      ColouredDiscovered(color, s, nodes[k]);
      if ColourOf(color, nodes[k]) == WHITE {
        color := color[nodes[k] := GREY];
        ghost var rooted := s.(stack := [Frame(nodes[k], 0)]);
        assert rooted.stack[0].id == nodes[k];
        ghost var done;
        color, back, done := ExploreFrom(edges, out, nodes[k], color, back, s.done);
        s := Search([], done, back);
      }
    }
  }
}
