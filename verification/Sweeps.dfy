/** The median sweeps. */
module Sweeps {
  // Each layer in turn is sorted, stably, by the medians of its nodes' neighbours.

  import opened Graphs

  type Layers = seq<seq<Id>>

  // ---- medians ----

  function InsertInt(s: seq<int>, x: int): (r: seq<int>)
    ensures |r| == |s| + 1
  {
    if s == [] then [x] else if x < s[0] then [x] + s else [s[0]] + InsertInt(s[1..], x)
  }

  lemma {:induction false} InsertIntSame(s: seq<int>, x: int)
    ensures multiset(InsertInt(s, x)) == multiset(s) + multiset{x}
  {
    if s != [] && x >= s[0] {
      InsertIntSame(s[1..], x);
      assert s == [s[0]] + s[1..];
      assert InsertInt(s, x) == [s[0]] + InsertInt(s[1..], x);
    }
  }

  ghost predicate SortedInts(s: seq<int>) {
    forall i, j :: 0 <= i < j < |s| ==> s[i] <= s[j]
  }

  lemma {:induction false} InsertIntSorted(s: seq<int>, x: int)
    requires SortedInts(s)
    ensures SortedInts(InsertInt(s, x))
  {
    if s != [] && x >= s[0] {
      InsertIntSorted(s[1..], x);
      InsertIntSame(s[1..], x);
      var rest := InsertInt(s[1..], x);
      assert InsertInt(s, x) == [s[0]] + rest;
      forall j | 0 <= j < |rest| ensures s[0] <= rest[j] {
        assert rest[j] in multiset(rest);
      }
    }
  }

  function SortInts(s: seq<int>): (r: seq<int>)
    ensures |r| == |s|
  {
    if s == [] then [] else InsertInt(SortInts(s[..|s| - 1]), s[|s| - 1])
  }

  lemma {:induction false} SortIntsSorted(s: seq<int>)
    ensures SortedInts(SortInts(s)) && multiset(SortInts(s)) == multiset(s)
  {
    if s != [] {
      SortIntsSorted(s[..|s| - 1]);
      InsertIntSorted(SortInts(s[..|s| - 1]), s[|s| - 1]);
      InsertIntSame(SortInts(s[..|s| - 1]), s[|s| - 1]);
      assert s == s[..|s| - 1] + [s[|s| - 1]];
    }
  }

  /** The positions of those neighbours that have one. */
  function Positions(ids: seq<Id>, pos: map<Id, int>): seq<int> {
    if ids == [] then []
    else (if ids[0] in pos then [pos[ids[0]]] else []) + Positions(ids[1..], pos)
  }

  /** One position for each neighbour that has one, in order. */
  lemma {:induction false} PositionsAre(ids: seq<Id>, pos: map<Id, int>)
    requires forall v :: v in ids ==> v in pos
    ensures |Positions(ids, pos)| == |ids| && forall i :: 0 <= i < |ids| ==> Positions(ids, pos)[i] == pos[ids[i]]
  {
    if ids != [] {
      assert ids[0] in ids;
      PositionsAre(ids[1..], pos);
    }
  }

  function PositionOf(id: Id, pos: map<Id, int>): int {
    if id in pos then pos[id] else 0
  }

  /** The lower median of the neighbours' positions; a node with no placed neighbour keeps its own. */
  function MedianOf(id: Id, neighbours: seq<Id>, pos: map<Id, int>): int {
    var ps := Positions(neighbours, pos);
    if ps == [] then PositionOf(id, pos) else SortInts(ps)[(|ps| - 1) / 2]
  }

  function Below(s: seq<int>, x: int): nat {
    if s == [] then 0 else (if s[0] < x then 1 else 0) + Below(s[1..], x)
  }

  function Over(s: seq<int>, x: int): nat {
    if s == [] then 0 else (if s[0] > x then 1 else 0) + Over(s[1..], x)
  }

  lemma {:induction false} NoneBelow(q: seq<int>, x: int)
    requires forall i :: 0 <= i < |q| ==> q[i] >= x
    ensures Below(q, x) == 0
  {
    if q != [] {
      NoneBelow(q[1..], x);
    }
  }

  lemma {:induction false} OverBound(q: seq<int>, x: int)
    ensures Over(q, x) <= |q|
  {
    if q != [] {
      OverBound(q[1..], x);
    }
  }

  lemma {:induction false} SortedHalves(q: seq<int>, h: nat, x: int)
    requires SortedInts(q) && h < |q| && q[h] == x
    ensures Below(q, x) <= h && Over(q, x) <= |q| - 1 - h
  {
    if h > 0 {
      SortedHalves(q[1..], h - 1, x);
    } else {
      NoneBelow(q, x);
      OverBound(q[1..], x);
    }
  }

  lemma {:induction false} InsertCounts(s: seq<int>, y: int, x: int)
    ensures Below(InsertInt(s, y), x) == Below(s, x) + (if y < x then 1 else 0)
    ensures Over(InsertInt(s, y), x) == Over(s, x) + (if y > x then 1 else 0)
  {
    if s != [] && y >= s[0] {
      InsertCounts(s[1..], y, x);
      assert InsertInt(s, y)[1..] == InsertInt(s[1..], y);
    } else {
      assert InsertInt(s, y)[1..] == s;
    }
  }

  lemma {:induction false} SnocCounts(s: seq<int>, y: int, x: int)
    ensures Below(s + [y], x) == Below(s, x) + (if y < x then 1 else 0)
    ensures Over(s + [y], x) == Over(s, x) + (if y > x then 1 else 0)
  {
    if s != [] {
      SnocCounts(s[1..], y, x);
      assert (s + [y])[1..] == s[1..] + [y];
    }
  }

  lemma {:induction false} SortCounts(s: seq<int>, x: int)
    ensures Below(SortInts(s), x) == Below(s, x) && Over(SortInts(s), x) == Over(s, x)
  {
    if s != [] {
      var init, last := s[..|s| - 1], s[|s| - 1];
      SortCounts(init, x);
      InsertCounts(SortInts(init), last, x);
      SnocCounts(init, last, x);
      assert s == init + [last];
    }
  }

  /** Of the neighbours' positions, fewer than half lie below the median and at most half over it; without
      any the node stays where it is. */
  lemma MedianIsMiddle(id: Id, neighbours: seq<Id>, pos: map<Id, int>)
    ensures var ps, m := Positions(neighbours, pos), MedianOf(id, neighbours, pos);
            if ps == [] then id in pos ==> m == pos[id] else m in ps && 2 * Below(ps, m) < |ps| && 2 * Over(ps, m) <= |ps|
  {
    var ps, m := Positions(neighbours, pos), MedianOf(id, neighbours, pos);
    if ps != [] {
      SortIntsSorted(ps);
      SortedHalves(SortInts(ps), (|ps| - 1) / 2, m);
      SortCounts(ps, m);
      assert SortInts(ps)[(|ps| - 1) / 2] in multiset(SortInts(ps));
    }
  }

  // ---- the stable sort of a layer ----

  function Key(keys: map<Id, int>, id: Id): int {
    if id in keys then keys[id] else 0
  }

  function InsertBy(s: seq<Id>, x: Id, keys: map<Id, int>): seq<Id> {
    if s == [] then [x]
    else if Key(keys, x) < Key(keys, s[0]) then [x] + s
    else [s[0]] + InsertBy(s[1..], x, keys)
  }

  function SortBy(s: seq<Id>, keys: map<Id, int>): seq<Id> {
    if s == [] then [] else InsertBy(SortBy(s[..|s| - 1], keys), s[|s| - 1], keys)
  }

  lemma {:induction false} InsertBySame(s: seq<Id>, x: Id, keys: map<Id, int>)
    ensures multiset(InsertBy(s, x, keys)) == multiset(s) + multiset{x}
  {
    if s != [] && Key(keys, x) >= Key(keys, s[0]) {
      InsertBySame(s[1..], x, keys);
      assert s == [s[0]] + s[1..];
    }
  }

  lemma {:induction false} SortBySame(s: seq<Id>, keys: map<Id, int>)
    ensures multiset(SortBy(s, keys)) == multiset(s)
  {
    if s != [] {
      SortBySame(s[..|s| - 1], keys);
      InsertBySame(SortBy(s[..|s| - 1], keys), s[|s| - 1], keys);
      assert s == s[..|s| - 1] + [s[|s| - 1]];
    }
  }

  ghost predicate SortedBy(s: seq<Id>, keys: map<Id, int>) {
    forall i, j :: 0 <= i < j < |s| ==> Key(keys, s[i]) <= Key(keys, s[j])
  }

  /** Those of the ids with the key `k`, in order. */
  function Having(s: seq<Id>, keys: map<Id, int>, k: int): seq<Id> {
    if s == [] then [] else (if Key(keys, s[0]) == k then [s[0]] else []) + Having(s[1..], keys, k)
  }

  lemma {:induction false} HavingNone(s: seq<Id>, keys: map<Id, int>, k: int)
    requires forall i :: 0 <= i < |s| ==> Key(keys, s[i]) > k
    ensures Having(s, keys, k) == []
  {
    if s != [] {
      HavingNone(s[1..], keys, k);
    }
  }

  lemma {:induction false} HavingSnoc(s: seq<Id>, x: Id, keys: map<Id, int>, k: int)
    ensures Having(s + [x], keys, k) == Having(s, keys, k) + if Key(keys, x) == k then [x] else []
  {
    if s == [] {
      assert s + [x] == [x] && [x][1..] == [];
    } else {
      HavingSnoc(s[1..], x, keys, k);
      assert (s + [x])[1..] == s[1..] + [x];
    }
  }

  lemma {:induction false} InsertByStable(s: seq<Id>, x: Id, keys: map<Id, int>, k: int)
    requires SortedBy(s, keys)
    ensures Having(InsertBy(s, x, keys), keys, k) == Having(s, keys, k) + if Key(keys, x) == k then [x] else []
  {
    var r := InsertBy(s, x, keys);
    if s == [] {
      assert r[1..] == [];
    } else if Key(keys, x) < Key(keys, s[0]) {
      assert r[1..] == s;
      if Key(keys, x) == k {
        HavingNone(s, keys, k);
      }
    } else {
      InsertByStable(s[1..], x, keys, k);
      assert r[1..] == InsertBy(s[1..], x, keys);
      assert Having(r, keys, k) == (if Key(keys, s[0]) == k then [s[0]] else []) + Having(r[1..], keys, k);
    }
  }

  lemma {:induction false} InsertBySorted(s: seq<Id>, x: Id, keys: map<Id, int>)
    requires SortedBy(s, keys)
    ensures SortedBy(InsertBy(s, x, keys), keys)
  {
    if s != [] && Key(keys, x) >= Key(keys, s[0]) {
      InsertBySorted(s[1..], x, keys);
      InsertBySame(s[1..], x, keys);
      var rest := InsertBy(s[1..], x, keys);
      assert InsertBy(s, x, keys) == [s[0]] + rest;
      forall j | 0 <= j < |rest| ensures Key(keys, s[0]) <= Key(keys, rest[j]) {
        assert rest[j] in multiset(rest);
      }
    }
  }

  /** The sort is by key, and keeps the order of nodes with the same key; between them these two leave
      one result. */
  lemma {:induction false} SortByIsStable(s: seq<Id>, keys: map<Id, int>)
    ensures SortedBy(SortBy(s, keys), keys)
    ensures forall k :: Having(SortBy(s, keys), keys, k) == Having(s, keys, k)
  {
    if s != [] {
      var init, last := s[..|s| - 1], s[|s| - 1];
      SortByIsStable(init, keys);
      InsertBySorted(SortBy(init, keys), last, keys);
      forall k
        ensures Having(SortBy(s, keys), keys, k) == Having(s, keys, k)
      {
        InsertByStable(SortBy(init, keys), last, keys, k);
        HavingSnoc(init, last, keys, k);
        assert s == init + [last];
      }
    }
  }

  // ---- the sweeps ----

  datatype Order = Order(layers: Layers, pos: map<Id, int>)

  function NeighboursOf(adj: map<Id, seq<Id>>, id: Id): seq<Id> {
    if id in adj then adj[id] else []
  }

  /** The medians of a layer's nodes. */
  function Keys(layer: seq<Id>, adj: map<Id, seq<Id>>, pos: map<Id, int>): map<Id, int> {
    if layer == [] then map[]
    else Keys(layer[1..], adj, pos)[layer[0] := MedianOf(layer[0], NeighboursOf(adj, layer[0]), pos)]
  }

  lemma {:induction false} KeysAreMedians(layer: seq<Id>, adj: map<Id, seq<Id>>, pos: map<Id, int>, v: Id)
    requires v in layer
    ensures Key(Keys(layer, adj, pos), v) == MedianOf(v, NeighboursOf(adj, v), pos)
  {
    if v != layer[0] {
      KeysAreMedians(layer[1..], adj, pos, v);
    }
  }

  /** The first `n` nodes of the layer get their index as position. */
  function Numbered(layer: seq<Id>, pos: map<Id, int>, n: nat): map<Id, int>
    requires n <= |layer|
  {
    if n == 0 then pos else Numbered(layer, pos, n - 1)[layer[n - 1] := n - 1]
  }

  /** Every layer holds the nodes it held. */
  ghost predicate SameNodes(o: Order, p: Order) {
    |o.layers| == |p.layers| && forall r {:trigger p.layers[r]} :: 0 <= r < |o.layers| ==> multiset(o.layers[r]) == multiset(p.layers[r])
  }

  /** One layer sorted by the medians, and renumbered. */
  function SweepLayer(o: Order, li: nat, adj: map<Id, seq<Id>>): (p: Order)
    requires li < |o.layers|
    ensures |p.layers| == |o.layers|
  {
    var sorted := SortBy(o.layers[li], Keys(o.layers[li], adj, o.pos));
    Order(o.layers[li := sorted], Numbered(sorted, o.pos, |sorted|))
  }

  /** The first `n` layers of a pass, downwards or upwards. */
  function Pass(o: Order, adj: map<Id, seq<Id>>, down: bool, n: nat): (p: Order)
    requires n <= |o.layers|
    ensures |p.layers| == |o.layers|
  {
    if n == 0 then o else SweepLayer(Pass(o, adj, down, n - 1), if down then n - 1 else |o.layers| - n, adj)
  }

  lemma PassNext(o: Order, adj: map<Id, seq<Id>>, down: bool, n: nat)
    requires 0 < n <= |o.layers|
    ensures Pass(o, adj, down, n) == SweepLayer(Pass(o, adj, down, n - 1), if down then n - 1 else |o.layers| - n, adj)
  {
  }

  /** The first `n` passes: down by predecessors, up by successors, in turn. */
  function Passes(o: Order, pred: map<Id, seq<Id>>, succ: map<Id, seq<Id>>, n: nat): (p: Order)
    ensures |p.layers| == |o.layers|
  {
    if n == 0 then o
    else
      var q := Passes(o, pred, succ, n - 1);
      var down := (n - 1) % 2 == 0;
      Pass(q, if down then pred else succ, down, |q.layers|)
  }

  lemma SweepSameNodes(o: Order, li: nat, adj: map<Id, seq<Id>>)
    requires li < |o.layers|
    ensures SameNodes(o, SweepLayer(o, li, adj))
  {
    SortBySame(o.layers[li], Keys(o.layers[li], adj, o.pos));
  }

  lemma SameNodesTrans(o: Order, q: Order, p: Order)
    requires SameNodes(o, q) && SameNodes(q, p)
    ensures SameNodes(o, p)
  {
    forall r | 0 <= r < |o.layers|
      ensures multiset(o.layers[r]) == multiset(p.layers[r])
    {
      assert multiset(o.layers[r]) == multiset(q.layers[r]);
    }
  }

  lemma {:induction false} PassSameNodes(o: Order, adj: map<Id, seq<Id>>, down: bool, n: nat)
    requires n <= |o.layers|
    ensures SameNodes(o, Pass(o, adj, down, n))
  {
    if n > 0 {
      PassSameNodes(o, adj, down, n - 1);
      PassNext(o, adj, down, n);
      var q, li := Pass(o, adj, down, n - 1), if down then n - 1 else |o.layers| - n;
      SweepSameNodes(q, li, adj);
      SameNodesTrans(o, q, SweepLayer(q, li, adj));
    }
  }

  lemma PassesNext(o: Order, pred: map<Id, seq<Id>>, succ: map<Id, seq<Id>>, n: nat)
    requires n > 0
    ensures var q := Passes(o, pred, succ, n - 1);
            Passes(o, pred, succ, n) == Pass(q, if (n - 1) % 2 == 0 then pred else succ, (n - 1) % 2 == 0, |q.layers|)
  {
  }

  /** No node changes layer. */
  lemma {:induction false} PassesSameNodes(o: Order, pred: map<Id, seq<Id>>, succ: map<Id, seq<Id>>, n: nat)
    ensures SameNodes(o, Passes(o, pred, succ, n))
  {
    if n > 0 {
      PassesSameNodes(o, pred, succ, n - 1);
      PassesNext(o, pred, succ, n);
      var q, down := Passes(o, pred, succ, n - 1), (n - 1) % 2 == 0;
      var adj := if down then pred else succ;
      PassSameNodes(q, adj, down, |q.layers|);
      SameNodesTrans(o, q, Pass(q, adj, down, |q.layers|));
    }
  }

  // ---- positions are indices ----

  ghost predicate InStep(o: Order) {
    forall r, i {:trigger o.layers[r][i]} :: 0 <= r < |o.layers| && 0 <= i < |o.layers[r]| ==>
      PositionOf(o.layers[r][i], o.pos) == i && o.layers[r][i] in o.pos
  }

  /** No node is in two places: one layer is its home, and it is there once. */
  ghost predicate OneSlot(layers: Layers, home: map<Id, nat>) {
    forall r, v {:trigger multiset(layers[r])[v]} :: 0 <= r < |layers| ==>
      multiset(layers[r])[v] <= 1 && (multiset(layers[r])[v] == 1 ==> v in home && home[v] == r)
  }

  lemma {:induction false} NumberedAt(layer: seq<Id>, pos: map<Id, int>, n: nat)
    requires n <= |layer| && forall v :: multiset(layer)[v] <= 1
    ensures forall i :: 0 <= i < n ==> layer[i] in Numbered(layer, pos, n) && Numbered(layer, pos, n)[layer[i]] == i
    ensures forall v :: v in pos && v !in layer ==> v in Numbered(layer, pos, n) && Numbered(layer, pos, n)[v] == pos[v]
  {
    if n > 0 {
      NumberedAt(layer, pos, n - 1);
      forall i | 0 <= i < n - 1
        ensures layer[i] != layer[n - 1]
      {
        if layer[i] == layer[n - 1] {
          CountedTwice(layer, i, n - 1);
        }
      }
    }
  }

  lemma SameNodesOneSlot(o: Order, p: Order, home: map<Id, nat>)
    requires SameNodes(o, p) && OneSlot(o.layers, home)
    ensures OneSlot(p.layers, home)
  {
    forall r, v | 0 <= r < |p.layers|
      ensures multiset(p.layers[r])[v] == multiset(o.layers[r])[v]
    {
      assert multiset(o.layers[r]) == multiset(p.layers[r]);
    }
  }

  lemma SweepKeepsInStep(home: map<Id, nat>, o: Order, li: nat, adj: map<Id, seq<Id>>)
    requires li < |o.layers| && OneSlot(o.layers, home) && InStep(o)
    ensures InStep(SweepLayer(o, li, adj))
  {
    var p := SweepLayer(o, li, adj);
    var sorted := p.layers[li];
    SortBySame(o.layers[li], Keys(o.layers[li], adj, o.pos));
    forall v
      ensures multiset(sorted)[v] <= 1
    {
      assert multiset(o.layers[li])[v] <= 1;
    }
    NumberedAt(sorted, o.pos, |sorted|);
    forall r, i | 0 <= r < |p.layers| && 0 <= i < |p.layers[r]|
      ensures PositionOf(p.layers[r][i], p.pos) == i && p.layers[r][i] in p.pos
    {
      if r != li {
        var v := o.layers[r][i];
        assert v in multiset(o.layers[r]) && multiset(o.layers[r])[v] == 1;
        assert multiset(o.layers[li])[v] == 0;
        assert v !in multiset(sorted);
      }
    }
  }

  lemma SweptKeepsInStep(home: map<Id, nat>, o: Order, q: Order, p: Order, li: nat, adj: map<Id, seq<Id>>)
    requires OneSlot(o.layers, home) && SameNodes(o, q) && InStep(q) && li < |q.layers| && p == SweepLayer(q, li, adj)
    ensures InStep(p)
  {
    SameNodesOneSlot(o, q, home);
    SweepKeepsInStep(home, q, li, adj);
  }

  lemma NextKeepsInStep(home: map<Id, nat>, o: Order, adj: map<Id, seq<Id>>, down: bool, n: nat)
    requires 0 < n <= |o.layers| && OneSlot(o.layers, home) && InStep(Pass(o, adj, down, n - 1))
    ensures InStep(Pass(o, adj, down, n))
  {
    PassNext(o, adj, down, n);
    PassSameNodes(o, adj, down, n - 1);
    var q, li := Pass(o, adj, down, n - 1), if down then n - 1 else |o.layers| - n;
    var p := SweepLayer(q, li, adj);
    assert p == Pass(o, adj, down, n);
    SweptKeepsInStep(home, o, q, p, li, adj);
  }

  lemma {:induction false} PassKeepsInStep(home: map<Id, nat>, o: Order, adj: map<Id, seq<Id>>, down: bool, n: nat)
    requires n <= |o.layers| && OneSlot(o.layers, home) && InStep(o)
    ensures InStep(Pass(o, adj, down, n))
  {
    if n > 0 {
      PassKeepsInStep(home, o, adj, down, n - 1);
      NextKeepsInStep(home, o, adj, down, n);
    }
  }

  lemma NextPassInStep(home: map<Id, nat>, o: Order, pred: map<Id, seq<Id>>, succ: map<Id, seq<Id>>, n: nat)
    requires n > 0 && OneSlot(o.layers, home) && InStep(Passes(o, pred, succ, n - 1))
    ensures InStep(Passes(o, pred, succ, n))
  {
    var q, down := Passes(o, pred, succ, n - 1), (n - 1) % 2 == 0;
    PassesSameNodes(o, pred, succ, n - 1);
    SameNodesOneSlot(o, q, home);
    PassKeepsInStep(home, q, if down then pred else succ, down, |q.layers|);
  }

  /** Throughout the passes positions stay indices. */
  lemma {:induction false} PassesKeepInStep(home: map<Id, nat>, o: Order, pred: map<Id, seq<Id>>, succ: map<Id, seq<Id>>, n: nat)
    requires OneSlot(o.layers, home) && InStep(o)
    ensures InStep(Passes(o, pred, succ, n))
  {
    if n > 0 {
      PassesKeepInStep(home, o, pred, succ, n - 1);
      NextPassInStep(home, o, pred, succ, n);
    }
  }

  // ---- what a sweep achieves ----

  /** Those of the nodes with the median `m`, in order. */
  function WithMedian(s: seq<Id>, adj: map<Id, seq<Id>>, pos: map<Id, int>, m: int): seq<Id> {
    if s == [] then []
    else (if MedianOf(s[0], NeighboursOf(adj, s[0]), pos) == m then [s[0]] else []) + WithMedian(s[1..], adj, pos, m)
  }

  lemma {:induction false} HavingMedian(s: seq<Id>, layer: seq<Id>, adj: map<Id, seq<Id>>, pos: map<Id, int>, m: int)
    requires forall v :: v in s ==> v in layer
    ensures Having(s, Keys(layer, adj, pos), m) == WithMedian(s, adj, pos, m)
  {
    if s != [] {
      assert s[0] in s;
      KeysAreMedians(layer, adj, pos, s[0]);
      HavingMedian(s[1..], layer, adj, pos, m);
    }
  }

  /** Ordered by the medians of all nodes. */
  ghost predicate ByMedian(layer: seq<Id>, adj: map<Id, seq<Id>>, pos: map<Id, int>) {
    forall i, j {:trigger Nth(layer, i), Nth(layer, j)} :: 0 <= i < j < |layer| ==>
      MedianOf(Nth(layer, i), NeighboursOf(adj, Nth(layer, i)), pos) <= MedianOf(Nth(layer, j), NeighboursOf(adj, Nth(layer, j)), pos)
  }

  /** A sweep leaves its layer ordered by the medians of where the neighbours were, nodes of one median in
      the order they had, and no other layer touched. */
  lemma SweepSorts(o: Order, li: nat, adj: map<Id, seq<Id>>)
    requires li < |o.layers|
    ensures var p := SweepLayer(o, li, adj);
            && ByMedian(p.layers[li], adj, o.pos) && multiset(p.layers[li]) == multiset(o.layers[li])
            && (forall m :: WithMedian(p.layers[li], adj, o.pos, m) == WithMedian(o.layers[li], adj, o.pos, m))
            && (forall r :: 0 <= r < |o.layers| && r != li ==> p.layers[r] == o.layers[r])
  {
    var layer, keys := o.layers[li], Keys(o.layers[li], adj, o.pos);
    var sorted := SortBy(layer, keys);
    SortBySame(layer, keys);
    SortByIsStable(layer, keys);
    forall v | v in sorted
      ensures v in layer && Key(keys, v) == MedianOf(v, NeighboursOf(adj, v), o.pos)
    {
      assert v in multiset(sorted);
      KeysAreMedians(layer, adj, o.pos, v);
    }
    forall i, j | 0 <= i < j < |sorted|
      ensures Key(keys, Nth(sorted, i)) <= Key(keys, Nth(sorted, j)) && Nth(sorted, i) in sorted && Nth(sorted, j) in sorted
    {
      assert Key(keys, sorted[i]) <= Key(keys, sorted[j]);
    }
    forall m
      ensures WithMedian(sorted, adj, o.pos, m) == WithMedian(layer, adj, o.pos, m)
    {
      HavingMedian(sorted, layer, adj, o.pos, m);
      HavingMedian(layer, layer, adj, o.pos, m);
    }
  }

  /** These nodes have the same positions in both. */
  ghost predicate SamePlaces(ids: seq<Id>, pos: map<Id, int>, pos': map<Id, int>) {
    forall v :: v in ids ==> (v in pos <==> v in pos') && (v in pos ==> pos[v] == pos'[v])
  }

  lemma {:induction false} PositionsSame(ids: seq<Id>, pos: map<Id, int>, pos': map<Id, int>)
    requires SamePlaces(ids, pos, pos')
    ensures Positions(ids, pos) == Positions(ids, pos')
  {
    if ids != [] {
      assert ids[0] in ids;
      PositionsSame(ids[1..], pos, pos');
    }
  }

  lemma MedianSame(v: Id, ids: seq<Id>, pos: map<Id, int>, pos': map<Id, int>)
    requires SamePlaces(ids, pos, pos') && Positions(ids, pos) != []
    ensures Positions(ids, pos') != [] && MedianOf(v, ids, pos) == MedianOf(v, ids, pos')
  {
    PositionsSame(ids, pos, pos');
  }

  ghost predicate Anchored(v: Id, adj: map<Id, seq<Id>>, pos: map<Id, int>) {
    Positions(NeighboursOf(adj, v), pos) != []
  }

  /** Of two nodes with placed neighbours the one placed first has the smaller median, or the same. */
  ghost predicate Untangled(layer: seq<Id>, adj: map<Id, seq<Id>>, pos: map<Id, int>) {
    forall i, j {:trigger Nth(layer, i), Nth(layer, j)} :: 0 <= i < j < |layer| ==>
      Anchored(Nth(layer, i), adj, pos) && Anchored(Nth(layer, j), adj, pos) ==>
        MedianOf(Nth(layer, i), NeighboursOf(adj, Nth(layer, i)), pos) <= MedianOf(Nth(layer, j), NeighboursOf(adj, Nth(layer, j)), pos)
  }

  lemma UntangledAlike(layer: seq<Id>, adj: map<Id, seq<Id>>, pos: map<Id, int>, pos': map<Id, int>)
    requires Untangled(layer, adj, pos) && forall v :: v in layer ==> SamePlaces(NeighboursOf(adj, v), pos, pos')
    ensures Untangled(layer, adj, pos')
  {
    forall i, j | 0 <= i < j < |layer| && Anchored(Nth(layer, i), adj, pos') && Anchored(Nth(layer, j), adj, pos')
      ensures MedianOf(Nth(layer, i), NeighboursOf(adj, Nth(layer, i)), pos') <= MedianOf(Nth(layer, j), NeighboursOf(adj, Nth(layer, j)), pos')
    {
      var v, w := Nth(layer, i), Nth(layer, j);
      assert v in layer && w in layer;
      PositionsSame(NeighboursOf(adj, v), pos, pos');
      PositionsSame(NeighboursOf(adj, w), pos, pos');
      MedianSame(v, NeighboursOf(adj, v), pos, pos');
      MedianSame(w, NeighboursOf(adj, w), pos, pos');
    }
  }

  predicate LiesBeyond(home: map<Id, nat>, down: bool, v: Id, w: Id) {
    v in home && w in home && if down then home[w] < home[v] else home[w] > home[v]
  }

  /** Neighbours lie in earlier layers, or in later ones. */
  ghost predicate Beyond(home: map<Id, nat>, adj: map<Id, seq<Id>>, down: bool) {
    forall v, w {:trigger w in NeighboursOf(adj, v)} :: w in NeighboursOf(adj, v) ==> LiesBeyond(home, down, v, w)
  }

  /** The `k`th layer a pass comes to. */
  function Turn(layers: nat, down: bool, k: nat): int {
    if down then k else layers - 1 - k
  }

  lemma AtHome(home: map<Id, nat>, layers: Layers, r: nat, v: Id)
    requires OneSlot(layers, home) && r < |layers| && v in layers[r]
    ensures v in home && home[v] == r
  {
    assert multiset(layers[r])[v] >= 1;
  }

  lemma {:induction false} NumberedKeys(layer: seq<Id>, pos: map<Id, int>, n: nat)
    requires n <= |layer|
    ensures forall v :: v in Numbered(layer, pos, n) ==> v in pos || v in layer
  {
    if n > 0 {
      NumberedKeys(layer, pos, n - 1);
    }
  }

  /** A sweep moves nobody it does not sort. */
  lemma SweepMovesOwn(home: map<Id, nat>, o: Order, li: nat, adj: map<Id, seq<Id>>, ids: seq<Id>)
    requires li < |o.layers| && OneSlot(o.layers, home) && forall v :: v in ids ==> v !in home || home[v] != li
    ensures SamePlaces(ids, o.pos, SweepLayer(o, li, adj).pos)
  {
    var layer := o.layers[li];
    var sorted := SortBy(layer, Keys(layer, adj, o.pos));
    SortBySame(layer, Keys(layer, adj, o.pos));
    forall v
      ensures multiset(sorted)[v] <= 1
    {
      assert multiset(o.layers[li])[v] <= 1;
    }
    NumberedAt(sorted, o.pos, |sorted|);
    NumberedKeys(sorted, o.pos, |sorted|);
    forall v | v in sorted
      ensures v in home && home[v] == li
    {
      assert v in multiset(sorted);
      AtHome(home, o.layers, li, v);
    }
  }

  /** The layer just swept is untangled, and one swept before stays so. */
  lemma SweepUntangles(home: map<Id, nat>, o: Order, li: nat, adj: map<Id, seq<Id>>, down: bool, r: nat)
    requires li < |o.layers| && r < |o.layers| && OneSlot(o.layers, home) && Beyond(home, adj, down)
    requires r == li || (Untangled(o.layers[r], adj, o.pos) && if down then r < li else li < r)
    ensures var p := SweepLayer(o, li, adj); Untangled(p.layers[r], adj, p.pos)
  {
    var p := SweepLayer(o, li, adj);
    SweepSorts(o, li, adj);
    SweepSameNodes(o, li, adj);
    forall v | v in p.layers[r]
      ensures SamePlaces(NeighboursOf(adj, v), o.pos, p.pos)
    {
      assert v in multiset(p.layers[r]) && v in multiset(o.layers[r]);
      AtHome(home, o.layers, r, v);
      SweepMovesOwn(home, o, li, adj, NeighboursOf(adj, v));
    }
    UntangledAlike(p.layers[r], adj, o.pos, p.pos);
  }

  lemma SweptUntangles(home: map<Id, nat>, o: Order, q: Order, p: Order, li: nat, adj: map<Id, seq<Id>>, down: bool, r: nat)
    requires OneSlot(o.layers, home) && SameNodes(o, q) && Beyond(home, adj, down)
    requires li < |q.layers| && r < |q.layers| && p == SweepLayer(q, li, adj)
    requires r == li || (Untangled(q.layers[r], adj, q.pos) && if down then r < li else li < r)
    ensures Untangled(p.layers[r], adj, p.pos)
  {
    SameNodesOneSlot(o, q, home);
    SweepUntangles(home, q, li, adj, down, r);
  }

  /** The first `n` layers a pass came to are untangled. */
  ghost predicate UntangledFor(o: Order, adj: map<Id, seq<Id>>, down: bool, n: nat) {
    n <= |o.layers| &&
    forall k {:trigger Turn(|o.layers|, down, k)} :: 0 <= k < n ==> Untangled(o.layers[Turn(|o.layers|, down, k)], adj, o.pos)
  }

  lemma NextUntangles(home: map<Id, nat>, o: Order, adj: map<Id, seq<Id>>, down: bool, n: nat)
    requires 0 < n <= |o.layers| && OneSlot(o.layers, home) && Beyond(home, adj, down)
    requires UntangledFor(Pass(o, adj, down, n - 1), adj, down, n - 1)
    ensures UntangledFor(Pass(o, adj, down, n), adj, down, n)
  {
    var q, p := Pass(o, adj, down, n - 1), Pass(o, adj, down, n);
    var li := if down then n - 1 else |o.layers| - n;
    PassNext(o, adj, down, n);
    PassSameNodes(o, adj, down, n - 1);
    forall k | 0 <= k < n
      ensures Untangled(p.layers[Turn(|o.layers|, down, k)], adj, p.pos)
    {
      SweptUntangles(home, o, q, p, li, adj, down, Turn(|o.layers|, down, k));
    }
  }

  lemma {:induction false} PassUntangles(home: map<Id, nat>, o: Order, adj: map<Id, seq<Id>>, down: bool, n: nat)
    requires n <= |o.layers| && OneSlot(o.layers, home) && Beyond(home, adj, down)
    ensures UntangledFor(Pass(o, adj, down, n), adj, down, n)
  {
    if n > 0 {
      PassUntangles(home, o, adj, down, n - 1);
      NextUntangles(home, o, adj, down, n);
    }
  }

  lemma WholePassUntangles(home: map<Id, nat>, o: Order, q: Order, p: Order, adj: map<Id, seq<Id>>, down: bool, r: nat)
    requires OneSlot(o.layers, home) && SameNodes(o, q) && Beyond(home, adj, down)
    requires p == Pass(q, adj, down, |q.layers|) && r < |q.layers|
    ensures Untangled(p.layers[r], adj, p.pos)
  {
    SameNodesOneSlot(o, q, home);
    PassUntangles(home, q, adj, down, |q.layers|);
    assert r == Turn(|p.layers|, down, if down then r else |q.layers| - 1 - r);
  }

  /** After each pass every layer is untangled in its direction: by predecessors after one downwards, by
      successors after one upwards, which the last is. */
  lemma PassesUntangle(home: map<Id, nat>, o: Order, pred: map<Id, seq<Id>>, succ: map<Id, seq<Id>>, n: nat, r: nat)
    requires n > 0 && r < |o.layers| && OneSlot(o.layers, home) && Beyond(home, pred, true) && Beyond(home, succ, false)
    ensures var p := Passes(o, pred, succ, n); Untangled(p.layers[r], if (n - 1) % 2 == 0 then pred else succ, p.pos)
  {
    var q, down := Passes(o, pred, succ, n - 1), (n - 1) % 2 == 0;
    PassesSameNodes(o, pred, succ, n - 1);
    PassesNext(o, pred, succ, n);
    var adj := if down then pred else succ;
    assert Beyond(home, adj, down);
    var p := Pass(q, adj, down, |q.layers|);
    WholePassUntangles(home, o, q, p, adj, down, r);
  }

  // ---- the loops ----

  /** The positions of the first `n` layers as they are. */
  function StartPositions(layers: Layers, n: nat): map<Id, int>
    requires n <= |layers|
  {
    if n == 0 then map[] else Numbered(layers[n - 1], StartPositions(layers, n - 1), |layers[n - 1]|)
  }

  lemma {:induction false} StartInStep(home: map<Id, nat>, layers: Layers, n: nat)
    requires n <= |layers| && OneSlot(layers, home)
    ensures forall r, i {:trigger layers[r][i]} :: 0 <= r < n && 0 <= i < |layers[r]| ==>
              layers[r][i] in StartPositions(layers, n) && StartPositions(layers, n)[layers[r][i]] == i
  {
    if n > 0 {
      var layer, before := layers[n - 1], StartPositions(layers, n - 1);
      StartInStep(home, layers, n - 1);
      forall v
        ensures multiset(layer)[v] <= 1
      {
        assert multiset(layers[n - 1])[v] <= 1;
      }
      NumberedAt(layer, before, |layer|);
      forall r, i | 0 <= r < n && 0 <= i < |layers[r]|
        ensures layers[r][i] in StartPositions(layers, n) && StartPositions(layers, n)[layers[r][i]] == i
      {
        if r < n - 1 {
          var v := layers[r][i];
          assert v in multiset(layers[r]) && multiset(layers[r])[v] == 1;
          assert multiset(layers[n - 1])[v] == 0;
          assert v !in multiset(layer);
        }
      }
    }
  }

  /** At every layer of every pass, what the medians are taken of is where the neighbours then are. */
  lemma SweepsStayInStep(home: map<Id, nat>, layers: Layers, pred: map<Id, seq<Id>>, succ: map<Id, seq<Id>>, n: nat)
    requires OneSlot(layers, home)
    ensures var o := Order(layers, StartPositions(layers, |layers|));
            InStep(Passes(o, pred, succ, n)) && SameNodes(o, Passes(o, pred, succ, n))
  {
    var o := Order(layers, StartPositions(layers, |layers|));
    StartInStep(home, layers, |layers|);
    PassesKeepInStep(home, o, pred, succ, n);
    PassesSameNodes(o, pred, succ, n);
  }

  method Number(layer: seq<Id>, pos0: map<Id, int>) returns (pos: map<Id, int>)
    ensures pos == Numbered(layer, pos0, |layer|)
  {
    pos := pos0;
    for i := 0 to |layer|
      invariant pos == Numbered(layer, pos0, i)
    {
      pos := pos[layer[i] := i];
    }
  }

  method SweepOne(layers0: Layers, pos0: map<Id, int>, li: nat, adj: map<Id, seq<Id>>) returns (layers: Layers, pos: map<Id, int>)
    requires li < |layers0|
    ensures Order(layers, pos) == SweepLayer(Order(layers0, pos0), li, adj)
    ensures |layers| == |layers0| && ByMedian(layers[li], adj, pos0) && multiset(layers[li]) == multiset(layers0[li])
    ensures forall m :: WithMedian(layers[li], adj, pos0, m) == WithMedian(layers0[li], adj, pos0, m)
    ensures forall r :: 0 <= r < |layers| && r != li ==> layers[r] == layers0[r]
  {
    SweepSorts(Order(layers0, pos0), li, adj);
    var sorted := SortBy(layers0[li], Keys(layers0[li], adj, pos0));
    layers := layers0[li := sorted];
    pos := Number(sorted, pos0);
  }

  method RunPass(layers0: Layers, pos0: map<Id, int>, adj: map<Id, seq<Id>>, down: bool) returns (layers: Layers, pos: map<Id, int>)
    ensures Order(layers, pos) == Pass(Order(layers0, pos0), adj, down, |layers0|)
  {
    layers, pos := layers0, pos0;
    ghost var o := Order(layers0, pos0);
    for k := 0 to |layers0|
      invariant |layers| == |layers0| && Order(layers, pos) == Pass(o, adj, down, k)
    {
      var li := if down then k else |layers| - 1 - k;
      PassNext(o, adj, down, k + 1);
      ghost var swept := SweepLayer(Order(layers, pos), li, adj);
      assert swept == Pass(o, adj, down, k + 1);
      layers, pos := SweepOne(layers, pos, li, adj);
    }
  }

  const SWEEPS := 8

  /** The eight passes. */
  method RunSweeps(layers0: Layers, pred: map<Id, seq<Id>>, succ: map<Id, seq<Id>>) returns (layers: Layers)
    ensures layers == Passes(Order(layers0, StartPositions(layers0, |layers0|)), pred, succ, SWEEPS).layers
  {
    layers := layers0;
    var pos: map<Id, int> := map[];
    for r := 0 to |layers|
      invariant pos == StartPositions(layers, r)
    {
      pos := Number(layers[r], pos);
    }
    ghost var o := Order(layers, pos);
    for p := 0 to SWEEPS
      invariant Order(layers, pos) == Passes(o, pred, succ, p)
    {
      var down := p % 2 == 0;
      layers, pos := RunPass(layers, pos, if down then pred else succ, down);
    }
  }
}
