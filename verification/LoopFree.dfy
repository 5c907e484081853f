/** No loops. */
module LoopFree {
  // Without loops nothing enters play late, so an execution reads all of its ancestors that will ever
  // complete, and the same of them in every history: timing decides nothing.

  import opened Graphs
  import DepthFirst
  import opened Interpreter
  import opened Walk
  import opened FlowRun
  import opened RunMachine
  import opened RunHistory
  import opened Reads

  ghost predicate NoLoops(g: Graph) {
    WellFormed(g) && LoopEdges(g) == {}
  }

  lemma AcyclicHasNoLoops(p: Plan)
    requires Runnable(p) && Acyclic(EdgeSet(p.g.edges))
    ensures NoLoops(p.g)
  {
    WellFormedFromNodes(p.g);
    DepthFirst.BackEmptyIffAcyclic(NodeIds(p.g.nodes), p.g.edges);
  }

  // ---- what is in play only shrinks ----

  lemma LinkShrinks(g: Graph, rows: Rows, rows': Rows, src: Key, k: Key)
    requires LoopEdges(g) == {} && RecordOnce(rows, rows') && Link(g, rows', src, k)
    ensures Link(g, rows, src, k)
  {
    var e :| e in g.edges && e.from == src.id && Passes(g, rows', e, src.iter) && k == Landing(g, e, src.iter);
    assert !Pruned(g, rows', e, src.iter) && !Pruned(g, rows, e, src.iter);
    assert Passes(g, rows, e, src.iter);
  }

  lemma {:induction false} InPlayShrinks(g: Graph, rows: Rows, rows': Rows, n: nat, k: Key)
    requires LoopEdges(g) == {} && RecordOnce(rows, rows')
    requires forall x :: Seed(g, rows', x) ==> Seed(g, rows, x)
    requires ReachedIn(g, rows', n, k)
    ensures ReachedIn(g, rows, n, k)
  {
    if n > 0 {
      var src :| ReachedIn(g, rows', n - 1, src) && Link(g, rows', src, k);
      InPlayShrinks(g, rows, rows', n - 1, src);
      LinkShrinks(g, rows, rows', src, k);
    }
  }

  lemma LiveShrinks(g: Graph, entry: Id, rows: Rows, rows': Rows, e: Edge, src: Key, k: Key)
    requires NoLoops(g) && Sound(g, entry, rows) && Sound(g, entry, rows') && RecordOnce(rows, rows')
    requires LiveIn(g, rows', e, src, k)
    ensures LiveIn(g, rows, e, src, k)
  {
    forall x | Seed(g, rows', x)
      ensures Seed(g, rows, x)
    {
      SeedIsEntry(g, entry, rows, x);
      SeedIsEntry(g, entry, rows', x);
    }
    var n: nat :| ReachedIn(g, rows', n, src);
    InPlayShrinks(g, rows, rows', n, src);
  }

  lemma LinkDeepens(g: Graph, rows: Rows, src: Key, k: Key)
    requires NoLoops(g) && Link(g, rows, src, k)
    ensures k.iter == src.iter && Depth(g, src.id) < Depth(g, k.id)
  {
    var e :| e in g.edges && e.from == src.id && Passes(g, rows, e, src.iter) && k == Landing(g, e, src.iter);
    assert e !in LoopEdges(g);
    ForwardDeepens(g, e);
    assert k == Key(e.to, src.iter);
  }

  /** Steps along open edges that keep something keep it all the way. */
  lemma {:induction false} AlongLinks(g: Graph, rows: Rows, ks: iset<Key>, n: nat, k: Key)
    requires forall x :: Seed(g, rows, x) ==> x in ks
    requires forall x, y {:trigger Link(g, rows, x, y)} :: x in ks && Link(g, rows, x, y) ==> y in ks
    requires ReachedIn(g, rows, n, k)
    ensures k in ks
  {
    if n > 0 {
      var src :| ReachedIn(g, rows, n - 1, src) && Link(g, rows, src, k);
      AlongLinks(g, rows, ks, n - 1, src);
    }
  }

  /** The first iteration of the entry and of what lies deeper. */
  ghost function BelowEntry(g: Graph, entry: Id): iset<Key> {
    iset k: Key | k.iter == 0 && (k.id == entry || Depth(g, entry) < Depth(g, k.id))
  }

  /** Everything in play lies behind the entry. */
  lemma InPlayBelowEntry(g: Graph, entry: Id, rows: Rows, k: Key)
    requires NoLoops(g) && Sound(g, entry, rows) && Reached(g, rows, k)
    ensures k.iter == 0 && (k.id == entry || Depth(g, entry) < Depth(g, k.id))
  {
    var ks := BelowEntry(g, entry);
    forall x | Seed(g, rows, x)
      ensures x in ks
    {
      SeedIsEntry(g, entry, rows, x);
    }
    forall x, y | x in ks && Link(g, rows, x, y)
      ensures y in ks
    {
      LinkDeepens(g, rows, x, y);
    }
    var n: nat :| ReachedIn(g, rows, n, k);
    AlongLinks(g, rows, ks, n, k);
  }

  lemma NothingLeadsBack(g: Graph, entry: Id, rows: Rows, e: Edge, src: Key)
    requires NoLoops(g) && Sound(g, entry, rows)
    ensures !LiveIn(g, rows, e, src, Key(entry, 0))
  {
    if LiveIn(g, rows, e, src, Key(entry, 0)) {
      InPlayBelowEntry(g, entry, rows, src);
      ForwardDeepens(g, e);
    }
  }

  // ---- whatever has a row waited for all it could wait for ----

  ghost predicate Joined(g: Graph, rows: Rows) {
    forall e, src, k {:trigger LiveIn(g, rows, e, src, k)} :: k in rows && LiveIn(g, rows, e, src, k) ==> Done(rows, src)
  }

  lemma SeededJoined(p: Plan)
    requires Runnable(p) && NoLoops(p.g)
    ensures Joined(p.g, Seeded(p).rows)
  {
    var rows := Seeded(p).rows;
    SeededSteady(p);
    forall e, src
      ensures !LiveIn(p.g, rows, e, src, Key(p.entry, 0))
    {
      NothingLeadsBack(p.g, p.entry, rows, e, src);
    }
  }

  lemma FewerJoined(g: Graph, entry: Id, rows: Rows, rows': Rows)
    requires NoLoops(g) && Sound(g, entry, rows) && Sound(g, entry, rows')
    requires Joined(g, rows) && RecordOnce(rows, rows') && forall k :: k in rows' ==> k in rows
    ensures Joined(g, rows')
  {
    forall e, src, k | k in rows' && LiveIn(g, rows', e, src, k)
      ensures Done(rows', src)
    {
      LiveShrinks(g, entry, rows, rows', e, src, k);
    }
  }

  lemma RecordedJoinedAt(g: Graph, entry: Id, read: Rows, rows: Rows, k: Key, row: Row, e: Edge, src: Key, x: Key)
    requires NoLoops(g) && Sound(g, entry, read) && Sound(g, entry, rows) && Sound(g, entry, rows[k := row])
    requires Joined(g, rows) && RecordOnce(read, rows) && Ready(g, read, k) && k !in rows
    requires x in rows[k := row] && LiveIn(g, rows[k := row], e, src, x)
    ensures Done(rows[k := row], src)
  {
    var rows' := rows[k := row];
    assert RecordOnce(rows, rows') && RecordOnce(read, rows');
    if x == k {
      LiveShrinks(g, entry, read, rows', e, src, x);
    } else {
      LiveShrinks(g, entry, rows, rows', e, src, x);
    }
  }

  /** A key that was ready in an earlier state of the table. */
  lemma RecordedJoined(g: Graph, entry: Id, read: Rows, rows: Rows, k: Key, row: Row)
    requires NoLoops(g) && Sound(g, entry, read) && Sound(g, entry, rows) && Sound(g, entry, rows[k := row])
    requires Joined(g, rows) && RecordOnce(read, rows) && Ready(g, read, k) && k !in rows
    ensures Joined(g, rows[k := row])
  {
    var rows' := rows[k := row];
    forall e, src, x | x in rows' && LiveIn(g, rows', e, src, x)
      ensures Done(rows', src)
    {
      RecordedJoinedAt(g, entry, read, rows, k, row, e, src, x);
    }
  }

  ghost predicate AllJoined(p: Plan, m: Machine) {
    && Joined(p.g, m.rows)
    && (m.drive.Walking? ==> Joined(p.g, m.drive.carried))
    && (m.drive.Batching? ==> Joined(p.g, m.drive.carried) && Joined(p.g, m.drive.start))
  }

  lemma CarriedJoined(p: Plan, m: Machine, row: Row)
    requires NoLoops(p.g) && AtNode(p, m) && AllJoined(p, m)
    ensures Joined(p.g, m.drive.carried[m.drive.ready[m.drive.next] := row])
  {
    var d := m.drive;
    BatchKeyFresh(p.g, d.start, d.carried, d.ready, d.next);
    CarriedSound(p, m, row);
    RecordedJoined(p.g, p.entry, d.start, d.carried, d.ready[d.next], row);
  }

  lemma StoredJoined(p: Plan, m: Machine, failed: bool)
    requires NoLoops(p.g) && AtNode(p, m) && AllJoined(p, m)
    ensures Joined(p.g, Recorded(p, m, failed).rows)
  {
    var d := m.drive;
    var k := d.ready[d.next];
    StartBehind(p, m);
    RecordedRight(p, m, failed);
    RecordIsFresh(p, m);
    BatchKeyFresh(p.g, d.start, d.carried, d.ready, d.next);
    RecordedKeeps(p, m, failed);
    RecordedJoined(p.g, p.entry, d.start, m.rows, k, NodeRow(p.g, p.world, failed, k));
  }

  lemma OthersKeepJoined(p: Plan, m: Machine, s: Step)
    requires NoLoops(p.g) && Steady(p, m) && AllJoined(p, m) && Enabled(p, m, s)
    requires s.Decide? || s.Expire? || s.DeleteFailed? || s.Sweep?
    ensures AllJoined(p, Apply(p, m, s))
  {
    StepKeeps(p, m, s);
    StepRecordsOnce(p, m, s);
    FewerJoined(p.g, p.entry, m.rows, Apply(p, m, s).rows);
  }

  lemma RecordKeepsJoined(p: Plan, m: Machine, failed: bool)
    requires NoLoops(p.g) && AtNode(p, m) && AllJoined(p, m)
    ensures AllJoined(p, Recorded(p, m, failed))
  {
    var k := m.drive.ready[m.drive.next];
    StoredJoined(p, m, failed);
    CarriedJoined(p, m, NodeRow(p.g, p.world, failed, k));
  }

  lemma StepKeepsJoined(p: Plan, m: Machine, s: Step)
    requires NoLoops(p.g) && Steady(p, m) && AllJoined(p, m) && Enabled(p, m, s)
    ensures AllJoined(p, Apply(p, m, s))
  {
    match s
    case Record(failed) => RecordKeepsJoined(p, m, failed);
    case Decide(_, _, _) => OthersKeepJoined(p, m, s);
    case Expire(_) => OthersKeepJoined(p, m, s);
    case DeleteFailed => OthersKeepJoined(p, m, s);
    case Sweep => OthersKeepJoined(p, m, s);
    case _ =>
  }

  lemma {:induction false} ReadJoined(p: Plan, m: Machine, steps: seq<Step>, k: Key)
    requires NoLoops(p.g) && Steady(p, m) && AllJoined(p, m) && CanRun(p, m, steps) && ReadBy(p, m, steps, k).Some?
    ensures Joined(p.g, ReadBy(p, m, steps, k).value)
    decreases |steps|
  {
    if !Completes(p, m, steps[0], k) {
      StepKeeps(p, m, steps[0]);
      StepKeepsJoined(p, m, steps[0]);
      ReadJoined(p, Apply(p, m, steps[0]), steps[1..], k);
    }
  }

  lemma {:induction false} RunKeepsJoined(p: Plan, m: Machine, steps: seq<Step>)
    requires NoLoops(p.g) && Steady(p, m) && AllJoined(p, m) && CanRun(p, m, steps)
    ensures AllJoined(p, RunAll(p, m, steps))
    decreases |steps|
  {
    if steps != [] {
      StepKeeps(p, m, steps[0]);
      StepKeepsJoined(p, m, steps[0]);
      RunKeepsJoined(p, Apply(p, m, steps[0]), steps[1..]);
    }
  }

  lemma WithoutRow(g: Graph, entry: Id, rows: Rows, k: Key)
    requires Sound(g, entry, rows) && k in rows && rows[k].status == Failed
    ensures SameDecisions(g, rows, rows - {k})
  {
    SeedsSurvive(g, entry, rows, rows - {k});
  }

  lemma CommittedLive(g: Graph, entry: Id, rows: Rows, k: Key) returns (e: Edge, src: Key)
    requires Sound(g, entry, rows) && k in rows && rows[k].status == Failed
    ensures LiveIn(g, rows, e, src, k)
  {
    assert Committed(g, rows, k);
    var n: nat :| CommittedIn(g, rows, n, k);
    src :| CommittedIn(g, rows, n - 1, src) && TakenLink(g, rows, src, k);
    e :| Feeds(g, e, src, k) && Taken(g, rows, e, src.iter);
    assert Key(e.from, src.iter) == src;
    assert Committed(g, rows, src);
    CommittedIsReached(g, rows, src);
  }

  lemma JoinedRunsAgain(g: Graph, entry: Id, rows: Rows, k: Key)
    requires Sound(g, entry, rows) && Joined(g, rows) && k in rows && rows[k].status == Failed
    ensures Ready(g, rows - {k}, k)
  {
    var rows' := rows - {k};
    WithoutRow(g, entry, rows, k);
    assert Committed(g, rows, k);
    CommittedIsReached(g, rows, k);
    SameReached(g, rows, rows', k);
    var e, src := CommittedLive(g, entry, rows, k);
    SameLiveIn(g, rows, rows', e, src, k);
    forall e, src | LiveIn(g, rows', e, src, k)
      ensures Done(rows', src)
    {
      SameLiveIn(g, rows', rows, e, src, k);
    }
  }

  /** On a graph without loops a replay lets every failed node run again: whenever it clears the failed rows,
      each of their keys is ready. */
  lemma FailedRunsAgain(p: Plan, steps: seq<Step>, k: Key)
    requires History(p, steps) && Acyclic(EdgeSet(p.g.edges))
    requires k in End(p, steps).rows && End(p, steps).rows[k].status == Failed
    ensures Ready(p.g, WithoutFailed(End(p, steps).rows), k)
  {
    AcyclicHasNoLoops(p);
    EndOf(p, steps);
    SeededSteady(p);
    SeededJoined(p);
    RunKeepsJoined(p, Seeded(p), steps);
    JoinedRunsAgain(p.g, p.entry, End(p, steps).rows, k);
    ClearedRunsAgain(p.g, p.entry, End(p, steps).rows, k);
  }

  // ---- what an execution reads ----

  /** While something in play has not completed, nothing behind it runs. */
  lemma {:induction false} Awaited(g: Graph, rows: Rows, x: Key, path: seq<Edge>, k: Key)
    requires NoLoops(g) && Joined(g, rows) && Reached(g, rows, x) && !Done(rows, x)
    requires path != [] && Path(EdgeSet(g.edges), path, x.id, k.id) && x.iter == k.iter
    ensures !Ready(g, rows, k)
    decreases |path|
  {
    var e := path[0];
    var y := Key(e.to, x.iter);
    assert Key(e.from, x.iter) == x && Passes(g, rows, e, x.iter) && Landing(g, e, x.iter) == y;
    assert LiveIn(g, rows, e, x, y);
    assert Link(g, rows, x, y);
    ReachedStep(g, rows, x, y);
    if |path| == 1 {
      assert path[1..] == [];
    } else {
      Awaited(g, rows, y, path[1..], k);
    }
  }

  lemma AncestorStep(g: Graph, e: Edge, id: Id)
    requires e in g.edges && (e.to == id || Ancestor(g, e.to, id))
    ensures Ancestor(g, e.from, id)
  {
    var es := EdgeSet(g.edges);
    if e.to == id {
      ReachRefl(es, id);
    } else {
      var f :| f in es && f.from == e.to && Reach(es, f.to, id);
      ReachEdge(es, f);
      ReachTrans(es, e.to, f.to, id);
    }
    assert e in es && e.from == e.from && Reach(es, e.to, id);
  }

  /** An ancestor that is in play has completed. */
  lemma AncestorDone(g: Graph, entry: Id, read: Rows, k: Key, x: Key)
    requires NoLoops(g) && Sound(g, entry, read) && Joined(g, read) && Ready(g, read, k)
    requires Reached(g, read, x) && Ancestor(g, x.id, k.id)
    ensures Done(read, x)
  {
    InPlayBelowEntry(g, entry, read, x);
    InPlayBelowEntry(g, entry, read, k);
    var f :| f in EdgeSet(g.edges) && f.from == x.id && Reach(EdgeSet(g.edges), f.to, k.id);
    var path :| Path(EdgeSet(g.edges), path, f.to, k.id);
    assert ([f] + path)[1..] == path;
    if !Done(read, x) {
      Awaited(g, read, x, [f] + path, k);
    }
  }

  lemma TakenInBoth(g: Graph, entry: Id, read: Rows, rows: Rows, src: Key, x: Key)
    requires Sound(g, entry, read) && Done(read, src) && Same(read, rows, src) && TakenLink(g, rows, src, x)
    ensures Reached(g, read, x)
  {
    var e :| Feeds(g, e, src, x) && Taken(g, rows, e, src.iter);
    assert Key(e.from, src.iter) == src;
    assert Taken(g, read, e, src.iter);
    assert TakenLink(g, read, src, x);
    TakenIsCommitted(g, entry, read, src, x);
  }

  lemma SourceIsAncestor(g: Graph, rows: Rows, src: Key, x: Key, id: Id)
    requires TakenLink(g, rows, src, x) && (x.id == id || Ancestor(g, x.id, id))
    ensures Ancestor(g, src.id, id)
  {
    var e :| Feeds(g, e, src, x) && Taken(g, rows, e, src.iter);
    AncestorStep(g, e, id);
  }

  /** Steps along taken edges that keep something keep it all the way. */
  lemma {:induction false} AlongTaken(g: Graph, rows: Rows, ks: iset<Key>, n: nat, x: Key)
    requires forall y :: Seed(g, rows, y) ==> y in ks
    requires forall src, y {:trigger TakenLink(g, rows, src, y)} :: src in ks && TakenLink(g, rows, src, y) ==> y in ks
    requires CommittedIn(g, rows, n, x)
    ensures x in ks
  {
    if n > 0 {
      var src :| CommittedIn(g, rows, n - 1, src) && TakenLink(g, rows, src, x);
      AlongTaken(g, rows, ks, n - 1, src);
    }
  }

  /** The keys whose ancestry, if it is one, has completed. */
  ghost function CompletedAncestry(g: Graph, read: Rows, k: Key): iset<Key> {
    iset x: Key | Ancestor(g, x.id, k.id) ==> Done(read, x)
  }

  lemma TakenKeepsAncestry(g: Graph, entry: Id, read: Rows, rows: Rows, k: Key, src: Key, y: Key)
    requires NoLoops(g) && Sound(g, entry, read) && Joined(g, read) && Ready(g, read, k)
    requires forall z: Key :: Ancestor(g, z.id, k.id) && Done(read, z) ==> Done(rows, z) && rows[z] == read[z]
    requires src in CompletedAncestry(g, read, k) && TakenLink(g, rows, src, y)
    ensures y in CompletedAncestry(g, read, k)
  {
    if Ancestor(g, y.id, k.id) {
      SourceIsAncestor(g, rows, src, y, k.id);
      TakenInBoth(g, entry, read, rows, src, y);
      AncestorDone(g, entry, read, k, y);
    }
  }

  /** An ancestor that completes in any table with the same results had completed when the key was ready. */
  lemma DoneAncestors(g: Graph, entry: Id, read: Rows, rows: Rows, k: Key, x: Key)
    requires NoLoops(g) && Sound(g, entry, read) && Joined(g, read) && Ready(g, read, k) && Sound(g, entry, rows)
    requires forall y: Key :: Ancestor(g, y.id, k.id) && Done(read, y) ==> Done(rows, y) && rows[y] == read[y]
    requires Ancestor(g, x.id, k.id)
    ensures Same(read, rows, x)
  {
    if Done(rows, x) {
      var ks := CompletedAncestry(g, read, k);
      forall y | Seed(g, rows, y)
        ensures y in ks
      {
        SeedIsEntry(g, entry, rows, y);
      }
      forall src, y | src in ks && TakenLink(g, rows, src, y)
        ensures y in ks
      {
        TakenKeepsAncestry(g, entry, read, rows, k, src, y);
      }
      assert Committed(g, rows, x);
      var n: nat :| CommittedIn(g, rows, n, x);
      AlongTaken(g, rows, ks, n, x);
    }
  }

  lemma ReadOfJoined(p: Plan, steps: seq<Step>, k: Key)
    requires NoLoops(p.g) && History(p, steps) && ReadOf(p, steps, k).Some?
    ensures Joined(p.g, ReadOf(p, steps, k).value)
  {
    SeededSteady(p);
    SeededJoined(p);
    ReadJoined(p, Seeded(p), steps, k);
  }

  /** An execution has read all that any ancestor ever completes. */
  lemma ReadsAll(p: Plan, steps: seq<Step>, k: Key, x: Key)
    requires NoLoops(p.g) && History(p, steps) && ReadOf(p, steps, k).Some? && Ancestor(p.g, x.id, k.id)
    ensures Same(ReadOf(p, steps, k).value, End(p, steps).rows, x)
  {
    EndOf(p, steps);
    ReadOfFacts(p, steps, k);
    ReadOfJoined(p, steps, k);
    DoneAncestors(p.g, p.entry, ReadOf(p, steps, k).value, End(p, steps).rows, k, x);
  }

  // ---- convergence ----

  /** What the one has completed is in the other. */
  ghost predicate Carried(rows: Rows, rows': Rows, k: Key) {
    Done(rows, k) ==> Done(rows', k) && rows'[k] == rows[k]
  }

  /** If all ancestors of an execution have come out the same, it has read the same in both. */
  lemma SameReads(p: Plan, steps: seq<Step>, p': Plan, steps': seq<Step>, k: Key)
    requires History(p, steps) && History(p', steps') && SameRun(p, p') && NoLoops(p.g)
    requires ReadOf(p, steps, k).Some? && ReadOf(p', steps', k).Some?
    requires forall x: Key :: Ancestor(p.g, x.id, k.id) ==> Carried(End(p, steps).rows, End(p', steps').rows, x)
    ensures Scope(p.g, ReadOf(p, steps, k).value, k) == Scope(p.g, ReadOf(p', steps', k).value, k)
  {
    var read, read', rows' := ReadOf(p, steps, k).value, ReadOf(p', steps', k).value, End(p', steps').rows;
    EndOf(p', steps');
    ReadOfFacts(p, steps, k);
    ReadOfJoined(p, steps, k);
    forall x | Visible(p.g, k, x)
      ensures Same(read, read', x)
    {
      DoneAncestors(p.g, p.entry, read, rows', k, x);
      ReadsAll(p', steps', k, x);
    }
    SameScope(p.g, read, read', k);
  }

  lemma AncestorLower(g: Graph, a: Id, id: Id)
    requires NoLoops(g) && Ancestor(g, a, id)
    ensures Depth(g, a) < Depth(g, id)
  {
    assert Forward(g) == EdgeSet(g.edges);
    EarlierLower(g, Key(id, 0), Key(a, 0));
  }

  lemma CarriedOver(g: Graph, entry: Id, rows: Rows, rows': Rows, k: Key)
    requires Sound(g, entry, rows) && Full(g, entry, rows') && Done(rows, k)
    requires forall x: Key :: Ancestor(g, x.id, k.id) ==> Carried(rows, rows', x)
    ensures Done(rows', k)
  {
    forall src, e | Feeds(g, e, src, k) && Done(rows, src)
      ensures Same(rows, rows', src)
    {
      AncestorStep(g, e, k.id);
      assert Carried(rows, rows', src);
    }
    CalledForInBoth(g, entry, rows, rows', k);
  }

  lemma {:induction false} KeyCarried(l: Logic, p: Plan, steps: seq<Step>, p': Plan, final: seq<Step>, k: Key)
    requires ByLogic(l, p, steps) && ByLogic(l, p', final) && SameRun(p, p') && NoLoops(p.g)
    requires CompletedRight(p', final)
    ensures Carried(End(p, steps).rows, End(p', final).rows, k)
    decreases Depth(p.g, k.id)
  {
    var rows, rows' := End(p, steps).rows, End(p', final).rows;
    if Done(rows, k) {
      EndOf(p, steps);
      CompletedFull(p', final);
      forall x: Key | Ancestor(p.g, x.id, k.id)
        ensures Carried(rows, rows', x)
      {
        AncestorLower(p.g, x.id, k.id);
        KeyCarried(l, p, steps, p', final, x);
      }
      CarriedOver(p.g, p.entry, rows, rows', k);
      ResultOf(l, p, steps, k);
      ResultOf(l, p', final, k);
      if ReadOf(p, steps, k).Some? && ReadOf(p', final, k).Some? {
        SameReads(p, steps, p', final, k);
      }
    }
  }

  /** On a graph without loops nothing executed is ever wasted or wrong: what any history has completed at
      any point is, with the same result, in the table of every history of the same logic that completes
      the run correctly. */
  lemma NothingIsWasted(l: Logic, p: Plan, partial: seq<Step>, p': Plan, final: seq<Step>)
    requires ByLogic(l, p, partial) && ByLogic(l, p', final) && SameRun(p, p') && Acyclic(EdgeSet(p.g.edges))
    requires CompletedRight(p', final)
    ensures RecordOnce(End(p, partial).rows, End(p', final).rows)
  {
    AcyclicHasNoLoops(p);
    forall k | Done(End(p, partial).rows, k)
      ensures k in End(p', final).rows && End(p', final).rows[k] == End(p, partial).rows[k]
    {
      KeyCarried(l, p, partial, p', final, k);
    }
  }

  /** And two that complete it correctly leave the very same table, whatever the order of their batches,
      their crashes, recoveries, replays and interleavings. */
  lemma AllHistoriesConverge(l: Logic, p: Plan, steps: seq<Step>, p': Plan, steps': seq<Step>)
    requires ByLogic(l, p, steps) && ByLogic(l, p', steps') && SameRun(p, p') && Acyclic(EdgeSet(p.g.edges))
    requires CompletedRight(p, steps) && CompletedRight(p', steps')
    ensures End(p, steps).rows == End(p', steps').rows
  {
    NothingIsWasted(l, p, steps, p', steps');
    NothingIsWasted(l, p', steps', p, steps);
    CompletedFull(p, steps);
    CompletedFull(p', steps');
    forall k
      ensures Same(End(p, steps).rows, End(p', steps').rows, k)
    {
    }
    SameTables(p.g, p.entry, End(p, steps).rows, End(p', steps').rows);
  }
}
