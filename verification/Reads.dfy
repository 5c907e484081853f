/** What nodes read. */
module Reads {
  // The result of a node may depend on what it reads: the latest result of each of its ancestors when its
  // batch was computed. What two histories of the same nodes and the same decisions then have in common.

  import opened Graphs
  import DepthFirst
  import opened Interpreter
  import opened Walk
  import opened FlowRun
  import opened RunMachine
  import opened RunHistory

  type Outcome = map<string, string>

  // ---- the scope of an execution ----

  /** The nodes an input may refer to: those with a path to this one, loop edges included. */
  ghost predicate Ancestor(g: Graph, a: Id, id: Id) {
    ReachPlus(EdgeSet(g.edges), a, id)
  }

  /** The result of the latest completed iteration up to this one, or nothing. */
  function Latest(rows: Rows, id: Id, iter: nat): Outcome {
    if Done(rows, Key(id, iter)) then rows[Key(id, iter)].result
    else if iter == 0 then map[]
    else Latest(rows, id, iter - 1)
  }

  ghost function Scope(g: Graph, rows: Rows, k: Key): map<Id, Outcome> {
    map a | a in NodeIds(g.nodes) && Ancestor(g, a, k.id) :: Latest(rows, a, k.iter)
  }

  /** Iteration `j` is the last up to `iter` that has completed. */
  ghost predicate LastDone(rows: Rows, id: Id, iter: nat, j: nat) {
    j <= iter && Done(rows, Key(id, j)) && forall l: nat {:trigger Key(id, l)} :: j < l <= iter ==> !Done(rows, Key(id, l))
  }

  /** The result of the last completed iteration if there is one, and otherwise nothing: `at` is where. */
  lemma {:induction false} LatestIsLast(rows: Rows, id: Id, iter: nat) returns (at: Option<nat>)
    ensures match at
            case Some(j) => LastDone(rows, id, iter, j) && Latest(rows, id, iter) == rows[Key(id, j)].result
            case None => Latest(rows, id, iter) == map[] && forall j: nat {:trigger Key(id, j)} :: j <= iter ==> !Done(rows, Key(id, j))
  {
    if Done(rows, Key(id, iter)) {
      at := Some(iter);
    } else if iter == 0 {
      at := None;
    } else {
      at := LatestIsLast(rows, id, iter - 1);
    }
  }

  /** What a node reads: of each of its ancestors the result of the last iteration, up to its own, that has
      completed, and nothing where none has. */
  lemma ScopeHolds(g: Graph, rows: Rows, k: Key, a: Id)
    ensures a in Scope(g, rows, k) <==> HasNode(g, a) && Ancestor(g, a, k.id)
    ensures a in Scope(g, rows, k) ==>
              && (forall j: nat :: LastDone(rows, a, k.iter, j) ==> Scope(g, rows, k)[a] == rows[Key(a, j)].result)
              && ((forall j: nat {:trigger Key(a, j)} :: j <= k.iter ==> !Done(rows, Key(a, j))) ==> Scope(g, rows, k)[a] == map[])
    ensures (exists j: nat :: LastDone(rows, a, k.iter, j)) || forall j: nat {:trigger Key(a, j)} :: j <= k.iter ==> !Done(rows, Key(a, j))
  {
    var at := LatestIsLast(rows, a, k.iter);
    assert at.Some? ==> Done(rows, Key(a, at.value));
    forall j: nat | LastDone(rows, a, k.iter, j)
      ensures at == Some(j)
    {
      assert Done(rows, Key(a, j));
    }
  }

  /** The two tables agree about a key, as far as completed rows go. */
  ghost predicate Same(rows: Rows, rows': Rows, k: Key) {
    (Done(rows, k) <==> Done(rows', k)) && (Done(rows, k) ==> rows[k] == rows'[k])
  }

  lemma {:induction false} SameLatest(rows: Rows, rows': Rows, id: Id, iter: nat)
    requires forall j: nat {:trigger Key(id, j)} :: j <= iter ==> Same(rows, rows', Key(id, j))
    ensures Latest(rows, id, iter) == Latest(rows', id, iter)
  {
    assert Same(rows, rows', Key(id, iter));
    if iter > 0 {
      SameLatest(rows, rows', id, iter - 1);
    }
  }

  /** A key whose row can show in the scope of another. */
  ghost predicate Visible(g: Graph, k: Key, x: Key) {
    Ancestor(g, x.id, k.id) && x.iter <= k.iter
  }

  lemma SameScope(g: Graph, rows: Rows, rows': Rows, k: Key)
    requires forall x :: Visible(g, k, x) ==> Same(rows, rows', x)
    ensures Scope(g, rows, k) == Scope(g, rows', k)
  {
    forall a | a in NodeIds(g.nodes) && Ancestor(g, a, k.id)
      ensures Latest(rows, a, k.iter) == Latest(rows', a, k.iter)
    {
      forall j: nat | j <= k.iter
        ensures Same(rows, rows', Key(a, j))
      {
        assert Visible(g, k, Key(a, j));
      }
      SameLatest(rows, rows', a, k.iter);
    }
  }

  // ---- histories of the same nodes ----

  /** What nodes and people do: the payload, the result of an execution by what it reads, and the answers
      to the approvals. */
  datatype Logic = Logic(payload: Outcome, run: (Key, map<Id, Outcome>) -> Outcome, answers: Key -> Outcome)

  ghost predicate Completes(p: Plan, m: Machine, s: Step, k: Key)
    requires Enabled(p, m, s)
  {
    s.Record? && m.drive.ready[m.drive.next] == k && NodeRow(p.g, p.world, s.failed, k).status == Completed
  }

  /** The step does as the logic says: an execution that completes by what its batch has read, a decision
      by the answers. */
  ghost predicate Obeys(l: Logic, p: Plan, m: Machine, s: Step)
    requires Enabled(p, m, s)
  {
    && (forall k :: Completes(p, m, s, k) ==> p.world(k) == l.run(k, Scope(p.g, m.drive.start, k)))
    && (s.Decide? ==> forall k :: k in m.rows && k.id == s.node && m.rows[k].status == Parked ==> p.world(k) == l.answers(k))
  }

  ghost predicate AllObey(l: Logic, p: Plan, m: Machine, steps: seq<Step>)
    requires CanRun(p, m, steps)
    decreases |steps|
  {
    steps == [] || (Obeys(l, p, m, steps[0]) && AllObey(l, p, Apply(p, m, steps[0]), steps[1..]))
  }

  /** A history in which everything was done as the logic says. Its plan's `world` is no more than what
      this one history recorded: another history of the same logic has its own. */
  ghost predicate ByLogic(l: Logic, p: Plan, steps: seq<Step>) {
    History(p, steps) && p.world(Key(p.entry, 0)) == l.payload && AllObey(l, p, Seeded(p), steps)
  }

  /** The rows a completed execution has read: those its batch was computed from. */
  ghost function ReadBy(p: Plan, m: Machine, steps: seq<Step>, k: Key): Option<Rows>
    requires CanRun(p, m, steps)
    decreases |steps|
  {
    if steps == [] then None
    else if Completes(p, m, steps[0], k) then Some(m.drive.start)
    else ReadBy(p, Apply(p, m, steps[0]), steps[1..], k)
  }

  ghost function ReadOf(p: Plan, steps: seq<Step>, k: Key): Option<Rows>
    requires History(p, steps)
  {
    ReadBy(p, Seeded(p), steps, k)
  }

  /** Only approvals park. */
  ghost predicate ApprovalsPark(g: Graph, rows: Rows) {
    forall k :: k in rows && rows[k].status == Parked ==> KindOf(g, k.id) == Approval
  }

  lemma StepParks(p: Plan, m: Machine, s: Step)
    requires Enabled(p, m, s) && ApprovalsPark(p.g, m.rows)
    ensures ApprovalsPark(p.g, Apply(p, m, s).rows)
  {
  }

  /** What a row that a step completes is by. */
  lemma StepExplains(l: Logic, p: Plan, m: Machine, s: Step, k: Key)
    requires Enabled(p, m, s) && Obeys(l, p, m, s) && ApprovalsPark(p.g, m.rows)
    requires !Done(m.rows, k) && Done(Apply(p, m, s).rows, k)
    ensures if KindOf(p.g, k.id) == Approval then p.world(k) == l.answers(k)
            else Completes(p, m, s, k) && p.world(k) == l.run(k, Scope(p.g, m.drive.start, k))
  {
  }

  lemma {:induction false} Explained(l: Logic, p: Plan, m: Machine, steps: seq<Step>, k: Key)
    requires CanRun(p, m, steps) && AllObey(l, p, m, steps) && ApprovalsPark(p.g, m.rows)
    requires !Done(m.rows, k) && Done(RunAll(p, m, steps).rows, k)
    ensures if KindOf(p.g, k.id) == Approval then p.world(k) == l.answers(k)
            else var read := ReadBy(p, m, steps, k); read.Some? && p.world(k) == l.run(k, Scope(p.g, read.value, k))
    decreases |steps|
  {
    var v := Apply(p, m, steps[0]);
    StepParks(p, m, steps[0]);
    if Done(v.rows, k) {
      StepExplains(l, p, m, steps[0], k);
    } else {
      Explained(l, p, v, steps[1..], k);
    }
  }

  lemma StartBehind(p: Plan, m: Machine)
    requires Steady(p, m) && m.drive.Batching?
    ensures Sound(p.g, p.entry, m.drive.start) && RecordOnce(m.drive.start, m.rows)
  {
    var d := m.drive;
    assert Kept(d.start, d.carried) && RecordOnce(d.carried, m.rows);
  }

  lemma RecordedRight(p: Plan, m: Machine, failed: bool)
    requires AtNode(p, m)
    ensures var k := m.drive.ready[m.drive.next];
            && RecordOnce(m.rows, Recorded(p, m, failed).rows)
            && Recorded(p, m, failed).rows == m.rows[k := NodeRow(p.g, p.world, failed, k)]
  {
    RecordIsFresh(p, m);
  }

  lemma CompletesRight(p: Plan, m: Machine, s: Step, k: Key)
    requires Steady(p, m) && Enabled(p, m, s) && Completes(p, m, s, k)
    ensures var read, rows := m.drive.start, Apply(p, m, s).rows;
            Sound(p.g, p.entry, read) && Ready(p.g, read, k) && RecordOnce(read, rows) && Done(rows, k)
  {
    var d := m.drive;
    assert AtNode(p, m) && BatchKept(p.g, d);
    StartBehind(p, m);
    RecordedRight(p, m, s.failed);
    BatchKeyFresh(p.g, d.start, d.carried, d.ready, d.next);
  }

  /** An execution was ready in the rows it read, and they are part of what is stored from then on. */
  lemma {:induction false} ReadFacts(p: Plan, m: Machine, steps: seq<Step>, k: Key)
    requires Steady(p, m) && CanRun(p, m, steps) && ReadBy(p, m, steps, k).Some?
    ensures var read := ReadBy(p, m, steps, k).value;
            && Sound(p.g, p.entry, read) && Ready(p.g, read, k) && RecordOnce(read, RunAll(p, m, steps).rows)
            && Done(RunAll(p, m, steps).rows, k)
    decreases |steps|
  {
    var v := Apply(p, m, steps[0]);
    if Completes(p, m, steps[0], k) {
      CompletesRight(p, m, steps[0], k);
      RunRecordsOnce(p, v, steps[1..]);
    } else {
      StepKeeps(p, m, steps[0]);
      ReadFacts(p, v, steps[1..], k);
    }
  }

  /** Every result of such a history is the payload, an answer, or what the node makes of what it read. */
  lemma ResultOf(l: Logic, p: Plan, steps: seq<Step>, k: Key)
    requires ByLogic(l, p, steps) && Done(End(p, steps).rows, k)
    ensures var result := End(p, steps).rows[k].result;
            if k == Key(p.entry, 0) then result == l.payload
            else if KindOf(p.g, k.id) == Approval then result == l.answers(k)
            else var read := ReadOf(p, steps, k); read.Some? && result == l.run(k, Scope(p.g, read.value, k))
  {
    EndOf(p, steps);
    if k != Key(p.entry, 0) {
      Explained(l, p, Seeded(p), steps, k);
    }
  }

  lemma ReadOfFacts(p: Plan, steps: seq<Step>, k: Key)
    requires History(p, steps) && ReadOf(p, steps, k).Some?
    ensures var read := ReadOf(p, steps, k).value;
            && Sound(p.g, p.entry, read) && Ready(p.g, read, k) && RecordOnce(read, End(p, steps).rows)
            && Done(End(p, steps).rows, k) && k != Key(p.entry, 0)
  {
    SeededSteady(p);
    ReadFacts(p, Seeded(p), steps, k);
  }

  lemma AncestorEdge(g: Graph, a: Id, e: Edge)
    requires Ancestor(g, a, e.from) && e in g.edges
    ensures Ancestor(g, a, e.to)
  {
    var es := EdgeSet(g.edges);
    var f :| f in es && f.from == a && Reach(es, f.to, e.from);
    ReachEdge(es, e);
    ReachTrans(es, f.to, e.from, e.to);
  }

  lemma {:induction false} CommittedReach(g: Graph, entry: Id, rows: Rows, n: nat, k: Key)
    requires forall x :: Seed(g, rows, x) ==> x == Key(entry, 0)
    requires CommittedIn(g, rows, n, k)
    ensures if n == 0 then k == Key(entry, 0) else Ancestor(g, entry, k.id)
  {
    if n > 0 {
      var src :| CommittedIn(g, rows, n - 1, src) && TakenLink(g, rows, src, k);
      CommittedReach(g, entry, rows, n - 1, src);
      var e :| Feeds(g, e, src, k) && Taken(g, rows, e, src.iter);
      assert e in EdgeSet(g.edges);
      if n == 1 {
        ReachRefl(EdgeSet(g.edges), e.to);
        assert e.from == entry && Reach(EdgeSet(g.edges), e.to, k.id);
      } else {
        AncestorEdge(g, entry, e);
      }
    }
  }

  /** Every execution, at whatever iteration, reads the payload the run was started with. */
  lemma PayloadIsRead(l: Logic, p: Plan, steps: seq<Step>, k: Key)
    requires ByLogic(l, p, steps) && ReadOf(p, steps, k).Some?
    ensures var scope := Scope(p.g, ReadOf(p, steps, k).value, k); p.entry in scope && scope[p.entry] == l.payload
  {
    var read := ReadOf(p, steps, k).value;
    EndOf(p, steps);
    ReadOfFacts(p, steps, k);
    ReadyIsCommitted(p.g, p.entry, read, k);
    var n: nat :| CommittedIn(p.g, read, n, k);
    CommittedReach(p.g, p.entry, read, n, k);
    ScopeHolds(p.g, read, k, p.entry);
    assert LastDone(read, p.entry, k.iter, 0);
  }

  // ---- the first difference ----

  ghost function Forward(g: Graph): set<Edge> {
    EdgeSet(g.edges) - LoopEdges(g)
  }

  /** What should come first: an earlier iteration, or the forward ancestors in the same one. */
  ghost predicate Earlier(g: Graph, k: Key, x: Key) {
    x.iter < k.iter || (x.iter == k.iter && ReachPlus(Forward(g), x.id, k.id))
  }

  lemma {:induction false} PathDeepens(g: Graph, path: seq<Edge>, a: Id, b: Id)
    requires WellFormed(g) && Path(Forward(g), path, a, b)
    ensures if path == [] then a == b else Depth(g, a) < Depth(g, b)
  {
    if path != [] {
      ForwardDeepens(g, path[0]);
      PathDeepens(g, path[1..], path[0].to, b);
    }
  }

  lemma EarlierLower(g: Graph, k: Key, x: Key)
    requires WellFormed(g) && Earlier(g, k, x)
    ensures x.iter < k.iter || (x.iter == k.iter && Depth(g, x.id) < Depth(g, k.id))
  {
    if x.iter == k.iter {
      var e :| e in Forward(g) && e.from == x.id && Reach(Forward(g), e.to, k.id);
      var path :| Path(Forward(g), path, e.to, k.id);
      ForwardDeepens(g, e);
      PathDeepens(g, path, e.to, k.id);
    }
  }

  lemma FeedsEarlier(g: Graph, e: Edge, src: Key, k: Key)
    requires Feeds(g, e, src, k)
    ensures Earlier(g, k, src)
  {
    if e !in LoopEdges(g) {
      ReachRefl(Forward(g), e.to);
      assert e in Forward(g) && e.from == src.id && Reach(Forward(g), e.to, k.id);
    }
  }

  ghost predicate SameBefore(g: Graph, rows: Rows, rows': Rows, k: Key) {
    forall x {:trigger Earlier(g, k, x)} :: Earlier(g, k, x) ==> Same(rows, rows', x)
  }

  /** A table that is complete and correct. */
  ghost predicate Full(g: Graph, entry: Id, rows: Rows) {
    Sound(g, entry, rows) && Closed(g, rows) && forall k :: k in rows ==> rows[k].status == Completed
  }

  /** What calls for a key in one table calls for it in another that is the same so far. */
  lemma CalledForInBoth(g: Graph, entry: Id, rows: Rows, rows': Rows, k: Key)
    requires Sound(g, entry, rows) && Full(g, entry, rows') && Done(rows, k)
    requires forall src, e :: Feeds(g, e, src, k) && Done(rows, src) ==> Same(rows, rows', src)
    ensures Done(rows', k)
  {
    if k != Key(entry, 0) {
      assert Committed(g, rows, k);
      var n: nat :| CommittedIn(g, rows, n, k);
      var src :| CommittedIn(g, rows, n - 1, src) && TakenLink(g, rows, src, k);
      var e :| Feeds(g, e, src, k) && Taken(g, rows, e, src.iter);
      assert Key(e.from, src.iter) == src;
      assert Taken(g, rows', e, src.iter);
      assert TakenLink(g, rows', src, k);
    }
  }

  /** Two complete tables that differ first differ in the result of a key that is in both. */
  lemma {:induction false} FirstDifference(g: Graph, entry: Id, rows: Rows, rows': Rows, k: Key) returns (x: Key)
    requires Full(g, entry, rows) && Full(g, entry, rows') && !Same(rows, rows', k)
    ensures SameBefore(g, rows, rows', x) && Done(rows, x) && Done(rows', x) && rows[x] != rows'[x]
    decreases k.iter, Depth(g, k.id)
  {
    if y :| Earlier(g, k, y) && !Same(rows, rows', y) {
      EarlierLower(g, k, y);
      x := FirstDifference(g, entry, rows, rows', y);
    } else {
      x := k;
      forall src, e | Feeds(g, e, src, k)
        ensures Same(rows, rows', src)
      {
        FeedsEarlier(g, e, src, k);
      }
      if Done(rows, k) {
        CalledForInBoth(g, entry, rows, rows', k);
      } else {
        CalledForInBoth(g, entry, rows', rows, k);
      }
    }
  }

  // ---- when two histories converge ----

  /** Two histories of the same graph. */
  ghost predicate SameRun(p: Plan, p': Plan) {
    p.g == p'.g && p.entry == p'.entry
  }

  /** The node makes something else of what it read in the one history than in the other, although all
      that should have come first is the same in both. */
  ghost predicate Race(l: Logic, p: Plan, steps: seq<Step>, p': Plan, steps': seq<Step>, k: Key)
    requires History(p, steps) && History(p', steps')
  {
    var read, read' := ReadOf(p, steps, k), ReadOf(p', steps', k);
    && SameBefore(p.g, End(p, steps).rows, End(p', steps').rows, k)
    && read.Some? && read'.Some? && l.run(k, Scope(p.g, read.value, k)) != l.run(k, Scope(p.g, read'.value, k))
  }

  lemma {:induction false} ReadByNotApproval(p: Plan, m: Machine, steps: seq<Step>, k: Key)
    requires CanRun(p, m, steps) && ReadBy(p, m, steps, k).Some?
    ensures KindOf(p.g, k.id) != Approval
    decreases |steps|
  {
    if !Completes(p, m, steps[0], k) {
      ReadByNotApproval(p, Apply(p, m, steps[0]), steps[1..], k);
    }
  }

  lemma ReadNotApproval(p: Plan, steps: seq<Step>, k: Key)
    requires History(p, steps) && ReadOf(p, steps, k).Some?
    ensures KindOf(p.g, k.id) != Approval
  {
    ReadByNotApproval(p, Seeded(p), steps, k);
  }

  lemma RaceShows(l: Logic, p: Plan, steps: seq<Step>, p': Plan, steps': seq<Step>, k: Key)
    requires ByLogic(l, p, steps) && ByLogic(l, p', steps') && SameRun(p, p')
    requires Race(l, p, steps, p', steps', k)
    ensures End(p, steps).rows != End(p', steps').rows
  {
    ReadOfFacts(p, steps, k);
    ReadOfFacts(p', steps', k);
    ReadNotApproval(p, steps, k);
    ResultOf(l, p, steps, k);
    ResultOf(l, p', steps', k);
  }

  lemma CompletedFull(p: Plan, steps: seq<Step>)
    requires CompletedRight(p, steps)
    ensures Full(p.g, p.entry, End(p, steps).rows)
  {
    EndOf(p, steps);
    ClosedIffQuiescent(p.g, p.entry, End(p, steps).rows);
  }

  lemma SameTables(g: Graph, entry: Id, rows: Rows, rows': Rows)
    requires Full(g, entry, rows) && Full(g, entry, rows') && forall k :: Same(rows, rows', k)
    ensures rows == rows'
  {
    forall k
      ensures k in rows <==> k in rows'
      ensures k in rows && k in rows' ==> rows[k] == rows'[k]
    {
      assert Same(rows, rows', k);
    }
  }

  /** Two histories of one logic that both complete the run correctly leave the very same table if and
      only if there is no race between them. */
  lemma HistoriesConverge(l: Logic, p: Plan, steps: seq<Step>, p': Plan, steps': seq<Step>)
    requires ByLogic(l, p, steps) && ByLogic(l, p', steps') && SameRun(p, p')
    requires CompletedRight(p, steps) && CompletedRight(p', steps')
    ensures End(p, steps).rows == End(p', steps').rows <==> forall k :: !Race(l, p, steps, p', steps', k)
  {
    var rows, rows' := End(p, steps).rows, End(p', steps').rows;
    CompletedFull(p, steps);
    CompletedFull(p', steps');
    if k :| Race(l, p, steps, p', steps', k) {
      RaceShows(l, p, steps, p', steps', k);
    } else if k :| !Same(rows, rows', k) {
      var x := FirstDifference(p.g, p.entry, rows, rows', k);
      ResultOf(l, p, steps, x);
      ResultOf(l, p', steps', x);
      assert Race(l, p, steps, p', steps', x);
    } else {
      SameTables(p.g, p.entry, rows, rows');
    }
  }

  /** These rows show of what is visible to the key exactly what should come before it. */
  ghost predicate TimelyRows(g: Graph, read: Rows, rows: Rows, k: Key) {
    forall x {:trigger Visible(g, k, x)} :: Visible(g, k, x) ==> (Done(read, x) <==> Done(rows, x) && Earlier(g, k, x))
  }

  /** The execution has read what it should: everything visible that should have come first, and
      nothing that should not. */
  ghost predicate Timely(p: Plan, steps: seq<Step>, k: Key)
    requires History(p, steps) && ReadOf(p, steps, k).Some?
  {
    TimelyRows(p.g, ReadOf(p, steps, k).value, End(p, steps).rows, k)
  }

  lemma TimelySameScope(g: Graph, read: Rows, rows: Rows, read': Rows, rows': Rows, k: Key)
    requires RecordOnce(read, rows) && RecordOnce(read', rows') && SameBefore(g, rows, rows', k)
    requires TimelyRows(g, read, rows, k) && TimelyRows(g, read', rows', k)
    ensures Scope(g, read, k) == Scope(g, read', k)
  {
    forall x | Visible(g, k, x)
      ensures Same(read, read', x)
    {
      if Earlier(g, k, x) {
        assert Same(rows, rows', x);
      }
    }
    SameScope(g, read, read', k);
  }

  /** In a race at least one of the two has read too little or too much. */
  lemma RaceIsUntimely(l: Logic, p: Plan, steps: seq<Step>, p': Plan, steps': seq<Step>, k: Key)
    requires History(p, steps) && History(p', steps') && SameRun(p, p') && Race(l, p, steps, p', steps', k)
    ensures !Timely(p, steps, k) || !Timely(p', steps', k)
  {
    if Timely(p, steps, k) && Timely(p', steps', k) {
      ReadOfFacts(p, steps, k);
      ReadOfFacts(p', steps', k);
      TimelySameScope(p.g, ReadOf(p, steps, k).value, End(p, steps).rows, ReadOf(p', steps', k).value, End(p', steps').rows, k);
    }
  }

  /** So histories in which every execution is timely converge. */
  lemma TimelyHistoriesConverge(l: Logic, p: Plan, steps: seq<Step>, p': Plan, steps': seq<Step>)
    requires ByLogic(l, p, steps) && ByLogic(l, p', steps') && SameRun(p, p')
    requires CompletedRight(p, steps) && CompletedRight(p', steps')
    requires forall k :: ReadOf(p, steps, k).Some? ==> Timely(p, steps, k)
    requires forall k :: ReadOf(p', steps', k).Some? ==> Timely(p', steps', k)
    ensures End(p, steps).rows == End(p', steps').rows
  {
    HistoriesConverge(l, p, steps, p', steps');
    if k :| Race(l, p, steps, p', steps', k) {
      RaceIsUntimely(l, p, steps, p', steps', k);
    }
  }

  // ---- histories by a logic step by step ----

  ghost predicate LeadsBy(l: Logic, p: Plan, steps: seq<Step>, m: Machine) {
    ByLogic(l, p, steps) && End(p, steps) == m
  }

  lemma {:induction false} ObeyThen(l: Logic, p: Plan, m: Machine, steps: seq<Step>, s: Step)
    requires CanRun(p, m, steps) && AllObey(l, p, m, steps)
    requires Enabled(p, RunAll(p, m, steps), s) && Obeys(l, p, RunAll(p, m, steps), s)
    ensures CanRun(p, m, steps + [s]) && AllObey(l, p, m, steps + [s])
    decreases |steps|
  {
    RunThen(p, m, steps, s);
    if steps == [] {
      assert (steps + [s])[1..] == [];
    } else {
      assert (steps + [s])[1..] == steps[1..] + [s];
      ObeyThen(l, p, Apply(p, m, steps[0]), steps[1..], s);
    }
  }

  lemma ThenBy(l: Logic, p: Plan, steps: seq<Step>, m: Machine, s: Step) returns (longer: seq<Step>)
    requires LeadsBy(l, p, steps, m) && Enabled(p, m, s) && Agrees(p, m, s) && Obeys(l, p, m, s)
    ensures longer == steps + [s] && LeadsBy(l, p, longer, Apply(p, m, s))
  {
    longer := Then(p, steps, m, s);
    ObeyThen(l, p, Seeded(p), steps, s);
  }

  lemma LoadBy(l: Logic, p: Plan, steps: seq<Step>, rows: Rows) returns (longer: seq<Step>)
    requires LeadsBy(l, p, steps, Ran(rows, Off))
    ensures LeadsBy(l, p, longer, Ran(rows, Walking(rows)))
  {
    longer := ThenBy(l, p, steps, Ran(rows, Off), Begin);
    longer := ThenBy(l, p, longer, Ran(rows, Starting), Load);
  }

  lemma TurnBy(l: Logic, p: Plan, steps: seq<Step>, rows: Rows, ready: seq<Key>) returns (longer: seq<Step>)
    requires LeadsBy(l, p, steps, Ran(rows, Walking(rows))) && WithinCap(p.g, rows) && Batch(p.g, rows, ready)
    ensures LeadsBy(l, p, longer, Ran(rows, if ready == [] then Settling(rows) else Batching(rows, rows, ready, 0, false)))
  {
    longer := ThenBy(l, p, steps, Ran(rows, Walking(rows)), Turn(ready));
  }

  /** An execution that completes with what the logic makes of the rows read. */
  lemma CompleteBy(l: Logic, p: Plan, steps: seq<Step>, start: Rows, rows: Rows, ready: seq<Key>, next: nat, advanced: bool)
    returns (longer: seq<Step>)
    requires next < |ready| && ready[next] !in rows
    requires LeadsBy(l, p, steps, Ran(rows, Batching(start, rows, ready, next, advanced)))
    requires var k := ready[next];
             NodeRow(p.g, p.world, false, k).status == Completed && p.world(k) == l.run(k, Scope(p.g, start, k))
    ensures var rows' := rows[ready[next] := Row(Completed, p.world(ready[next]))];
            LeadsBy(l, p, longer, Ran(rows', Batching(start, rows', ready, next + 1, true)))
  {
    longer := ThenBy(l, p, steps, Ran(rows, Batching(start, rows, ready, next, advanced)), Record(false));
  }

  lemma CrashBy(l: Logic, p: Plan, steps: seq<Step>, rows: Rows, drive: Drive) returns (longer: seq<Step>)
    requires LeadsBy(l, p, steps, Ran(rows, drive))
    ensures LeadsBy(l, p, longer, Ran(rows, Off))
  {
    longer := ThenBy(l, p, steps, Ran(rows, drive), Crash);
  }

  lemma EndBatchBy(l: Logic, p: Plan, steps: seq<Step>, start: Rows, rows: Rows, ready: seq<Key>) returns (longer: seq<Step>)
    requires LeadsBy(l, p, steps, Ran(rows, Batching(start, rows, ready, |ready|, true)))
    ensures LeadsBy(l, p, longer, Ran(rows, Walking(rows)))
  {
    longer := ThenBy(l, p, steps, Ran(rows, Batching(start, rows, ready, |ready|, true)), EndBatch);
  }

  /** A drive that finds nothing to run and nothing parked. */
  lemma FinishBy(l: Logic, p: Plan, steps: seq<Step>, rows: Rows) returns (longer: seq<Step>)
    requires LeadsBy(l, p, steps, Ran(rows, Walking(rows))) && WithinCap(p.g, rows) && Batch(p.g, rows, []) && NoParkedRow(rows)
    ensures LeadsBy(l, p, longer, Ended(rows))
  {
    longer := TurnBy(l, p, steps, rows, []);
    longer := ThenBy(l, p, longer, Ran(rows, Settling(rows)), Look);
    longer := ThenBy(l, p, longer, Ran(rows, Completing(rows)), Complete);
  }
}
