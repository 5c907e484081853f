/** Runs that end wrong, on graphs that are accepted. */
module Mishaps {
  // Concrete histories, on graphs the validator accepts, at which the conditions of the run theorems fail.

  import opened Graphs
  import opened DepthFirst
  import opened Interpreter
  import opened Walk
  import opened FlowRun
  import opened RunMachine
  import opened RunHistory
  import opened Validator

  const START := Id("start")
  const MID := Id("mid")
  const NEXT := Id("next")

  predicate Middle(kind: Kind) {
    kind == Action || kind == Approval || kind == Trigger
  }

  function RefOf(kind: Kind): string {
    if kind == Approval then "apf_1" else if kind == Trigger then "trg_2" else "fn_1"
  }

  function MidEdge(): Edge {
    Edge(Id("to mid"), START, MID, "")
  }

  function NextEdge(kind: Kind): Edge {
    Edge(Id("at last"), MID, NEXT, if kind == Approval then "yes" else "")
  }

  function MidNode(kind: Kind): Node {
    Plain(MID, kind, RefOf(kind))
  }

  const START_NODE := Plain(START, Trigger, "trg_1")
  const NEXT_NODE := Plain(NEXT, Action, "fn_2")

  /** trigger -> a node of some kind -> action. */
  function Line(kind: Kind): Graph {
    Graph([START_NODE, MidNode(kind), NEXT_NODE], [MidEdge(), NextEdge(kind)])
  }

  const START_0 := Key(START, 0)
  const MID_0 := Key(MID, 0)
  const NEXT_0 := Key(NEXT, 0)

  // ---- the line is a graph the validator accepts ----

  lemma LineNames(kind: Kind)
    ensures START != MID && MID != NEXT && START != NEXT && MidEdge().id != NextEdge(kind).id
  {
    assert START.name[0] == 's' && MID.name[0] == 'm' && NEXT.name[0] == 'n';
    assert MidEdge().id.name[0] == 't' && NextEdge(kind).id.name[0] == 'a';
  }

  lemma LineUnique(kind: Kind)
    ensures UniqueNodeIds(Line(kind).nodes) && UniqueEdgeIds(Line(kind).edges)
  {
    LineNames(kind);
    var g := Line(kind);
    assert forall i :: 0 <= i < 3 ==> Nth(g.nodes, i) == g.nodes[i];
    assert forall i :: 0 <= i < 2 ==> Nth(g.edges, i) == g.edges[i];
  }

  lemma LineFound(kind: Kind, n: Node)
    requires n in Line(kind).nodes
    ensures HasNode(Line(kind), n.id) && KindOf(Line(kind), n.id) == n.kind
  {
    LineUnique(kind);
    NodeByIdUnique(Line(kind).nodes, n);
    HasNodeIff(Line(kind), n.id);
  }

  lemma LineKinds(kind: Kind)
    ensures var g := Line(kind);
            && HasNode(g, START) && HasNode(g, MID) && HasNode(g, NEXT)
            && KindOf(g, START) == Trigger && KindOf(g, MID) == kind && KindOf(g, NEXT) == Action
  {
    var g := Line(kind);
    assert START_NODE in g.nodes && MidNode(kind) in g.nodes && NEXT_NODE in g.nodes;
    LineFound(kind, START_NODE);
    LineFound(kind, MidNode(kind));
    LineFound(kind, NEXT_NODE);
  }

  lemma LineAcyclic(kind: Kind)
    ensures Acyclic(EdgeSet(Line(kind).edges))
  {
    var rank := (id: Id) => if id == START then 0 else if id == MID then 1 else 2;
    LineNames(kind);
    RankedAcyclic(EdgeSet(Line(kind).edges), rank);
  }

  lemma LineWellFormed(kind: Kind)
    ensures WellFormed(Line(kind))
  {
    LineUnique(kind);
    LineKinds(kind);
  }

  lemma LineShape(kind: Kind)
    ensures WellFormed(Line(kind)) && LoopEdges(Line(kind)) == {}
  {
    LineWellFormed(kind);
    LineAcyclic(kind);
    WellFormedFromNodes(Line(kind));
    BackEmptyIffAcyclic(NodeIds(Line(kind).nodes), Line(kind).edges);
  }

  lemma NotSpace(s: string)
    requires s != [] && s[0] in {'s', 'm', 'n', 't', 'a', 'f', 'y'}
    ensures !IsBlank(s) && TrimLeft(s) == s
  {
    assert !IsSpace(s[0]);
  }

  lemma LineNamesFit(kind: Kind)
    ensures !IsBlank("start") && !IsBlank("mid") && !IsBlank("next") && !IsBlank(RefOf(kind))
  {
    NotSpace("start");
    NotSpace("mid");
    NotSpace("next");
    NotSpace(RefOf(kind));
  }

  lemma MidFits(kind: Kind)
    requires Middle(kind)
    ensures NodeFits(MidNode(kind))
  {
    LineNamesFit(kind);
    NotSpace(RefOf(kind));
  }

  lemma LineNodesFit(kind: Kind)
    requires Middle(kind)
    ensures NodesFit(Line(kind))
  {
    LineNamesFit(kind);
    NotSpace("trg_1");
    NotSpace("fn_2");
    assert NodeFits(START_NODE) && NodeFits(NEXT_NODE);
    MidFits(kind);
  }

  lemma LineEdgesFit(kind: Kind)
    requires Middle(kind)
    ensures EdgesFit(Line(kind))
  {
    LineKinds(kind);
    LineNames(kind);
    NotSpace("to mid");
    NotSpace("at last");
    assert EdgeFits(Line(kind), MidEdge()) && EdgeFits(Line(kind), NextEdge(kind));
  }

  lemma LineReached(kind: Kind)
    ensures AllReached(Line(kind)) && HasTrigger(Line(kind))
  {
    var g := Line(kind);
    var es := EdgeSet(g.edges);
    assert START_NODE in g.nodes && MidEdge() in g.edges && NextEdge(kind) in g.edges;
    ReachRefl(es, START);
    ReachEdge(es, MidEdge());
    ReachEdge(es, NextEdge(kind));
    ReachTrans(es, START, MID, NEXT);
  }

  lemma LineAccepted(kind: Kind)
    requires Middle(kind)
    ensures Accepts(Line(kind))
  {
    LineShape(kind);
    LineNodesFit(kind);
    LineEdgesFit(kind);
    LineReached(kind);
  }

  // ---- what can run on it ----

  /** Without loop edges everything stays at iteration 0. */
  lemma {:induction false} NoLoopsNoIterations(g: Graph, rows: Rows, n: nat, k: Key)
    requires LoopEdges(g) == {} && ReachedIn(g, rows, n, k)
    ensures k.iter == 0
  {
    if n > 0 {
      var src :| ReachedIn(g, rows, n - 1, src) && Link(g, rows, src, k);
      NoLoopsNoIterations(g, rows, n - 1, src);
    }
  }

  lemma NoLoopsWithinCap(g: Graph, rows: Rows)
    requires LoopEdges(g) == {}
    ensures WithinCap(g, rows)
  {
  }

  lemma LineFeeds(kind: Kind, e: Edge, src: Key, k: Key)
    requires Feeds(Line(kind), e, src, k)
    ensures src.iter == k.iter && (if k.id == MID then e == MidEdge() && src.id == START else e == NextEdge(kind) && src.id == MID && k.id == NEXT)
  {
    LineShape(kind);
    LineNames(kind);
    assert e == MidEdge() || e == NextEdge(kind);
  }

  /** Nothing but the middle node can run before that node is completed. */
  lemma LineReady(kind: Kind, rows: Rows, k: Key)
    requires !Done(rows, MID_0) && Ready(Line(kind), rows, k)
    ensures k == MID_0 && kind != Trigger
  {
    var g := Line(kind);
    LineShape(kind);
    LineKinds(kind);
    var n: nat :| ReachedIn(g, rows, n, k);
    NoLoopsNoIterations(g, rows, n, k);
    var e, src :| LiveIn(g, rows, e, src, k);
    LineFeeds(kind, e, src, k);
  }

  lemma LineMidReached(kind: Kind, rows: Rows)
    requires Done(rows, START_0)
    ensures Reached(Line(kind), rows, START_0) && Reached(Line(kind), rows, MID_0)
    ensures LiveIn(Line(kind), rows, MidEdge(), START_0, MID_0)
  {
    var g := Line(kind);
    LineShape(kind);
    LineKinds(kind);
    assert Seed(g, rows, START_0);
    ReachedSeed(g, rows, START_0);
    assert MidEdge() in g.edges && Passes(g, rows, MidEdge(), 0);
    assert Link(g, rows, START_0, MID_0);
    ReachedStep(g, rows, START_0, MID_0);
  }

  lemma LineMidReady(kind: Kind, rows: Rows)
    requires kind != Trigger && Done(rows, START_0) && MID_0 !in rows
    ensures Ready(Line(kind), rows, MID_0)
  {
    var g := Line(kind);
    LineKinds(kind);
    LineMidReached(kind, rows);
    forall e, src | LiveIn(g, rows, e, src, MID_0)
      ensures Done(rows, src)
    {
      LineFeeds(kind, e, src, MID_0);
    }
  }

  /** The first batch of a drive. */
  lemma LineFirstBatch(kind: Kind, rows: Rows)
    requires kind != Trigger && Done(rows, START_0) && MID_0 !in rows
    ensures Batch(Line(kind), rows, [MID_0])
  {
    LineMidReady(kind, rows);
    forall k
      ensures k in [MID_0] <==> Ready(Line(kind), rows, k)
    {
      if Ready(Line(kind), rows, k) {
        LineReady(kind, rows, k);
      }
    }
  }

  /** And the empty one of a drive that finds the middle node a trigger, or recorded but not completed. */
  lemma LineEmptyBatch(kind: Kind, rows: Rows)
    requires !Done(rows, MID_0) && (kind == Trigger || MID_0 in rows)
    ensures Batch(Line(kind), rows, [])
  {
    forall k
      ensures !Ready(Line(kind), rows, k)
    {
      if Ready(Line(kind), rows, k) {
        LineReady(kind, rows, k);
      }
    }
  }

  // ---- the histories ----

  /** A run of the line whose approval, if that is what it has, says yes. */
  function LineWorld(kind: Kind): World {
    (k: Key) => if k.id == MID && kind == Approval then Decision("yes", "") else map[]
  }

  function LinePlan(kind: Kind): Plan {
    Plan(Line(kind), START, LineWorld(kind))
  }

  lemma LineRunnable(kind: Kind)
    ensures Runnable(LinePlan(kind))
  {
    LineShape(kind);
    LineKinds(kind);
  }

  const NO_RESULT: map<string, string> := map[]

  const SEEDED: Rows := map[START_0 := Row(Completed, NO_RESULT)]

  /** Every drive of the line starts alike. */
  lemma LineLoaded(kind: Kind) returns (steps: seq<Step>)
    ensures steps == [Begin, Load] && Leads(LinePlan(kind), steps, Ran(SEEDED, Walking(SEEDED)))
  {
    var p := LinePlan(kind);
    LineRunnable(kind);
    LineNames(kind);
    assert Seeded(p) == Ran(SEEDED, Off);
    assert Leads(p, [], Seeded(p));
    steps := LoadThen(p, [], SEEDED);
  }

  lemma LineTurned(kind: Kind) returns (steps: seq<Step>)
    requires kind != Trigger
    ensures steps == [Begin, Load] + [Turn([MID_0])] && MID_0 !in SEEDED
    ensures Leads(LinePlan(kind), steps, Ran(SEEDED, Batching(SEEDED, SEEDED, [MID_0], 0, false)))
  {
    LineNames(kind);
    LineShape(kind);
    LineFirstBatch(kind, SEEDED);
    NoLoopsWithinCap(Line(kind), SEEDED);
    steps := LineLoaded(kind);
    steps := TurnThen(LinePlan(kind), steps, SEEDED, [MID_0]);
  }

  /** Up to the row of the middle node. */
  lemma LineRecorded(kind: Kind, failed: bool, row: Row) returns (steps: seq<Step>)
    requires kind != Trigger && row == NodeRow(Line(kind), LineWorld(kind), failed, MID_0)
    ensures steps == [Begin, Load] + [Turn([MID_0])] + [Record(failed)]
    ensures Leads(LinePlan(kind), steps, Ran(SEEDED[MID_0 := row], if row.status == Failed then Failing
                                             else Batching(SEEDED, SEEDED[MID_0 := row], [MID_0], 1, row.status == Completed)))
  {
    steps := LineTurned(kind);
    steps := OnlyRecordThen(LinePlan(kind), steps, SEEDED, MID_0, failed, row);
  }

  const PARKED_ROW := Row(Parked, NO_RESULT)
  const PARKED: Rows := SEEDED[MID_0 := PARKED_ROW]
  const DECIDED: Rows := SEEDED[MID_0 := Row(Completed, Decision("yes", ""))]

  lemma StaleDecision()
    ensures HasParked(PARKED, MID) && ResolveParked(PARKED, MID, Row(Completed, Decision("yes", ""))) == DECIDED
    ensures forall k :: k in PARKED && k.id == MID ==> k == MID_0
    ensures NoParkedRow(DECIDED) && NEXT_0 !in DECIDED
  {
    LineNames(Approval);
    assert MID_0 in PARKED;
  }

  lemma DecideThen(p: Plan, steps: seq<Step>, carried: Rows, rows: Rows, k: Key, reason: string) returns (longer: seq<Step>)
    requires Leads(p, steps, Ran(rows, Settling(carried))) && HasParked(rows, k.id) && p.world(k) == Decision("yes", reason)
    requires forall x :: x in rows && x.id == k.id && rows[x].status == Parked ==> x == k
    ensures longer == steps + [Decide(k.id, "yes", reason)]
    ensures Leads(p, longer, Ran(ResolveParked(rows, k.id, Row(Completed, Decision("yes", reason))), Settling(carried)))
  {
    longer := Then(p, steps, Ran(rows, Settling(carried)), Decide(k.id, "yes", reason));
  }

  lemma ParkedSteps() returns (steps: seq<Step>)
    ensures steps == [Begin, Load] + [Turn([MID_0])] + [Record(false)] + [EndBatch]
    ensures Leads(LinePlan(Approval), steps, Ran(PARKED, Settling(PARKED)))
  {
    LineKinds(Approval);
    steps := LineRecorded(Approval, false, PARKED_ROW);
    steps := EndBatchThen(LinePlan(Approval), steps, SEEDED, PARKED, [MID_0], false);
  }

  lemma StaleSteps() returns (steps: seq<Step>)
    ensures steps == [Begin, Load] + [Turn([MID_0])] + [Record(false)] + [EndBatch] + [Decide(MID, "yes", "")]
    ensures Leads(LinePlan(Approval), steps, Ran(DECIDED, Settling(PARKED)))
  {
    StaleDecision();
    steps := ParkedSteps();
    steps := DecideThen(LinePlan(Approval), steps, PARKED, PARKED, MID_0, "");
  }

  lemma LineNextReached(rows: Rows)
    requires Done(rows, START_0) && Done(rows, MID_0) && Field(rows[MID_0].result, "decision") == "yes"
    ensures Reached(Line(Approval), rows, NEXT_0) && LiveIn(Line(Approval), rows, NextEdge(Approval), MID_0, NEXT_0)
  {
    var g, e := Line(Approval), NextEdge(Approval);
    LineKinds(Approval);
    LineMidReached(Approval, rows);
    LineShape(Approval);
    assert e in g.edges && Taken(g, rows, e, 0) && Feeds(g, e, MID_0, NEXT_0);
    assert Link(g, rows, MID_0, NEXT_0);
    ReachedStep(g, rows, MID_0, NEXT_0);
  }

  /** The last node can run once the approval has said yes. */
  lemma LineNextReady(rows: Rows)
    requires Done(rows, START_0) && Done(rows, MID_0) && Field(rows[MID_0].result, "decision") == "yes" && NEXT_0 !in rows
    ensures Ready(Line(Approval), rows, NEXT_0)
  {
    LineKinds(Approval);
    LineNames(Approval);
    LineNextReached(rows);
    forall e, src | LiveIn(Line(Approval), rows, e, src, NEXT_0)
      ensures Done(rows, src)
    {
      LineFeeds(Approval, e, src, NEXT_0);
    }
  }

  lemma StaleFinish() returns (steps: seq<Step>)
    ensures Leads(LinePlan(Approval), steps, Ended(DECIDED))
    ensures steps == [Begin, Load] + [Turn([MID_0])] + [Record(false)] + [EndBatch] + [Decide(MID, "yes", "")] + [Look, Complete]
  {
    StaleDecision();
    steps := StaleSteps();
    steps := FinishThen(LinePlan(Approval), steps, DECIDED, PARKED);
  }

  lemma StaleMisses(steps: seq<Step>)
    requires Leads(LinePlan(Approval), steps, Ended(DECIDED))
    ensures Ready(Line(Approval), DECIDED, NEXT_0) && !Accurate(Line(Approval), START, LineWorld(Approval), DECIDED)
  {
    StaleDecision();
    LineNextReady(DECIDED);
    FinishedRun(LinePlan(Approval), steps, DECIDED);
  }

  /** An approval decided while the drive that parked it is under way: the drive still carries it as parked
      and finds nothing ready, then sees no parked row in the store and completes the run. The node the
      decision leads to has no row and never gets one: a completed run is not driven again. */
  lemma StaleDriveCompletes() returns (steps: seq<Step>)
    ensures steps == [Begin, Load] + [Turn([MID_0])] + [Record(false)] + [EndBatch] + [Decide(MID, "yes", "")] + [Look, Complete]
    ensures Accepts(Line(Approval)) && Leads(LinePlan(Approval), steps, Ended(DECIDED))
    ensures NEXT_0 !in DECIDED && !Enabled(LinePlan(Approval), Ended(DECIDED), Begin)
    ensures Ready(Line(Approval), DECIDED, NEXT_0) && !Accurate(Line(Approval), START, LineWorld(Approval), DECIDED)
  {
    steps := StaleFinish();
    StaleMisses(steps);
    StaleDecision();
    LineAccepted(Approval);
  }

  const FAILED_ROW := Row(Failed, NO_RESULT)
  const FAILED: Rows := SEEDED[MID_0 := FAILED_ROW]

  lemma CrashedSteps() returns (steps: seq<Step>)
    ensures steps == [Begin, Load] + [Turn([MID_0])] + [Record(true)] + [Crash]
    ensures Leads(LinePlan(Action), steps, Ran(FAILED, Off))
  {
    steps := LineRecorded(Action, true, FAILED_ROW);
    steps := Then(LinePlan(Action), steps, Ran(FAILED, Failing), Crash);
  }

  lemma NothingParkedYet(kind: Kind)
    ensures NoParkedRow(FAILED) && NoParkedRow(SEEDED) && MID_0 in FAILED && !Done(FAILED, MID_0) && MID_0 !in SEEDED
  {
    LineNames(kind);
  }

  /** A drive of a line on which nothing can run. */
  lemma IdleDrive(kind: Kind, steps0: seq<Step>, rows: Rows) returns (steps: seq<Step>)
    requires Leads(LinePlan(kind), steps0, Ran(rows, Walking(rows))) && NoParkedRow(rows)
    requires !Done(rows, MID_0) && (kind == Trigger || MID_0 in rows)
    ensures steps == steps0 + [Turn([])] + [Look, Complete] && Leads(LinePlan(kind), steps, Ended(rows))
  {
    LineShape(kind);
    LineEmptyBatch(kind, rows);
    NoLoopsWithinCap(Line(kind), rows);
    steps := TurnThen(LinePlan(kind), steps0, rows, []);
    steps := FinishThen(LinePlan(kind), steps, rows, rows);
  }

  /** A crash between the two writes of a node failure - the failed row, then the run header - leaves a
      running run whose next drive finds nothing ready and completes it. */
  lemma CrashedFailureLooksComplete() returns (steps: seq<Step>)
    ensures steps == [Begin, Load] + [Turn([MID_0])] + [Record(true)] + [Crash] + [Begin, Load] + [Turn([])] + [Look, Complete]
    ensures Accepts(Line(Action)) && Leads(LinePlan(Action), steps, Ended(FAILED))
    ensures FAILED[MID_0].status == Failed && !Accurate(Line(Action), START, LineWorld(Action), FAILED)
  {
    LineAccepted(Action);
    NothingParkedYet(Action);
    steps := CrashedSteps();
    steps := LoadThen(LinePlan(Action), steps, FAILED);
    steps := IdleDrive(Action, steps, FAILED);
    FinishedRun(LinePlan(Action), steps, FAILED);
  }

  lemma LineStray()
    ensures StrayTrigger(Line(Trigger), SEEDED, MID_0)
  {
    var g := Line(Trigger);
    LineKinds(Trigger);
    LineNames(Trigger);
    LineShape(Trigger);
    assert MidEdge() in g.edges && Taken(g, SEEDED, MidEdge(), 0) && Feeds(g, MidEdge(), START_0, MID_0);
  }

  /** An edge into a trigger node, which the validator allows: the run completes after its entry alone,
      although the edge has been taken. */
  lemma StrayTriggerLooksComplete() returns (steps: seq<Step>)
    ensures steps == [Begin, Load] + [Turn([])] + [Look, Complete]
    ensures Accepts(Line(Trigger)) && Leads(LinePlan(Trigger), steps, Ended(SEEDED))
    ensures StrayTrigger(Line(Trigger), SEEDED, MID_0) && !Accurate(Line(Trigger), START, LineWorld(Trigger), SEEDED)
  {
    LineAccepted(Trigger);
    NothingParkedYet(Trigger);
    steps := LineLoaded(Trigger);
    steps := IdleDrive(Trigger, steps, SEEDED);
    LineStray();
    FinishedRun(LinePlan(Trigger), steps, SEEDED);
  }
}
