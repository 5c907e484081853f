/** Histories. */
module RunHistory {
  // What holds after every history: any interleaving of the steps of drives with decisions, timeouts,
  // replays, kills and crashes, from the seeded run on.

  import opened Graphs
  import opened Interpreter
  import opened Walk
  import opened FlowRun
  import opened RunMachine

  // ---- histories that follow the run's results ----

  /** The results of a run are fixed in advance, a decision included; a decision made agrees with them
      when they give it at every iteration of the node that is parked, for the update is keyed by node. */
  ghost predicate Agrees(p: Plan, m: Machine, s: Step) {
    s.Decide? ==>
      forall k :: k in m.rows && k.id == s.node && m.rows[k].status == Parked ==> p.world(k) == Decision(s.decision, s.reason)
  }

  ghost predicate AllAgree(p: Plan, m: Machine, steps: seq<Step>)
    requires CanRun(p, m, steps)
    decreases |steps|
  {
    steps == [] || (Agrees(p, m, steps[0]) && AllAgree(p, Apply(p, m, steps[0]), steps[1..]))
  }

  /** A decision keeps the results if and only if they give it at every iteration the update touches. */
  lemma DecisionFollows(rows: Rows, nodeId: Id, result: map<string, string>, world: World)
    requires Follows(rows, world)
    ensures Follows(ResolveParked(rows, nodeId, Row(Completed, result)), world) <==>
            forall k :: k in rows && k.id == nodeId && rows[k].status == Parked ==> world(k) == result
  {
    var rows' := ResolveParked(rows, nodeId, Row(Completed, result));
    if Follows(rows', world) {
      forall k | k in rows && k.id == nodeId && rows[k].status == Parked ensures world(k) == result {
        assert Done(rows', k);
      }
    }
  }

  /** No other step records a result that is not the run's. */
  lemma StepFollows(p: Plan, m: Machine, s: Step)
    requires Enabled(p, m, s) && Follows(m.rows, p.world)
    ensures Follows(Apply(p, m, s).rows, p.world) <==> Agrees(p, m, s)
  {
    match s
    case Decide(node, decision, reason) => DecisionFollows(m.rows, node, Decision(decision, reason), p.world);
    case _ =>
  }

  lemma {:induction false} RunFollows(p: Plan, m: Machine, steps: seq<Step>)
    requires CanRun(p, m, steps) && Follows(m.rows, p.world) && AllAgree(p, m, steps)
    ensures Follows(RunAll(p, m, steps).rows, p.world)
    decreases |steps|
  {
    if steps != [] {
      StepFollows(p, m, steps[0]);
      RunFollows(p, Apply(p, m, steps[0]), steps[1..]);
    }
  }

  /** A history of the run, from its seeding on, whose decisions agree with its results. */
  ghost predicate History(p: Plan, steps: seq<Step>) {
    Runnable(p) && CanRun(p, Seeded(p), steps) && AllAgree(p, Seeded(p), steps)
  }

  ghost function End(p: Plan, steps: seq<Step>): Machine
    requires History(p, steps)
  {
    RunAll(p, Seeded(p), steps)
  }

  lemma EndOf(p: Plan, steps: seq<Step>)
    requires History(p, steps)
    ensures Steady(p, End(p, steps)) && Follows(End(p, steps).rows, p.world)
  {
    SeededSteady(p);
    RunKeeps(p, Seeded(p), steps);
    RunFollows(p, Seeded(p), steps);
  }

  // ---- what completed means ----

  /** A run that is marked completed has executed exactly what its results call for if and only if no row
      failed, none has led into a trigger, and nothing can run in the stored rows. The last is what the
      drive has found of the rows it carries, which may be older. */
  lemma CompletedRun(p: Plan, steps: seq<Step>)
    requires History(p, steps) && End(p, steps).status == RunCompleted
    ensures var rows := End(p, steps).rows;
            Accurate(p.g, p.entry, p.world, rows) <==>
            NoFailedRow(rows) && NoStrayTrigger(p.g, rows) && NothingReady(p.g, rows)
  {
    var rows := End(p, steps).rows;
    EndOf(p, steps);
    AccurateIffClosed(p.g, p.entry, p.world, rows);
    if NoFailedRow(rows) {
      ClosedIffQuiescent(p.g, p.entry, rows);
    }
  }

  /** Since it was read, this row has been settled or cleared. */
  predicate Overtaken(carried: Rows, rows: Rows, k: Key) {
    k in carried && (k !in rows || (carried[k].status == Parked && rows[k].status == Completed))
  }

  lemma UntouchedDecisions(g: Graph, carried: Rows, rows: Rows)
    requires Behind(carried, rows) && forall x :: !Overtaken(carried, rows, x)
    ensures SameDecisions(g, carried, rows) && forall x :: x in carried ==> x in rows
  {
    forall x
      ensures x in carried <==> x in rows
      ensures Done(rows, x) ==> carried[x] == rows[x]
    {
      assert !Overtaken(carried, rows, x);
    }
  }

  /** If something can run although the drive found nothing in the rows it carries, then somebody has
      settled or cleared a row behind its back. */
  lemma MissedIsOvertaken(p: Plan, m: Machine, k: Key)
    requires Steady(p, m) && (m.drive.Settling? || m.drive.Completing?) && Ready(p.g, m.rows, k)
    ensures exists x :: Overtaken(m.drive.carried, m.rows, x)
  {
    var c := m.drive.carried;
    if forall x :: !Overtaken(c, m.rows, x) {
      UntouchedDecisions(p.g, c, m.rows);
      ParkReadiesNothing(p.g, c, m.rows, k);
    }
  }

  predicate IsDriveStep(s: Step) {
    s.Load? || s.Turn? || s.Record? || s.EndBatch? || s.Look?
  }

  /** The rows carried are the rows stored. */
  ghost predicate Current(m: Machine) {
    match m.drive
    case Walking(carried) => carried == m.rows
    case Batching(_, carried, _, _, _) => carried == m.rows
    case Settling(carried) => carried == m.rows
    case Completing(carried) => carried == m.rows
    case _ => true
  }

  lemma RecordKeepsCurrent(p: Plan, m: Machine, failed: bool)
    requires AtNode(p, m) && Current(m)
    ensures Current(Recorded(p, m, failed))
  {
    RecordIsFresh(p, m);
  }

  lemma DriveStepKeepsCurrent(p: Plan, m: Machine, s: Step)
    requires Steady(p, m) && Current(m) && Enabled(p, m, s) && IsDriveStep(s)
    ensures Current(Apply(p, m, s))
  {
    match s
    case Record(failed) => RecordKeepsCurrent(p, m, failed);
    case _ =>
  }

  lemma {:induction false} QuietDriveCurrent(p: Plan, m: Machine, steps: seq<Step>)
    requires Steady(p, m) && Current(m) && CanRun(p, m, steps) && forall s :: s in steps ==> IsDriveStep(s)
    ensures Current(RunAll(p, m, steps)) && Steady(p, RunAll(p, m, steps))
    decreases |steps|
  {
    if steps != [] {
      assert steps[0] in steps;
      DriveStepKeepsCurrent(p, m, steps[0]);
      StepKeeps(p, m, steps[0]);
      QuietDriveCurrent(p, Apply(p, m, steps[0]), steps[1..]);
    }
  }

  /** A drive during which nobody else writes, once it completes its run, leaves nothing that can run. */
  lemma QuietDriveFinishes(p: Plan, m: Machine, steps: seq<Step>)
    requires Steady(p, m) && m.drive.Starting? && CanRun(p, m, steps)
    requires (forall s :: s in steps ==> IsDriveStep(s)) && RunAll(p, m, steps).drive.Completing?
    ensures Quiescent(p.g, RunAll(p, m, steps).rows)
  {
    QuietDriveCurrent(p, m, steps);
    CurrentRests(p, RunAll(p, m, steps));
  }

  // ---- what the results settle ----

  /** A history that completes the run, and correctly: what the stored rows show of it. */
  ghost predicate CompletedRight(p: Plan, steps: seq<Step>) {
    History(p, steps) && End(p, steps).status == RunCompleted &&
    var rows := End(p, steps).rows;
    NoFailedRow(rows) && NoStrayTrigger(p.g, rows) && NothingReady(p.g, rows)
  }

  /** The results of the one table, and where it has none those of the other. */
  ghost function Joint(rows: Rows, rows': Rows): World {
    (k: Key) => if Done(rows, k) then rows[k].result else if Done(rows', k) then rows'[k].result else map[]
  }

  /** Nothing executed is ever wasted: unless a key has come out differently in the two, all that any
      history has completed at any point is in the table of every history of that run that completes it
      correctly. Each history has results of its own. */
  lemma PartialIsPartOfFinal(p: Plan, partial: seq<Step>, p': Plan, final: seq<Step>)
    requires History(p, partial) && CompletedRight(p', final) && p.g == p'.g && p.entry == p'.entry
    ensures var rows, rows' := End(p, partial).rows, End(p', final).rows;
            RecordOnce(rows, rows') <==> forall k :: Done(rows, k) && Done(rows', k) ==> rows[k] == rows'[k]
  {
    var rows, rows' := End(p, partial).rows, End(p', final).rows;
    if forall k :: Done(rows, k) && Done(rows', k) ==> rows[k] == rows'[k] {
      var world := Joint(rows, rows');
      EndOf(p, partial);
      EndOf(p', final);
      ClosedIffQuiescent(p.g, p.entry, rows');
      ClosedIsAccurate(p.g, p.entry, world, rows');
      forall k | Done(rows, k)
        ensures Done(rows', k)
      {
        assert Committed(p.g, rows, k);
        CommittedIsDestined(p.g, p.entry, world, rows, k);
      }
    }
  }

  /** A completed row is never lost or changed, whatever happens next. */
  lemma StepRecordsOnce(p: Plan, m: Machine, s: Step)
    requires Enabled(p, m, s)
    ensures RecordOnce(m.rows, Apply(p, m, s).rows)
  {
  }

  lemma {:induction false} RunRecordsOnce(p: Plan, m: Machine, steps: seq<Step>)
    requires CanRun(p, m, steps)
    ensures RecordOnce(m.rows, RunAll(p, m, steps).rows)
    decreases |steps|
  {
    if steps != [] {
      StepRecordsOnce(p, m, steps[0]);
      RunRecordsOnce(p, Apply(p, m, steps[0]), steps[1..]);
    }
  }

  /** Speculation never executes: a row of any kind lies on the path the recorded decisions chose, and
      nothing that happens later cuts it off. */
  lemma RecordedStaysInPlay(p: Plan, m: Machine, steps: seq<Step>, k: Key)
    requires Steady(p, m) && CanRun(p, m, steps) && k in m.rows
    ensures Reached(p.g, RunAll(p, m, steps).rows, k)
  {
    RunRecordsOnce(p, m, steps);
    assert Committed(p.g, m.rows, k);
    CommittedMono(p.g, m.rows, RunAll(p, m, steps).rows, k);
    CommittedIsReached(p.g, RunAll(p, m, steps).rows, k);
  }

  // ---- histories step by step ----

  /** A history of these steps leads to this machine. */
  ghost predicate Leads(p: Plan, steps: seq<Step>, m: Machine) {
    History(p, steps) && End(p, steps) == m
  }

  lemma {:induction false} AgreeThen(p: Plan, m: Machine, steps: seq<Step>, s: Step)
    requires CanRun(p, m, steps) && AllAgree(p, m, steps)
    requires Enabled(p, RunAll(p, m, steps), s) && Agrees(p, RunAll(p, m, steps), s)
    ensures CanRun(p, m, steps + [s]) && AllAgree(p, m, steps + [s])
    decreases |steps|
  {
    RunThen(p, m, steps, s);
    if steps == [] {
      assert (steps + [s])[1..] == [];
    } else {
      assert (steps + [s])[1..] == steps[1..] + [s];
      AgreeThen(p, Apply(p, m, steps[0]), steps[1..], s);
    }
  }

  lemma Then(p: Plan, steps: seq<Step>, m: Machine, s: Step) returns (longer: seq<Step>)
    requires Leads(p, steps, m) && Enabled(p, m, s) && Agrees(p, m, s)
    ensures longer == steps + [s] && Leads(p, longer, Apply(p, m, s))
  {
    longer := steps + [s];
    AgreeThen(p, Seeded(p), steps, s);
    RunThen(p, Seeded(p), steps, s);
  }

  function Ran(rows: Rows, drive: Drive): Machine {
    Machine(rows, Running, drive, NOTHING_DUE)
  }

  function Ended(rows: Rows): Machine {
    Machine(rows, RunCompleted, Off, NOTHING_DUE)
  }

  lemma LoadThen(p: Plan, steps: seq<Step>, rows: Rows) returns (longer: seq<Step>)
    requires Leads(p, steps, Ran(rows, Off))
    ensures longer == steps + [Begin, Load] && Leads(p, longer, Ran(rows, Walking(rows)))
  {
    longer := Then(p, steps, Ran(rows, Off), Begin);
    longer := Then(p, longer, Ran(rows, Starting), Load);
  }

  lemma TurnThen(p: Plan, steps: seq<Step>, rows: Rows, ready: seq<Key>) returns (longer: seq<Step>)
    requires Leads(p, steps, Ran(rows, Walking(rows))) && WithinCap(p.g, rows) && Batch(p.g, rows, ready)
    ensures longer == steps + [Turn(ready)]
    ensures Leads(p, longer, Ran(rows, if ready == [] then Settling(rows) else Batching(rows, rows, ready, 0, false)))
  {
    longer := Then(p, steps, Ran(rows, Walking(rows)), Turn(ready));
  }

  lemma RecordThen(p: Plan, steps: seq<Step>, start: Rows, rows: Rows, ready: seq<Key>, next: nat, advanced: bool,
      failed: bool, row: Row) returns (longer: seq<Step>)
    requires next < |ready| && ready[next] !in rows && row == NodeRow(p.g, p.world, failed, ready[next])
    requires Leads(p, steps, Ran(rows, Batching(start, rows, ready, next, advanced)))
    ensures longer == steps + [Record(failed)]
    ensures var rows' := rows[ready[next] := row];
            Leads(p, longer, Ran(rows', if row.status == Failed then Failing
                                        else Batching(start, rows', ready, next + 1, advanced || row.status == Completed)))
  {
    longer := Then(p, steps, Ran(rows, Batching(start, rows, ready, next, advanced)), Record(failed));
  }

  lemma OnlyRecordThen(p: Plan, steps: seq<Step>, rows: Rows, k: Key, failed: bool, row: Row) returns (longer: seq<Step>)
    requires k !in rows && row == NodeRow(p.g, p.world, failed, k)
    requires Leads(p, steps, Ran(rows, Batching(rows, rows, [k], 0, false)))
    ensures longer == steps + [Record(failed)]
    ensures Leads(p, longer, Ran(rows[k := row], if row.status == Failed then Failing
                                                 else Batching(rows, rows[k := row], [k], 1, row.status == Completed)))
  {
    longer := RecordThen(p, steps, rows, rows, [k], 0, false, failed, row);
  }

  lemma EndBatchThen(p: Plan, steps: seq<Step>, start: Rows, rows: Rows, ready: seq<Key>, advanced: bool) returns (longer: seq<Step>)
    requires Leads(p, steps, Ran(rows, Batching(start, rows, ready, |ready|, advanced)))
    ensures longer == steps + [EndBatch]
    ensures Leads(p, longer, Ran(rows, if advanced then Walking(rows) else Settling(rows)))
  {
    longer := Then(p, steps, Ran(rows, Batching(start, rows, ready, |ready|, advanced)), EndBatch);
  }

  /** A turn that completes the one key it finds. */
  lemma OneRuns(p: Plan, steps: seq<Step>, rows: Rows, k: Key, row: Row) returns (longer: seq<Step>)
    requires Leads(p, steps, Ran(rows, Walking(rows))) && WithinCap(p.g, rows) && Batch(p.g, rows, [k]) && k !in rows
    requires row == NodeRow(p.g, p.world, false, k) && row.status == Completed
    ensures Leads(p, longer, Ran(rows[k := row], Walking(rows[k := row])))
  {
    longer := TurnThen(p, steps, rows, [k]);
    longer := RecordThen(p, longer, rows, rows, [k], 0, false, false, row);
    longer := EndBatchThen(p, longer, rows, rows[k := row], [k], true);
  }

  /** A turn that completes the first of two keys and parks the second. */
  lemma OneRunsOneParks(p: Plan, steps: seq<Step>, rows: Rows, k: Key, row: Row, l: Key, parked: Row) returns (longer: seq<Step>)
    requires Leads(p, steps, Ran(rows, Walking(rows))) && WithinCap(p.g, rows) && Batch(p.g, rows, [k, l])
    requires k !in rows && l !in rows && k != l
    requires row == NodeRow(p.g, p.world, false, k) && row.status == Completed
    requires parked == NodeRow(p.g, p.world, false, l) && parked.status == Parked
    ensures Leads(p, longer, Ran(rows[k := row][l := parked], Walking(rows[k := row][l := parked])))
  {
    longer := TurnThen(p, steps, rows, [k, l]);
    longer := RecordThen(p, longer, rows, rows, [k, l], 0, false, false, row);
    longer := RecordThen(p, longer, rows, rows[k := row], [k, l], 1, true, false, parked);
    longer := EndBatchThen(p, longer, rows, rows[k := row][l := parked], [k, l], true);
  }

  lemma FinishThen(p: Plan, steps: seq<Step>, rows: Rows, carried: Rows) returns (longer: seq<Step>)
    requires Leads(p, steps, Ran(rows, Settling(carried))) && NoParkedRow(rows)
    ensures longer == steps + [Look, Complete] && Leads(p, longer, Ended(rows))
  {
    longer := Then(p, steps, Ran(rows, Settling(carried)), Look);
    longer := Then(p, longer, Ran(rows, Completing(carried)), Complete);
  }

  lemma WaitThen(p: Plan, steps: seq<Step>, rows: Rows) returns (longer: seq<Step>)
    requires Leads(p, steps, Ran(rows, Settling(rows))) && HasRow(rows, Parked)
    ensures longer == steps + [Look] && Leads(p, longer, Ran(rows, Off))
  {
    longer := Then(p, steps, Ran(rows, Settling(rows)), Look);
  }

  lemma FinishedRun(p: Plan, steps: seq<Step>, rows: Rows)
    requires Leads(p, steps, Ended(rows))
    ensures Accurate(p.g, p.entry, p.world, rows) <==> NoFailedRow(rows) && NoStrayTrigger(p.g, rows) && NothingReady(p.g, rows)
  {
    CompletedRun(p, steps);
  }
}
