/** A run's steps. */
module RunMachine {
  // The durable header and rows of one run, the drive under way with the rows it carries in memory, and
  // whatever else may write in between: decisions, timeouts, replays, kills and crashes. Every durable
  // write is a step of its own. A drive is under way at most once at a time (Lifecycle proves that).

  import opened Graphs
  import opened Interpreter
  import opened Walk
  import opened FlowRun

  datatype RunStatus = Running | RunCompleted | RunFailed | Cancelled

  /** Where the drive is. `carried` is its own copy of the rows, read once; `start` is what that copy was
      when the batch was computed. */
  datatype Drive =
    | Off
    | Starting
    | Walking(carried: Rows)
    | Batching(start: Rows, carried: Rows, ready: seq<Key>, next: nat, advanced: bool)
    | Failing
    | Settling(carried: Rows)
    | Completing(carried: Rows)

  /** Requests that have passed their first check or write and still owe a later one. */
  datatype Due = Due(fails: nat, deletes: nat, checks: nat, reopens: nat, kills: nat, sweeps: nat)

  const NOTHING_DUE := Due(0, 0, 0, 0, 0, 0)

  datatype Machine = Machine(rows: Rows, status: RunStatus, drive: Drive, due: Due)

  /** What never changes: the frozen graph, its entry, and the result each execution has. */
  datatype Plan = Plan(g: Graph, entry: Id, world: World)

  ghost predicate Runnable(p: Plan) {
    WellFormed(p.g) && HasNode(p.g, p.entry) && KindOf(p.g, p.entry) == Trigger
  }

  /** A run as it is seeded: the entry trigger completed with the payload. */
  function Seeded(p: Plan): Machine {
    Machine(map[Key(p.entry, 0) := Row(Completed, p.world(Key(p.entry, 0)))], Running, Off, NOTHING_DUE)
  }

  datatype Step =
    // the drive
    | Begin
    | Load
    | Turn(ready: seq<Key>)
    | Exceed(at: Id)
    | Record(failed: bool)
    | EndBatch
    | FailRun
    | Look
    | Complete
    | Stop
    // everybody else
    | Decide(node: Id, decision: string, reason: string)
    | Expire(node: Id)
    | FailExpired
    | AskReplay
    | DeleteFailed
    | CheckFailed
    | Reopen
    | AskKill
    | MarkKilled
    | Sweep
    | Crash

  predicate HasParked(rows: Rows, node: Id) {
    exists k :: k in rows && k.id == node && rows[k].status == Parked
  }

  ghost predicate Enabled(p: Plan, m: Machine, s: Step) {
    match s
    case Begin => m.drive.Off? && m.status == Running
    case Load => m.drive.Starting?
    case Turn(ready) => m.drive.Walking? && WithinCap(p.g, m.drive.carried) && Batch(p.g, m.drive.carried, ready)
    case Exceed(at) => m.drive.Walking? && CapExceeded(p.g, m.drive.carried, at)
    case Record(_) => m.drive.Batching? && m.drive.next < |m.drive.ready|
    case EndBatch => m.drive.Batching? && m.drive.next == |m.drive.ready|
    case FailRun => m.drive.Failing?
    case Look => m.drive.Settling?
    case Complete => m.drive.Completing?
    case Stop => !m.drive.Off?
    case Decide(node, decision, _) => decision in {"yes", "no"} && HasParked(m.rows, node)
    case Expire(node) => HasParked(m.rows, node)
    case FailExpired => m.due.fails > 0
    case AskReplay => m.status == RunFailed
    case DeleteFailed => m.due.deletes > 0
    case CheckFailed => m.due.checks > 0
    case Reopen => m.due.reopens > 0
    case AskKill => m.status == Running
    case MarkKilled => m.due.kills > 0
    case Sweep => m.due.sweeps > 0
    case Crash => true
  }

  /** Terminal states are written only over a running header: the first writer wins. */
  function Settle(status: RunStatus, to: RunStatus): RunStatus {
    if status == Running then to else status
  }

  function Recorded(p: Plan, m: Machine, failed: bool): Machine
    requires m.drive.Batching? && m.drive.next < |m.drive.ready|
  {
    var d := m.drive;
    var k := d.ready[d.next];
    var row := NodeRow(p.g, p.world, failed, k);
    var rows := InsertOnce(m.rows, k, row);
    if row.status == Failed then m.(rows := rows, drive := Failing)
    else m.(rows := rows,
            drive := d.(carried := d.carried[k := row], next := d.next + 1, advanced := d.advanced || row.status == Completed))
  }

  ghost function Apply(p: Plan, m: Machine, s: Step): Machine
    requires Enabled(p, m, s)
  {
    match s
    case Begin => m.(drive := Starting)
    case Load => m.(drive := Walking(m.rows))
    case Turn(ready) =>
      m.(drive := if ready == [] then Settling(m.drive.carried) else Batching(m.drive.carried, m.drive.carried, ready, 0, false))
    case Exceed(_) => m.(drive := Failing)
    case Record(failed) => Recorded(p, m, failed)
    case EndBatch => m.(drive := if m.drive.advanced then Walking(m.drive.carried) else Settling(m.drive.carried))
    case FailRun => m.(status := Settle(m.status, RunFailed), drive := Off)
    case Look => m.(drive := if HasRow(m.rows, Parked) then Off else Completing(m.drive.carried))
    case Complete => m.(status := Settle(m.status, RunCompleted), drive := Off)
    case Stop => m.(drive := Off)
    case Decide(node, decision, reason) => m.(rows := ResolveParked(m.rows, node, Row(Completed, Decision(decision, reason))))
    case Expire(node) =>
      m.(rows := ResolveParked(m.rows, node, Row(Failed, map["reason" := "approval timed out"])),
         due := m.due.(fails := m.due.fails + 1))
    case FailExpired => m.(status := Settle(m.status, RunFailed), due := m.due.(fails := m.due.fails - 1))
    case AskReplay => m.(due := m.due.(deletes := m.due.deletes + 1))
    case DeleteFailed =>
      m.(rows := WithoutFailed(m.rows), due := m.due.(deletes := m.due.deletes - 1, checks := m.due.checks + 1))
    case CheckFailed =>
      m.(due := m.due.(checks := m.due.checks - 1, reopens := m.due.reopens + if m.status == RunFailed then 1 else 0))
    case Reopen => m.(status := Running, due := m.due.(reopens := m.due.reopens - 1))
    case AskKill => m.(due := m.due.(kills := m.due.kills + 1))
    case MarkKilled =>
      m.(status := Settle(m.status, Cancelled), due := m.due.(kills := m.due.kills - 1, sweeps := m.due.sweeps + 1))
    case Sweep => m.(rows := SweepParked(m.rows), due := m.due.(sweeps := m.due.sweeps - 1))
    case Crash => m.(drive := Off, due := NOTHING_DUE)
  }

  /** What a run has settled as is changed by nothing but the reopening of a replay. */
  lemma TerminalStays(p: Plan, m: Machine, s: Step)
    requires Enabled(p, m, s) && m.status != Running
    ensures Apply(p, m, s).status == if s.Reopen? then Running else m.status
  {
  }

  /** A history: steps taken one after the other, each enabled where it is taken. */
  ghost predicate CanRun(p: Plan, m: Machine, steps: seq<Step>)
    decreases |steps|
  {
    steps == [] || (Enabled(p, m, steps[0]) && CanRun(p, Apply(p, m, steps[0]), steps[1..]))
  }

  ghost function RunAll(p: Plan, m: Machine, steps: seq<Step>): Machine
    requires CanRun(p, m, steps)
    decreases |steps|
  {
    if steps == [] then m else RunAll(p, Apply(p, m, steps[0]), steps[1..])
  }

  lemma {:induction false} RunThen(p: Plan, m: Machine, steps: seq<Step>, s: Step)
    requires CanRun(p, m, steps) && Enabled(p, RunAll(p, m, steps), s)
    ensures CanRun(p, m, steps + [s]) && RunAll(p, m, steps + [s]) == Apply(p, RunAll(p, m, steps), s)
    decreases |steps|
  {
    if steps == [] {
      assert steps + [s] == [s];
      assert CanRun(p, Apply(p, m, s), [s][1..]);
    } else {
      assert (steps + [s])[1..] == steps[1..] + [s];
      RunThen(p, Apply(p, m, steps[0]), steps[1..], s);
    }
  }

  // ---- what every history keeps ----

  /** The carried rows are an earlier state of the stored ones: since they were read, parked rows may have
      been settled and failed ones cleared, and nothing else. */
  ghost predicate Behind(carried: Rows, rows: Rows) {
    && (forall k :: k in rows ==> k in carried && (rows[k] == carried[k] || carried[k].status == Parked))
    && RecordOnce(carried, rows)
  }

  ghost predicate BatchKept(g: Graph, d: Drive)
    requires d.Batching?
  {
    && Batch(g, d.start, d.ready) && Kept(d.start, d.carried) && Covers(d.start, d.carried, d.ready, d.next)
    && (!d.advanced ==> OnlyParkedSince(d.start, d.carried)) && (d.advanced ==> Grew(d.start, d.carried))
  }

  ghost predicate DriveKept(p: Plan, m: Machine) {
    match m.drive
    case Off => true
    case Starting => true
    case Walking(carried) => Behind(carried, m.rows) && Sound(p.g, p.entry, carried)
    case Batching(start, carried, _, _, _) =>
      Behind(carried, m.rows) && Sound(p.g, p.entry, carried) && Sound(p.g, p.entry, start) && BatchKept(p.g, m.drive)
    case Failing => true
    case Settling(carried) => Behind(carried, m.rows) && Sound(p.g, p.entry, carried) && NothingReady(p.g, carried)
    case Completing(carried) =>
      Behind(carried, m.rows) && Sound(p.g, p.entry, carried) && NothingReady(p.g, carried) && NoParkedRow(m.rows)
  }

  ghost predicate Steady(p: Plan, m: Machine) {
    && Sound(p.g, p.entry, m.rows) && DriveKept(p, m)
    && (m.status == RunCompleted ==> m.drive.Off? && NoParkedRow(m.rows))
  }

  /** A drive about to complete its run, if it carries what is stored, leaves nothing that can run. */
  lemma CurrentRests(p: Plan, m: Machine)
    requires Steady(p, m) && m.drive.Completing? && m.drive.carried == m.rows
    ensures Quiescent(p.g, m.rows)
  {
    assert NothingReady(p.g, m.drive.carried) && NoParkedRow(m.rows);
  }

  /** A write by somebody other than the drive: it settles parked rows and clears failed ones. */
  ghost predicate Shrunk(rows: Rows, rows': Rows) {
    && (forall k :: k in rows' ==> k in rows && (rows'[k] == rows[k] || (rows[k].status == Parked && rows'[k].status != Parked)))
    && RecordOnce(rows, rows')
  }

  lemma UpdatesShrink(rows: Rows, node: Id, row: Row)
    requires row.status != Parked
    ensures Shrunk(rows, ResolveParked(rows, node, row)) && Shrunk(rows, WithoutFailed(rows)) && Shrunk(rows, SweepParked(rows))
  {
  }

  lemma ShrunkBehind(carried: Rows, rows: Rows, rows': Rows)
    requires Behind(carried, rows) && Shrunk(rows, rows')
    ensures Behind(carried, rows')
  {
  }

  lemma ShrunkKeepsSteady(p: Plan, m: Machine, rows': Rows)
    requires Steady(p, m) && Shrunk(m.rows, rows')
    ensures Steady(p, m.(rows := rows'))
  {
    ShrinkKeepsSound(p.g, p.entry, m.rows, rows');
    if m.drive.Walking? || m.drive.Batching? || m.drive.Settling? || m.drive.Completing? {
      ShrunkBehind(m.drive.carried, m.rows, rows');
    }
  }

  lemma RecordBehind(carried: Rows, rows: Rows, k: Key, row: Row)
    requires Behind(carried, rows) && k !in carried
    ensures k !in rows && Behind(carried[k := row], InsertOnce(rows, k, row))
  {
  }

  lemma RecordBatch(g: Graph, d: Drive, row: Row)
    requires d.Batching? && d.next < |d.ready| && BatchKept(g, d) && row.status != Failed
    ensures BatchKept(g, d.(carried := d.carried[d.ready[d.next] := row], next := d.next + 1,
                            advanced := d.advanced || row.status == Completed))
  {
    var k := d.ready[d.next];
    BatchKeyFresh(g, d.start, d.carried, d.ready, d.next);
    CoversNext(d.start, d.carried, d.ready, d.next, row);
    assert InsertOnce(d.carried, k, row) == d.carried[k := row];
    assert k in d.carried[k := row] && k !in d.start;
  }

  lemma RecordSound(p: Plan, d: Drive, rows: Rows, row: Row)
    requires d.Batching? && d.next < |d.ready| && BatchKept(p.g, d)
    requires Sound(p.g, p.entry, d.start) && Sound(p.g, p.entry, rows) && RecordOnce(d.start, rows)
    ensures d.ready[d.next] !in d.carried && Sound(p.g, p.entry, InsertOnce(rows, d.ready[d.next], row))
  {
    BatchKeyFresh(p.g, d.start, d.carried, d.ready, d.next);
    RecordKeepsSound(p.g, p.entry, d.start, rows, d.ready[d.next], row);
  }

  ghost predicate AtNode(p: Plan, m: Machine) {
    Steady(p, m) && m.drive.Batching? && m.drive.next < |m.drive.ready|
  }

  /** The key about to be recorded has no row yet, carried or stored: with one drive at a time the
      uniqueness constraint never refuses a row, and the re-read for a lost race is never needed. */
  lemma RecordIsFresh(p: Plan, m: Machine)
    requires AtNode(p, m)
    ensures var k := m.drive.ready[m.drive.next]; k !in m.drive.carried && k !in m.rows
  {
    var d := m.drive;
    BatchKeyFresh(p.g, d.start, d.carried, d.ready, d.next);
  }

  lemma StoredSound(p: Plan, m: Machine, row: Row)
    requires AtNode(p, m)
    ensures Sound(p.g, p.entry, InsertOnce(m.rows, m.drive.ready[m.drive.next], row))
  {
    RecordSound(p, m.drive, m.rows, row);
  }

  lemma CarriedSound(p: Plan, m: Machine, row: Row)
    requires AtNode(p, m)
    ensures Sound(p.g, p.entry, m.drive.carried[m.drive.ready[m.drive.next] := row])
  {
    var d := m.drive;
    var k := d.ready[d.next];
    RecordSound(p, d, d.carried, row);
    assert InsertOnce(d.carried, k, row) == d.carried[k := row];
  }

  lemma RecordedKeeps(p: Plan, m: Machine, failed: bool)
    requires AtNode(p, m)
    ensures Steady(p, Recorded(p, m, failed))
  {
    var d := m.drive;
    var k, row := d.ready[d.next], NodeRow(p.g, p.world, failed, d.ready[d.next]);
    StoredSound(p, m, row);
    if row.status != Failed {
      RecordIsFresh(p, m);
      CarriedSound(p, m, row);
      RecordBehind(d.carried, m.rows, k, row);
      RecordBatch(p.g, d, row);
    }
  }

  lemma RecordKeeps(p: Plan, m: Machine, failed: bool)
    requires Steady(p, m) && Enabled(p, m, Record(failed))
    ensures Steady(p, Apply(p, m, Record(failed)))
  {
    RecordedKeeps(p, m, failed);
  }

  lemma EndBatchKeeps(p: Plan, m: Machine)
    requires Steady(p, m) && Enabled(p, m, EndBatch)
    ensures Steady(p, Apply(p, m, EndBatch))
  {
    var d := m.drive;
    if !d.advanced {
      ParkedLeavesNothing(p.g, d.start, d.carried, d.ready);
    }
  }

  lemma TurnKeeps(p: Plan, m: Machine, ready: seq<Key>)
    requires Steady(p, m) && Enabled(p, m, Turn(ready))
    ensures Steady(p, Apply(p, m, Turn(ready)))
  {
    var c := m.drive.carried;
    if ready == [] {
      forall k
        ensures !Ready(p.g, c, k)
      {
        assert Ready(p.g, c, k) ==> k in ready;
      }
    }
  }

  lemma OthersKeep(p: Plan, m: Machine, s: Step)
    requires Steady(p, m) && Enabled(p, m, s) && (s.Decide? || s.Expire? || s.DeleteFailed? || s.Sweep?)
    ensures Steady(p, Apply(p, m, s))
  {
    var v := Apply(p, m, s);
    match s {
      case Decide(node, decision, reason) => UpdatesShrink(m.rows, node, Row(Completed, Decision(decision, reason)));
      case Expire(node) => UpdatesShrink(m.rows, node, Row(Failed, map["reason" := "approval timed out"]));
      case _ => UpdatesShrink(m.rows, p.entry, Row(Failed, map[]));
    }
    ShrunkKeepsSteady(p, m, v.rows);
  }

  lemma StepKeeps(p: Plan, m: Machine, s: Step)
    requires Steady(p, m) && Enabled(p, m, s)
    ensures Steady(p, Apply(p, m, s))
  {
    match s
    case Record(failed) => RecordKeeps(p, m, failed);
    case EndBatch => EndBatchKeeps(p, m);
    case Turn(ready) => TurnKeeps(p, m, ready);
    case Decide(_, _, _) => OthersKeep(p, m, s);
    case Expire(_) => OthersKeep(p, m, s);
    case DeleteFailed => OthersKeep(p, m, s);
    case Sweep => OthersKeep(p, m, s);
    case _ =>
  }

  lemma SeededSteady(p: Plan)
    requires Runnable(p)
    ensures Steady(p, Seeded(p))
  {
    assert CommittedIn(p.g, Seeded(p).rows, 0, Key(p.entry, 0));
  }

  lemma {:induction false} RunKeeps(p: Plan, m: Machine, steps: seq<Step>)
    requires Steady(p, m) && CanRun(p, m, steps)
    ensures Steady(p, RunAll(p, m, steps))
    decreases |steps|
  {
    if steps != [] {
      StepKeeps(p, m, steps[0]);
      RunKeeps(p, Apply(p, m, steps[0]), steps[1..]);
    }
  }
}
