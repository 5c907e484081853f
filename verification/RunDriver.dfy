/** The driver of a run, write by write. */
module RunDriver {
  // The service's own loops over the stored fields of one run. Before each of its store accesses the
  // drive lets others write; every write, its own and theirs, is one step of the machine.

  import opened Graphs
  import opened Interpreter
  import opened Walk
  import opened FlowRun
  import opened RunMachine

  /** How a drive ended. `Interrupted` is a crash, a cancelled context or a failing store. */
  datatype DriveEnd = NotRunning | Interrupted | Overflow(at: Id) | NodeFailed | Waiting | Finished

  datatype TurnEnd = TurnOverflow(at: Id) | TurnIdle | TurnAdvanced | TurnFailed | TurnInterrupted

  /** The last step of a drive that ended so. */
  ghost predicate EndsWith(trace: seq<Step>, end: DriveEnd) {
    trace != [] &&
    var last := trace[|trace| - 1];
    match end
    case NotRunning => true
    case Interrupted => last == Stop
    case Overflow(_) => last == FailRun
    case NodeFailed => last == FailRun
    case Waiting => last == Look
    case Finished => last == Complete
  }

  /** At some store access the drive dies. */
  ghost predicate Dies(stops: nat -> bool) {
    exists n: nat :: stops(n)
  }

  /** Nobody writes while the drive is under way. */
  ghost predicate Undisturbed(others: nat -> seq<Step>) {
    forall n: nat :: others(n) == []
  }

  class Run {
    const plan: Plan
    var rows: Rows
    var status: RunStatus
    var due: Due
    var clock: nat
    ghost var trace: seq<Step>

    ghost function State(d: Drive): Machine
      reads this
    {
      Machine(rows, status, d, due)
    }

    /** The fields are where the steps taken so far lead, with the drive at `d`. */
    ghost predicate At(d: Drive)
      reads this
    {
      Runnable(plan) && CanRun(plan, Seeded(plan), trace) && RunAll(plan, Seeded(plan), trace) == State(d)
    }

    lemma Know(d: Drive)
      requires At(d)
      ensures Steady(plan, State(d))
    {
      SeededSteady(plan);
      RunKeeps(plan, Seeded(plan), trace);
    }

    lemma Next(d: Drive, s: Step)
      requires At(d) && Enabled(plan, State(d), s)
      ensures CanRun(plan, Seeded(plan), trace + [s])
      ensures RunAll(plan, Seeded(plan), trace + [s]) == Apply(plan, State(d), s)
    {
      RunThen(plan, Seeded(plan), trace, s);
    }

    /** A step that moves the drive and writes nothing. */
    ghost method Note(d: Drive, s: Step)
      requires At(d) && Enabled(plan, State(d), s) && Apply(plan, State(d), s) == State(Apply(plan, State(d), s).drive)
      modifies this`trace
      ensures At(Apply(plan, old(State(d)), s).drive) && trace == old(trace) + [s]
    {
      Next(d, s);
      trace := trace + [s];
    }

    /** Seeds the entry trigger with the payload, completed at iteration 0. */
    constructor (plan: Plan)
      requires Runnable(plan)
      ensures this.plan == plan && trace == [] && At(Off)
      ensures rows == Seeded(plan).rows && status == Running && due == NOTHING_DUE
    {
      this.plan := plan;
      rows := map[Key(plan.entry, 0) := Row(Completed, plan.world(Key(plan.entry, 0)))];
      status := Running;
      due := NOTHING_DUE;
      clock := 0;
      trace := [];
    }

    // ---- what others may write, whatever the drive is doing ----

    /** A human decision, or a timeout that decides: only a parked row can take it. */
    method DecideApproval(node: Id, decision: string, reason: string, ghost d: Drive) returns (won: bool)
      requires At(d)
      modifies this`rows, this`trace
      ensures At(d) && (won <==> decision in {"yes", "no"} && HasParked(old(rows), node))
      ensures rows == if won then ResolveParked(old(rows), node, Row(Completed, Decision(decision, reason))) else old(rows)
      ensures won ==> forall k :: k in rows <==> k in old(rows)
      ensures won ==> forall k :: k in rows ==>
                rows[k] == if k.id == node && old(rows)[k].status == Parked then Row(Completed, Decision(decision, reason)) else old(rows)[k]
      ensures trace == old(trace) + if won then [Decide(node, decision, reason)] else []
    {
      if decision !in {"yes", "no"} || !HasParked(rows, node) {
        return false;
      }
      Next(d, Decide(node, decision, reason));
      rows := ResolveParked(rows, node, Row(Completed, Decision(decision, reason)));
      trace := trace + [Decide(node, decision, reason)];
      return true;
    }

    method FailHeader(ghost d: Drive)
      requires At(d) && due.fails > 0
      modifies this`status, this`due, this`trace
      ensures At(d) && status == Settle(old(status), RunFailed) && trace == old(trace) + [FailExpired]
    {
      Next(d, FailExpired);
      status := Settle(status, RunFailed);
      due := due.(fails := due.fails - 1);
      trace := trace + [FailExpired];
    }

    /** A timeout that fails its run: the node row, then the header unless the process dies between. */
    method TimeoutFails(node: Id, crash: bool, ghost d: Drive) returns (won: bool)
      requires At(d)
      modifies this`rows, this`status, this`due, this`trace
      ensures At(d) && (won <==> HasParked(old(rows), node))
      ensures rows == if won then ResolveParked(old(rows), node, Row(Failed, map["reason" := "approval timed out"])) else old(rows)
      ensures status == if won && !crash then Settle(old(status), RunFailed) else old(status)
      ensures old(trace) <= trace
    {
      won := HasParked(rows, node);
      if won {
        Next(d, Expire(node));
        rows := ResolveParked(rows, node, Row(Failed, map["reason" := "approval timed out"]));
        due := due.(fails := due.fails + 1);
        trace := trace + [Expire(node)];
        if !crash {
          FailHeader(d);
        }
      }
    }

    method CheckReplayable(ghost d: Drive) returns (ok: bool)
      requires At(d)
      modifies this`due, this`trace
      ensures At(d) && (ok <==> status == RunFailed) && old(trace) <= trace
      ensures due == if ok then old(due).(deletes := old(due).deletes + 1) else old(due)
    {
      ok := status == RunFailed;
      if ok {
        Next(d, AskReplay);
        due := due.(deletes := due.deletes + 1);
        trace := trace + [AskReplay];
      }
    }

    method DeleteFailedNodes(ghost d: Drive)
      requires At(d) && due.deletes > 0
      modifies this`rows, this`due, this`trace
      ensures At(d) && rows == WithoutFailed(old(rows)) && trace == old(trace) + [DeleteFailed]
      ensures NoFailedRow(rows) && forall k :: k in rows <==> k in old(rows) && old(rows)[k].status != Failed
      ensures forall k :: k in rows ==> rows[k] == old(rows)[k]
      ensures due == old(due).(deletes := old(due).deletes - 1, checks := old(due).checks + 1)
    {
      Next(d, DeleteFailed);
      rows := WithoutFailed(rows);
      due := due.(deletes := due.deletes - 1, checks := due.checks + 1);
      trace := trace + [DeleteFailed];
    }

    method CheckStillFailed(ghost d: Drive) returns (failed: bool)
      requires At(d) && due.checks > 0
      modifies this`due, this`trace
      ensures At(d) && (failed <==> status == RunFailed) && trace == old(trace) + [CheckFailed]
      ensures due == old(due).(checks := old(due).checks - 1, reopens := old(due).reopens + if failed then 1 else 0)
    {
      Next(d, CheckFailed);
      failed := status == RunFailed;
      due := due.(checks := due.checks - 1, reopens := due.reopens + if failed then 1 else 0);
      trace := trace + [CheckFailed];
    }

    method WriteReopened(ghost d: Drive)
      requires At(d) && due.reopens > 0
      modifies this`status, this`due, this`trace
      ensures At(d) && status == Running && trace == old(trace) + [Reopen]
    {
      Next(d, Reopen);
      status := Running;
      due := due.(reopens := due.reopens - 1);
      trace := trace + [Reopen];
    }

    /** The store looks at the header again before it reopens it, without a condition on the write. */
    method ReopenForReplay(ghost d: Drive)
      requires At(d) && due.checks > 0
      modifies this`status, this`due, this`trace
      ensures At(d) && status == (if old(status) == RunFailed then Running else old(status)) && old(trace) <= trace
    {
      var failed := CheckStillFailed(d);
      if failed {
        WriteReopened(d);
      }
    }

    /** Replay of a failed run: clear its failed rows, then reopen it unless the process dies between. */
    method Replay(crash: bool, ghost d: Drive) returns (ok: bool)
      requires At(d)
      modifies this`rows, this`status, this`due, this`trace
      ensures At(d) && (ok <==> old(status) == RunFailed)
      ensures rows == if ok then WithoutFailed(old(rows)) else old(rows)
      ensures ok ==> NoFailedRow(rows) && forall k :: k in rows <==> k in old(rows) && old(rows)[k].status != Failed
      ensures forall k :: k in rows ==> k in old(rows) && rows[k] == old(rows)[k]
      ensures status == if ok && !crash then Running else old(status)
      ensures old(trace) <= trace
    {
      ok := CheckReplayable(d);
      if ok {
        DeleteFailedNodes(d);
        if !crash {
          ReopenForReplay(d);
        }
      }
    }

    method ListRunning(ghost d: Drive) returns (listed: bool)
      requires At(d)
      modifies this`due, this`trace
      ensures At(d) && (listed <==> status == Running) && old(trace) <= trace
      ensures due == if listed then old(due).(kills := old(due).kills + 1) else old(due)
    {
      listed := status == Running;
      if listed {
        Next(d, AskKill);
        due := due.(kills := due.kills + 1);
        trace := trace + [AskKill];
      }
    }

    /** The header write of a kill: a run that has settled since it was listed keeps its state. */
    method CancelHeader(ghost d: Drive)
      requires At(d) && due.kills > 0
      modifies this`status, this`due, this`trace
      ensures At(d) && status == Settle(old(status), Cancelled) && trace == old(trace) + [MarkKilled]
      ensures due == old(due).(kills := old(due).kills - 1, sweeps := old(due).sweeps + 1)
    {
      Next(d, MarkKilled);
      status := Settle(status, Cancelled);
      due := due.(kills := due.kills - 1, sweeps := due.sweeps + 1);
      trace := trace + [MarkKilled];
    }

    method CancelParkedNodes(ghost d: Drive)
      requires At(d) && due.sweeps > 0
      modifies this`rows, this`due, this`trace
      ensures At(d) && rows == SweepParked(old(rows)) && trace == old(trace) + [Sweep]
      ensures NoParkedRow(rows) && forall k :: k in rows <==> k in old(rows)
      ensures forall k :: k in rows && old(rows)[k].status != Parked ==> rows[k] == old(rows)[k]
      ensures forall k :: k in rows && old(rows)[k].status == Parked ==> rows[k].status == Failed
    {
      Next(d, Sweep);
      rows := SweepParked(rows);
      due := due.(sweeps := due.sweeps - 1);
      trace := trace + [Sweep];
    }

    /** A kill of a running run: the header, then, unless the process dies between, the parked rows. */
    method Kill(crash: bool, ghost d: Drive) returns (listed: bool)
      requires At(d)
      modifies this`rows, this`status, this`due, this`trace
      ensures At(d) && (listed <==> old(status) == Running)
      ensures status == if listed then Cancelled else old(status)
      ensures rows == if listed && !crash then SweepParked(old(rows)) else old(rows)
      ensures listed && !crash ==> NoParkedRow(rows)
      ensures old(trace) <= trace
    {
      listed := ListRunning(d);
      if listed {
        CancelHeader(d);
        if !crash {
          CancelParkedNodes(d);
        }
      }
    }

    /** One write by somebody else, if it is due. */
    method Perform(s: Step, ghost d: Drive)
      requires At(d)
      modifies this
      ensures At(d) && old(trace) <= trace
    {
      match s {
        case Decide(node, decision, reason) => var _ := DecideApproval(node, decision, reason, d);
        case Expire(node) => var _ := TimeoutFails(node, true, d);
        case FailExpired => if due.fails > 0 { FailHeader(d); }
        case AskReplay => var _ := CheckReplayable(d);
        case DeleteFailed => if due.deletes > 0 { DeleteFailedNodes(d); }
        case CheckFailed => if due.checks > 0 { var _ := CheckStillFailed(d); }
        case Reopen => if due.reopens > 0 { WriteReopened(d); }
        case AskKill => var _ := ListRunning(d);
        case MarkKilled => if due.kills > 0 { CancelHeader(d); }
        case Sweep => if due.sweeps > 0 { CancelParkedNodes(d); }
        case _ =>
      }
    }

    /** What others write before the drive's next store access. */
    method Others(script: seq<Step>, ghost d: Drive)
      requires At(d)
      modifies this
      ensures At(d) && old(trace) <= trace
      ensures script == [] ==> rows == old(rows)
    {
      for i := 0 to |script|
        invariant At(d) && old(trace) <= trace && (script == [] ==> rows == old(rows))
      {
        Perform(script[i], d);
      }
      clock := clock + 1;
    }

    // ---- the drive ----

    ghost method Halt(d: Drive)
      requires At(d) && !d.Off?
      modifies this`trace
      ensures At(Off) && trace == old(trace) + [Stop]
    {
      Note(d, Stop);
    }

    /** Where the end of a turn leaves the drive. */
    ghost predicate TurnLeaves(carried: Rows, turn: TurnEnd)
      reads this
    {
      match turn
      case TurnAdvanced => At(Walking(carried))
      case TurnIdle => At(Settling(carried))
      case TurnInterrupted => At(Off) && EndsWith(trace, Interrupted)
      case _ => At(Off) && EndsWith(trace, NodeFailed)
    }

    /** The one read of the rows. */
    method ReadRows(others: nat -> seq<Step>) returns (carried: Rows)
      requires At(Off) && status == Running
      modifies this
      ensures At(Walking(carried)) && carried == rows && old(trace) + [Begin] <= trace
    {
      Note(Off, Begin);
      Others(others(clock), Starting);
      carried := rows;
      Note(Starting, Load);
    }

    method ReadyOver(carried: Rows) returns (ready: seq<Key>, overflow: Option<Id>)
      requires At(Walking(carried))
      ensures overflow.None? ==> Enabled(plan, State(Walking(carried)), Turn(ready))
      ensures overflow.Some? ==> Enabled(plan, State(Walking(carried)), Exceed(overflow.value))
    {
      Know(Walking(carried));
      var walker := new Walker(plan.g, carried);
      ready, overflow := walker.ComputeReady();
    }

    /** The header write after a failed row or a loop beyond the cap. */
    method FailRunHeader(others: nat -> seq<Step>, stops: nat -> bool) returns (ok: bool)
      requires At(Failing)
      modifies this
      ensures At(Off) && old(trace) <= trace && |trace| > |old(trace)|
      ensures EndsWith(trace, if ok then NodeFailed else Interrupted)
      ensures !ok ==> Dies(stops)
      ensures Undisturbed(others) ==> rows == old(rows)
    {
      Others(others(clock), Failing);
      if stops(clock) {
        Halt(Failing);
        return false;
      }
      Next(Failing, FailRun);
      status := Settle(status, RunFailed);
      trace := trace + [FailRun];
      return true;
    }

    /** Stores the row of a node that has been executed. */
    method StoreRow(ghost start: Rows, ghost carried: Rows, ready: seq<Key>, next: nat, ghost advanced: bool, failed: bool)
      returns (row: Row)
      requires next < |ready| && At(Batching(start, carried, ready, next, advanced))
      modifies this`rows, this`trace
      ensures row == NodeRow(plan.g, plan.world, failed, ready[next]) && trace == old(trace) + [Record(failed)]
      ensures At(if row.status == Failed then Failing
                 else Batching(start, carried[ready[next] := row], ready, next + 1, advanced || row.status == Completed))
      ensures rows == InsertOnce(old(rows), ready[next], row)
    {
      row := NodeRow(plan.g, plan.world, failed, ready[next]);
      Next(Batching(start, carried, ready, next, advanced), Record(failed));
      rows := InsertOnce(rows, ready[next], row);
      trace := trace + [Record(failed)];
    }

    /** Executes one node and stores its row, unless the drive dies first. */
    method RunNode(ghost start: Rows, ghost carried: Rows, ready: seq<Key>, next: nat, ghost advanced: bool,
        fails: Key -> bool, others: nat -> seq<Step>, stops: nat -> bool) returns (row: Option<Row>)
      requires next < |ready| && At(Batching(start, carried, ready, next, advanced))
      modifies this
      ensures old(trace) <= trace && |trace| > |old(trace)|
      ensures row.None? ==> At(Off) && EndsWith(trace, Interrupted) && Dies(stops)
      ensures row.Some? ==> row.value == NodeRow(plan.g, plan.world, fails(ready[next]), ready[next])
      ensures row.Some? ==>
                At(if row.value.status == Failed then Failing
                   else Batching(start, carried[ready[next] := row.value], ready, next + 1, advanced || row.value.status == Completed))
      ensures Undisturbed(others) && row.Some? ==> rows == InsertOnce(old(rows), ready[next], row.value)
    {
      ghost var d := Batching(start, carried, ready, next, advanced);
      Others(others(clock), d);
      if stops(clock) {
        Halt(d);
        return None;
      }
      var stored := StoreRow(start, carried, ready, next, advanced, fails(ready[next]));
      return Some(stored);
    }

    /** One node of the batch; without a row to carry on with, the batch is over: the drive has died, or the
        node has failed and its run with it. */
    method RunNext(ghost start: Rows, ghost carried: Rows, ready: seq<Key>, next: nat, ghost advanced: bool,
        fails: Key -> bool, others: nat -> seq<Step>, stops: nat -> bool) returns (row: Option<Row>, left: TurnEnd)
      requires next < |ready| && At(Batching(start, carried, ready, next, advanced))
      modifies this
      ensures old(trace) <= trace && |trace| > |old(trace)|
      ensures row.None? ==> left in {TurnFailed, TurnInterrupted} && TurnLeaves(carried, left)
      ensures row.None? && left == TurnInterrupted ==> Dies(stops)
      ensures row.None? && left == TurnFailed ==> NodeRow(plan.g, plan.world, fails(ready[next]), ready[next]).status == Failed
      ensures row.Some? ==> row.value.status != Failed
      ensures row.Some? ==>
                At(Batching(start, carried[ready[next] := row.value], ready, next + 1, advanced || row.value.status == Completed))
      ensures Undisturbed(others) && row.Some? ==> rows == InsertOnce(old(rows), ready[next], row.value)
    {
      left := TurnInterrupted;
      row := RunNode(start, carried, ready, next, advanced, fails, others, stops);
      if row.Some? && row.value.status == Failed {
        row := None;
        var ok := FailRunHeader(others, stops);
        left := if ok then TurnFailed else TurnInterrupted;
      }
    }

    method EndOfBatch(start: Rows, carried: Rows, ghost ready: seq<Key>, ghost next: nat, advanced: bool) returns (turn: TurnEnd)
      requires next == |ready| && At(Batching(start, carried, ready, next, advanced))
      modifies this`trace
      ensures turn == (if advanced then TurnAdvanced else TurnIdle) && TurnLeaves(carried, turn)
      ensures trace == old(trace) + [EndBatch] && (advanced ==> Kept(start, carried) && Grew(start, carried))
    {
      ghost var d := Batching(start, carried, ready, next, advanced);
      Know(d);
      Note(d, EndBatch);
      turn := if advanced then TurnAdvanced else TurnIdle;
    }

    lemma FreshKey(start: Rows, carried: Rows, ready: seq<Key>, next: nat, advanced: bool)
      requires next < |ready| && At(Batching(start, carried, ready, next, advanced))
      ensures ready[next] !in carried && ready[next] !in rows
    {
      Know(Batching(start, carried, ready, next, advanced));
      RecordIsFresh(plan, State(Batching(start, carried, ready, next, advanced)));
    }

    /** Runs one batch. Readiness was decided at its start and is not examined again. */
    method RunBatch(start: Rows, ready: seq<Key>, fails: Key -> bool, others: nat -> seq<Step>, stops: nat -> bool)
      returns (carried: Rows, turn: TurnEnd)
      requires At(Batching(start, start, ready, 0, false))
      modifies this
      ensures TurnLeaves(carried, turn) && !turn.TurnOverflow? && old(trace) <= trace && |trace| > |old(trace)|
      ensures turn == TurnAdvanced ==> Kept(start, carried) && Grew(start, carried)
      ensures turn.TurnInterrupted? ==> Dies(stops)
      ensures Undisturbed(others) && old(rows) == start && turn in {TurnAdvanced, TurnIdle} ==> rows == carried
    {
      carried := start;
      var next, advanced := 0, false;
      while next < |ready|
        invariant 0 <= next <= |ready| && At(Batching(start, carried, ready, next, advanced)) && old(trace) <= trace
        invariant Undisturbed(others) && old(rows) == start ==> rows == carried
      {
        FreshKey(start, carried, ready, next, advanced);
        var row, left := RunNext(start, carried, ready, next, advanced, fails, others, stops);
        if row.None? {
          return carried, left;
        }
        carried := carried[ready[next] := row.value];
        next := next + 1;
        advanced := advanced || row.value.status == Completed;
      }
      turn := EndOfBatch(start, carried, ready, next, advanced);
    }

    /** A loop beyond the cap fails the run. */
    method FailOverflow(ghost start: Rows, at: Id, others: nat -> seq<Step>, stops: nat -> bool) returns (turn: TurnEnd)
      requires At(Walking(start)) && Enabled(plan, State(Walking(start)), Exceed(at))
      modifies this
      ensures old(trace) <= trace && |trace| > |old(trace)|
      ensures turn.TurnInterrupted? || turn == TurnOverflow(at)
      ensures At(Off) && EndsWith(trace, if turn.TurnInterrupted? then Interrupted else NodeFailed)
      ensures turn.TurnInterrupted? ==> Dies(stops)
    {
      Note(Walking(start), Exceed(at));
      var ok := FailRunHeader(others, stops);
      turn := if ok then TurnOverflow(at) else TurnInterrupted;
    }

    /** One turn: recompute the walk over the rows carried and run everything it finds ready. */
    method RunTurn(start: Rows, fails: Key -> bool, others: nat -> seq<Step>, stops: nat -> bool)
      returns (carried: Rows, turn: TurnEnd)
      requires At(Walking(start))
      modifies this
      ensures TurnLeaves(carried, turn) && old(trace) <= trace && |trace| > |old(trace)|
      ensures turn == TurnAdvanced ==> Kept(start, carried) && Grew(start, carried)
      ensures turn.TurnInterrupted? ==> Dies(stops)
      ensures Undisturbed(others) && old(rows) == start && turn in {TurnAdvanced, TurnIdle} ==> rows == carried
    {
      carried := start;
      Others(others(clock), Walking(start));
      if stops(clock) {
        Halt(Walking(start));
        return carried, TurnInterrupted;
      }
      var ready, overflow := ReadyOver(start);
      if overflow.Some? {
        turn := FailOverflow(start, overflow.value, others, stops);
      } else {
        Note(Walking(start), Turn(ready));
        if ready == [] {
          turn := TurnIdle;
        } else {
          carried, turn := RunBatch(start, ready, fails, others, stops);
        }
      }
    }

    method CompleteRun(ghost carried: Rows, others: nat -> seq<Step>, stops: nat -> bool) returns (end: DriveEnd)
      requires At(Completing(carried))
      modifies this
      ensures At(Off) && old(trace) <= trace && |trace| > |old(trace)|
      ensures end in {Finished, Interrupted} && EndsWith(trace, end)
      ensures end == Interrupted ==> Dies(stops)
      ensures Undisturbed(others) ==> rows == old(rows)
    {
      Others(others(clock), Completing(carried));
      if stops(clock) {
        Halt(Completing(carried));
        return Interrupted;
      }
      Next(Completing(carried), Complete);
      status := Settle(status, RunCompleted);
      trace := trace + [Complete];
      return Finished;
    }

    lemma AtRest(carried: Rows)
      requires At(Completing(carried)) && rows == carried
      ensures Quiescent(plan.g, rows)
    {
      Know(Completing(carried));
      CurrentRests(plan, State(Completing(carried)));
    }

    /** Nothing is ready in the rows carried: the stored rows are read, and the run waits if one of them is
        parked, and is completed otherwise. */
    method Finalize(ghost carried: Rows, others: nat -> seq<Step>, stops: nat -> bool) returns (end: DriveEnd)
      requires At(Settling(carried))
      modifies this
      ensures At(Off) && old(trace) <= trace && |trace| > |old(trace)|
      ensures end in {Waiting, Finished, Interrupted} && EndsWith(trace, end)
      ensures end == Waiting ==> HasRow(rows, Parked)
      ensures end == Interrupted ==> Dies(stops)
      ensures Undisturbed(others) && old(rows) == carried && end == Finished ==> Quiescent(plan.g, rows)
    {
      Others(others(clock), Settling(carried));
      if stops(clock) {
        Halt(Settling(carried));
        return Interrupted;
      }
      var waits := exists k :: k in rows && rows[k].status == Parked;
      Note(Settling(carried), Look);
      if waits {
        return Waiting;
      }
      if Undisturbed(others) && rows == carried {
        AtRest(carried);
      }
      end := CompleteRun(carried, others, stops);
    }

    lemma Shrink(before: Rows, carried: Rows, room: set<Key>) returns (room': set<Key>)
      requires At(Walking(carried)) && IsRoom(plan.g, before, room) && Kept(before, carried) && Grew(before, carried)
      ensures IsRoom(plan.g, carried, room') && room' < room
    {
      Know(Walking(carried));
      room' := RoomShrinks(plan.g, before, carried, room);
    }

    /** Walks the frozen graph against the rows it has read until nothing is ready, then looks at the
        stored rows and settles the header. `others` and `stops` say, access by access, what is written
        meanwhile and whether the drive dies there; `fails` says which executions fail. */
    method Advance(fails: Key -> bool, others: nat -> seq<Step>, stops: nat -> bool) returns (end: DriveEnd)
      requires At(Off)
      modifies this
      ensures At(Off) && old(trace) <= trace
      ensures end == NotRunning <==> old(status) != Running
      ensures end == NotRunning ==> trace == old(trace) && rows == old(rows) && status == old(status)
      ensures end != NotRunning ==> |trace| > |old(trace)| && trace[|old(trace)|] == Begin && EndsWith(trace, end)
      ensures end == Waiting ==> HasRow(rows, Parked)
      ensures end == Interrupted ==> Dies(stops)
      ensures Undisturbed(others) && end == Finished ==> Quiescent(plan.g, rows)
    {
      if status != Running {
        return NotRunning;
      }
      var carried := ReadRows(others);
      ghost var room := RoomAtStart(plan.g, carried);
      var turn := TurnAdvanced;
      while turn == TurnAdvanced
        invariant turn == TurnAdvanced ==> At(Walking(carried)) && IsRoom(plan.g, carried, room)
        invariant TurnLeaves(carried, turn) && old(trace) + [Begin] <= trace && (turn == TurnInterrupted ==> Dies(stops))
        invariant Undisturbed(others) && turn in {TurnAdvanced, TurnIdle} ==> rows == carried
        decreases turn == TurnAdvanced, room
      {
        ghost var before := carried;
        carried, turn := RunTurn(carried, fails, others, stops);
        if turn == TurnAdvanced {
          room := Shrink(before, carried, room);
        }
      }
      match turn {
        case TurnOverflow(at) => end := Overflow(at);
        case TurnFailed => end := NodeFailed;
        case TurnInterrupted => end := Interrupted;
        case TurnIdle => end := Finalize(carried, others, stops);
      }
    }
  }
}
