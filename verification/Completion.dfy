/** Completion. */
module Completion {
  // It cannot get stuck: from wherever it is, some schedule closes the database.

  import opened Pool
  import opened Lifecycle

  /** How far a worker is from returning. */
  function Weight(pc: Pc): nat {
    match pc
    case Gone => 0
    case Idle => 1
    case Walking(_, _) => 2
    case Opening(_) => 3
    case Entering(_) => 4
    case _ => 0
  }

  /** What is left for the workers to do: every step of theirs lowers it. */
  function Work(w: World): nat {
    4 * |w.guard.queue| + 2 * |w.guard.pending| +
    Weight(At(w, Worker(0))) + Weight(At(w, Worker(1))) + Weight(At(w, Worker(2))) + Weight(At(w, Worker(3)))
  }

  /** The next step of a worker that has not returned. */
  function WorkerStep(w: World, t: Thread): Step {
    match At(w, t)
    case Entering(_) => EnterDrive(t)
    case Opening(_) => Register(t, true)
    case Walking(_, _) => ExitWalk(t, true)
    case _ => if w.guard.queue != [] then TakeJob(t) else Return(t)
  }

  lemma PendingGrows(pending: set<Run>, run: Run)
    ensures |pending + {run}| <= |pending| + 1
    ensures run in pending ==> |pending - {run}| == |pending| - 1
    ensures |pending - {run}| <= |pending|
  {
    if run in pending {
      assert pending + {run} == pending;
    } else {
      assert pending - {run} == pending;
    }
  }

  function Share(w: World, t: Thread): nat {
    4 * |w.guard.queue| + 2 * |w.guard.pending| + Weight(At(w, t))
  }

  lemma ShareLowersWork(w: World, v: World, slot: nat)
    requires slot < WORKERS && Share(v, Worker(slot)) < Share(w, Worker(slot))
    requires forall t {:trigger At(v, t)} :: t != Worker(slot) ==> At(v, t) == At(w, t)
    ensures Work(v) < Work(w)
  {
    assert slot == 0 || slot == 1 || slot == 2 || slot == 3;
  }

  lemma WorkerStepShare(w: World, t: Thread)
    requires t.Worker? && t.slot < WORKERS && w.guard.closed
    requires At(w, t).Idle? || At(w, t).Entering? || Admitted(At(w, t))
    ensures var s := WorkerStep(w, t);
            Enabled(w, s) && Acts(s, t) && Share(Apply(w, s), t) < Share(w, t) && Apply(w, s).phase == w.phase
  {
    if !At(w, t).Idle? {
      PendingGrows(w.guard.pending, At(w, t).run);
    }
  }

  lemma WorkerStepLowers(w: World, slot: nat)
    requires slot < WORKERS && Placed(w) && w.guard.closed && !At(w, Worker(slot)).Gone?
    ensures var s := WorkerStep(w, Worker(slot)); Enabled(w, s) && Work(Apply(w, s)) < Work(w) && Apply(w, s).phase == w.phase
  {
    var t := Worker(slot);
    assert At(w, t).Idle? || At(w, t).Entering? || Admitted(At(w, t));
    WorkerStepShare(w, t);
    StepMovesActor(w, WorkerStep(w, t));
    ShareLowersWork(w, Apply(w, WorkerStep(w, t)), slot);
  }

  lemma {:induction false} WorkersCanReturn(w: World) returns (steps: seq<Step>)
    requires Sound(w) && w.phase == QUEUE_CLOSED
    ensures CanRun(w, steps) && RunAll(w, steps).phase == QUEUE_CLOSED && WorkersGone(RunAll(w, steps))
    decreases Work(w)
  {
    if WorkersGone(w) {
      steps := [];
    } else {
      var slot: nat :| slot < WORKERS && !At(w, Worker(slot)).Gone?;
      var s := WorkerStep(w, Worker(slot));
      WorkerStepLowers(w, slot);
      StepKeepsSound(w, s);
      var rest := WorkersCanReturn(Apply(w, s));
      steps := [s] + rest;
      assert steps[1..] == rest;
    }
  }

  lemma {:induction false} RunTwice(w: World, a: seq<Step>, b: seq<Step>)
    requires CanRun(w, a) && CanRun(RunAll(w, a), b)
    ensures CanRun(w, a + b) && RunAll(w, a + b) == RunAll(RunAll(w, a), b)
    decreases |a|
  {
    if a == [] {
      assert a + b == b;
    } else {
      assert (a + b)[1..] == a[1..] + b;
      RunTwice(Apply(w, a[0]), a[1..], b);
    }
  }

  /** The next step of a conversation on its way out: the turn has been cancelled, so a walk ends for good. */
  function ChatStep(w: World, t: Thread): Step {
    match At(w, t)
    case Entering(_) => EnterDrive(t)
    case Opening(_) => Register(t, false)
    case Walking(_, _) => ExitWalk(t, false)
    case Busy => Leave(t)
    case _ => Return(t)
  }

  /** How far a conversation is from returning. */
  function ChatWeight(pc: Pc): nat {
    match pc
    case Gone => 0
    case Idle => 1
    case Busy => 2
    case Walking(_, _) => 3
    case Opening(_) => 4
    case Entering(_) => 5
    case _ => 0
  }

  lemma ChatStepLowers(w: World, t: Thread)
    requires Placed(w) && w.phase >= CHATS_STOPPED && t.Chat? && t in w.pcs && !At(w, t).Gone?
    ensures var s := ChatStep(w, t);
            Enabled(w, s) && Acts(s, t) && ChatWeight(At(Apply(w, s), t)) < ChatWeight(At(w, t)) &&
            Apply(w, s).phase == w.phase && Apply(w, s).pcs.Keys == w.pcs.Keys
    ensures forall u {:trigger At(w, u)} :: u != t ==> At(Apply(w, ChatStep(w, t)), u) == At(w, u)
  {
    assert PlacedAt(w, t);
    StepMovesActor(w, ChatStep(w, t));
  }

  lemma FirstThen(w: World, s: Step, rest: seq<Step>) returns (steps: seq<Step>)
    requires Enabled(w, s) && CanRun(Apply(w, s), rest)
    ensures steps == [s] + rest && CanRun(w, steps) && RunAll(w, steps) == RunAll(Apply(w, s), rest)
  {
    steps := [s] + rest;
    assert steps[1..] == rest;
  }

  lemma {:induction false} ChatCanReturn(w: World, t: Thread) returns (steps: seq<Step>)
    requires Sound(w) && w.phase >= CHATS_STOPPED && t.Chat? && t in w.pcs
    ensures CanRun(w, steps)
    ensures var v := RunAll(w, steps); v.phase == w.phase && v.pcs.Keys == w.pcs.Keys && At(v, t).Gone?
    ensures forall u {:trigger At(w, u)} :: u != t ==> At(RunAll(w, steps), u) == At(w, u)
    decreases ChatWeight(At(w, t))
  {
    if At(w, t).Gone? {
      steps := [];
    } else {
      var s := ChatStep(w, t);
      ChatStepLowers(w, t);
      StepKeepsSound(w, s);
      var v := Apply(w, s);
      var rest := ChatCanReturn(v, t);
      steps := FirstThen(w, s, rest);
      forall u | u != t
        ensures At(RunAll(w, steps), u) == At(w, u)
      {
        assert At(v, u) == At(w, u);
      }
    }
  }

  /** The conversations still open, among some. */
  ghost predicate OpenAmong(w: World, open: set<Thread>) {
    forall t :: t in w.pcs && t.Chat? && !At(w, t).Gone? ==> t in open
  }

  lemma {:induction false} ChatsCanReturn(w: World, open: set<Thread>) returns (steps: seq<Step>)
    requires Sound(w) && w.phase >= CHATS_STOPPED && OpenAmong(w, open)
    ensures CanRun(w, steps) && RunAll(w, steps).phase == w.phase && ChatsGone(RunAll(w, steps))
    decreases open
  {
    if ChatsGone(w) {
      steps := [];
    } else {
      var t :| t in w.pcs && t.Chat? && !w.pcs[t].Gone?;
      var first := ChatCanReturn(w, t);
      RunKeepsSound(w, first);
      var rest := ChatsCanReturn(RunAll(w, first), open - {t});
      RunTwice(w, first, rest);
      steps := first + rest;
    }
  }

  /** The statement the shutdown is at can be completed. */
  lemma NextPhase(w: World) returns (steps: seq<Step>)
    requires Sound(w) && w.phase < DB_CLOSED
    ensures CanRun(w, steps) && RunAll(w, steps).phase == w.phase + 1
  {
    steps := [];
    if Bounded(w.phase) {
      steps := [Expire];
      assert steps[1..] == [] && CanRun(Apply(w, Expire), []);
    } else if w.phase == QUEUE_CLOSED {
      steps := WorkersCanReturn(w);
    } else if w.phase == CHATS_STOPPED {
      steps := ChatsCanReturn(w, w.pcs.Keys);
    }
    RunThen(w, steps, Proceed);
    steps := steps + [Proceed];
  }

  /** From every reachable world the database can still be closed. */
  lemma {:induction false} ShutdownCanFinish(w: World) returns (steps: seq<Step>)
    requires Sound(w)
    ensures CanRun(w, steps) && RunAll(w, steps).phase == DB_CLOSED
    decreases DB_CLOSED - w.phase
  {
    if w.phase == DB_CLOSED {
      steps := [];
    } else {
      var first := NextPhase(w);
      RunKeepsSound(w, first);
      var rest := ShutdownCanFinish(RunAll(w, first));
      RunTwice(w, first, rest);
      steps := first + rest;
    }
  }
}
