/** Cancel-all. */
module Leftovers {
  // The walks that go on after it, and when the idle check before it can be believed.

  import opened Pool
  import opened Lifecycle

  predicate Live(pc: Pc) {
    pc.Walking? && pc.live
  }

  ghost predicate LiveWalk(w: World) {
    exists t :: Live(At(w, t))
  }

  ghost predicate NeverLive(w: World) {
    forall steps :: CanRun(w, steps) ==> !LiveWalk(RunAll(w, steps))
  }

  predicate DrainedAt(w: World, t: Thread) {
    match At(w, t)
    case Sending(_) => false
    case Entering(_) => false
    case Opening(_) => false
    case Walking(run, live) => !live && run !in w.guard.pending
    case _ => true
  }

  /** No job is queued or held, no walk is about to register, and none, all of them cancelled, owes another. */
  ghost predicate Drained(w: World) {
    w.guard.queue == [] && forall t {:trigger At(w, t)} :: DrainedAt(w, t)
  }

  lemma StepKeepsUnfed(w: World, s: Step)
    requires Unfed(w) && w.phase != SERVING && Enabled(w, s)
    ensures Unfed(Apply(w, s)) && Apply(w, s).phase != SERVING
  {
    StepMovesActor(w, s);
    StepKeepsRequestsDone(w, s);
    StepKeepsChatsQuiet(w, s);
  }

  /** All that can still happen then. */
  lemma OnlyEndings(w: World, s: Step)
    requires Unfed(w) && w.phase != SERVING && Drained(w) && Enabled(w, s)
    ensures s.Leave? || s.Return? || s.Wake? || s.ExitWalk? || s.Expire? || s.Proceed?
    ensures s.ExitWalk? ==> At(w, s.t).run !in w.guard.pending
    ensures s.Leave? || s.Wake? ==> s.t.Aside?
  {
    if !s.Expire? && !s.Proceed? {
      assert DrainedAt(w, s.t);
      assert s.t in w.pcs && s.t.Chat? ==> Resting(At(w, s.t));
      assert s.t in w.pcs && s.t.Request? ==> At(w, s.t).Idle?;
    }
  }

  lemma StepKeepsDrained(w: World, s: Step)
    requires Unfed(w) && w.phase != SERVING && Placed(w) && Drained(w) && Enabled(w, s)
    ensures Drained(Apply(w, s))
  {
    OnlyEndings(w, s);
    StepMovesActor(w, s);
    forall t
      ensures DrainedAt(Apply(w, s), t)
    {
      assert DrainedAt(w, t);
    }
  }

  lemma {:induction false} DrainedNeverLive(w: World, steps: seq<Step>)
    requires Unfed(w) && w.phase != SERVING && Placed(w) && Drained(w) && CanRun(w, steps)
    ensures !LiveWalk(RunAll(w, steps))
    decreases |steps|
  {
    if steps == [] {
      forall t
        ensures !Live(At(w, t))
      {
        assert DrainedAt(w, t);
      }
    } else {
      StepKeepsDrained(w, steps[0]);
      StepKeepsUnfed(w, steps[0]);
      StepKeepsPlaced(w, steps[0]);
      DrainedNeverLive(Apply(w, steps[0]), steps[1..]);
    }
  }

  lemma LiveAfter(w: World, s: Step)
    requires Enabled(w, s) && !NeverLive(Apply(w, s))
    ensures !NeverLive(w)
  {
    var steps :| CanRun(Apply(w, s), steps) && LiveWalk(RunAll(Apply(w, s), steps));
    assert ([s] + steps)[1..] == steps;
    assert CanRun(w, [s] + steps) && RunAll(w, [s] + steps) == RunAll(Apply(w, s), steps);
  }

  lemma LiveNow(w: World, t: Thread)
    requires Live(At(w, t))
    ensures !NeverLive(w)
  {
    assert CanRun(w, []) && RunAll(w, []) == w;
  }

  /** A walk that has not registered is out of cancel-all's reach. */
  lemma OpeningWalks(w: World, t: Thread)
    requires At(w, t).Opening?
    ensures !NeverLive(w)
  {
    LiveNow(Apply(w, Register(t, true)), t);
    LiveAfter(w, Register(t, true));
  }

  /** A signal that came in under a walk makes it walk again, cancelled or not: what was cancelled is
      the context of the walk, and the one asked about is its caller's. */
  lemma PendingWalksAgain(w: World, t: Thread)
    requires Admitted(At(w, t)) && At(w, t).run in w.guard.pending
    ensures !NeverLive(w)
  {
    OpeningWalks(Apply(w, ExitWalk(t, true)), t);
    LiveAfter(w, ExitWalk(t, true));
  }

  lemma EnteringWalks(w: World, t: Thread)
    requires SingleFlight(w) && At(w, t).Entering?
    ensures !NeverLive(w)
  {
    var run := At(w, t).run;
    var v := Apply(w, EnterDrive(t));
    if run in w.guard.inProgress {
      var u :| Walks(w, u, run);
      StepMovesActor(w, EnterDrive(t));
      PendingWalksAgain(v, u);
    } else {
      OpeningWalks(v, t);
    }
    LiveAfter(w, EnterDrive(t));
  }

  lemma QueuedWalks(w: World, t: Thread)
    requires SingleFlight(w) && Placed(w) && !w.guard.closed && w.guard.queue != [] && t == Worker(0)
    ensures !NeverLive(w)
    decreases if At(w, t).Walking? then 1 else 0
  {
    assert PlacedAt(w, t);
    assert At(w, t).Idle? || At(w, t).Entering? || Admitted(At(w, t));
    if At(w, t).Idle? {
      StepKeepsSingleFlight(w, TakeJob(t));
      EnteringWalks(Apply(w, TakeJob(t)), t);
      LiveAfter(w, TakeJob(t));
    } else if At(w, t).Entering? {
      EnteringWalks(w, t);
    } else if At(w, t).Opening? {
      OpeningWalks(w, t);
    } else if At(w, t).run in w.guard.pending {
      PendingWalksAgain(w, t);
    } else {
      StepKeepsSingleFlight(w, ExitWalk(t, true));
      StepKeepsPlaced(w, ExitWalk(t, true));
      QueuedWalks(Apply(w, ExitWalk(t, true)), t);
      LiveAfter(w, ExitWalk(t, true));
    }
  }

  lemma SendingWalks(w: World, t: Thread)
    requires SingleFlight(w) && Placed(w) && !w.guard.closed && At(w, t).Sending?
    ensures !NeverLive(w)
  {
    if w.guard.queue != [] {
      QueuedWalks(w, Worker(0));
    } else {
      StepKeepsSingleFlight(w, SendJob(t));
      StepKeepsPlaced(w, SendJob(t));
      QueuedWalks(Apply(w, SendJob(t)), Worker(0));
      LiveAfter(w, SendJob(t));
    }
  }

  /** Whatever is queued, held, live or owed walks under a live context yet. */
  lemma UndrainedWalks(w: World)
    requires SingleFlight(w) && Placed(w) && !w.guard.closed && !Drained(w)
    ensures !NeverLive(w)
  {
    if w.guard.queue != [] {
      QueuedWalks(w, Worker(0));
    } else {
      var t :| !DrainedAt(w, t);
      match At(w, t) {
        case Sending(_) => SendingWalks(w, t);
        case Entering(_) => EnteringWalks(w, t);
        case Opening(_) => OpeningWalks(w, t);
        case Walking(run, _) =>
          if run in w.guard.pending {
            PendingWalksAgain(w, t);
          } else {
            LiveNow(w, t);
          }
      }
    }
  }

  /** So does what a loop, a request or a turn that has not ended may signal. */
  lemma BusyWalks(w: World, t: Thread, run: Run)
    requires Sound(w) && w.phase < QUEUE_CLOSED && At(w, t).Busy? && !t.Aside?
    ensures !NeverLive(w)
  {
    var s := if Manual(t) then Drive(t, run) else Enqueue(t, run);
    var v := Apply(w, s);
    StepKeepsSound(w, s);
    SignalIsCarried(w, s);
    if run in v.guard.pending {
      var u :| Walks(v, u, run);
      assert !DrainedAt(v, u);
    } else if run !in v.guard.queue {
      var u :| Carries(v, u, run);
      assert !DrainedAt(v, u);
    }
    UndrainedWalks(v);
    LiveAfter(w, s);
  }

  lemma IdleLoopWalks(w: World, t: Thread)
    requires Sound(w) && w.phase < QUEUE_CLOSED && Loop(t) && At(w, t).Idle?
    ensures !NeverLive(w)
  {
    StepKeepsSound(w, Tick(t));
    BusyWalks(Apply(w, Tick(t)), t, Run(0));
    LiveAfter(w, Tick(t));
  }

  lemma CancelledWalkGoesOn(w: World, t: Thread)
    requires Sound(w) && w.phase < QUEUE_CLOSED && !t.Worker? && !t.Aside? && At(w, t).Walking?
    ensures !NeverLive(w)
  {
    var s := ExitWalk(t, true);
    StepKeepsSound(w, s);
    if At(w, t).run in w.guard.pending {
      PendingWalksAgain(w, t);
    } else {
      BusyWalks(Apply(w, s), t, Run(0));
      LiveAfter(w, s);
    }
  }

  lemma WaitingTurnWalks(w: World, t: Thread)
    requires Sound(w) && w.phase < QUEUE_CLOSED && Enabled(w, Begin(t))
    ensures !NeverLive(w)
  {
    StepKeepsSound(w, Begin(t));
    BusyWalks(Apply(w, Begin(t)), t, Run(0));
    LiveAfter(w, Begin(t));
  }

  lemma FedWalks(w: World)
    requires Sound(w) && w.phase < QUEUE_CLOSED && Drained(w) && !Unfed(w)
    ensures !NeverLive(w)
  {
    var t := SomebodyUnfinished(w);
    assert DrainedAt(w, t) && PlacedAt(w, t);
    if At(w, t).Idle? {
      if t.Chat? {
        WaitingTurnWalks(w, t);
      } else {
        IdleLoopWalks(w, t);
      }
    } else if At(w, t).Busy? {
      BusyWalks(w, t, Run(0));
    } else {
      CancelledWalkGoesOn(w, t);
    }
  }

  /** After cancel-all no node can run under a live context again exactly when nobody is left to signal or
      to drive - no loop, no request, no chat turn under way or waiting -, nothing was queued, held or about
      to register, and no cancelled walk owed another. Of those who could signal the shutdown has by then
      waited for all but the chats. The wait for the workers that follows has no bound, so this is also when
      it does not outlast the cancelled walks. */
  lemma CancelAllIsFinal(steps: seq<Step>)
    requires CanRun(BOOTED, steps) && RunAll(BOOTED, steps).phase == CANCELLED
    ensures var w := RunAll(BOOTED, steps); NeverLive(w) <==> Unfed(w) && Drained(w)
    ensures var w := RunAll(BOOTED, steps); !w.rushed ==> (Unfed(w) <==> ChatsQuiet(w))
  {
    BootedSound();
    RunKeepsSound(BOOTED, steps);
    var w := RunAll(BOOTED, steps);
    if !Drained(w) {
      UndrainedWalks(w);
    } else if !Unfed(w) {
      FedWalks(w);
    } else {
      forall more | CanRun(w, more)
        ensures !LiveWalk(RunAll(w, more))
      {
        DrainedNeverLive(w, more);
      }
    }
  }

  lemma TurnUnderWay() returns (steps: seq<Step>)
    ensures CanRun(BOOTED, steps)
    ensures RunAll(BOOTED, steps) ==
            World(FRESH_GUARD, map[Request(0) := Idle, Chat(0) := Busy], {}, SERVING, false, 0, 0, false, {}, {}, false)
  {
    var w := BOOTED;
    steps := [];
    w, steps := Then(steps, w, Accept(Request(0)));
    w, steps := Then(steps, w, Ask(Request(0), 0));
    w, steps := Then(steps, w, Leave(Request(0)));
    w, steps := Then(steps, w, Begin(Chat(0)));
    assert w.turns == {};
  }

  /** Nothing was rushed and nothing is queued, held or walking after cancel-all; then a chat turn, which
      nobody has waited for, drives a run by one of its tools, and its nodes run. */
  lemma TurnOutlivesCancelAll(run: Run) returns (steps: seq<Step>, more: seq<Step>)
    ensures CanRun(BOOTED, steps)
    ensures var w := RunAll(BOOTED, steps); w.phase == CANCELLED && !w.rushed && Drained(w) && At(w, Chat(0)).Busy?
    ensures CanRun(BOOTED, more) && At(RunAll(BOOTED, more), Chat(0)) == Walking(run, true)
  {
    steps := TurnUnderWay();
    var w := RunAll(BOOTED, steps);
    steps := CalmShutdown(steps, w);
    w := RunAll(BOOTED, steps);
    forall t
      ensures DrainedAt(w, t)
    {
      assert At(w, t) == (if t == Chat(0) then Busy else if Loop(t) then Gone else Idle);
    }
    w, more := Then(steps, w, Drive(Chat(0), run));
    w, more := Then(more, w, EnterDrive(Chat(0)));
    w, more := Then(more, w, Register(Chat(0), true));
  }

  // ---- the idle check ----

  /** What `WaitPoolDrained` looks at. */
  predicate LooksIdle(g: Guard) {
    g.inProgress == {} && g.queued == {}
  }

  ghost predicate NoRepeat(queue: seq<Run>) {
    forall run :: multiset(queue)[run] <= 1
  }

  lemma NoRepeatSend(queue: seq<Run>, run: Run)
    requires NoRepeat(queue) && run !in queue
    ensures NoRepeat(queue + [run])
  {
  }

  lemma NoRepeatTake(queue: seq<Run>)
    requires NoRepeat(queue) && queue != []
    ensures NoRepeat(queue[1..]) && queue[0] !in queue[1..]
  {
    assert queue == [queue[0]] + queue[1..];
    assert multiset(queue) == multiset{queue[0]} + multiset(queue[1..]);
    forall run
      ensures multiset(queue[1..])[run] <= 1
    {
      assert multiset(queue)[run] <= 1;
    }
    assert multiset(queue)[queue[0]] <= 1;
  }

  /** A loop on its way to the queue, or a worker on its way from it, holds a job of the run. */
  predicate Holds(w: World, t: Thread, run: Run) {
    Carries(w, t, run) && !Manual(t)
  }

  ghost predicate Held(w: World, run: Run) {
    exists t :: Holds(w, t, run)
  }

  /** One job at most per run, and the dedup slot says whether there is one. */
  ghost predicate Deduplicated(w: World) {
    && NoRepeat(w.guard.queue)
    && (forall t, u, run {:trigger Holds(w, t, run), Holds(w, u, run)} :: Holds(w, t, run) && Holds(w, u, run) ==> t == u)
    && (forall run {:trigger run in w.guard.queue} :: run in w.guard.queue ==> !Held(w, run))
    && (forall run {:trigger run in w.guard.queued} {:trigger run in w.guard.queue} ::
          run in w.guard.queued <==> run in w.guard.queue || Held(w, run))
  }

  predicate Pooled(w: World) {
    w.guard.started && !w.guard.closed
  }

  /** A request or a turn is about to drive a run that has its slot set: it clears the slot and leaves the
      job. */
  predicate Overtakes(w: World, s: Step) {
    s.EnterDrive? && Manual(s.t) && At(w, s.t).Entering? && At(w, s.t).run in w.guard.queued
  }

  lemma OthersHoldSame(w: World, s: Step, run: Run)
    requires Enabled(w, s)
    ensures forall t {:trigger Holds(Apply(w, s), t, run)} {:trigger Holds(w, t, run)} :: !Acts(s, t) ==>
              (Holds(Apply(w, s), t, run) <==> Holds(w, t, run))
  {
    StepMovesActor(w, s);
  }

  /** A step that neither gives nor takes a job from its thread, and leaves the queue as it was. */
  lemma SameJobs(w: World, s: Step)
    requires Deduplicated(w) && Enabled(w, s)
    requires !s.Expire? && !s.Proceed? ==> forall run :: Holds(Apply(w, s), s.t, run) <==> Holds(w, s.t, run)
    requires Apply(w, s).guard.queue == w.guard.queue && Apply(w, s).guard.queued == w.guard.queued
    ensures Deduplicated(Apply(w, s))
  {
    var v := Apply(w, s);
    forall t, run
      ensures Holds(v, t, run) <==> Holds(w, t, run)
    {
      OthersHoldSame(w, s, run);
    }
    forall run
      ensures Held(v, run) <==> Held(w, run)
    {
    }
  }

  /** The thread comes to hold a job of a run that nobody held one of. */
  lemma JobArrives(w: World, s: Step, run: Run)
    requires Deduplicated(w) && (s.Enqueue? || s.TakeJob?) && Enabled(w, s) && Holds(Apply(w, s), s.t, run) && !Held(w, run)
    ensures forall t, u, r {:trigger Holds(Apply(w, s), t, r), Holds(Apply(w, s), u, r)} ::
              Holds(Apply(w, s), t, r) && Holds(Apply(w, s), u, r) ==> t == u
    ensures forall r {:trigger Held(Apply(w, s), r)} :: Held(Apply(w, s), r) <==> Held(w, r) || r == run
  {
    var v := Apply(w, s);
    forall u, r
      ensures Holds(v, u, r) <==> Holds(w, u, r) || (u == s.t && r == run)
    {
      OthersHoldSame(w, s, r);
      if u == s.t {
        assert !Holds(w, u, r);
      }
    }
    forall u
      ensures !Holds(w, u, run)
    {
      assert Holds(w, u, run) ==> Held(w, run);
    }
    forall r
      ensures Held(v, r) <==> Held(w, r) || r == run
    {
      if Held(w, r) {
        var u :| Holds(w, u, r);
        assert Holds(v, u, r);
      }
    }
  }

  lemma EnqueueKeepsDeduplicated(w: World, t: Thread, run: Run)
    requires Deduplicated(w) && Pooled(w) && Enabled(w, Enqueue(t, run))
    ensures Deduplicated(Apply(w, Enqueue(t, run)))
  {
    if Signal(w.guard, run).1.ToSend? {
      JobArrives(w, Enqueue(t, run), run);
    } else {
      SameJobs(w, Enqueue(t, run));
    }
  }

  /** The thread gives up the one job it holds. */
  lemma JobLeaves(w: World, s: Step, run: Run)
    requires Deduplicated(w) && (s.SendJob? || s.EnterDrive?) && Enabled(w, s) && Holds(w, s.t, run)
    ensures forall u, r {:trigger Holds(Apply(w, s), u, r)} :: Holds(Apply(w, s), u, r) <==> Holds(w, u, r) && r != run
    ensures forall r {:trigger Held(Apply(w, s), r)} :: Held(Apply(w, s), r) <==> Held(w, r) && r != run
  {
    var v := Apply(w, s);
    forall u, r
      ensures Holds(v, u, r) <==> Holds(w, u, r) && r != run
    {
      OthersHoldSame(w, s, r);
    }
    forall r
      ensures Held(v, r) <==> Held(w, r) && r != run
    {
      if Held(w, r) && r != run {
        var u :| Holds(w, u, r);
        assert Holds(v, u, r);
      }
    }
  }

  lemma SendKeepsDeduplicated(w: World, t: Thread)
    requires Deduplicated(w) && Placed(w) && Pooled(w) && Enabled(w, SendJob(t))
    ensures Deduplicated(Apply(w, SendJob(t)))
  {
    var v, run := Apply(w, SendJob(t)), At(w, t).run;
    assert Holds(w, t, run);
    assert Held(w, run);
    JobLeaves(w, SendJob(t), run);
    NoRepeatSend(w.guard.queue, run);
    forall r
      ensures r in v.guard.queue <==> r in w.guard.queue || r == run
    {
    }
  }

  lemma TakeKeepsDeduplicated(w: World, t: Thread)
    requires Deduplicated(w) && Enabled(w, TakeJob(t))
    ensures Deduplicated(Apply(w, TakeJob(t)))
  {
    var v, run := Apply(w, TakeJob(t)), w.guard.queue[0];
    NoRepeatTake(w.guard.queue);
    assert w.guard.queue == [run] + v.guard.queue && run in w.guard.queue;
    JobArrives(w, TakeJob(t), run);
    forall r
      ensures r in w.guard.queue <==> r in v.guard.queue || r == run
    {
    }
  }

  lemma JobEnterKeepsDeduplicated(w: World, t: Thread)
    requires Deduplicated(w) && Enabled(w, EnterDrive(t)) && !Manual(t)
    ensures Deduplicated(Apply(w, EnterDrive(t)))
  {
    var run := At(w, t).run;
    assert Holds(w, t, run);
    assert Held(w, run);
    JobLeaves(w, EnterDrive(t), run);
  }

  /** A manual drive keeps the slots right exactly when it overtakes no job. */
  lemma ManualEnters(w: World, t: Thread)
    requires Deduplicated(w) && Enabled(w, EnterDrive(t)) && Manual(t)
    ensures Deduplicated(Apply(w, EnterDrive(t))) <==> !Overtakes(w, EnterDrive(t))
  {
    var v, run := Apply(w, EnterDrive(t)), At(w, t).run;
    if run in w.guard.queued {
      forall r
        ensures Held(w, r) ==> Held(v, r)
      {
        OthersHoldSame(w, EnterDrive(t), r);
        if u :| Holds(w, u, r) {
          assert Holds(v, u, r);
        }
      }
      assert run in v.guard.queue || Held(v, run);
      assert run !in v.guard.queued;
    } else {
      assert v.guard.queued == w.guard.queued;
      SameJobs(w, EnterDrive(t));
    }
  }

  /** The slots stay right at every step but one, and that one always puts them wrong. */
  lemma StepDeduplicates(w: World, s: Step)
    requires Deduplicated(w) && Placed(w) && Pooled(w) && Enabled(w, s)
    ensures Deduplicated(Apply(w, s)) <==> !Overtakes(w, s)
  {
    match s
    case Enqueue(t, run) => EnqueueKeepsDeduplicated(w, t, run);
    case SendJob(t) => SendKeepsDeduplicated(w, t);
    case TakeJob(t) => TakeKeepsDeduplicated(w, t);
    case EnterDrive(t) =>
      if Manual(t) {
        ManualEnters(w, t);
      } else {
        JobEnterKeepsDeduplicated(w, t);
      }
    case _ => SameJobs(w, s);
  }

  ghost predicate NoOvertaking(w: World, steps: seq<Step>)
    requires CanRun(w, steps)
    decreases |steps|
  {
    steps == [] || (!Overtakes(w, steps[0]) && NoOvertaking(Apply(w, steps[0]), steps[1..]))
  }

  ghost predicate AlwaysDeduplicated(w: World, steps: seq<Step>)
    requires CanRun(w, steps)
    decreases |steps|
  {
    Deduplicated(w) && (steps == [] || AlwaysDeduplicated(Apply(w, steps[0]), steps[1..]))
  }

  lemma {:induction false} PhaseGrows(w: World, steps: seq<Step>)
    requires CanRun(w, steps)
    ensures w.phase <= RunAll(w, steps).phase
    decreases |steps|
  {
    if steps != [] {
      PhaseGrows(Apply(w, steps[0]), steps[1..]);
    }
  }

  lemma {:induction false} DeduplicatedIff(w: World, steps: seq<Step>)
    requires Sound(w) && Deduplicated(w) && CanRun(w, steps) && RunAll(w, steps).phase < QUEUE_CLOSED
    ensures AlwaysDeduplicated(w, steps) <==> NoOvertaking(w, steps)
    ensures NoOvertaking(w, steps) ==> Deduplicated(RunAll(w, steps))
    decreases |steps|
  {
    if steps != [] {
      PhaseGrows(w, steps);
      StepDeduplicates(w, steps[0]);
      StepKeepsSound(w, steps[0]);
      if !Overtakes(w, steps[0]) {
        DeduplicatedIff(Apply(w, steps[0]), steps[1..]);
      }
    }
  }

  /** Until the queue closes, no run ever has two jobs and every slot says whether its run has one, in all
      of a schedule, exactly when no request or turn in it drives a run whose slot is set. */
  lemma DeduplicatedUnlessOvertaken(steps: seq<Step>)
    requires CanRun(BOOTED, steps) && RunAll(BOOTED, steps).phase < QUEUE_CLOSED
    ensures AlwaysDeduplicated(BOOTED, steps) <==> NoOvertaking(BOOTED, steps)
  {
    BootedSound();
    DeduplicatedIff(BOOTED, steps);
  }

  lemma SomethingQueued(queue: seq<Run>)
    requires queue != []
    ensures exists run :: run in queue
  {
    assert queue[0] in queue;
  }

  lemma IdleDrained(w: World)
    requires Sound(w) && LooksIdle(w.guard) && w.guard.queue == [] && forall run :: !Held(w, run)
    ensures Drained(w) <==> forall t: Thread {:trigger At(w, t)} :: Manual(t) ==> !At(w, t).Entering?
  {
    forall t
      ensures DrainedAt(w, t) <==> !(Manual(t) && At(w, t).Entering?)
    {
      match At(w, t)
      case Sending(run) => assert Holds(w, t, run) ==> Held(w, run);
      case Entering(run) => assert Holds(w, t, run) ==> Held(w, run);
      case _ =>
    }
  }

  /** As long as no job has been overtaken, a run being walked has no job, queued or held: every signal that
      came meanwhile has been folded into the walk. */
  lemma WalkedHasNoJob(steps: seq<Step>, run: Run)
    requires CanRun(BOOTED, steps) && NoOvertaking(BOOTED, steps) && RunAll(BOOTED, steps).phase < QUEUE_CLOSED
    requires run in RunAll(BOOTED, steps).guard.inProgress
    ensures var w := RunAll(BOOTED, steps); run !in w.guard.queue && !Held(w, run)
  {
    BootedSound();
    RunKeepsSound(BOOTED, steps);
    DeduplicatedIff(BOOTED, steps);
    RunKeepsApart(BOOTED, steps);
    var w := RunAll(BOOTED, steps);
    assert run !in w.guard.queued;
  }

  /** As long as no job has been overtaken, a pool that looks idle to the shutdown has none, queued or held:
      nothing is left, exactly when no request and no turn is about to drive. */
  lemma IdleMeansDrained(steps: seq<Step>)
    requires CanRun(BOOTED, steps) && NoOvertaking(BOOTED, steps) && RunAll(BOOTED, steps).phase < QUEUE_CLOSED
    ensures var w := RunAll(BOOTED, steps);
            LooksIdle(w.guard) ==>
              w.guard.queue == [] && (forall run :: !Held(w, run)) &&
              (Drained(w) <==> forall t: Thread {:trigger At(w, t)} :: Manual(t) ==> !At(w, t).Entering?)
  {
    BootedSound();
    RunKeepsSound(BOOTED, steps);
    DeduplicatedIff(BOOTED, steps);
    var w := RunAll(BOOTED, steps);
    if LooksIdle(w.guard) {
      if w.guard.queue != [] {
        SomethingQueued(w.guard.queue);
      }
      forall run
        ensures !Held(w, run)
      {
        assert run !in w.guard.queued;
      }
      IdleDrained(w);
    }
  }

  lemma OneQueued(run: Run) returns (steps: seq<Step>)
    ensures CanRun(BOOTED, steps)
    ensures RunAll(BOOTED, steps) == World(FRESH_GUARD.(queue := [run], queued := {run}), map[Request(0) := Busy, Drain := Busy],
                                           {}, SERVING, false, 0, 0, false, {run}, {}, false)
  {
    var w := BOOTED;
    steps := [];
    w, steps := Then(steps, w, Accept(Request(0)));
    w, steps := Then(steps, w, Tick(Drain));
    w, steps := Then(steps, w, Enqueue(Drain, run));
    w, steps := Then(steps, w, SendJob(Drain));
  }

  lemma OneLeft(run: Run) returns (steps: seq<Step>)
    ensures CanRun(BOOTED, steps)
    ensures RunAll(BOOTED, steps).guard == FRESH_GUARD.(queue := [run])
    ensures RunAll(BOOTED, steps).pcs == map[Request(0) := Busy, Drain := Busy]
  {
    steps := OneQueued(run);
    var w := RunAll(BOOTED, steps);
    w, steps := Then(steps, w, Drive(Request(0), run));
    w, steps := Then(steps, w, EnterDrive(Request(0)));
    w, steps := Then(steps, w, ExitWalk(Request(0), true));
  }

  /** What overtaking does: afterwards the pool looks idle with a job in its queue, and the run can be
      queued a second time. */
  lemma OvertakenJob(run: Run) returns (idle: seq<Step>, doubled: seq<Step>)
    ensures CanRun(BOOTED, idle) && var w := RunAll(BOOTED, idle); LooksIdle(w.guard) && w.guard.queue == [run]
    ensures CanRun(BOOTED, doubled) && RunAll(BOOTED, doubled).guard.queue == [run, run]
  {
    idle := OneLeft(run);
    var w := RunAll(BOOTED, idle);
    w, doubled := Then(idle, w, Enqueue(Drain, run));
    w, doubled := Then(doubled, w, SendJob(Drain));
  }
}
