/** The lifecycle. */
module Lifecycle {
  // Two ticker loops, four pool workers, any number of requests and of chat turns, background work nobody
  // waits for, and the ordered shutdown up to the closing of the database, in every interleaving.

  import opened Pool

  /** A chat is the goroutine of one conversation, which takes its turns one by one; an aside is work the
      program starts and forgets, such as a re-index, a job of the embedding worker or the report of a webhook. */
  datatype Thread = Drain | Timeout | Worker(slot: nat) | Request(number: nat) | Chat(conversation: nat) | Aside(job: nat)

  /** Where a thread is. `Busy` is inside a tick, a request, a turn or a job, using the database and, but for
      an aside, free to signal runs. A walk is `Opening` from when the guard admits it until it has read its
      run and registered a context of its own, which cancel-all can reach; `live` says whether it has not
      been cancelled. */
  datatype Pc =
    | Idle
    | Busy
    | Sending(run: Run)
    | Entering(run: Run)
    | Opening(run: Run)
    | Walking(run: Run, live: bool)
    | Gone

  // The shutdown, one phase a statement.
  const SERVING: nat := 0
  const LISTENER_CLOSED: nat := 1
  const REQUESTS_WAITED: nat := 2
  const DRAIN_STOPPED: nat := 3
  const TIMEOUT_STOPPED: nat := 4
  const DRAIN_WAITED: nat := 5
  const TIMEOUT_WAITED: nat := 6
  const GRACED: nat := 7
  const CANCELLED: nat := 8
  const QUEUE_CLOSED: nat := 9
  const WORKERS_JOINED: nat := 10
  const CHATS_STOPPED: nat := 11
  const CHATS_JOINED: nat := 12
  const DB_CLOSED: nat := 13

  /** `turns` holds the conversations with a turn waiting to be taken, `owed` the runs signalled since their
      last walk began, `dropped` those whose signal the program gave up on, `abandoned` whether a walk ever
      ended with its caller's context dead, `rushed` whether a wait was cut short by the expiry of the shutdown
      context. */
  datatype World = World(
    guard: Guard,
    pcs: map<Thread, Pc>,
    turns: set<nat>,
    phase: nat,
    expired: bool,
    drainCloses: nat,
    timeoutCloses: nat,
    rushed: bool,
    owed: set<Run>,
    dropped: set<Run>,
    abandoned: bool)

  function At(w: World, t: Thread): Pc {
    if t in w.pcs then w.pcs[t] else Idle
  }

  function Move(w: World, t: Thread, pc: Pc): World {
    w.(pcs := w.pcs[t := pc])
  }

  const BOOTED := World(FRESH_GUARD, map[], {}, SERVING, false, 0, 0, false, {}, {}, false)

  /** Admitted by the guard. */
  predicate Admitted(pc: Pc) {
    pc.Opening? || pc.Walking?
  }

  predicate Loop(t: Thread) {
    t.Drain? || t.Timeout?
  }

  /** Who drives runs itself: a request, and a chat turn by its tools. Their contexts can die. */
  predicate Manual(t: Thread) {
    t.Request? || t.Chat?
  }

  /** Where a thread stands between two drives. */
  function Home(t: Thread): Pc {
    if t.Worker? then Idle else Busy
  }

  predicate RequestsDone(w: World) {
    forall t :: t in w.pcs && t.Request? ==> w.pcs[t].Idle?
  }

  predicate Resting(pc: Pc) {
    pc.Idle? || pc.Gone?
  }

  /** No conversation has a turn under way or waiting. */
  predicate ChatsQuiet(w: World) {
    w.turns == {} && forall t :: t in w.pcs && t.Chat? ==> Resting(w.pcs[t])
  }

  predicate ChatsGone(w: World) {
    forall t :: t in w.pcs && t.Chat? ==> w.pcs[t].Gone?
  }

  predicate AsidesDone(w: World) {
    forall t :: t in w.pcs && t.Aside? ==> w.pcs[t].Idle?
  }

  predicate WorkersGone(w: World) {
    forall slot :: 0 <= slot < WORKERS ==> At(w, Worker(slot)).Gone?
  }

  predicate StopAsked(w: World, t: Thread) {
    w.phase >= if t.Drain? then DRAIN_STOPPED else TIMEOUT_STOPPED
  }

  datatype Step =
    | Accept(t: Thread)
    | Tick(t: Thread)
    | Leave(t: Thread)
    | Return(t: Thread)
    | Ask(t: Thread, conversation: nat)
    | Begin(t: Thread)
    | Wake(t: Thread)
    | Enqueue(t: Thread, run: Run)
    | Drive(t: Thread, run: Run)
    | SendJob(t: Thread)
    | TakeJob(t: Thread)
    | EnterDrive(t: Thread)
    | Register(t: Thread, live: bool)
    | ExitWalk(t: Thread, live: bool)
    | Expire
    | Proceed

  /** What the next statement of the shutdown is waiting for. */
  predicate WaitOver(w: World) {
    if w.phase == LISTENER_CLOSED then RequestsDone(w)
    else if w.phase == TIMEOUT_STOPPED then At(w, Drain).Gone?
    else if w.phase == DRAIN_WAITED then At(w, Timeout).Gone?
    else if w.phase == QUEUE_CLOSED then WorkersGone(w)
    else if w.phase == CHATS_STOPPED then ChatsGone(w)
    else w.phase < DB_CLOSED
  }

  /** The three waits the shutdown context bounds; those for the workers and the chats are not among them. */
  predicate Bounded(phase: nat) {
    phase == LISTENER_CLOSED || phase == TIMEOUT_STOPPED || phase == DRAIN_WAITED
  }

  /** A loop whose context is cancelled may still take one more tick: both cases of its select are
      ready, and so may the goroutine of a conversation. Contexts made for a tick are never cancelled, so only
      a request's or a turn's can be dead. A walk ends early, unregistered, when its run cannot be read or has
      settled. Work nobody waits for may be started at any time until the database is closed. */
  predicate Enabled(w: World, s: Step) {
    match s
    case Accept(t) => t.Request? && At(w, t).Idle? && w.phase == SERVING
    case Tick(t) => Loop(t) && At(w, t).Idle?
    case Leave(t) => !t.Worker? && At(w, t).Busy?
    case Return(t) =>
      if t.Worker? then t.slot < WORKERS && At(w, t).Idle? && w.guard.closed && w.guard.queue == []
      else if t.Chat? then t in w.pcs && At(w, t).Idle? && w.phase >= CHATS_STOPPED
      else Loop(t) && At(w, t).Idle? && StopAsked(w, t)
    case Ask(t, _) => t.Request? && At(w, t).Busy?
    case Begin(t) => t.Chat? && At(w, t).Idle? && t.conversation in w.turns
    case Wake(t) => t.Aside? && At(w, t).Idle? && w.phase < DB_CLOSED
    case Enqueue(t, _) => Loop(t) && At(w, t).Busy?
    case Drive(t, _) => Manual(t) && At(w, t).Busy?
    case SendJob(t) => At(w, t).Sending? && (w.guard.closed || |w.guard.queue| < QUEUE_DEPTH)
    case TakeJob(t) => t.Worker? && t.slot < WORKERS && At(w, t).Idle? && w.guard.queue != []
    case EnterDrive(t) => At(w, t).Entering?
    case Register(t, live) => At(w, t).Opening? && (live || Manual(t))
    case ExitWalk(t, live) => Admitted(At(w, t)) && (live || Manual(t))
    case Expire => w.phase >= LISTENER_CLOSED
    case Proceed => WaitOver(w) || (Bounded(w.phase) && w.expired)
  }

  /** Cancel-all reaches the walks that have registered and nothing else. */
  function CancelAll(pcs: map<Thread, Pc>): map<Thread, Pc> {
    map t | t in pcs :: if pcs[t].Walking? then Walking(pcs[t].run, false) else pcs[t]
  }

  /** Stopping the chats cancels the turns under way, and with them their walks. */
  function CancelTurns(pcs: map<Thread, Pc>): map<Thread, Pc> {
    map t | t in pcs :: if t.Chat? && pcs[t].Walking? then Walking(pcs[t].run, false) else pcs[t]
  }

  function Proceeded(w: World): World {
    var v := w.(phase := w.phase + 1, rushed := w.rushed || !WaitOver(w));
    if w.phase == GRACED then v.(pcs := CancelAll(w.pcs))
    else if w.phase == CANCELLED then v.(guard := Close(w.guard))
    else if w.phase == WORKERS_JOINED then v.(pcs := CancelTurns(w.pcs))
    else v
  }

  /** A conversation takes one turn at a time: a message to one that is in a turn is refused, one to a
      conversation whose goroutine has returned is never read. */
  function Asked(w: World, conversation: nat): World {
    var t := Chat(conversation);
    if At(w, t).Idle? then Move(w, t, Idle).(turns := w.turns + {conversation}) else w
  }

  function Apply(w: World, s: Step): World
    requires Enabled(w, s)
  {
    match s
    case Accept(t) => Move(w, t, Busy)
    case Tick(t) => Move(w, t, Busy)
    case Leave(t) => Move(w, t, Idle)
    case Return(t) =>
      var v := Move(w, t, Gone);
      if t.Drain? then v.(drainCloses := w.drainCloses + 1)
      else if t.Timeout? then v.(timeoutCloses := w.timeoutCloses + 1)
      else if t.Chat? then v.(turns := w.turns - {t.conversation})
      else v
    case Ask(t, conversation) => Asked(w, conversation)
    case Begin(t) => Move(w, t, Busy).(turns := w.turns - {t.conversation})
    case Wake(t) => Move(w, t, Busy)
    case Enqueue(t, run) =>
      var (g, verdict) := Signal(w.guard, run);
      Move(w, t, if verdict.DriveInline? then Entering(run) else if verdict.ToSend? then Sending(run) else Busy)
      .(guard := g, owed := w.owed + {run})
    case Drive(t, run) => Move(w, t, Entering(run)).(owed := w.owed + {run})
    case SendJob(t) =>
      var run := At(w, t).run;
      Move(w, t, Home(t)).(guard := Send(w.guard, run), dropped := if w.guard.closed then w.dropped + {run} else w.dropped)
    case TakeJob(t) => Move(w, t, Entering(w.guard.queue[0])).(guard := Take(w.guard))
    case EnterDrive(t) =>
      var run := At(w, t).run;
      var (g, mine) := Enter(w.guard, run);
      Move(w, t, if mine then Opening(run) else Home(t)).(guard := g, owed := if mine then w.owed - {run} else w.owed)
    case Register(t, live) => Move(w, t, Walking(At(w, t).run, live))
    case ExitWalk(t, live) =>
      var run := At(w, t).run;
      var (g, again) := Exit(w.guard, run, live);
      Move(w, t, if again then Opening(run) else Home(t))
      .(guard := g,
        owed := if again then w.owed - {run} else w.owed,
        dropped := if run in w.guard.pending && !live then w.dropped + {run} else w.dropped,
        abandoned := w.abandoned || !live)
    case Expire => w.(expired := true)
    case Proceed => Proceeded(w)
  }

  /** A schedule: steps taken one after the other, each enabled where it is taken. */
  predicate CanRun(w: World, steps: seq<Step>)
    decreases |steps|
  {
    steps == [] || (Enabled(w, steps[0]) && CanRun(Apply(w, steps[0]), steps[1..]))
  }

  function RunAll(w: World, steps: seq<Step>): World
    requires CanRun(w, steps)
    decreases |steps|
  {
    if steps == [] then w else RunAll(Apply(w, steps[0]), steps[1..])
  }

  // ---- single flight ----

  predicate Walks(w: World, t: Thread, run: Run) {
    Admitted(At(w, t)) && At(w, t).run == run
  }

  /** At most one thread walks a run, and the guard knows exactly which runs are being walked. */
  ghost predicate SingleFlight(w: World) {
    && (forall t, u {:trigger At(w, t), At(w, u)} :: Admitted(At(w, t)) && Admitted(At(w, u)) && At(w, t).run == At(w, u).run ==> t == u)
    && (forall t {:trigger At(w, t)} :: Admitted(At(w, t)) ==> At(w, t).run in w.guard.inProgress)
    && (forall run {:trigger run in w.guard.inProgress} :: run in w.guard.inProgress ==> exists t :: Walks(w, t, run))
    && w.guard.pending <= w.guard.inProgress
  }

  predicate Acts(s: Step, t: Thread) {
    !s.Expire? && !s.Proceed? && s.t == t
  }

  function Cancelled(pc: Pc): Pc {
    if pc.Walking? then Walking(pc.run, false) else pc
  }

  /** The steps that cancel walks: every one, or those of chat turns. */
  predicate Cancels(w: World, s: Step, t: Thread) {
    s.Proceed? && (w.phase == GRACED || (w.phase == WORKERS_JOINED && t.Chat?))
  }

  /** A step moves its own thread only, but for those that cancel walks. */
  lemma StepMovesActor(w: World, s: Step)
    requires Enabled(w, s)
    ensures forall t {:trigger At(Apply(w, s), t)} :: !Acts(s, t) ==>
              At(Apply(w, s), t) == if Cancels(w, s, t) then Cancelled(At(w, t)) else At(w, t)
  {
  }

  lemma SameWalkers(w: World, v: World)
    requires SingleFlight(w)
    requires forall t {:trigger At(v, t)} :: Admitted(At(v, t)) <==> Admitted(At(w, t))
    requires forall t {:trigger At(v, t)} :: Admitted(At(v, t)) ==> At(v, t).run == At(w, t).run
    requires v.guard.inProgress == w.guard.inProgress && v.guard.pending <= v.guard.inProgress
    ensures SingleFlight(v)
  {
    forall run | run in v.guard.inProgress
      ensures exists t :: Walks(v, t, run)
    {
      var t :| Walks(w, t, run);
      assert Walks(v, t, run);
    }
  }

  lemma EnterKeepsSingleFlight(w: World, t: Thread)
    requires SingleFlight(w) && Enabled(w, EnterDrive(t))
    ensures SingleFlight(Apply(w, EnterDrive(t)))
  {
    var v, run := Apply(w, EnterDrive(t)), At(w, t).run;
    StepMovesActor(w, EnterDrive(t));
    if run in w.guard.inProgress {
      SameWalkers(w, v);
    } else {
      forall r | r in v.guard.inProgress
        ensures exists u :: Walks(v, u, r)
      {
        if r == run {
          assert Walks(v, t, r);
        } else {
          var u :| Walks(w, u, r);
          assert Walks(v, u, r);
        }
      }
    }
  }

  lemma ExitKeepsSingleFlight(w: World, t: Thread, live: bool)
    requires SingleFlight(w) && Enabled(w, ExitWalk(t, live))
    ensures SingleFlight(Apply(w, ExitWalk(t, live)))
  {
    var v, run := Apply(w, ExitWalk(t, live)), At(w, t).run;
    StepMovesActor(w, ExitWalk(t, live));
    if run in w.guard.pending && live {
      SameWalkers(w, v);
    } else {
      forall r | r in v.guard.inProgress
        ensures exists u :: Walks(v, u, r)
      {
        var u :| Walks(w, u, r);
        assert Walks(v, u, r);
      }
    }
  }

  lemma RestKeepsInProgress(w: World, s: Step)
    requires w.guard.pending <= w.guard.inProgress && Enabled(w, s) && !s.EnterDrive? && !s.ExitWalk?
    ensures var v := Apply(w, s); v.guard.inProgress == w.guard.inProgress && v.guard.pending <= v.guard.inProgress
  {
  }

  lemma RestAdmits(w: World, s: Step)
    requires Enabled(w, s) && !s.EnterDrive? && !s.ExitWalk? && !s.Expire? && !s.Proceed?
    ensures Admitted(At(Apply(w, s), s.t)) <==> Admitted(At(w, s.t))
    ensures Admitted(At(w, s.t)) ==> At(Apply(w, s), s.t).run == At(w, s.t).run
  {
    match s
    case Register(_, _) =>
    case Enqueue(_, _) =>
    case SendJob(_) =>
    case TakeJob(_) =>
    case _ =>
  }

  lemma RestKeepsSingleFlight(w: World, s: Step)
    requires SingleFlight(w) && Enabled(w, s) && !s.EnterDrive? && !s.ExitWalk?
    ensures SingleFlight(Apply(w, s))
  {
    StepMovesActor(w, s);
    RestKeepsInProgress(w, s);
    if !s.Expire? && !s.Proceed? {
      RestAdmits(w, s);
    }
    SameWalkers(w, Apply(w, s));
  }

  lemma StepKeepsSingleFlight(w: World, s: Step)
    requires SingleFlight(w) && Enabled(w, s)
    ensures SingleFlight(Apply(w, s))
  {
    if s.EnterDrive? {
      EnterKeepsSingleFlight(w, s.t);
    } else if s.ExitWalk? {
      ExitKeepsSingleFlight(w, s.t, s.live);
    } else {
      RestKeepsSingleFlight(w, s);
    }
  }

  // ---- signals to a run being walked ----

  /** A run being walked is not in the queue's books: what is signalled to it folds into the walk. */
  predicate Apart(w: World) {
    w.guard.queued !! w.guard.inProgress
  }

  lemma SignalKeepsApart(g: Guard, run: Run, live: bool)
    requires g.queued !! g.inProgress
    ensures Signal(g, run).0.queued !! Signal(g, run).0.inProgress && Enter(g, run).0.queued !! Enter(g, run).0.inProgress
    ensures Exit(g, run, live).0.queued !! Exit(g, run, live).0.inProgress && Send(g, run).queued !! Send(g, run).inProgress
  {
  }

  lemma StepKeepsApart(w: World, s: Step)
    requires Apart(w) && Enabled(w, s)
    ensures Apart(Apply(w, s))
  {
    match s
    case Enqueue(_, run) => SignalKeepsApart(w.guard, run, true);
    case SendJob(t) => SignalKeepsApart(w.guard, At(w, t).run, true);
    case EnterDrive(t) => SignalKeepsApart(w.guard, At(w, t).run, true);
    case ExitWalk(t, live) => SignalKeepsApart(w.guard, At(w, t).run, live);
    case _ =>
  }

  lemma {:induction false} RunKeepsApart(w: World, steps: seq<Step>)
    requires Apart(w) && CanRun(w, steps)
    ensures Apart(RunAll(w, steps))
    decreases |steps|
  {
    if steps != [] {
      StepKeepsApart(w, steps[0]);
      RunKeepsApart(Apply(w, steps[0]), steps[1..]);
    }
  }

  // ---- no signal is lost ----

  predicate Carries(w: World, t: Thread, run: Run) {
    At(w, t) == Sending(run) || At(w, t) == Entering(run)
  }

  /** Somebody still has to open a drive of the run. */
  ghost predicate Carried(w: World, run: Run) {
    run in w.guard.queue || exists t :: Carries(w, t, run)
  }

  /** Every signal not yet answered by a walk that began after it is on its way to one, or was given
      up on; and signals are given up on only at a closed queue or under a dead context. */
  ghost predicate Remembered(w: World) {
    && (forall run {:trigger run in w.owed} :: run in w.owed ==> run in w.guard.pending || Carried(w, run) || run in w.dropped)
    && (forall run {:trigger run in w.guard.queued} :: run in w.guard.queued ==> Carried(w, run))
    && (w.dropped != {} ==> w.guard.closed || w.abandoned)
  }

  /** The job in the hands of the thread about to deliver or to open it. */
  predicate Settles(w: World, s: Step, run: Run)
    requires Enabled(w, s)
  {
    (s.EnterDrive? && At(w, s.t).run == run) || (s.SendJob? && w.guard.closed && At(w, s.t).run == run)
  }

  lemma StillCarried(w: World, s: Step, run: Run)
    requires Enabled(w, s) && Carried(w, run) && !Settles(w, s, run)
    ensures Carried(Apply(w, s), run)
  {
    var v := Apply(w, s);
    StepMovesActor(w, s);
    if run in w.guard.queue {
      if s.TakeJob? {
        assert w.guard.queue == [w.guard.queue[0]] + w.guard.queue[1..];
        if run == w.guard.queue[0] {
          assert Carries(v, s.t, run);
        }
      }
    } else {
      var t :| Carries(w, t, run);
      if s.SendJob? && s.t == t {
        assert v.guard.queue[|v.guard.queue| - 1] == run;
      } else {
        assert !Acts(s, t);
        assert Carries(v, t, run);
      }
    }
  }

  lemma SignalIsCarried(w: World, s: Step)
    requires Remembered(w) && Enabled(w, s) && (s.Enqueue? || s.Drive?)
    ensures var v := Apply(w, s); s.run in v.guard.pending || Carried(v, s.run)
    ensures var v := Apply(w, s); s.run in v.guard.queued ==> Carried(v, s.run)
  {
    var v := Apply(w, s);
    if s.run in w.guard.queued {
      StillCarried(w, s, s.run);
    } else if s.Enqueue? && Signal(w.guard, s.run).1.Folded? {
    } else {
      assert Carries(v, s.t, s.run);
    }
  }

  lemma SettledRemembered(w: World, s: Step, run: Run)
    requires Enabled(w, s) && Settles(w, s, run) && run in Apply(w, s).owed
    ensures var v := Apply(w, s); run in v.guard.pending || run in v.dropped
  {
  }

  lemma DroppedGrows(w: World, s: Step)
    requires Enabled(w, s)
    ensures w.dropped <= Apply(w, s).dropped
  {
  }

  lemma PendingWalked(w: World, s: Step, run: Run)
    requires Enabled(w, s) && run in w.guard.pending && run in Apply(w, s).owed
    ensures var v := Apply(w, s); run in v.guard.pending || run in v.dropped
  {
  }

  lemma StaysGivenUp(w: World, s: Step, run: Run)
    requires Enabled(w, s) && (run in w.guard.pending || run in w.dropped) && run in Apply(w, s).owed
    ensures var v := Apply(w, s); run in v.guard.pending || run in v.dropped
  {
    DroppedGrows(w, s);
    if run in w.guard.pending {
      PendingWalked(w, s, run);
    }
  }

  lemma OwedRemembered(w: World, s: Step, run: Run)
    requires Remembered(w) && Enabled(w, s) && run in Apply(w, s).owed
    ensures var v := Apply(w, s); run in v.guard.pending || Carried(v, run) || run in v.dropped
  {
    if (s.Enqueue? || s.Drive?) && s.run == run {
      SignalIsCarried(w, s);
    } else if Settles(w, s, run) {
      SettledRemembered(w, s, run);
    } else if Carried(w, run) {
      StillCarried(w, s, run);
    } else {
      StaysGivenUp(w, s, run);
    }
  }

  lemma QueuedCarried(w: World, s: Step, run: Run)
    requires Remembered(w) && Enabled(w, s) && run in Apply(w, s).guard.queued
    ensures Carried(Apply(w, s), run)
  {
    if s.Enqueue? && s.run == run {
      SignalIsCarried(w, s);
    } else {
      StillCarried(w, s, run);
    }
  }

  lemma StepKeepsRemembered(w: World, s: Step)
    requires Remembered(w) && Enabled(w, s)
    ensures Remembered(Apply(w, s))
  {
    var v := Apply(w, s);
    forall run | run in v.owed
      ensures run in v.guard.pending || Carried(v, run) || run in v.dropped
    {
      OwedRemembered(w, s, run);
    }
    forall run | run in v.guard.queued
      ensures Carried(v, run)
    {
      QueuedCarried(w, s, run);
    }
  }

  // ---- the ordered shutdown ----

  /** Which threads can be where. */
  predicate PlacedAt(w: World, t: Thread) {
    match At(w, t)
    case Idle => true
    case Busy => !t.Worker?
    case Sending(_) => Loop(t)
    case Gone => Loop(t) || (t.Worker? && t.slot < WORKERS && w.guard.closed) || (t.Chat? && w.phase >= CHATS_STOPPED)
    case _ => !t.Aside? && (t.Worker? ==> t.slot < WORKERS)
  }

  ghost predicate Placed(w: World) {
    forall t {:trigger At(w, t)} :: PlacedAt(w, t)
  }

  /** A turn waits only at a conversation that is in none. */
  ghost predicate TurnsWait(w: World) {
    forall n {:trigger n in w.turns} :: n in w.turns ==> Chat(n) in w.pcs && At(w, Chat(n)).Idle?
  }

  /** The shutdown has got where it says: the queue is closed in its phase, each done channel has been
      closed once if its loop returned and never otherwise, and a wait not cut short has done its work. */
  ghost predicate Ordered(w: World) {
    && w.phase <= DB_CLOSED
    && w.guard.closed == !w.guard.started == (w.phase >= QUEUE_CLOSED)
    && w.drainCloses == (if At(w, Drain).Gone? then 1 else 0)
    && w.timeoutCloses == (if At(w, Timeout).Gone? then 1 else 0)
    && (w.rushed ==> w.expired)
    && (!w.rushed && w.phase >= DRAIN_WAITED ==> At(w, Drain).Gone?)
    && (!w.rushed && w.phase >= TIMEOUT_WAITED ==> At(w, Timeout).Gone?)
  }

  ghost predicate Waited(w: World) {
    && (w.phase >= WORKERS_JOINED ==> WorkersGone(w))
    && (!w.rushed && w.phase >= REQUESTS_WAITED ==> RequestsDone(w))
    && (!w.rushed && w.phase >= CHATS_JOINED ==> ChatsGone(w))
  }

  /** No step but that of the shutdown touches the phase, what was rushed, or whether the queue is closed. */
  lemma StepKeepsPhase(w: World, s: Step)
    requires Enabled(w, s) && !s.Proceed?
    ensures var v := Apply(w, s);
            v.phase == w.phase && v.rushed == w.rushed && v.guard.closed == w.guard.closed && v.guard.started == w.guard.started
    ensures w.expired ==> Apply(w, s).expired
  {
  }

  lemma ActorPlaced(w: World, s: Step)
    requires Enabled(w, s) && !s.Expire? && !s.Proceed? && PlacedAt(w, s.t)
    ensures PlacedAt(Apply(w, s), s.t)
  {
    StepKeepsPhase(w, s);
  }

  lemma OthersPlaced(w: World, s: Step, t: Thread)
    requires Enabled(w, s) && !Acts(s, t) && PlacedAt(w, t)
    ensures PlacedAt(Apply(w, s), t)
  {
    StepMovesActor(w, s);
    assert At(Apply(w, s), t) == if Cancels(w, s, t) then Cancelled(At(w, t)) else At(w, t);
    if !s.Proceed? {
      StepKeepsPhase(w, s);
    }
  }

  lemma StepPlaces(w: World, s: Step, t: Thread)
    requires PlacedAt(w, t) && Enabled(w, s)
    ensures PlacedAt(Apply(w, s), t)
  {
    if Acts(s, t) {
      ActorPlaced(w, s);
    } else {
      OthersPlaced(w, s, t);
    }
  }

  lemma StepKeepsPlaced(w: World, s: Step)
    requires Placed(w) && Enabled(w, s)
    ensures Placed(Apply(w, s))
  {
    forall t
      ensures PlacedAt(Apply(w, s), t)
    {
      assert PlacedAt(w, t);
      StepPlaces(w, s, t);
    }
  }

  lemma StepKeepsTurnsWait(w: World, s: Step)
    requires TurnsWait(w) && Enabled(w, s)
    ensures TurnsWait(Apply(w, s))
  {
    StepMovesActor(w, s);
  }

  lemma ProceedKeepsOrdered(w: World)
    requires Placed(w) && Ordered(w) && Enabled(w, Proceed)
    ensures Ordered(Apply(w, Proceed))
  {
    StepMovesActor(w, Proceed);
  }

  lemma StepKeepsCounts(w: World, s: Step)
    requires Enabled(w, s) && !s.Proceed? && !s.Return?
    ensures var v := Apply(w, s); v.drainCloses == w.drainCloses && v.timeoutCloses == w.timeoutCloses
  {
  }

  lemma StepKeepsGone(w: World, s: Step, t: Thread)
    requires Enabled(w, s) && !s.Proceed? && !s.Return?
    ensures At(Apply(w, s), t).Gone? <==> At(w, t).Gone?
  {
    StepMovesActor(w, s);
  }

  lemma StepClosesOnce(w: World, s: Step)
    requires Enabled(w, s) && !s.Proceed?
    requires w.drainCloses == (if At(w, Drain).Gone? then 1 else 0) && w.timeoutCloses == (if At(w, Timeout).Gone? then 1 else 0)
    ensures var v := Apply(w, s);
            v.drainCloses == (if At(v, Drain).Gone? then 1 else 0) && v.timeoutCloses == (if At(v, Timeout).Gone? then 1 else 0)
    ensures At(w, Drain).Gone? ==> At(Apply(w, s), Drain).Gone?
    ensures At(w, Timeout).Gone? ==> At(Apply(w, s), Timeout).Gone?
  {
    if !s.Return? {
      StepKeepsCounts(w, s);
      StepKeepsGone(w, s, Drain);
      StepKeepsGone(w, s, Timeout);
    }
  }

  lemma StepKeepsOrdered(w: World, s: Step)
    requires Placed(w) && Ordered(w) && Enabled(w, s)
    ensures Ordered(Apply(w, s))
  {
    if s.Proceed? {
      ProceedKeepsOrdered(w);
    } else {
      StepKeepsPhase(w, s);
      StepClosesOnce(w, s);
    }
  }

  lemma StepKeepsWorkersGone(w: World, s: Step)
    requires Enabled(w, s) && WorkersGone(w)
    ensures WorkersGone(Apply(w, s))
  {
    StepMovesActor(w, s);
    forall slot | 0 <= slot < WORKERS
      ensures At(Apply(w, s), Worker(slot)).Gone?
    {
      assert At(w, Worker(slot)).Gone?;
    }
  }

  lemma StepKeepsRequestsDone(w: World, s: Step)
    requires Enabled(w, s) && RequestsDone(w) && w.phase != SERVING
    ensures RequestsDone(Apply(w, s))
  {
    StepMovesActor(w, s);
    forall t | t in Apply(w, s).pcs && t.Request?
      ensures At(Apply(w, s), t).Idle?
    {
      assert At(w, t).Idle?;
    }
  }

  lemma NobodyAsks(w: World, s: Step)
    requires RequestsDone(w) && Enabled(w, s)
    ensures !s.Ask?
  {
  }

  lemma StepKeepsChatsGone(w: World, s: Step)
    requires Enabled(w, s) && ChatsGone(w) && RequestsDone(w) && TurnsWait(w)
    ensures ChatsGone(Apply(w, s))
  {
    NobodyAsks(w, s);
    StepMovesActor(w, s);
    forall t | t in Apply(w, s).pcs && t.Chat?
      ensures At(Apply(w, s), t).Gone?
    {
      assert t in w.pcs;
      assert At(w, t).Gone?;
    }
  }

  lemma StepKeepsWaited(w: World, s: Step)
    requires Waited(w) && TurnsWait(w) && Enabled(w, s)
    ensures Waited(Apply(w, s))
  {
    if WorkersGone(w) {
      StepKeepsWorkersGone(w, s);
    }
    if RequestsDone(w) && w.phase != SERVING {
      StepKeepsRequestsDone(w, s);
      if ChatsGone(w) {
        StepKeepsChatsGone(w, s);
      }
    }
  }

  // ---- every schedule ----

  ghost predicate Sound(w: World) {
    SingleFlight(w) && Remembered(w) && Placed(w) && TurnsWait(w) && Ordered(w) && Waited(w)
  }

  lemma BootedSound()
    ensures Sound(BOOTED)
  {
    forall t
      ensures PlacedAt(BOOTED, t)
    {
      assert At(BOOTED, t).Idle?;
    }
  }

  lemma StepKeepsSound(w: World, s: Step)
    requires Sound(w) && Enabled(w, s)
    ensures Sound(Apply(w, s))
  {
    StepKeepsSingleFlight(w, s);
    StepKeepsRemembered(w, s);
    StepKeepsPlaced(w, s);
    StepKeepsTurnsWait(w, s);
    StepKeepsOrdered(w, s);
    StepKeepsWaited(w, s);
  }

  lemma {:induction false} RunKeepsSound(w: World, steps: seq<Step>)
    requires Sound(w) && CanRun(w, steps)
    ensures Sound(RunAll(w, steps))
    decreases |steps|
  {
    if steps != [] {
      StepKeepsSound(w, steps[0]);
      RunKeepsSound(Apply(w, steps[0]), steps[1..]);
    }
  }

  /** Once nothing is moving, every signal has been answered by a walk that began after it, or was
      dropped, which needs a closed queue or a request whose context died under its walk. */
  lemma NoSignalLost(steps: seq<Step>)
    requires CanRun(BOOTED, steps)
    ensures var w := RunAll(BOOTED, steps);
            w.guard.queue == [] && (forall t: Thread :: At(w, t).Idle? || At(w, t).Busy? || At(w, t).Gone?) ==>
              w.owed <= w.dropped && (w.owed != {} ==> w.guard.closed || w.abandoned)
  {
    BootedSound();
    RunKeepsSound(BOOTED, steps);
    var w := RunAll(BOOTED, steps);
    if w.guard.queue == [] && (forall t: Thread :: At(w, t).Idle? || At(w, t).Busy? || At(w, t).Gone?) {
      forall run | run in w.owed
        ensures run in w.dropped
      {
        assert run !in w.guard.inProgress;
        assert !Carried(w, run);
      }
    }
  }

  // ---- nothing touches the database once it is closed ----

  predicate UsesDb(pc: Pc) {
    pc.Busy? || Admitted(pc)
  }

  ghost predicate Touched(w: World) {
    exists t :: UsesDb(At(w, t))
  }

  ghost predicate NeverTouched(w: World) {
    forall steps :: CanRun(w, steps) ==> !Touched(RunAll(w, steps))
  }

  /** Everybody who could signal or drive a run has ended. */
  ghost predicate Unfed(w: World) {
    At(w, Drain).Gone? && At(w, Timeout).Gone? && RequestsDone(w) && ChatsQuiet(w)
  }

  /** And no work started aside is left either. */
  ghost predicate AllOver(w: World) {
    Unfed(w) && AsidesDone(w)
  }

  lemma StepKeepsChatsQuiet(w: World, s: Step)
    requires Enabled(w, s) && ChatsQuiet(w) && RequestsDone(w)
    ensures ChatsQuiet(Apply(w, s))
  {
    StepMovesActor(w, s);
    forall t | t in Apply(w, s).pcs && t.Chat?
      ensures Resting(At(Apply(w, s), t))
    {
      assert Resting(At(w, t));
    }
  }

  lemma StepKeepsAsidesDone(w: World, s: Step)
    requires Enabled(w, s) && AsidesDone(w) && Placed(w) && w.phase == DB_CLOSED
    ensures AsidesDone(Apply(w, s))
  {
    StepMovesActor(w, s);
    forall t | t in Apply(w, s).pcs && t.Aside?
      ensures At(Apply(w, s), t).Idle?
    {
      assert At(w, t).Idle?;
    }
  }

  lemma StepKeepsAllOver(w: World, s: Step)
    requires Enabled(w, s) && AllOver(w) && Placed(w) && w.phase == DB_CLOSED
    ensures AllOver(Apply(w, s)) && Apply(w, s).phase == DB_CLOSED
  {
    StepMovesActor(w, s);
    StepKeepsRequestsDone(w, s);
    StepKeepsChatsQuiet(w, s);
    StepKeepsAsidesDone(w, s);
  }

  lemma NobodyUses(w: World, t: Thread)
    requires AllOver(w) && WorkersGone(w) && Placed(w)
    ensures !UsesDb(At(w, t))
  {
    assert t.Worker? && t.slot < WORKERS ==> At(w, Worker(t.slot)).Gone?;
    assert t.Chat? ==> Resting(At(w, t));
    assert t.Aside? ==> At(w, t).Idle?;
  }

  lemma {:induction false} ReturnedForGood(w: World, steps: seq<Step>)
    requires AllOver(w) && WorkersGone(w) && Placed(w) && w.phase == DB_CLOSED && CanRun(w, steps)
    ensures !Touched(RunAll(w, steps))
    decreases |steps|
  {
    if steps == [] {
      forall t
        ensures !UsesDb(At(w, t))
      {
        NobodyUses(w, t);
      }
    } else {
      StepKeepsPlaced(w, steps[0]);
      StepKeepsWorkersGone(w, steps[0]);
      StepKeepsAllOver(w, steps[0]);
      ReturnedForGood(Apply(w, steps[0]), steps[1..]);
    }
  }

  /** Not done: for a chat, in a turn or with one waiting. */
  predicate Unfinished(w: World, t: Thread) {
    match t
    case Worker(_) => false
    case Request(_) => !At(w, t).Idle?
    case Chat(n) => !Resting(At(w, t)) || (At(w, t).Idle? && n in w.turns)
    case Aside(_) => !At(w, t).Idle?
    case _ => !At(w, t).Gone?
  }

  lemma SomebodyUnfinished(w: World) returns (t: Thread)
    requires Placed(w) && TurnsWait(w) && (!Unfed(w) || !AsidesDone(w))
    ensures Unfinished(w, t) && (!Unfed(w) ==> !t.Aside?)
  {
    if !ChatsQuiet(w) {
      if n :| n in w.turns {
        t := Chat(n);
      } else {
        t :| t in w.pcs && t.Chat? && !Resting(w.pcs[t]);
      }
    } else if !RequestsDone(w) {
      t :| t in w.pcs && t.Request? && !w.pcs[t].Idle?;
    } else if !At(w, Drain).Gone? {
      t := Drain;
    } else if !At(w, Timeout).Gone? {
      t := Timeout;
    } else {
      t :| t in w.pcs && t.Aside? && !w.pcs[t].Idle?;
    }
  }

  function NextUse(pc: Pc, t: Thread): Step {
    match pc
    case Sending(_) => SendJob(t)
    case Entering(_) => EnterDrive(t)
    case _ => if t.Chat? then Begin(t) else Tick(t)
  }

  /** Whoever has not finished is using the database, or can with its very next step. */
  lemma NextStepTouches(w: World, t: Thread) returns (steps: seq<Step>)
    requires Placed(w) && w.phase == DB_CLOSED && w.guard.closed && Unfinished(w, t)
    ensures CanRun(w, steps) && Touched(RunAll(w, steps))
  {
    var pc := At(w, t);
    if UsesDb(pc) {
      steps := [];
    } else {
      var s := NextUse(pc, t);
      steps := [s];
      assert Enabled(w, s);
      assert UsesDb(At(Apply(w, s), t));
      assert CanRun(Apply(w, s), []);
      assert steps[1..] == [];
      assert RunAll(w, steps) == Apply(w, s);
    }
  }

  /** An unhurried shutdown has waited for everybody but the work nobody waits for. */
  lemma UnrushedIsOver(w: World)
    requires Sound(w) && w.phase == DB_CLOSED && !w.rushed
    ensures AllOver(w) <==> AsidesDone(w)
  {
    assert ChatsGone(w);
    forall n
      ensures n !in w.turns
    {
      assert n in w.turns ==> Chat(n) in w.pcs && At(w, Chat(n)).Idle?;
    }
  }

  /** The database is never touched after its close exactly when by then both loops had returned, every
      request had been answered, no conversation had a turn under way or waiting, and no work started aside
      was left. All but the last the shutdown waits for, as long as its context does not expire. */
  lemma UntouchedAfterClose(steps: seq<Step>)
    requires CanRun(BOOTED, steps) && RunAll(BOOTED, steps).phase == DB_CLOSED
    ensures var w := RunAll(BOOTED, steps); NeverTouched(w) <==> AllOver(w)
    ensures var w := RunAll(BOOTED, steps); !w.rushed ==> (NeverTouched(w) <==> AsidesDone(w))
    ensures var w := RunAll(BOOTED, steps); WorkersGone(w) && w.drainCloses <= 1 && w.timeoutCloses <= 1
  {
    BootedSound();
    RunKeepsSound(BOOTED, steps);
    var w := RunAll(BOOTED, steps);
    if !w.rushed {
      UnrushedIsOver(w);
    }
    if AllOver(w) {
      forall more | CanRun(w, more)
        ensures !Touched(RunAll(w, more))
      {
        ReturnedForGood(w, more);
      }
    } else {
      var t := SomebodyUnfinished(w);
      var more := NextStepTouches(w, t);
      assert CanRun(w, more) && Touched(RunAll(w, more));
    }
  }

  lemma {:induction false} RunThen(w: World, steps: seq<Step>, s: Step)
    requires CanRun(w, steps) && Enabled(RunAll(w, steps), s)
    ensures CanRun(w, steps + [s]) && RunAll(w, steps + [s]) == Apply(RunAll(w, steps), s)
    decreases |steps|
  {
    if steps == [] {
      assert steps + [s] == [s];
      assert CanRun(Apply(w, s), [s][1..]);
    } else {
      assert (steps + [s])[1..] == steps[1..] + [s];
      RunThen(Apply(w, steps[0]), steps[1..], s);
    }
  }

  lemma Then(steps: seq<Step>, w: World, s: Step) returns (v: World, longer: seq<Step>)
    requires CanRun(BOOTED, steps) && w == RunAll(BOOTED, steps) && Enabled(w, s)
    ensures longer == steps + [s] && CanRun(BOOTED, longer) && v == Apply(w, s) == RunAll(BOOTED, longer)
  {
    RunThen(BOOTED, steps, s);
    v, longer := Apply(w, s), steps + [s];
  }

  // ---- concrete schedules ----

  const STOPPED := FRESH_GUARD.(started := false, closed := true)

  function WithoutWorkers(pcs: map<Thread, Pc>): map<Thread, Pc> {
    pcs[Worker(0) := Gone][Worker(1) := Gone][Worker(2) := Gone][Worker(3) := Gone]
  }

  lemma WorkersReturn(steps0: seq<Step>, w: World) returns (steps: seq<Step>)
    requires CanRun(BOOTED, steps0) && w == RunAll(BOOTED, steps0) && w.guard == STOPPED
    requires forall t :: t in w.pcs ==> !t.Worker?
    ensures CanRun(BOOTED, steps) && RunAll(BOOTED, steps) == w.(pcs := WithoutWorkers(w.pcs))
  {
    var v := w;
    v, steps := Then(steps0, v, Return(Worker(0)));
    v, steps := Then(steps, v, Return(Worker(1)));
    v, steps := Then(steps, v, Return(Worker(2)));
    v, steps := Then(steps, v, Return(Worker(3)));
  }

  lemma AllWorkersGone(w: World)
    requires w.pcs == WithoutWorkers(w.pcs)
    ensures WorkersGone(w)
  {
    forall slot | 0 <= slot < WORKERS
      ensures At(w, Worker(slot)).Gone?
    {
      assert slot == 0 || slot == 1 || slot == 2 || slot == 3;
    }
  }

  lemma LastPhases(steps0: seq<Step>, w: World) returns (steps: seq<Step>)
    requires CanRun(BOOTED, steps0) && w == RunAll(BOOTED, steps0) && w.phase == QUEUE_CLOSED
    requires WorkersGone(w) && forall t :: t in w.pcs ==> !t.Chat?
    ensures CanRun(BOOTED, steps) && RunAll(BOOTED, steps) == w.(phase := DB_CLOSED)
  {
    var v := w;
    v, steps := Then(steps0, v, Proceed);
    v, steps := Then(steps, v, Proceed);
    assert CancelTurns(w.pcs) == w.pcs;
    v, steps := Then(steps, v, Proceed);
    v, steps := Then(steps, v, Proceed);
  }

  /** From cancel-all on, nothing being walked and no conversation ever started. */
  lemma ClosesFrom(steps0: seq<Step>, w: World) returns (steps: seq<Step>)
    requires CanRun(BOOTED, steps0) && w == RunAll(BOOTED, steps0) && w.phase == CANCELLED && w.guard == FRESH_GUARD
    requires forall t :: t in w.pcs ==> !t.Chat? && !t.Worker?
    ensures CanRun(BOOTED, steps)
    ensures RunAll(BOOTED, steps) == w.(phase := DB_CLOSED, guard := STOPPED, pcs := WithoutWorkers(w.pcs))
  {
    var v := w;
    v, steps := Then(steps0, v, Proceed);
    steps := WorkersReturn(steps, v);
    v := v.(pcs := WithoutWorkers(w.pcs));
    AllWorkersGone(v);
    steps := LastPhases(steps, v);
  }

  // A process whose timeout sweep overruns the grace.

  lemma SweepTakesLong() returns (steps: seq<Step>)
    ensures CanRun(BOOTED, steps)
    ensures RunAll(BOOTED, steps) ==
            World(FRESH_GUARD, map[Timeout := Busy], {}, TIMEOUT_STOPPED, true, 0, 0, false, {}, {}, false)
  {
    var w := BOOTED;
    steps := [];
    w, steps := Then(steps, w, Tick(Timeout));
    w, steps := Then(steps, w, Proceed);
    w, steps := Then(steps, w, Expire);
    w, steps := Then(steps, w, Proceed);
    w, steps := Then(steps, w, Proceed);
    w, steps := Then(steps, w, Proceed);
  }

  lemma SweepOverruns() returns (steps: seq<Step>)
    ensures CanRun(BOOTED, steps)
    ensures RunAll(BOOTED, steps) ==
            World(FRESH_GUARD, map[Timeout := Busy, Drain := Gone], {}, TIMEOUT_WAITED, true, 1, 0, true, {}, {}, false)
  {
    steps := SweepTakesLong();
    var w := RunAll(BOOTED, steps);
    w, steps := Then(steps, w, Return(Drain));
    w, steps := Then(steps, w, Proceed);
    w, steps := Then(steps, w, Proceed);
  }

  lemma SweepCancelled() returns (steps: seq<Step>)
    ensures CanRun(BOOTED, steps)
    ensures RunAll(BOOTED, steps) ==
            World(FRESH_GUARD, map[Timeout := Busy, Drain := Gone], {}, CANCELLED, true, 1, 0, true, {}, {}, false)
  {
    steps := SweepOverruns();
    var w := RunAll(BOOTED, steps);
    w, steps := Then(steps, w, Proceed);
    assert CancelAll(w.pcs) == w.pcs;
    w, steps := Then(steps, w, Proceed);
  }

  /** A sweep that overran the grace finds the pool stopped, drives the run itself under a context no
      cancel-all has seen, and walks it over a closed database. */
  lemma LateSweepWalksAfterClose(run: Run) returns (steps: seq<Step>)
    ensures CanRun(BOOTED, steps)
    ensures var w := RunAll(BOOTED, steps); w.phase == DB_CLOSED && At(w, Timeout) == Walking(run, true)
  {
    steps := SweepCancelled();
    var w := RunAll(BOOTED, steps);
    steps := ClosesFrom(steps, w);
    w := RunAll(BOOTED, steps);
    w, steps := Then(steps, w, Enqueue(Timeout, run));
    w, steps := Then(steps, w, EnterDrive(Timeout));
    w, steps := Then(steps, w, Register(Timeout, true));
  }

  // A shutdown in which nothing takes long, up to and including cancel-all.

  lemma CalmStops(steps0: seq<Step>, w: World) returns (steps: seq<Step>)
    requires CanRun(BOOTED, steps0) && w == RunAll(BOOTED, steps0) && w.phase == SERVING && RequestsDone(w)
    ensures CanRun(BOOTED, steps) && RunAll(BOOTED, steps) == w.(phase := TIMEOUT_STOPPED)
  {
    var v := w;
    v, steps := Then(steps0, v, Proceed);
    v, steps := Then(steps, v, Proceed);
    v, steps := Then(steps, v, Proceed);
    v, steps := Then(steps, v, Proceed);
  }

  lemma CalmLoops(steps0: seq<Step>, w: World) returns (steps: seq<Step>)
    requires CanRun(BOOTED, steps0) && w == RunAll(BOOTED, steps0) && w.phase == TIMEOUT_STOPPED
    requires Drain !in w.pcs && Timeout !in w.pcs
    ensures CanRun(BOOTED, steps)
    ensures RunAll(BOOTED, steps) == w.(pcs := w.pcs[Drain := Gone][Timeout := Gone],
                                        drainCloses := w.drainCloses + 1, timeoutCloses := w.timeoutCloses + 1)
  {
    var v := w;
    v, steps := Then(steps0, v, Return(Drain));
    v, steps := Then(steps, v, Return(Timeout));
  }

  lemma CalmWaits(steps0: seq<Step>, w: World) returns (steps: seq<Step>)
    requires CanRun(BOOTED, steps0) && w == RunAll(BOOTED, steps0) && w.phase == TIMEOUT_STOPPED
    requires At(w, Drain).Gone? && At(w, Timeout).Gone? && forall t :: t in w.pcs ==> !w.pcs[t].Walking?
    ensures CanRun(BOOTED, steps) && RunAll(BOOTED, steps) == w.(phase := CANCELLED)
  {
    var v := w;
    v, steps := Then(steps0, v, Proceed);
    v, steps := Then(steps, v, Proceed);
    v, steps := Then(steps, v, Proceed);
    assert CancelAll(v.pcs) == v.pcs;
    v, steps := Then(steps, v, Proceed);
  }

  lemma CalmShutdown(steps0: seq<Step>, w: World) returns (steps: seq<Step>)
    requires CanRun(BOOTED, steps0) && w == RunAll(BOOTED, steps0) && w.phase == SERVING && RequestsDone(w)
    requires Drain !in w.pcs && Timeout !in w.pcs && forall t :: t in w.pcs ==> !w.pcs[t].Walking?
    ensures CanRun(BOOTED, steps)
    ensures RunAll(BOOTED, steps) ==
            w.(phase := CANCELLED, pcs := w.pcs[Drain := Gone][Timeout := Gone],
               drainCloses := w.drainCloses + 1, timeoutCloses := w.timeoutCloses + 1)
  {
    steps := CalmStops(steps0, w);
    steps := CalmLoops(steps, RunAll(BOOTED, steps));
    steps := CalmWaits(steps, RunAll(BOOTED, steps));
  }

  /** Nothing was rushed, and yet a re-index is still at work when the database has been closed. */
  lemma AsideOutlivesDatabase() returns (steps: seq<Step>)
    ensures CanRun(BOOTED, steps)
    ensures var w := RunAll(BOOTED, steps); w.phase == DB_CLOSED && !w.rushed && At(w, Aside(0)).Busy?
  {
    var w := BOOTED;
    steps := [];
    w, steps := Then(steps, w, Wake(Aside(0)));
    steps := CalmShutdown(steps, w);
    w := RunAll(BOOTED, steps);
    steps := ClosesFrom(steps, w);
  }
}
