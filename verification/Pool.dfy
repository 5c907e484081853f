/** The guard of the worker pool: which runs are queued, being driven, or owe one more walk. Every
    function below is one critical section, so a run of the program is an interleaving of them. */
module Pool {
  datatype Run = Run(name: nat)

  datatype Guard = Guard(
    started: bool,
    closed: bool,
    queue: seq<Run>,
    queued: set<Run>,
    inProgress: set<Run>,
    pending: set<Run>)

  /** What an enqueue goes on to do once it has released the lock. */
  datatype Verdict = DriveInline | Folded | AlreadyQueued | ToSend

  const QUEUE_DEPTH: nat := 512
  const WORKERS: nat := 4

  const UNSTARTED := Guard(false, false, [], {}, {}, {})
  const FRESH_GUARD := Guard(true, false, [], {}, {}, {})

  /** A pool that is running already is left alone. */
  function Open(g: Guard): Guard {
    if g.started then g else g.(started := true, closed := false, queue := [])
  }

  function Signal(g: Guard, run: Run): (Guard, Verdict) {
    if !g.started then (g, DriveInline)
    else if run in g.inProgress then (g.(pending := g.pending + {run}), Folded)
    else if run in g.queued then (g, AlreadyQueued)
    else (g.(queued := g.queued + {run}), ToSend)
  }

  /** The send happens outside the lock; on a closed queue the job is dropped and its slot cleared. */
  function Send(g: Guard, run: Run): Guard {
    if g.closed then g.(queued := g.queued - {run}) else g.(queue := g.queue + [run])
  }

  /** Opening a drive: true when this caller is the one to walk. */
  function Enter(g: Guard, run: Run): (Guard, bool) {
    var h := g.(queued := g.queued - {run});
    if run in g.inProgress then (h.(pending := h.pending + {run}), false)
    else (h.(inProgress := h.inProgress + {run}), true)
  }

  /** Closing a walk: true when it has to walk once more. */
  function Exit(g: Guard, run: Run, live: bool): (Guard, bool) {
    if run in g.pending && live then (g.(pending := g.pending - {run}), true)
    else (g.(pending := g.pending - {run}, inProgress := g.inProgress - {run}), false)
  }

  function Take(g: Guard): Guard
    requires g.queue != []
  {
    g.(queue := g.queue[1..])
  }

  function Close(g: Guard): Guard {
    if !g.started then g else g.(started := false, closed := true)
  }

  /** The service's own fields, updated section by section. */
  class Service {
    var started: bool
    var closed: bool
    var queue: seq<Run>
    var queued: set<Run>
    var inProgress: set<Run>
    var pending: set<Run>

    function State(): Guard
      reads this
    {
      Guard(started, closed, queue, queued, inProgress, pending)
    }

    constructor ()
      ensures State() == UNSTARTED
    {
      started, closed, queue, queued, inProgress, pending := false, false, [], {}, {}, {};
    }

    /** A second call changes nothing; the first on a new service leaves the guard the lifecycle boots with. */
    method StartPool()
      modifies this
      ensures State() == Open(old(State())) && Open(State()) == State()
      ensures old(State()) == UNSTARTED ==> State() == FRESH_GUARD
    {
      if started {
        return;
      }
      queue := [];
      closed := false;
      started := true;
    }

    method EnqueueAdvance(run: Run) returns (verdict: Verdict)
      modifies this
      ensures (State(), verdict) == Signal(old(State()), run)
    {
      if !started {
        return DriveInline;
      }
      if run in inProgress {
        pending := pending + {run};
        return Folded;
      }
      if run in queued {
        return AlreadyQueued;
      }
      queued := queued + {run};
      return ToSend;
    }

    method SendJob(run: Run)
      modifies this
      ensures State() == Send(old(State()), run)
    {
      if closed {
        queued := queued - {run};
      } else {
        queue := queue + [run];
      }
    }

    method TakeJob() returns (run: Run)
      requires queue != []
      modifies this
      ensures run == old(queue[0]) && State() == Take(old(State()))
    {
      run := queue[0];
      queue := queue[1..];
    }

    method EnterDrive(run: Run) returns (mine: bool)
      modifies this
      ensures (State(), mine) == Enter(old(State()), run)
    {
      queued := queued - {run};
      if run in inProgress {
        pending := pending + {run};
        return false;
      }
      inProgress := inProgress + {run};
      return true;
    }

    method ExitWalk(run: Run, live: bool) returns (again: bool)
      modifies this
      ensures (State(), again) == Exit(old(State()), run, live)
    {
      if run in pending && live {
        pending := pending - {run};
        return true;
      }
      pending := pending - {run};
      inProgress := inProgress - {run};
      return false;
    }

    /** A second call changes nothing. */
    method StopPool()
      modifies this
      ensures State() == Close(old(State())) && Close(State()) == State()
    {
      if !started {
        return;
      }
      started := false;
      closed := true;
    }
  }
}
