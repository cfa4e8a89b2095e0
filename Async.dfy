/**
  The servlet's objects and their state: the request's asynchronous context
  (its response output and whether it was completed), the cancellable futures
  of the worker and of the periodic checker, the `Baton` that binds them for
  one request, the `Checker` with its mutable tick budget, and the servlet's
  `doGet`, which sets all of this up.

  Threads and timers are outside the model: what a tick observes of the worker
  is passed to `Checker.Tick`, and the scheduler's "no more calls once the
  checker's future is cancelled" is the stopping rule of `CheckerLogic.Run`.
 */
module Async {
  import opened CheckerLogic

  /** The two acknowledgements `doGet` writes, before and after the set-up. */
  const RunningMessage: string := "servlet initial thread is running\n"
  const DoneMessage: string := "\n\nservlet initial thread is done\n"

  /** A request's asynchronous context together with its response writer. */
  class Context {
    /** Everything written to the response so far, one entry per write. */
    var output: seq<string>
    /** Has `complete()` been called? */
    var completed: bool

    constructor ()
      ensures output == [] && !completed
    {
      output := [];
      completed := false;
    }

    /** Writes one message to the response (the writer's failures are swallowed, so none is modelled). */
    method Print(msg: string)
      modifies this
      ensures output == old(output) + [msg]
      ensures completed == old(completed)
    {
      output := output + [msg];
    }

    /** Finishes the request. */
    method Complete()
      modifies this
      ensures completed
      ensures output == old(output)
    {
      completed := true;
    }
  }

  /** The cancellable handle of a submitted or scheduled task; only the cancellation request is state here. */
  class Future {
    var cancelRequested: bool

    constructor ()
      ensures !cancelRequested
    {
      cancelRequested := false;
    }

    method Cancel()
      modifies this
      ensures cancelRequested
    {
      cancelRequested := true;
    }
  }

  /** The executor the worker is submitted to. */
  class Executor {
    constructor () {}

    /** Submits a task; the task itself is not part of this model, only its fresh future is. */
    method Submit() returns (f: Future)
      ensures fresh(f) && !f.cancelRequested
    {
      f := new Future();
    }
  }

  /** The scheduler that calls the checker at a fixed rate. */
  class Scheduler {
    constructor () {}

    /** Schedules `task` periodically and returns the future that stops it. */
    method ScheduleAtFixedRate(task: Checker) returns (f: Future)
      ensures fresh(f) && !f.cancelRequested
    {
      f := new Future();
    }
  }

  /** The per-request user data shared by `doGet` and the checker. */
  class Baton {
    var ctx: Context?
    var workerFuture: Future?
    var scheduler: Scheduler?
    var checkerFuture: Future?

    constructor ()
      ensures ctx == null && workerFuture == null && scheduler == null && checkerFuture == null
    {
      ctx := null;
      workerFuture := null;
      scheduler := null;
      checkerFuture := null;
    }

    /** Every field is set, and the two futures are different objects. */
    predicate Populated()
      reads this
    {
      && ctx != null
      && workerFuture != null
      && scheduler != null
      && checkerFuture != null
      && workerFuture != checkerFuture
    }
  }

  /** The periodic task that watches the worker and finishes the request. */
  class Checker {
    var baton: Baton
    var limit: int

    constructor (b: Baton)
      ensures baton == b && limit == InitialLimit
    {
      baton := b;
      limit := InitialLimit;
    }

    /**
      A terminal tick dereferences both futures; every tick reads the context
      and the worker's future.  `doGet` has all of them set by the time the
      scheduler first calls the checker.
     */
    predicate Valid()
      reads this, baton
    {
      baton.Populated()
    }

    /** What a tick reads and changes, packed as a `Trace`. */
    function State(): Trace
      requires Valid()
      reads this, baton, baton.ctx, baton.workerFuture, baton.checkerFuture
    {
      Trace(baton.ctx.output, limit, baton.ctx.completed,
            baton.workerFuture.cancelRequested, baton.checkerFuture.cancelRequested)
    }

    /**
      One scheduled call, given what `isDone()` and `isCancelled()` report of
      the worker.  It writes exactly the marker of the branch `Step` picks,
      moves `limit` as `Step` does, completes the request only on completion,
      cancels the worker only on time-up and cancels itself on both terminal
      branches; nothing else changes.
     */
    method Tick(done: bool, cancelled: bool)
      requires Valid()
      modifies this, baton.ctx, baton.workerFuture, baton.checkerFuture
      ensures Valid() && baton == old(baton)
      ensures var s := Step(old(limit), done, cancelled);
        && limit == s.limit
        && baton.ctx.output == old(baton.ctx.output) + [s.outcome.Marker()]
        && baton.ctx.completed == (old(baton.ctx.completed) || s.outcome.CompletesRequest())
        && baton.workerFuture.cancelRequested == (old(baton.workerFuture.cancelRequested) || s.outcome.CancelsWorker())
        && baton.checkerFuture.cancelRequested == (old(baton.checkerFuture.cancelRequested) || s.outcome.CancelsChecker())
    {
      if done || cancelled {
        baton.ctx.Print(CompleteMarker);
        baton.ctx.Complete();
        baton.checkerFuture.Cancel();
      } else {
        var before := limit;
        limit := limit - 1;
        if before <= 0 {
          baton.ctx.Print(TimeUpMarker);
          baton.workerFuture.Cancel();
          baton.checkerFuture.Cancel();
        } else {
          baton.ctx.Print(ProgressMarker);
        }
      }
    }
  }

  /**
    The scheduler's repeated calls of `checker.Tick`, one per observation in
    `obs`, until the checker has cancelled its own future.  The object ends up
    exactly where the pure `Run` says: the response gets the run's output, and
    `limit` and the three flags are those of the run's trace.
   */
  method RunTicks(checker: Checker, obs: seq<Observation>) returns (ticks: nat)
    requires checker.Valid() && !checker.baton.checkerFuture.cancelRequested
    modifies checker, checker.baton.ctx, checker.baton.workerFuture, checker.baton.checkerFuture
    ensures checker.Valid() && checker.baton == old(checker.baton)
    ensures var t := Run(old(checker.limit), obs);
      && ticks == |t.output|
      && checker.baton.ctx.output == old(checker.baton.ctx.output) + t.output
      && checker.limit == t.limit
      && checker.baton.ctx.completed == (old(checker.baton.ctx.completed) || t.completed)
      && checker.baton.workerFuture.cancelRequested == (old(checker.baton.workerFuture.cancelRequested) || t.workerCancelled)
      && checker.baton.checkerFuture.cancelRequested == t.checkerCancelled
  {
    var baton := checker.baton;
    var ctx, worker, self := baton.ctx, baton.workerFuture, baton.checkerFuture;
    ghost var start := checker.State();
    ghost var t := Run(start.limit, obs);
    ghost var now := start;
    RunSoFarStart(obs, start);
    ticks := 0;
    while ticks < |obs| && !self.cancelRequested
      invariant checker.baton == baton && checker.Valid()
      invariant baton.ctx == ctx && baton.workerFuture == worker && baton.checkerFuture == self
      invariant checker.State() == now
      invariant RunSoFar(t, obs, start, ticks, now)
      decreases |obs| - ticks
    {
      ScheduledTick(checker, t, obs, start, ticks, now);
      now := Ticked(now, obs[ticks]);
      ticks := ticks + 1;
    }
    RunSoFarEnd(t, obs, start, ticks, now);
  }

  /**
    Tick `i` of the run `t` from the state `start`, as the scheduler makes it
    while the checker is still scheduled in the state `now`.
   */
  method ScheduledTick(checker: Checker, ghost t: Trace, obs: seq<Observation>, ghost start: Trace, i: nat, ghost now: Trace)
    requires checker.Valid() && i < |obs|
    requires checker.State() == now && !now.checkerCancelled
    requires RunSoFar(t, obs, start, i, now)
    modifies checker, checker.baton.ctx, checker.baton.workerFuture, checker.baton.checkerFuture
    ensures checker.Valid() && checker.baton == old(checker.baton) && unchanged(checker.baton)
    ensures checker.State() == Ticked(now, obs[i])
    ensures RunSoFar(t, obs, start, i + 1, Ticked(now, obs[i]))
  {
    checker.Tick(obs[i].done, obs[i].cancelled);
    TickKeepsRunSoFar(t, obs, start, i, now);
  }

  /** The servlet, with the executor and scheduler it is given. */
  class Servlet {
    const executor: Executor
    const scheduler: Scheduler

    constructor (e: Executor, s: Scheduler)
      ensures executor == e && scheduler == s
    {
      executor := e;
      scheduler := s;
    }

    /**
      Handles one request on the context `ctx`: writes the first
      acknowledgement, submits the worker, fills a fresh baton, schedules a
      fresh checker with the full budget and writes the second
      acknowledgement.  The request is left open; nothing is cancelled.
     */
    method DoGet(ctx: Context) returns (baton: Baton, checker: Checker)
      modifies ctx
      ensures ctx.output == old(ctx.output) + [RunningMessage, DoneMessage]
      ensures ctx.completed == old(ctx.completed)
      ensures fresh(baton) && fresh(checker)
      ensures checker.Valid() && checker.baton == baton && checker.limit == InitialLimit
      ensures baton.ctx == ctx && baton.scheduler == scheduler
      ensures fresh(baton.workerFuture) && !baton.workerFuture.cancelRequested
      ensures fresh(baton.checkerFuture) && !baton.checkerFuture.cancelRequested
    {
      ctx.Print(RunningMessage);
      var result := executor.Submit();
      baton := new Baton();
      baton.ctx := ctx;
      baton.scheduler := scheduler;
      baton.workerFuture := result;
      checker := new Checker(baton);
      baton.checkerFuture := scheduler.ScheduleAtFixedRate(checker);
      ctx.Print(DoneMessage);
    }
  }
}
