# Async servlet checker, modelled in Dafny

This project models the asynchronous servlet sample `sample.Async`. One GET
request does the following:

- it suspends the request;
- it writes an acknowledgement;
- it submits a slow worker to an executor;
- it puts the request's context, the scheduler and the worker's future into a
  new `Baton`;
- it schedules a `Checker` on that baton once per second, and stores the
  future returned by scheduling in the baton as the checker's own future;
- it writes a second acknowledgement and returns.

Each time the checker fires, it looks at the worker's future and takes exactly
one of three branches, in this priority order:

1. **Complete.** The worker is done or cancelled. The checker writes
   `"\n response complete"`, completes the request and cancels its own future.
2. **Time up.** The post-decremented budget `limit--` was already `<= 0`. The
   checker writes `"Time up"`, cancels the worker and cancels itself.
3. **Progress.** Otherwise it writes `"#"`.

The budget starts at 20.

Two modules:

- `CheckerLogic` (`CheckerLogic.dfy`) is the tick decision as pure functions.
  `Step` is one tick. `Run` is a run of ticks over a sequence of observations.
  It stops at the first terminal branch, because the scheduler does not call a
  checker whose future is cancelled. The lemmas about whole runs are here.
- `Async` (`Async.dfy`) holds the objects and their state. `Context` is the
  request's response output plus its "completed" flag. `Future` is a
  cancellable handle. `Baton` holds the shared references. `Checker` has the
  mutable `limit` and the `Tick` method, which is proved against `Step`.
  `RunTicks` is the scheduler's repeated calls of `Tick`, proved against
  `Run`. `Servlet.DoGet` is the set-up step.

Concurrency is outside the model. What `isDone()` and `isCancelled()` report is
an input to each tick. Writes to the response are appends to a sequence of
strings. Every effect on the futures and on the context is a flag.

Points where the code's behaviour is easy to misread:

- The time-up branch does not complete the request. Only the completion branch
  calls `complete()`.
- `limit` is also decremented on the tick that times out, so it ends at -1.
- The budget is the constant 20 (Async.java:105).
- The worker still writes `"callable is DONE\n"` after it is interrupted.
  The worker is not part of this model (see "Left out").

## Model

| member | source | states |
|---|---|---|
| `CheckerLogic.Step` | src/main/java/sample/Async.java:113-128 | Completion is taken exactly when the worker is done or cancelled, whatever the budget. Time-up is taken exactly when it is neither and `limit <= 0`. Progress is taken exactly when it is neither and `limit > 0`. `limit` is unchanged on completion (the short-circuit skips `limit--`) and one lower on both other branches. |
| `CheckerLogic.MarkersDistinct` | src/main/java/sample/Async.java:114-127 | The three branches write three different strings, so the output tells which branch was taken. |
| `CheckerLogic.Run` | src/main/java/sample/Async.java:113-129 | A run never has more entries than ticks. The checker is cancelled exactly when the last entry is a terminal marker. The request is completed exactly when it is `"\n response complete"`. The worker is cancelled exactly when it is `"Time up"`. A run that has not stopped wrote one entry per tick. |
| `CheckerLogic.RunShape` | src/main/java/sample/Async.java:113-128 | Every entry of a run but the last is `"#"`, because only the two terminal branches stop the checker. |
| `CheckerLogic.TerminalMarkerOnce` | src/main/java/sample/Async.java:113-125 | A stopped run holds exactly one terminal marker, and a run still going holds none. Completion and worker cancellation never both happen. |
| `CheckerLogic.ProgressWithinBudget` | src/main/java/sample/Async.java:105-128 | The number of `"#"` is at most the starting budget. The final `limit` is the starting budget minus one per `"#"`, minus one more after a time-up. From a non-negative budget, `limit` ends at -1 or above. |
| `CheckerLogic.StopsWithinBudget` | src/main/java/sample/Async.java:119-125 | Given more ticks than the budget, the checker always cancels itself, within budget + 1 ticks. |
| `CheckerLogic.QuietTicks` | src/main/java/sample/Async.java:119-128 | While the worker is neither done nor cancelled and budget remains, each of `k` ticks writes `"#"` and spends one unit. The rest of the run is the run from `limit - k` on the remaining observations. |
| `CheckerLogic.CompletesWhenWorkerFinishes` | src/main/java/sample/Async.java:113-118 | The worker may first be seen done or cancelled on tick `k <= limit`, including the tick on which the budget reaches zero. Then the output is `k` `"#"` followed by `"\n response complete"`. The request is completed, the worker is not cancelled, and `limit` is `limit - k`. |
| `CheckerLogic.TimesOutWhenWorkerHangs` | src/main/java/sample/Async.java:119-125 | A worker that stays running for `limit + 1` ticks gets exactly `limit` `"#"` and then `"Time up"`. It is cancelled, the request is not completed, and `limit` ends at -1. |
| `CheckerLogic.DefaultBudgetTimesOut` | src/main/java/sample/Async.java:105-128 | From the initial budget of 20, with a worker that never finishes, ticks 1 to 20 each write `"#"` and tick 21 writes `"Time up"`. |
| `Async.Context.Print` | src/main/java/sample/Async.java:64-79 | A write appends exactly its message to the response and does not complete the request. |
| `Async.Context.Complete` | src/main/java/sample/Async.java:115 | Completing the request sets its completed flag and writes nothing. |
| `Async.Future.Cancel` | src/main/java/sample/Async.java:117-124 | Cancelling a future, the checker's own on both terminal branches or the worker's on time-up, leaves it cancelled. |
| `Async.Baton.constructor` | src/main/java/sample/Async.java:56-61 | A new baton has all four fields unset. `Baton.Populated` says they are all set with two distinct futures, which `Servlet.DoGet` establishes (Async.java:90-96) and `Checker.Valid` requires of every tick. |
| `Async.Executor.Submit` | src/main/java/sample/Async.java:89 | Submitting the worker yields a fresh future that is not cancelled. |
| `Async.Scheduler.ScheduleAtFixedRate` | src/main/java/sample/Async.java:96 | Scheduling the checker yields a fresh future that is not cancelled. |
| `Async.Checker.constructor` | src/main/java/sample/Async.java:102-109 | A new checker holds the given baton and the full budget of 20. |
| `Async.Checker.Tick` | src/main/java/sample/Async.java:112-129 | One call writes exactly the marker of the branch `Step` picks and sets `limit` as `Step` does. It completes the request only on completion. It cancels the worker only on time-up. It cancels its own future on both terminal branches. The baton and everything else are unchanged. |
| `Async.RunTicks` | src/main/java/sample/Async.java:96-129 | The scheduler calls `Tick` once per observation until the checker has cancelled its own future. The number of calls, the response's output, `limit`, the completed flag and both futures' cancellation end up exactly as the trace of `Run` says. |
| `Async.ScheduledTick` | src/main/java/sample/Async.java:112-129 | One scheduled call while the checker is still scheduled moves the objects' state (output, `limit`, the three flags) by exactly one tick of `Step`, and keeps it in step with the run: after the call, the state is that of the run one tick further on. The baton's fields are unchanged. |
| `Async.Servlet.DoGet` | src/main/java/sample/Async.java:81-99 | The response gets `"servlet initial thread is running\n"` and then `"\n\nservlet initial thread is done\n"`, and the request stays open. The call returns a fresh baton and a fresh checker. The baton holds the request's context, the servlet's scheduler, and two distinct, fresh, uncancelled futures. The checker holds that baton and the full budget. |

## Left out

- The worker `DoWork.run` (Async.java:133-153) is not modelled, and neither are its two writes. It sleeps for 10 seconds, which is timing. It catches the interrupt, prints the stack trace and still writes `"callable is DONE\n"`. So a cancelled worker does not suppress that marker.
- `Checker.Tick` requires `Checker.Valid`, which holds only once `baton.checkerFuture` is stored. That store happens after `scheduleAtFixedRate` returns (Async.java:96), so the model relies on the 1000 ms initial delay to keep the first tick after it. A terminal tick racing ahead of the store would dereference a null future (Async.java:117, 124). A progress tick would not, but `Tick` requires the store on every tick, so such an early progress tick is not modelled.
- Threads, the `synchronized` block around each write, and the swallowed `IOException` in `print` (Async.java:64-79) are left out. A write is an append to a sequence and never fails.
- The 1000 ms initial delay and period of `scheduleAtFixedRate` (Async.java:96) are left out. "The scheduler stops calling a cancelled checker" is modelled only as `Run` ending at the first terminal tick.
- How `isDone()` and `isCancelled()` of the worker's future become visible to the checker's thread is left out. They are the inputs of each tick. Cancelling the worker does not feed back into later observations, because the run ends on that tick.
- The `boolean` result of `Future.cancel(true)` is left out. The source ignores it.
- Servlet annotations, `@Resource` injection and `request.startAsync()` (Async.java:43-50, 84) are left out. The context is a parameter of `DoGet`.
- Java's 32-bit wrap-around of `limit` is not modelled. In every run the scheduler allows, `limit` stays between -1 and 20 (`ProgressWithinBudget`), far from the wrap.
