/**
  The per-tick decision of the servlet's periodic checker, as pure functions.

  Each tick observes two facts about the worker's future (is it done? is it
  cancelled?) and, together with the checker's private tick budget `limit`,
  chooses exactly one of three outcomes in strict priority order: complete the
  request, give up because the budget is spent, or report progress.  A run of
  ticks stops at the first terminal outcome, because the checker cancels its
  own scheduled future there and the scheduler calls it no more.
 */
module CheckerLogic {

  /** The tick budget a fresh checker starts with. */
  const InitialLimit: int := 20

  /** What each outcome writes to the response. */
  const CompleteMarker: string := "\n response complete"
  const TimeUpMarker: string := "Time up"
  const ProgressMarker: string := "#"

  /** The three branches of one tick. */
  datatype Outcome = Complete | TimeUp | Progress {

    /** Only the terminal outcomes stop the checker. */
    predicate Terminal() {
      this != Progress
    }

    /** The one string the outcome writes to the response. */
    function Marker(): string {
      match this
      case Complete => CompleteMarker
      case TimeUp => TimeUpMarker
      case Progress => ProgressMarker
    }

    /** Does the outcome call `complete()` on the request's context? */
    predicate CompletesRequest() {
      this == Complete
    }

    /** Does the outcome cancel the worker's future? */
    predicate CancelsWorker() {
      this == TimeUp
    }

    /** Does the outcome cancel the checker's own scheduled future? */
    predicate CancelsChecker() {
      Terminal()
    }
  }

  /** What one tick sees of the worker: `isDone()` and `isCancelled()`. */
  datatype Observation = Observation(done: bool, cancelled: bool) {
    /** The worker is still running, as far as the checker can tell. */
    predicate Quiet() {
      !done && !cancelled
    }
  }

  /** The branch one tick takes and the value of `limit` afterwards. */
  datatype StepResult = StepResult(outcome: Outcome, limit: int)

  /**
    One tick.  The completion test short-circuits, so `limit` is not touched
    when the worker is done or cancelled; otherwise `limit--` is evaluated,
    its old value is compared with zero and the counter drops by one whichever
    branch follows.
   */
  function Step(limit: int, done: bool, cancelled: bool): (r: StepResult)
    ensures r.outcome == Complete <==> done || cancelled
    ensures r.outcome == TimeUp <==> !done && !cancelled && limit <= 0
    ensures r.outcome == Progress <==> !done && !cancelled && limit > 0
    ensures r.outcome == Complete ==> r.limit == limit
    ensures r.outcome != Complete ==> r.limit == limit - 1
  {
    if done || cancelled then
      StepResult(Complete, limit)
    else
      var before := limit;
      var after := limit - 1;
      if before <= 0 then StepResult(TimeUp, after) else StepResult(Progress, after)
  }

  /** The response output, the final `limit` and the flags a run of ticks leaves behind. */
  datatype Trace = Trace(
    output: seq<string>,
    limit: int,
    completed: bool,
    workerCancelled: bool,
    checkerCancelled: bool)

  /**
    The ticks a scheduler runs for the observations `obs`, one observation per
    tick, stopping after the first terminal outcome (later observations are
    never made).  The checker is stopped exactly when the last thing written
    is a terminal marker, and the flags tell which terminal marker that is;
    RunShape adds that everything before it is a progress marker.
   */
  function Run(limit: int, obs: seq<Observation>): (t: Trace)
    ensures |t.output| <= |obs|
    ensures t.checkerCancelled <==> |t.output| > 0 && t.output[|t.output| - 1] != ProgressMarker
    ensures t.completed <==> |t.output| > 0 && t.output[|t.output| - 1] == CompleteMarker
    ensures t.workerCancelled <==> |t.output| > 0 && t.output[|t.output| - 1] == TimeUpMarker
    ensures !t.checkerCancelled ==> |t.output| == |obs|
    decreases |obs|
  {
    if obs == [] then
      Trace([], limit, false, false, false)
    else
      var s := Step(limit, obs[0].done, obs[0].cancelled);
      if s.outcome.Terminal() then
        Trace([s.outcome.Marker()], s.limit,
              s.outcome.CompletesRequest(), s.outcome.CancelsWorker(), s.outcome.CancelsChecker())
      else
        var rest := Run(s.limit, obs[1..]);
        rest.(output := [ProgressMarker] + rest.output)
  }

  /** A run is all progress markers, except possibly its last entry. */
  lemma {:induction false} RunShape(limit: int, obs: seq<Observation>)
    ensures forall i :: 0 <= i < |Run(limit, obs).output| - 1 ==> Run(limit, obs).output[i] == ProgressMarker
    decreases |obs|
  {
    if obs != [] {
      var s := Step(limit, obs[0].done, obs[0].cancelled);
      if !s.outcome.Terminal() {
        var rest := Run(s.limit, obs[1..]);
        RunShape(s.limit, obs[1..]);
        var out := [ProgressMarker] + rest.output;
        forall i | 0 <= i < |out| - 1 ensures out[i] == ProgressMarker {
          if i > 0 {
            assert out[i] == rest.output[i - 1];
          }
        }
      }
    }
  }

  /** How often `m` occurs in `s`. */
  function Occurrences(s: seq<string>, m: string): (n: nat)
    ensures n <= |s|
  {
    if s == [] then 0 else (if s[0] == m then 1 else 0) + Occurrences(s[1..], m)
  }

  /** `k` progress markers. */
  function Hashes(k: nat): (r: seq<string>)
    ensures |r| == k
  {
    if k == 0 then [] else [ProgressMarker] + Hashes(k - 1)
  }

  /** `k` ticks on which the worker is neither done nor cancelled. */
  function QuietRun(k: nat): (r: seq<Observation>)
    ensures |r| == k
    ensures forall i :: 0 <= i < k ==> r[i].Quiet()
  {
    if k == 0 then [] else [Observation(false, false)] + QuietRun(k - 1)
  }

  function Max0(x: int): int {
    if x < 0 then 0 else x
  }

  /** Every outcome writes a different marker. */
  lemma MarkersDistinct(a: Outcome, b: Outcome)
    ensures a.Marker() == b.Marker() <==> a == b
  {
    assert |CompleteMarker| == 19 && |TimeUpMarker| == 7 && |ProgressMarker| == 1;
  }

  lemma OccurrencesCons(m: string, s: seq<string>, x: string)
    ensures Occurrences([m] + s, x) == (if m == x then 1 else 0) + Occurrences(s, x)
  {
    assert ([m] + s)[1..] == s;
  }

  /**
    Whatever the worker reports, a run writes exactly one terminal marker
    (completion or time-up, never both) when it has stopped the checker, and
    none while the checker is still scheduled.
   */
  lemma {:induction false} TerminalMarkerOnce(limit: int, obs: seq<Observation>)
    ensures var t := Run(limit, obs);
      Occurrences(t.output, CompleteMarker) + Occurrences(t.output, TimeUpMarker)
        == if t.checkerCancelled then 1 else 0
    ensures var t := Run(limit, obs); !(t.completed && t.workerCancelled)
    decreases |obs|
  {
    MarkersDistinct(Complete, TimeUp);
    MarkersDistinct(Complete, Progress);
    MarkersDistinct(TimeUp, Progress);
    if obs != [] {
      var s := Step(limit, obs[0].done, obs[0].cancelled);
      if s.outcome.Terminal() {
        OccurrencesCons(s.outcome.Marker(), [], CompleteMarker);
        OccurrencesCons(s.outcome.Marker(), [], TimeUpMarker);
        assert [s.outcome.Marker()] + [] == [s.outcome.Marker()];
      } else {
        var rest := Run(s.limit, obs[1..]);
        TerminalMarkerOnce(s.limit, obs[1..]);
        OccurrencesCons(ProgressMarker, rest.output, CompleteMarker);
        OccurrencesCons(ProgressMarker, rest.output, TimeUpMarker);
      }
    }
  }

  /**
    The number of progress markers a run writes never exceeds the budget it
    starts with, and the final `limit` is the starting one less one per
    progress tick and one more for a time-up (the post-decrement also happens
    on the tick that gives up).  From a non-negative budget `limit` never goes
    below -1.
   */
  lemma {:induction false} ProgressWithinBudget(limit: int, obs: seq<Observation>)
    ensures var t := Run(limit, obs);
      Occurrences(t.output, ProgressMarker) <= Max0(limit)
    ensures var t := Run(limit, obs);
      t.limit == limit - Occurrences(t.output, ProgressMarker) - (if t.workerCancelled then 1 else 0)
    ensures limit >= 0 ==> Run(limit, obs).limit >= -1
    decreases |obs|
  {
    MarkersDistinct(Complete, Progress);
    MarkersDistinct(TimeUp, Progress);
    if obs != [] {
      var s := Step(limit, obs[0].done, obs[0].cancelled);
      if s.outcome.Terminal() {
        OccurrencesCons(s.outcome.Marker(), [], ProgressMarker);
      } else {
        var rest := Run(s.limit, obs[1..]);
        ProgressWithinBudget(s.limit, obs[1..]);
        OccurrencesCons(ProgressMarker, rest.output, ProgressMarker);
      }
    }
  }

  /**
    Given more ticks than its budget, the checker always stops itself, so a
    terminal marker is always written (see TerminalMarkerOnce).
   */
  lemma {:induction false} StopsWithinBudget(limit: int, obs: seq<Observation>)
    requires |obs| > Max0(limit)
    ensures Run(limit, obs).checkerCancelled
    ensures |Run(limit, obs).output| <= Max0(limit) + 1
    decreases |obs|
  {
    var s := Step(limit, obs[0].done, obs[0].cancelled);
    if !s.outcome.Terminal() {
      StopsWithinBudget(s.limit, obs[1..]);
    }
  }

  /**
    While the worker stays quiet and the budget lasts, each tick writes one
    progress marker and spends one unit of budget; the rest of the run goes on
    from what is left.
   */
  lemma {:induction false} QuietTicks(limit: int, obs: seq<Observation>, k: nat)
    requires k <= |obs| && k <= limit
    requires forall i :: 0 <= i < k ==> obs[i].Quiet()
    ensures Midway(Run(limit, obs), limit - k, obs, k)
    decreases k
  {
    if k > 0 {
      QuietTicks(limit, obs, k - 1);
      RunAfterTick(limit - (k - 1), obs, k - 1, Run(limit, obs));
    } else {
      assert obs[0..] == obs;
      assert Hashes(0) + Run(limit, obs).output == Run(limit, obs).output;
    }
  }

  /** The first tick of a run, unfolded. */
  lemma RunCons(limit: int, obs: seq<Observation>)
    requires obs != []
    ensures var s := Step(limit, obs[0].done, obs[0].cancelled); var t := Run(limit, obs);
      if s.outcome.Terminal() then
        && t.output == [s.outcome.Marker()]
        && t.limit == s.limit && t.completed == s.outcome.CompletesRequest()
        && t.workerCancelled == s.outcome.CancelsWorker() && t.checkerCancelled
      else
        var u := Run(s.limit, obs[1..]);
        && t.output == [ProgressMarker] + u.output
        && t.limit == u.limit && t.completed == u.completed
        && t.workerCancelled == u.workerCancelled && t.checkerCancelled == u.checkerCancelled
  {
  }

  lemma {:induction false} HashesSnoc(k: nat)
    ensures Hashes(k + 1) == Hashes(k) + [ProgressMarker]
    decreases k
  {
    if k > 0 {
      HashesSnoc(k - 1);
      assert Hashes(k + 1) == [ProgressMarker] + (Hashes(k - 1) + [ProgressMarker]);
    }
  }

  /** Every entry of `Hashes(k)` is a progress marker. */
  lemma {:induction false} HashesAreProgress(k: nat)
    ensures forall i :: 0 <= i < k ==> Hashes(k)[i] == ProgressMarker
    decreases k
  {
    if k > 0 {
      HashesAreProgress(k - 1);
      assert forall i :: 0 < i < k ==> Hashes(k)[i] == Hashes(k - 1)[i - 1];
    }
  }

  /**
    `t` is the trace of a whole run that, after `i` progress ticks, has budget
    `limit` left for the observations from `i` on.
   */
  ghost predicate Midway(t: Trace, limit: int, obs: seq<Observation>, i: nat) {
    && i <= |obs|
    && var u := Run(limit, obs[i..]);
    && t.output == Hashes(i) + u.output
    && t.limit == u.limit && t.completed == u.completed
    && t.workerCancelled == u.workerCancelled && t.checkerCancelled == u.checkerCancelled
  }

  /**
    Part-way through a run, tick `i` either ends the run with its terminal
    marker and flags, or writes one more progress marker and hands over to the
    run from `limit - 1` on the observations after it.
   */
  lemma RunAfterTick(limit: int, obs: seq<Observation>, i: nat, t: Trace)
    requires i < |obs| && Midway(t, limit, obs, i)
    ensures var s := Step(limit, obs[i].done, obs[i].cancelled);
      if s.outcome.Terminal() then
        && t.output == Hashes(i) + [s.outcome.Marker()]
        && t.limit == s.limit && t.completed == s.outcome.CompletesRequest()
        && t.workerCancelled == s.outcome.CancelsWorker() && t.checkerCancelled
      else
        Midway(t, s.limit, obs, i + 1)
  {
    var rest := obs[i..];
    assert rest[0] == obs[i];
    assert rest[1..] == obs[i + 1..];
    RunCons(limit, rest);
    var s := Step(limit, obs[i].done, obs[i].cancelled);
    if !s.outcome.Terminal() {
      var u := Run(s.limit, obs[i + 1..]);
      HashesSnoc(i);
      assert Hashes(i) + ([ProgressMarker] + u.output) == (Hashes(i) + [ProgressMarker]) + u.output;
    }
  }

  /**
    The state of the objects after one tick from `now` that observes `o`: the
    tick's marker is appended, `limit` moves as `Step` says, and each flag is
    set if it was already or if the tick sets it.
   */
  function Ticked(now: Trace, o: Observation): Trace {
    var s := Step(now.limit, o.done, o.cancelled);
    Trace(now.output + [s.outcome.Marker()], s.limit,
          now.completed || s.outcome.CompletesRequest(),
          now.workerCancelled || s.outcome.CancelsWorker(),
          now.checkerCancelled || s.outcome.CancelsChecker())
  }

  /**
    `now` is the state after `i` ticks of the run `t` over `obs` that began in
    the state `start`: while the checker is still scheduled, `i` progress
    markers have been written and the rest of the run goes on from `now.limit`;
    once it has stopped, `now` is `start` with the run's trace applied.
   */
  ghost predicate RunSoFar(t: Trace, obs: seq<Observation>, start: Trace, i: nat, now: Trace) {
    if !now.checkerCancelled then
      && Midway(t, now.limit, obs, i)
      && now.output == start.output + Hashes(i)
      && now.completed == start.completed && now.workerCancelled == start.workerCancelled
    else
      && i <= |obs| && i == |t.output|
      && now.output == start.output + t.output
      && now.limit == t.limit
      && now.completed == (start.completed || t.completed)
      && now.workerCancelled == (start.workerCancelled || t.workerCancelled)
      && t.checkerCancelled
  }

  lemma RunSoFarStart(obs: seq<Observation>, start: Trace)
    requires !start.checkerCancelled
    ensures RunSoFar(Run(start.limit, obs), obs, start, 0, start)
  {
    assert obs[0..] == obs;
    assert Hashes(0) + Run(start.limit, obs).output == Run(start.limit, obs).output;
    assert start.output + Hashes(0) == start.output;
  }

  /** One more tick while the checker is scheduled keeps the state in step with the run. */
  lemma TickKeepsRunSoFar(t: Trace, obs: seq<Observation>, start: Trace, i: nat, now: Trace)
    requires i < |obs| && !now.checkerCancelled
    requires RunSoFar(t, obs, start, i, now)
    ensures RunSoFar(t, obs, start, i + 1, Ticked(now, obs[i]))
  {
    var s := Step(now.limit, obs[i].done, obs[i].cancelled);
    RunAfterTick(now.limit, obs, i, t);
    AppendAssoc(start.output, Hashes(i), [s.outcome.Marker()]);
    if !s.outcome.Terminal() {
      HashesSnoc(i);
    }
  }

  /** When the scheduler stops calling, the state is `start` with the run's trace applied. */
  lemma RunSoFarEnd(t: Trace, obs: seq<Observation>, start: Trace, i: nat, now: Trace)
    requires RunSoFar(t, obs, start, i, now)
    requires i >= |obs| || now.checkerCancelled
    ensures i == |t.output|
    ensures now == Trace(start.output + t.output, t.limit, start.completed || t.completed,
                         start.workerCancelled || t.workerCancelled, t.checkerCancelled)
  {
    if !now.checkerCancelled {
      assert obs[i..] == [];
      assert Hashes(i) + [] == Hashes(i);
    }
  }

  lemma AppendAssoc(a: seq<string>, b: seq<string>, c: seq<string>)
    ensures (a + b) + c == a + (b + c)
  {
  }

  /**
    A worker that is first seen done or cancelled on tick `k`, while budget
    remains (the completion test comes first, so even on the tick where the
    budget runs out), completes the request after `k` progress markers, and
    the budget is not charged for the completing tick.
   */
  lemma {:induction false} CompletesWhenWorkerFinishes(limit: int, obs: seq<Observation>, k: nat)
    requires k < |obs| && k <= limit
    requires forall i :: 0 <= i < k ==> obs[i].Quiet()
    requires !obs[k].Quiet()
    ensures var t := Run(limit, obs);
      && t.output == Hashes(k) + [CompleteMarker]
      && t.completed && !t.workerCancelled && t.checkerCancelled
      && t.limit == limit - k
  {
    QuietTicks(limit, obs, k);
    assert obs[k..][0] == obs[k];
  }

  /**
    A worker that stays quiet for `limit + 1` ticks is given up on: exactly
    `limit` progress markers, then the time-up marker; the worker is
    cancelled, the request is not completed, and `limit` ends at -1.
   */
  lemma {:induction false} TimesOutWhenWorkerHangs(limit: nat, obs: seq<Observation>)
    requires |obs| > limit
    requires forall i :: 0 <= i <= limit ==> obs[i].Quiet()
    ensures var t := Run(limit, obs);
      && t.output == Hashes(limit) + [TimeUpMarker]
      && !t.completed && t.workerCancelled && t.checkerCancelled
      && t.limit == -1
  {
    QuietTicks(limit, obs, limit);
    assert obs[limit..][0] == obs[limit];
  }

  /** With the default budget and a worker that never finishes: twenty `#`, then `Time up` on tick 21. */
  lemma DefaultBudgetTimesOut()
    ensures var t := Run(InitialLimit, QuietRun(InitialLimit + 1));
      && |t.output| == InitialLimit + 1
      && (forall i :: 0 <= i < InitialLimit ==> t.output[i] == ProgressMarker)
      && t.output[InitialLimit] == TimeUpMarker
      && t.workerCancelled && !t.completed && t.limit == -1
  {
    TimesOutWhenWorkerHangs(InitialLimit, QuietRun(InitialLimit + 1));
    HashesAreProgress(InitialLimit);
  }
}
