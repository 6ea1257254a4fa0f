/**
 * Running a task on a worker thread: `call()` and `run()` of every layer,
 * as statements over the worker's delegated scope, the clock, the meters and
 * timers, and the journal of user code runs. Each method is proved to leave
 * exactly the state the Tasks functions describe.
 */
module Execution {
  import opened Optional
  import opened Instruments
  import opened TimerWrappers
  import opened Tasks

  /**
   * What calling `c` does: it ends as `CallResult` says, runs the user body
   * once under the context `CallContext` says, leaves the worker's context as
   * it found it, takes `CallTicks` clock readings and records exactly
   * `CallMarks` and `CallSamples` on the metrics of its timing layers.
   */
  twostate predicate Called(c: Callable, new o: Outcome, worker: Scope, clock: Clock, journal: Journal)
    reads worker, clock, journal, CallMeters(c), CallTimers(c)
  {
    && o == CallResult(c)
    && worker.current == old(worker.current)
    && clock.ticks == old(clock.ticks) + CallTicks(c)
    && journal.runs == old(journal.runs) + [BodyRun(CallBody(c), CallContext(c, old(worker.current)))]
    && (forall m :: m in CallMeters(c) && old(allocated(m)) ==> m.count == old(m.count) + CallMarks(c, m))
    && (forall t :: t in CallTimers(c) && old(allocated(t)) ==> t.samples == old(t.samples) + CallSamples(c, t, clock.reading, old(clock.ticks)))
  }

  /** The same for running a runnable. */
  twostate predicate Ran(r: Runnable, new f: Option<RunFailure>, worker: Scope, clock: Clock, journal: Journal)
    reads worker, clock, journal, RunMeters(r), RunTimers(r)
  {
    && f == RunResult(r)
    && worker.current == old(worker.current)
    && clock.ticks == old(clock.ticks) + RunTicks(r)
    && journal.runs == old(journal.runs) + [BodyRun(RunBody(r), RunContext(r, old(worker.current)))]
    && (forall m :: m in RunMeters(r) && old(allocated(m)) ==> m.count == old(m.count) + RunMarks(r, m))
    && (forall t :: t in RunTimers(r) && old(allocated(t)) ==> t.samples == old(t.samples) + RunSamples(r, t, clock.reading, old(clock.ticks)))
  }

  /** `call()`, dispatched on the layer. */
  method Call(c: Callable, worker: Scope, clock: Clock, journal: Journal) returns (o: Outcome)
    modifies worker, clock, journal, CallMeters(c), CallTimers(c)
    ensures Called(c, o, worker, clock, journal)
    decreases c, 2
  {
    match c
    case UserCallable(id, outcome) =>
      journal.Record(BodyRun(CallableBody(id), worker.current));
      o := outcome;
    case CallableRunnable(_) =>
      o := CallRunnable(c, worker, clock, journal);
    case DelegatingCallable(_, _) =>
      o := CallDelegating(c, worker, clock, journal);
    case TimedCallable(_, _, _) =>
      o := CallTimed(c, worker, clock, journal);
  }

  /** `run()`, dispatched on the layer. */
  method Run(r: Runnable, worker: Scope, clock: Clock, journal: Journal) returns (f: Option<RunFailure>)
    modifies worker, clock, journal, RunMeters(r), RunTimers(r)
    ensures Ran(r, f, worker, clock, journal)
    decreases r, 1
  {
    match r
    case UserRunnable(id, failure) =>
      journal.Record(BodyRun(RunnableBody(id), worker.current));
      f := failure;
    case RunnableCallable(_) =>
      f := RunCallable(r, worker, clock, journal);
    case DelegatingRunnable(_, _) =>
      f := RunDelegating(r, worker, clock, journal);
  }

  /** `CallableRunnable.call`: runs the runnable, returns `null`, lets its exception through. */
  method CallRunnable(c: Callable, worker: Scope, clock: Clock, journal: Journal) returns (o: Outcome)
    requires c.CallableRunnable?
    modifies worker, clock, journal, CallMeters(c), CallTimers(c)
    ensures Called(c, o, worker, clock, journal)
    decreases c, 0
  {
    var f := Run(c.runnable, worker, clock, journal);
    if f.Some? {
      o := Threw(f.value);
    } else {
      o := Returned(Null);
    }
  }

  /** `RunnableCallable.run`: calls the callable, drops its value, propagates its exception. */
  method RunCallable(r: Runnable, worker: Scope, clock: Clock, journal: Journal) returns (f: Option<RunFailure>)
    requires r.RunnableCallable?
    modifies worker, clock, journal, RunMeters(r), RunTimers(r)
    ensures Ran(r, f, worker, clock, journal)
    decreases r, 0
  {
    var o := Call(r.callable, worker, clock, journal);
    if o.Threw? {
      f := Some(Propagate(o.thrown));
    } else {
      f := None;
    }
  }

  /**
   * `DelegatingCallable.call`: installs the captured context for the wrapped
   * call and restores the worker's own context afterwards, also when the
   * wrapped call throws.
   */
  method CallDelegating(c: Callable, worker: Scope, clock: Clock, journal: Journal) returns (o: Outcome)
    requires c.DelegatingCallable?
    modifies worker, clock, journal, CallMeters(c), CallTimers(c)
    ensures Called(c, o, worker, clock, journal)
    decreases c, 0
  {
    var originalContext := worker.GetContext();
    worker.ChangeScope(c.callerContext);
    o := Call(c.wrappedCallable, worker, clock, journal);
    worker.ChangeScope(originalContext);
  }

  /** `DelegatingRunnable.run`: the same around a runnable. */
  method RunDelegating(r: Runnable, worker: Scope, clock: Clock, journal: Journal) returns (f: Option<RunFailure>)
    requires r.DelegatingRunnable?
    modifies worker, clock, journal, RunMeters(r), RunTimers(r)
    ensures Ran(r, f, worker, clock, journal)
    decreases r, 0
  {
    var originalContext := worker.GetContext();
    worker.ChangeScope(r.callerContext);
    f := Run(r.wrappedRunnable, worker, clock, journal);
    worker.ChangeScope(originalContext);
  }

  /**
   * The timed callable's `call`: records the time spent queued and marks the
   * dequeue, then makes the guarded call that marks an exception when the
   * call throws and in every case records the total time since enqueueing.
   */
  method CallTimed(c: Callable, worker: Scope, clock: Clock, journal: Journal) returns (o: Outcome)
    requires c.TimedCallable?
    modifies worker, clock, journal, CallMeters(c), CallTimers(c)
    ensures Called(c, o, worker, clock, journal)
    decreases c, 1
  {
    var m := c.metrics;
    var startNanos := TimedStart(m, c.enqueueNanos, clock);
    label Dequeued:
    o := CallRecordingTotal(c, worker, clock, journal);

    forall x | x in CallMeters(c) && old(allocated(x))
      ensures x.count == old(x.count) + CallMarks(c, x)
    {
      assert old@Dequeued(x.count) == old(x.count) + (if x == m.dequeueMeter then 1 else 0);
    }
    forall x | x in CallTimers(c) && old(allocated(x))
      ensures x.samples == old(x.samples) + CallSamples(c, x, clock.reading, old(clock.ticks))
    {
      var w, tick := c.timedCallable, old(clock.ticks);
      var queued := if x == m.queueTimer then [startNanos - c.enqueueNanos] else [];
      var total := if x == m.totalTimer then [clock.reading(tick + 1 + CallTicks(w)) - c.enqueueNanos] else [];
      var inner := CallSamples(w, x, clock.reading, tick + 1) + total;
      assert CallSamples(c, x, clock.reading, tick) == queued + inner;
      assert old@Dequeued(x.samples) == old(x.samples) + queued;
      assert x.samples == old(x.samples) + queued + inner;
    }
  }

  /**
   * The `try`/`catch`/`finally` of the timed callable's `call`: the enclosed
   * call, an exception mark when it throws, and the total-duration sample on
   * every exit.
   */
  method CallRecordingTotal(c: Callable, worker: Scope, clock: Clock, journal: Journal) returns (o: Outcome)
    requires c.TimedCallable?
    modifies worker, clock, journal, CallMeters(c), CallTimers(c)
    ensures o == CallResult(c.timedCallable)
    ensures worker.current == old(worker.current)
    ensures clock.ticks == old(clock.ticks) + CallTicks(c.timedCallable) + 1
    ensures journal.runs == old(journal.runs) + [BodyRun(CallBody(c), CallContext(c, old(worker.current)))]
    ensures forall x :: x in CallMeters(c) && old(allocated(x)) ==>
              x.count == old(x.count) + CallMarks(c.timedCallable, x)
                         + (if x == c.metrics.exceptionMeter && o.Threw? then 1 else 0)
    ensures forall x :: x in CallTimers(c) && old(allocated(x)) ==>
              x.samples == old(x.samples) + CallSamples(c.timedCallable, x, clock.reading, old(clock.ticks))
                           + (if x == c.metrics.totalTimer then [clock.reading(old(clock.ticks) + CallTicks(c.timedCallable)) - c.enqueueNanos] else [])
    decreases c, 0
  {
    var m, w := c.metrics, c.timedCallable;
    o := Call(w, worker, clock, journal);
    label Returned:
    var endNanos := TimedFinish(m, c.enqueueNanos, o.Threw?, clock);

    forall x | x in CallMeters(c) && old(allocated(x))
      ensures x.count == old(x.count) + CallMarks(w, x) + (if x == m.exceptionMeter && o.Threw? then 1 else 0)
    {
      if x !in CallMeters(w) {
        UnusedMeterUnmarked(w, x);
      }
      assert old@Returned(x.count) == old(x.count) + CallMarks(w, x);
    }
    forall x | x in CallTimers(c) && old(allocated(x))
      ensures x.samples == old(x.samples) + CallSamples(w, x, clock.reading, old(clock.ticks))
                           + (if x == m.totalTimer then [endNanos - c.enqueueNanos] else [])
    {
      if x !in CallTimers(w) {
        UnusedTimerEmpty(w, x, clock.reading, old(clock.ticks));
      }
      assert old@Returned(x.samples) == old(x.samples) + CallSamples(w, x, clock.reading, old(clock.ticks));
    }
  }

  /** Before the timed call: the queue-duration sample, then the dequeue mark. */
  method TimedStart(m: Metrics, enqueueNanos: int, clock: Clock) returns (startNanos: int)
    modifies clock, m.queueTimer, m.dequeueMeter
    ensures startNanos == clock.reading(old(clock.ticks)) && clock.ticks == old(clock.ticks) + 1
    ensures m.queueTimer.samples == old(m.queueTimer.samples) + [startNanos - enqueueNanos]
    ensures m.dequeueMeter.count == old(m.dequeueMeter.count) + 1
  {
    startNanos := clock.NanoTime();
    m.queueTimer.Update(startNanos - enqueueNanos);
    m.dequeueMeter.Mark();
  }

  /** After the timed call: the exception mark when it threw, then the total-duration sample. */
  method TimedFinish(m: Metrics, enqueueNanos: int, threw: bool, clock: Clock) returns (endNanos: int)
    modifies clock, m.exceptionMeter, m.totalTimer
    ensures endNanos == clock.reading(old(clock.ticks)) && clock.ticks == old(clock.ticks) + 1
    ensures m.exceptionMeter.count == old(m.exceptionMeter.count) + (if threw then 1 else 0)
    ensures m.totalTimer.samples == old(m.totalTimer.samples) + [endNanos - enqueueNanos]
  {
    if threw {
      m.exceptionMeter.Mark();
    }
    endNanos := clock.NanoTime();
    m.totalTimer.Update(endNanos - enqueueNanos);
  }
}
