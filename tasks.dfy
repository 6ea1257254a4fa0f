/**
 * Tasks as the wrappers build them: a user's callable or runnable at the
 * core, enclosed in adapter, context-delegating and timing layers. Each layer
 * is a constructor holding what the Java object holds in its fields.
 *
 * The functions here say what running a task does: its outcome, which user
 * body runs and under which delegated context, how many clock readings it
 * takes, and what it records on each meter and timer. The methods in the
 * Execution module are proved to do exactly that.
 */
module Tasks {
  import opened Optional
  import opened Instruments
  import opened TimerWrappers

  /** A `ThreadDelegatedContext`, by identity. */
  type Context = nat

  /**
   * A thrown object. `Checked` stands for a checked exception, `Unchecked` for
   * a runtime exception or error, `Propagated` for the `RuntimeException` that
   * `Throwables.propagate` wraps a checked exception in.
   */
  datatype Throwable = Checked(id: nat) | Unchecked(id: nat) | Propagated(cause: Throwable)

  /** What `run()` may throw: anything but a checked exception. */
  type RunFailure = t: Throwable | !t.Checked? witness Unchecked(0)

  /** `Throwables.propagate`: a checked exception is wrapped, anything else is rethrown as it is. */
  function Propagate(t: Throwable): (p: RunFailure)
    ensures !t.Checked? ==> p == t
    ensures t.Checked? ==> p.Propagated? && p.cause == t
  {
    if t.Checked? then Propagated(t) else t
  }

  /** A returned value: `Null` is what a `Void` callable returns. */
  datatype Value = Null | Ref(id: nat)

  /** How a call ends. */
  datatype Outcome = Returned(value: Value) | Threw(thrown: Throwable)

  datatype Callable =
    | UserCallable(callableId: nat, outcome: Outcome)
      /** `CallableWrapper.CallableRunnable`: runs the runnable and returns `null`. */
    | CallableRunnable(runnable: Runnable)
      /** `ThreadDelegatingDecorator.DelegatingCallable` with the context captured when it was made. */
    | DelegatingCallable(wrappedCallable: Callable, callerContext: Context)
      /** The callable `TimerWrapper.wrap` returns, with the metrics and the enqueue time it captured. */
    | TimedCallable(timedCallable: Callable, metrics: Metrics, enqueueNanos: int)

  datatype Runnable =
    | UserRunnable(runnableId: nat, failure: Option<RunFailure>)
      /** `CallableWrapper.RunnableCallable`: calls the callable and discards its value. */
    | RunnableCallable(callable: Callable)
      /** `ThreadDelegatingDecorator.DelegatingRunnable`. */
    | DelegatingRunnable(wrappedRunnable: Runnable, callerContext: Context)

  /** The user code at the core of a task. */
  datatype Body = CallableBody(callableId: nat) | RunnableBody(runnableId: nat)

  /** One execution of user code and the delegated context current while it ran. */
  datatype BodyRun = BodyRun(body: Body, context: Context)

  /** The thread-delegated scope as seen from one thread. */
  class Scope {
    var current: Context

    constructor (current: Context)
      ensures this.current == current
    {
      this.current := current;
    }

    method GetContext() returns (c: Context)
      ensures c == current
    {
      c := current;
    }

    method ChangeScope(c: Context)
      modifies this
      ensures current == c
    {
      current := c;
    }
  }

  /** Every execution of user code, in order. */
  class Journal {
    var runs: seq<BodyRun>

    constructor ()
      ensures runs == []
    {
      runs := [];
    }

    method Record(run: BodyRun)
      modifies this
      ensures runs == old(runs) + [run]
    {
      runs := runs + [run];
    }
  }

  /** `System.nanoTime()`: the n-th reading is `reading(n)`. */
  class Clock {
    const reading: nat -> int
    var ticks: nat

    constructor (reading: nat -> int)
      ensures this.reading == reading && ticks == 0
    {
      this.reading := reading;
      ticks := 0;
    }

    method NanoTime() returns (t: int)
      modifies this
      ensures t == reading(old(ticks)) && ticks == old(ticks) + 1
    {
      t := reading(ticks);
      ticks := ticks + 1;
    }
  }

  /** How calling `c` ends. */
  function CallResult(c: Callable): Outcome
    decreases c
  {
    match c
    case UserCallable(_, outcome) => outcome
    case CallableRunnable(r) =>
      var f := RunResult(r);
      if f.Some? then Threw(f.value) else Returned(Null)
    case DelegatingCallable(w, _) => CallResult(w)
    case TimedCallable(w, _, _) => CallResult(w)
  }

  /** What running `r` throws, if anything. */
  function RunResult(r: Runnable): Option<RunFailure>
    decreases r
  {
    match r
    case UserRunnable(_, failure) => failure
    case RunnableCallable(c) =>
      var o := CallResult(c);
      if o.Threw? then Some(Propagate(o.thrown)) else None
    case DelegatingRunnable(w, _) => RunResult(w)
  }

  function CallBody(c: Callable): Body
    decreases c
  {
    match c
    case UserCallable(id, _) => CallableBody(id)
    case CallableRunnable(r) => RunBody(r)
    case DelegatingCallable(w, _) => CallBody(w)
    case TimedCallable(w, _, _) => CallBody(w)
  }

  function RunBody(r: Runnable): Body
    decreases r
  {
    match r
    case UserRunnable(id, _) => RunnableBody(id)
    case RunnableCallable(c) => CallBody(c)
    case DelegatingRunnable(w, _) => RunBody(w)
  }

  /** The context current while the body of `c` runs, when `current` is current at the call. */
  function CallContext(c: Callable, current: Context): Context
    decreases c
  {
    match c
    case UserCallable(_, _) => current
    case CallableRunnable(r) => RunContext(r, current)
    case DelegatingCallable(w, captured) => CallContext(w, captured)
    case TimedCallable(w, _, _) => CallContext(w, current)
  }

  function RunContext(r: Runnable, current: Context): Context
    decreases r
  {
    match r
    case UserRunnable(_, _) => current
    case RunnableCallable(c) => CallContext(c, current)
    case DelegatingRunnable(w, captured) => RunContext(w, captured)
  }

  /** The context the innermost delegating layer installs, if there is one. */
  function CallInstalls(c: Callable): Option<Context>
    decreases c
  {
    match c
    case UserCallable(_, _) => None
    case CallableRunnable(r) => RunInstalls(r)
    case DelegatingCallable(w, captured) => if CallInstalls(w).Some? then CallInstalls(w) else Some(captured)
    case TimedCallable(w, _, _) => CallInstalls(w)
  }

  function RunInstalls(r: Runnable): Option<Context>
    decreases r
  {
    match r
    case UserRunnable(_, _) => None
    case RunnableCallable(c) => CallInstalls(c)
    case DelegatingRunnable(w, captured) => if RunInstalls(w).Some? then RunInstalls(w) else Some(captured)
  }

  /** Number of clock readings a call takes: two per timing layer. */
  function CallTicks(c: Callable): nat
    decreases c
  {
    match c
    case UserCallable(_, _) => 0
    case CallableRunnable(r) => RunTicks(r)
    case DelegatingCallable(w, _) => CallTicks(w)
    case TimedCallable(w, _, _) => 2 + CallTicks(w)
  }

  function RunTicks(r: Runnable): nat
    decreases r
  {
    match r
    case UserRunnable(_, _) => 0
    case RunnableCallable(c) => CallTicks(c)
    case DelegatingRunnable(w, _) => RunTicks(w)
  }

  /** The meters a call may mark: the dequeue and exception meters of its timing layers. */
  function CallMeters(c: Callable): set<Meter>
    decreases c
  {
    match c
    case UserCallable(_, _) => {}
    case CallableRunnable(r) => RunMeters(r)
    case DelegatingCallable(w, _) => CallMeters(w)
    case TimedCallable(w, m, _) => {m.dequeueMeter, m.exceptionMeter} + CallMeters(w)
  }

  function RunMeters(r: Runnable): set<Meter>
    decreases r
  {
    match r
    case UserRunnable(_, _) => {}
    case RunnableCallable(c) => CallMeters(c)
    case DelegatingRunnable(w, _) => RunMeters(w)
  }

  /** The timers a call may update: the queue and total timers of its timing layers. */
  function CallTimers(c: Callable): set<Timer>
    decreases c
  {
    match c
    case UserCallable(_, _) => {}
    case CallableRunnable(r) => RunTimers(r)
    case DelegatingCallable(w, _) => CallTimers(w)
    case TimedCallable(w, m, _) => {m.queueTimer, m.totalTimer} + CallTimers(w)
  }

  function RunTimers(r: Runnable): set<Timer>
    decreases r
  {
    match r
    case UserRunnable(_, _) => {}
    case RunnableCallable(c) => CallTimers(c)
    case DelegatingRunnable(w, _) => RunTimers(w)
  }

  /**
   * How many times a call marks `meter`: each timing layer marks its dequeue
   * meter once, and its exception meter once when what it encloses throws.
   */
  function CallMarks(c: Callable, meter: Meter): nat
    decreases c
  {
    match c
    case UserCallable(_, _) => 0
    case CallableRunnable(r) => RunMarks(r, meter)
    case DelegatingCallable(w, _) => CallMarks(w, meter)
    case TimedCallable(w, m, _) =>
      (if m.dequeueMeter == meter then 1 else 0)
      + CallMarks(w, meter)
      + (if m.exceptionMeter == meter && CallResult(w).Threw? then 1 else 0)
  }

  function RunMarks(r: Runnable, meter: Meter): nat
    decreases r
  {
    match r
    case UserRunnable(_, _) => 0
    case RunnableCallable(c) => CallMarks(c, meter)
    case DelegatingRunnable(w, _) => RunMarks(w, meter)
  }

  /**
   * The durations a call records on `timer`, when the clock's next reading is
   * `reading(tick)`: each timing layer records on its queue timer the time from
   * its enqueue reading to the start of the call, then, after what it encloses,
   * the time from the enqueue reading to the end on its total timer.
   */
  function CallSamples(c: Callable, timer: Timer, reading: nat -> int, tick: nat): seq<int>
    decreases c
  {
    match c
    case UserCallable(_, _) => []
    case CallableRunnable(r) => RunSamples(r, timer, reading, tick)
    case DelegatingCallable(w, _) => CallSamples(w, timer, reading, tick)
    case TimedCallable(w, m, enqueueNanos) =>
      (if m.queueTimer == timer then [reading(tick) - enqueueNanos] else [])
      + CallSamples(w, timer, reading, tick + 1)
      + (if m.totalTimer == timer then [reading(tick + 1 + CallTicks(w)) - enqueueNanos] else [])
  }

  function RunSamples(r: Runnable, timer: Timer, reading: nat -> int, tick: nat): seq<int>
    decreases r
  {
    match r
    case UserRunnable(_, _) => []
    case RunnableCallable(c) => CallSamples(c, timer, reading, tick)
    case DelegatingRunnable(w, _) => RunSamples(w, timer, reading, tick)
  }

  /** The metrics of a task's timing layers, outermost first. */
  function TimingLayers(c: Callable): seq<Metrics>
    decreases c
  {
    match c
    case UserCallable(_, _) => []
    case CallableRunnable(r) => RunTimingLayers(r)
    case DelegatingCallable(w, _) => TimingLayers(w)
    case TimedCallable(w, m, _) => [m] + TimingLayers(w)
  }

  function RunTimingLayers(r: Runnable): seq<Metrics>
    decreases r
  {
    match r
    case UserRunnable(_, _) => []
    case RunnableCallable(c) => TimingLayers(c)
    case DelegatingRunnable(w, _) => RunTimingLayers(w)
  }

  /**
   * How often `meter` serves the given layers: once per layer whose dequeue
   * meter it is, and, when the call throws, once more per layer whose
   * exception meter it is.
   */
  function MeterRoles(layers: seq<Metrics>, meter: Meter, threw: bool): nat
    decreases |layers|
  {
    if layers == [] then 0
    else (if layers[0].dequeueMeter == meter then 1 else 0)
         + (if threw && layers[0].exceptionMeter == meter then 1 else 0)
         + MeterRoles(layers[1..], meter, threw)
  }

  /** How often `timer` serves the given layers, as queue timer or as total timer. */
  function TimerRoles(layers: seq<Metrics>, timer: Timer): nat
    decreases |layers|
  {
    if layers == [] then 0
    else (if layers[0].queueTimer == timer then 1 else 0)
         + (if layers[0].totalTimer == timer then 1 else 0)
         + TimerRoles(layers[1..], timer)
  }

  /** Every timing layer reads the clock twice, and nothing else reads it. */
  lemma {:induction false} TicksTwoPerTimingLayer(c: Callable)
    ensures CallTicks(c) == 2 * |TimingLayers(c)|
    decreases c
  {
    match c
    case UserCallable(_, _) =>
    case CallableRunnable(r) => RunTicksTwoPerTimingLayer(r);
    case DelegatingCallable(w, _) => TicksTwoPerTimingLayer(w);
    case TimedCallable(w, _, _) => TicksTwoPerTimingLayer(w);
  }

  lemma {:induction false} RunTicksTwoPerTimingLayer(r: Runnable)
    ensures RunTicks(r) == 2 * |RunTimingLayers(r)|
    decreases r
  {
    match r
    case UserRunnable(_, _) =>
    case RunnableCallable(c) => TicksTwoPerTimingLayer(c);
    case DelegatingRunnable(w, _) => RunTicksTwoPerTimingLayer(w);
  }

  /**
   * Every timing layer marks its dequeue meter once and, exactly when the
   * whole call throws, its exception meter once: a throw passes through
   * every layer, through the runnable adapters included.
   */
  lemma {:induction false} MarksPerTimingLayer(c: Callable, meter: Meter)
    ensures CallMarks(c, meter) == MeterRoles(TimingLayers(c), meter, CallResult(c).Threw?)
    decreases c
  {
    match c
    case UserCallable(_, _) =>
    case CallableRunnable(r) => RunMarksPerTimingLayer(r, meter);
    case DelegatingCallable(w, _) => MarksPerTimingLayer(w, meter);
    case TimedCallable(w, m, _) =>
      MarksPerTimingLayer(w, meter);
      assert ([m] + TimingLayers(w))[1..] == TimingLayers(w);
  }

  lemma {:induction false} RunMarksPerTimingLayer(r: Runnable, meter: Meter)
    ensures RunMarks(r, meter) == MeterRoles(RunTimingLayers(r), meter, RunResult(r).Some?)
    decreases r
  {
    match r
    case UserRunnable(_, _) =>
    case RunnableCallable(c) => MarksPerTimingLayer(c, meter);
    case DelegatingRunnable(w, _) => RunMarksPerTimingLayer(w, meter);
  }

  /** Every timing layer records one sample on its queue timer and one on its total timer. */
  lemma {:induction false} SamplesOnePerTimerRole(c: Callable, timer: Timer, reading: nat -> int, tick: nat)
    ensures |CallSamples(c, timer, reading, tick)| == TimerRoles(TimingLayers(c), timer)
    decreases c
  {
    match c
    case UserCallable(_, _) =>
    case CallableRunnable(r) => RunSamplesOnePerTimerRole(r, timer, reading, tick);
    case DelegatingCallable(w, _) => SamplesOnePerTimerRole(w, timer, reading, tick);
    case TimedCallable(w, m, _) =>
      SamplesOnePerTimerRole(w, timer, reading, tick + 1);
      assert ([m] + TimingLayers(w))[1..] == TimingLayers(w);
  }

  lemma {:induction false} RunSamplesOnePerTimerRole(r: Runnable, timer: Timer, reading: nat -> int, tick: nat)
    ensures |RunSamples(r, timer, reading, tick)| == TimerRoles(RunTimingLayers(r), timer)
    decreases r
  {
    match r
    case UserRunnable(_, _) =>
    case RunnableCallable(c) => SamplesOnePerTimerRole(c, timer, reading, tick);
    case DelegatingRunnable(w, _) => RunSamplesOnePerTimerRole(w, timer, reading, tick);
  }

  /**
   * A checked exception escapes a call only from a user callable: `run()`
   * cannot throw one, so a runnable at the core, or behind an adapter,
   * never lets one out.
   */
  lemma {:induction false} CheckedOnlyFromCallableBody(c: Callable)
    ensures CallResult(c).Threw? && CallResult(c).thrown.Checked? ==> CallBody(c).CallableBody?
    decreases c
  {
    match c
    case UserCallable(_, _) =>
    case CallableRunnable(r) =>
    case DelegatingCallable(w, _) => CheckedOnlyFromCallableBody(w);
    case TimedCallable(w, _, _) => CheckedOnlyFromCallableBody(w);
  }

  /** The body sees the context of the innermost delegating layer, or else the caller's own. */
  lemma {:induction false} ContextIsInnermostInstalled(c: Callable, current: Context)
    ensures CallContext(c, current) == if CallInstalls(c).Some? then CallInstalls(c).value else current
    decreases c
  {
    match c
    case UserCallable(_, _) =>
    case CallableRunnable(r) => RunContextIsInnermostInstalled(r, current);
    case DelegatingCallable(w, captured) => ContextIsInnermostInstalled(w, captured);
    case TimedCallable(w, _, _) => ContextIsInnermostInstalled(w, current);
  }

  lemma {:induction false} RunContextIsInnermostInstalled(r: Runnable, current: Context)
    ensures RunContext(r, current) == if RunInstalls(r).Some? then RunInstalls(r).value else current
    decreases r
  {
    match r
    case UserRunnable(_, _) =>
    case RunnableCallable(c) => ContextIsInnermostInstalled(c, current);
    case DelegatingRunnable(w, captured) => RunContextIsInnermostInstalled(w, captured);
  }

  /** A meter outside a call's timing layers is never marked by it. */
  lemma {:induction false} UnusedMeterUnmarked(c: Callable, meter: Meter)
    requires meter !in CallMeters(c)
    ensures CallMarks(c, meter) == 0
    decreases c
  {
    match c
    case UserCallable(_, _) =>
    case CallableRunnable(r) => RunUnusedMeterUnmarked(r, meter);
    case DelegatingCallable(w, _) => UnusedMeterUnmarked(w, meter);
    case TimedCallable(w, _, _) => UnusedMeterUnmarked(w, meter);
  }

  lemma {:induction false} RunUnusedMeterUnmarked(r: Runnable, meter: Meter)
    requires meter !in RunMeters(r)
    ensures RunMarks(r, meter) == 0
    decreases r
  {
    match r
    case UserRunnable(_, _) =>
    case RunnableCallable(c) => UnusedMeterUnmarked(c, meter);
    case DelegatingRunnable(w, _) => RunUnusedMeterUnmarked(w, meter);
  }

  /** A timer outside a call's timing layers records nothing. */
  lemma {:induction false} UnusedTimerEmpty(c: Callable, timer: Timer, reading: nat -> int, tick: nat)
    requires timer !in CallTimers(c)
    ensures CallSamples(c, timer, reading, tick) == []
    decreases c
  {
    match c
    case UserCallable(_, _) =>
    case CallableRunnable(r) => RunUnusedTimerEmpty(r, timer, reading, tick);
    case DelegatingCallable(w, _) => UnusedTimerEmpty(w, timer, reading, tick);
    case TimedCallable(w, _, _) => UnusedTimerEmpty(w, timer, reading, tick + 1);
  }

  lemma {:induction false} RunUnusedTimerEmpty(r: Runnable, timer: Timer, reading: nat -> int, tick: nat)
    requires timer !in RunTimers(r)
    ensures RunSamples(r, timer, reading, tick) == []
    decreases r
  {
    match r
    case UserRunnable(_, _) =>
    case RunnableCallable(c) => UnusedTimerEmpty(c, timer, reading, tick);
    case DelegatingRunnable(w, _) => RunUnusedTimerEmpty(w, timer, reading, tick);
  }

  /**
   * A timing layer whose metrics are its own: one dequeue mark; one exception
   * mark exactly when the enclosed call throws; one queue sample measured from
   * the enqueue reading to the first reading of the call, and one total sample
   * from the enqueue reading to the last.
   */
  lemma TimedCallRecords(w: Callable, m: Metrics, enqueueNanos: int, reading: nat -> int, tick: nat)
    requires Separate(m)
    requires m.dequeueMeter !in CallMeters(w) && m.exceptionMeter !in CallMeters(w)
    requires m.queueTimer !in CallTimers(w) && m.totalTimer !in CallTimers(w)
    ensures CallMarks(TimedCallable(w, m, enqueueNanos), m.dequeueMeter) == 1
    ensures CallMarks(TimedCallable(w, m, enqueueNanos), m.exceptionMeter) == if CallResult(w).Threw? then 1 else 0
    ensures CallMarks(TimedCallable(w, m, enqueueNanos), m.enqueueMeter) == CallMarks(w, m.enqueueMeter)
    ensures CallSamples(TimedCallable(w, m, enqueueNanos), m.queueTimer, reading, tick) == [reading(tick) - enqueueNanos]
    ensures CallSamples(TimedCallable(w, m, enqueueNanos), m.totalTimer, reading, tick)
         == [reading(tick + CallTicks(TimedCallable(w, m, enqueueNanos)) - 1) - enqueueNanos]
  {
    UnusedMeterUnmarked(w, m.dequeueMeter);
    UnusedMeterUnmarked(w, m.exceptionMeter);
    UnusedTimerEmpty(w, m.queueTimer, reading, tick + 1);
    UnusedTimerEmpty(w, m.totalTimer, reading, tick + 1);
  }
}
