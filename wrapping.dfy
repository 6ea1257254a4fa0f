/**
 * Wrapping a task, as the calling thread does it before handing the task to
 * an executor: `wrap(Callable)` and `wrap(Runnable)` of every kind of
 * wrapper. Wrapping reads the calling thread's delegated context, takes clock
 * readings and marks enqueue meters, and changes nothing else.
 */
module Wrapping {
  import opened Instruments
  import opened TimerWrappers
  import opened Tasks
  import opened CallableWrappers

  /** What a wrap does to the state: `WrapTicks` clock readings and `EnqueueMarks` marks. */
  twostate predicate Marked(w: CallableWrapper, config: Configuration, clock: Clock)
    reads clock, EnqueueMeters(w, config)
  {
    && clock.ticks == old(clock.ticks) + WrapTicks(w)
    && (forall m :: m in EnqueueMeters(w, config) && old(allocated(m)) ==> m.count == old(m.count) + EnqueueMarks(w, config, m))
  }

  /** `wrap(Callable)`, dispatched on the kind of wrapper. */
  method WrapCallable(w: CallableWrapper, ghost config: Configuration, c: Callable, caller: Scope, clock: Clock) returns (wrapped: Callable)
    requires Configured(w, config)
    modifies clock, EnqueueMeters(w, config)
    ensures wrapped == WrappedCallable(w, config, c, caller.current, clock.reading, old(clock.ticks))
    ensures Marked(w, config, clock)
    decreases w, 1
  {
    match w
    case ThreadDelegating =>
      wrapped := DelegateCallable(c, caller);
    case Timing(t) =>
      wrapped := TimeCallable(t, c, clock);
    case Combined(_) =>
      wrapped := CombinedWrapCallable(w, config, c, caller, clock);
  }

  /** `wrap(Runnable)`, dispatched on the kind of wrapper; the timing wrapper inherits the adapter. */
  method WrapRunnable(w: CallableWrapper, ghost config: Configuration, r: Runnable, caller: Scope, clock: Clock) returns (wrapped: Runnable)
    requires Configured(w, config)
    modifies clock, EnqueueMeters(w, config)
    ensures wrapped == WrappedRunnable(w, config, r, caller.current, clock.reading, old(clock.ticks))
    ensures Marked(w, config, clock)
    decreases w, 3
  {
    match w
    case ThreadDelegating =>
      wrapped := DelegateRunnable(r, caller);
    case Timing(_) =>
      wrapped := AdaptRunnable(w, config, r, caller, clock);
    case Combined(_) =>
      wrapped := CombinedWrapRunnable(w, config, r, caller, clock);
  }

  /** The delegating wrapper: the new callable captures the calling thread's context. */
  method DelegateCallable(c: Callable, caller: Scope) returns (wrapped: Callable)
    ensures wrapped.DelegatingCallable? && wrapped.wrappedCallable == c
    ensures wrapped.callerContext == caller.current
  {
    var callerContext := caller.GetContext();
    wrapped := DelegatingCallable(c, callerContext);
  }

  method DelegateRunnable(r: Runnable, caller: Scope) returns (wrapped: Runnable)
    ensures wrapped.DelegatingRunnable? && wrapped.wrappedRunnable == r
    ensures wrapped.callerContext == caller.current
  {
    var callerContext := caller.GetContext();
    wrapped := DelegatingRunnable(r, callerContext);
  }

  /**
   * `TimerWrapper.wrap`: reads the clock first; without metrics returns the
   * callable itself, otherwise marks the enqueue meter and returns a timed
   * callable holding the metrics and the reading.
   */
  method TimeCallable(t: TimerWrapper, c: Callable, clock: Clock) returns (wrapped: Callable)
    modifies clock, if t.metrics.Some? then {t.metrics.value.enqueueMeter} else {}
    ensures clock.ticks == old(clock.ticks) + 1
    ensures t.metrics.None? ==> wrapped == c
    ensures t.metrics.Some? ==> wrapped == TimedCallable(c, t.metrics.value, clock.reading(old(clock.ticks)))
    ensures t.metrics.Some? ==> t.metrics.value.enqueueMeter.count == old(t.metrics.value.enqueueMeter.count) + 1
  {
    var enqueueNanos := clock.NanoTime();
    var myMetrics := t.metrics;
    if myMetrics.None? {
      return c;
    }
    myMetrics.value.enqueueMeter.Mark();
    wrapped := TimedCallable(c, myMetrics.value, enqueueNanos);
  }

  /** `CallableWrapper.wrap(Runnable)`: adapt, wrap, and give back the runnable itself when nothing was added. */
  method AdaptRunnable(w: CallableWrapper, ghost config: Configuration, r: Runnable, caller: Scope, clock: Clock) returns (wrapped: Runnable)
    requires Configured(w, config)
    modifies clock, EnqueueMeters(w, config)
    ensures wrapped == AdaptedRunnable(w, config, r, caller.current, clock.reading, old(clock.ticks))
    ensures Marked(w, config, clock)
    decreases w, 2
  {
    var unwrapped := CallableRunnable(r);
    var wrappedCallable := WrapCallable(w, config, unwrapped, caller, clock);
    if wrappedCallable == unwrapped {
      return r;
    }
    wrapped := RunnableCallable(wrappedCallable);
  }

  /** `CombinedCallableWrapper.wrap(Callable)`: each wrapper in turn, in iteration order. */
  method CombinedWrapCallable(w: CallableWrapper, ghost config: Configuration, c: Callable, caller: Scope, clock: Clock) returns (wrapped: Callable)
    requires w.Combined?
    requires Configured(w, config)
    modifies clock, EnqueueMeters(w, config)
    ensures wrapped == WrappedCallable(w, config, c, caller.current, clock.reading, old(clock.ticks))
    ensures Marked(w, config, clock)
    decreases w, 0
  {
    var ws := w.wrappers;
    ghost var context := caller.current;
    wrapped := c;
    var i := 0;
    while i < |ws|
      invariant 0 <= i <= |ws|
      invariant Configured(w, config)
      invariant FoldCallable(ws[i..], config, wrapped, context, clock.reading, clock.ticks)
             == FoldCallable(ws, config, c, context, clock.reading, old(clock.ticks))
      invariant clock.ticks + SeqWrapTicks(ws[i..]) == old(clock.ticks) + SeqWrapTicks(ws)
      invariant forall m :: m in EnqueueMeters(w, config) && old(allocated(m)) ==>
                  m.count + SeqEnqueueMarks(ws[i..], config, m) == old(m.count) + SeqEnqueueMarks(ws, config, m)
    {
      TimersAllocated(w);
      MemberConfigured(ws, config, i);
      MemberEnqueueMeters(ws, config, i);
      assert ws[i..][1..] == ws[i + 1..];
      wrapped := WrapCallable(ws[i], config, wrapped, caller, clock);
      forall m | m in EnqueueMeters(w, config) && m !in EnqueueMeters(ws[i], config)
        ensures EnqueueMarks(ws[i], config, m) == 0
      {
        UnusedEnqueueMeterUnmarked(ws[i], config, m);
      }
      i := i + 1;
    }
    assert ws[i..] == [];
  }

  /** `CombinedCallableWrapper.wrap(Runnable)`: each wrapper's own `wrap(Runnable)` in turn. */
  method CombinedWrapRunnable(w: CallableWrapper, ghost config: Configuration, r: Runnable, caller: Scope, clock: Clock) returns (wrapped: Runnable)
    requires w.Combined?
    requires Configured(w, config)
    modifies clock, EnqueueMeters(w, config)
    ensures wrapped == WrappedRunnable(w, config, r, caller.current, clock.reading, old(clock.ticks))
    ensures Marked(w, config, clock)
    decreases w, 2
  {
    var ws := w.wrappers;
    ghost var context := caller.current;
    wrapped := r;
    var i := 0;
    while i < |ws|
      invariant 0 <= i <= |ws|
      invariant Configured(w, config)
      invariant FoldRunnable(ws[i..], config, wrapped, context, clock.reading, clock.ticks)
             == FoldRunnable(ws, config, r, context, clock.reading, old(clock.ticks))
      invariant clock.ticks + SeqWrapTicks(ws[i..]) == old(clock.ticks) + SeqWrapTicks(ws)
      invariant forall m :: m in EnqueueMeters(w, config) && old(allocated(m)) ==>
                  m.count + SeqEnqueueMarks(ws[i..], config, m) == old(m.count) + SeqEnqueueMarks(ws, config, m)
    {
      TimersAllocated(w);
      MemberConfigured(ws, config, i);
      MemberEnqueueMeters(ws, config, i);
      assert ws[i..][1..] == ws[i + 1..];
      wrapped := WrapRunnable(ws[i], config, wrapped, caller, clock);
      forall m | m in EnqueueMeters(w, config) && m !in EnqueueMeters(ws[i], config)
        ensures EnqueueMarks(ws[i], config, m) == 0
      {
        UnusedEnqueueMeterUnmarked(ws[i], config, m);
      }
      i := i + 1;
    }
    assert ws[i..] == [];
  }
}
