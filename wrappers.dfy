/**
 * Callable wrappers: the context-delegating wrapper, a pool's timing wrapper,
 * and combinations of wrappers. The functions here say what wrapping a task
 * builds; the Wrapping module's methods are proved to build it.
 */
module CallableWrappers {
  import opened Optional
  import opened Instruments
  import opened TimerWrappers
  import opened Tasks
  import opened Sequences

  datatype CallableWrapper =
      /** `ThreadDelegatingDecorator.THREAD_DELEGATING_WRAPPER`. */
    | ThreadDelegating
      /** A `TimerWrapper`, whose metrics may be set after it is made. */
    | Timing(timer: TimerWrapper)
      /** `CallableWrappers.CombinedCallableWrapper`, its wrappers in iteration order. */
    | Combined(wrappers: seq<CallableWrapper>)

  /** `ImmutableSet.copyOf`: each element once, at the place it first occurs. */
  function Dedup(ws: seq<CallableWrapper>): (d: seq<CallableWrapper>)
    ensures NoDuplicates(d)
    ensures forall i :: 0 <= i < |d| ==> d[i] in ws
    ensures forall i :: 0 <= i < |ws| ==> ws[i] in d
    ensures |d| <= |ws|
  {
    if ws == [] then []
    else
      var d := Dedup(ws[..|ws| - 1]);
      if ws[|ws| - 1] in d then d else d + [ws[|ws| - 1]]
  }

  /** A list without repetitions is kept as it is, order included. */
  lemma {:induction false} DedupKeepsDistinct(ws: seq<CallableWrapper>)
    requires NoDuplicates(ws)
    ensures Dedup(ws) == ws
  {
    if ws != [] {
      var init := ws[..|ws| - 1];
      DedupKeepsDistinct(init);
      assert ws[|ws| - 1] !in init;
      assert init + [ws[|ws| - 1]] == ws;
    }
  }

  /** `CallableWrappers.combine`: one wrapper applying each given wrapper once, first occurrences first. */
  function Combine(ws: seq<CallableWrapper>): (w: CallableWrapper)
    ensures w.Combined? && NoDuplicates(w.wrappers)
    ensures forall i :: 0 <= i < |w.wrappers| ==> w.wrappers[i] in ws
    ensures forall i :: 0 <= i < |ws| ==> ws[i] in w.wrappers
  {
    Combined(Dedup(ws))
  }

  /** The timing wrappers inside a wrapper. */
  function Timers(w: CallableWrapper): set<TimerWrapper>
    decreases w
  {
    match w
    case ThreadDelegating => {}
    case Timing(t) => {t}
    case Combined(ws) => SeqTimers(ws)
  }

  function SeqTimers(ws: seq<CallableWrapper>): set<TimerWrapper>
    decreases ws
  {
    if ws == [] then {} else Timers(ws[0]) + SeqTimers(ws[1..])
  }

  /**
   * The metrics each timing wrapper holds, as read when a task is wrapped.
   * Wrapping never changes them, so the functions below take them as a value.
   */
  type Configuration = map<TimerWrapper, Option<Metrics>>

  function MetricsOf(config: Configuration, t: TimerWrapper): Option<Metrics> {
    if t in config then config[t] else None
  }

  /** `config` holds what the timing wrappers inside `w` hold now. */
  ghost predicate Configured(w: CallableWrapper, config: Configuration)
    reads Timers(w)
  {
    forall t :: t in Timers(w) ==> MetricsOf(config, t) == t.metrics
  }

  lemma MemberConfigured(ws: seq<CallableWrapper>, config: Configuration, i: nat)
    requires i < |ws| && Configured(Combined(ws), config)
    ensures Configured(ws[i], config)
  {
    MemberTimers(ws, i);
  }

  /** Clock readings one wrap takes: one per timing wrapper, with or without metrics. */
  function WrapTicks(w: CallableWrapper): nat
    decreases w
  {
    match w
    case ThreadDelegating => 0
    case Timing(_) => 1
    case Combined(ws) => SeqWrapTicks(ws)
  }

  function SeqWrapTicks(ws: seq<CallableWrapper>): nat
    decreases ws
  {
    if ws == [] then 0 else WrapTicks(ws[0]) + SeqWrapTicks(ws[1..])
  }

  /** The enqueue meters a wrap may mark: those of its timing wrappers that have metrics. */
  function EnqueueMeters(w: CallableWrapper, config: Configuration): set<Meter>
    decreases w
  {
    match w
    case ThreadDelegating => {}
    case Timing(t) => if MetricsOf(config, t).Some? then {MetricsOf(config, t).value.enqueueMeter} else {}
    case Combined(ws) => SeqEnqueueMeters(ws, config)
  }

  function SeqEnqueueMeters(ws: seq<CallableWrapper>, config: Configuration): set<Meter>
    decreases ws
  {
    if ws == [] then {} else EnqueueMeters(ws[0], config) + SeqEnqueueMeters(ws[1..], config)
  }

  /** How many times a wrap marks `meter`: once per timing wrapper with metrics whose enqueue meter it is. */
  function EnqueueMarks(w: CallableWrapper, config: Configuration, meter: Meter): nat
    decreases w
  {
    match w
    case ThreadDelegating => 0
    case Timing(t) => if MetricsOf(config, t).Some? && MetricsOf(config, t).value.enqueueMeter == meter then 1 else 0
    case Combined(ws) => SeqEnqueueMarks(ws, config, meter)
  }

  function SeqEnqueueMarks(ws: seq<CallableWrapper>, config: Configuration, meter: Meter): nat
    decreases ws
  {
    if ws == [] then 0 else EnqueueMarks(ws[0], config, meter) + SeqEnqueueMarks(ws[1..], config, meter)
  }

  /**
   * The callable that wrapping `c` yields, made on a thread whose delegated
   * context is `context`, when the clock's next reading is `reading(tick)`.
   */
  function WrappedCallable(w: CallableWrapper, config: Configuration, c: Callable, context: Context, reading: nat -> int, tick: nat): Callable
    decreases w, 0
  {
    match w
    case ThreadDelegating => DelegatingCallable(c, context)
    case Timing(t) => if MetricsOf(config, t).None? then c else TimedCallable(c, MetricsOf(config, t).value, reading(tick))
    case Combined(ws) => FoldCallable(ws, config, c, context, reading, tick)
  }

  /** Each wrapper in turn, the first one innermost. */
  function FoldCallable(ws: seq<CallableWrapper>, config: Configuration, c: Callable, context: Context, reading: nat -> int, tick: nat): Callable
    decreases ws, 0
  {
    if ws == [] then c
    else FoldCallable(ws[1..], config, WrappedCallable(ws[0], config, c, context, reading, tick), context, reading, tick + WrapTicks(ws[0]))
  }

  /** The runnable that wrapping `r` yields. */
  function WrappedRunnable(w: CallableWrapper, config: Configuration, r: Runnable, context: Context, reading: nat -> int, tick: nat): Runnable
    decreases w, 2
  {
    match w
    case ThreadDelegating => DelegatingRunnable(r, context)
    case Timing(_) => AdaptedRunnable(w, config, r, context, reading, tick)
    case Combined(ws) => FoldRunnable(ws, config, r, context, reading, tick)
  }

  /**
   * `CallableWrapper.wrap(Runnable)` as inherited: wrap the runnable as a
   * callable; when the wrapper returned that very callable, the runnable
   * itself, otherwise a runnable around the wrapped callable.
   */
  function AdaptedRunnable(w: CallableWrapper, config: Configuration, r: Runnable, context: Context, reading: nat -> int, tick: nat): Runnable
    decreases w, 1
  {
    var unwrapped := CallableRunnable(r);
    var wrapped := WrappedCallable(w, config, unwrapped, context, reading, tick);
    if wrapped == unwrapped then r else RunnableCallable(wrapped)
  }

  function FoldRunnable(ws: seq<CallableWrapper>, config: Configuration, r: Runnable, context: Context, reading: nat -> int, tick: nat): Runnable
    decreases ws, 0
  {
    if ws == [] then r
    else FoldRunnable(ws[1..], config, WrappedRunnable(ws[0], config, r, context, reading, tick), context, reading, tick + WrapTicks(ws[0]))
  }

  /** Whether a wrap encloses the task in a new layer: a delegating wrapper, or a timing wrapper with metrics. */
  predicate AddsLayer(w: CallableWrapper, config: Configuration)
    decreases w
  {
    match w
    case ThreadDelegating => true
    case Timing(t) => MetricsOf(config, t).Some?
    case Combined(ws) => SeqAddsLayer(ws, config)
  }

  predicate SeqAddsLayer(ws: seq<CallableWrapper>, config: Configuration)
    decreases ws
  {
    ws != [] && (AddsLayer(ws[0], config) || SeqAddsLayer(ws[1..], config))
  }

  /** Whether a wrap installs the wrapping thread's context. */
  predicate Delegates(w: CallableWrapper)
    decreases w
  {
    match w
    case ThreadDelegating => true
    case Timing(_) => false
    case Combined(ws) => SeqDelegates(ws)
  }

  predicate SeqDelegates(ws: seq<CallableWrapper>)
    decreases ws
  {
    ws != [] && (Delegates(ws[0]) || SeqDelegates(ws[1..]))
  }

  function CallDepth(c: Callable): nat
    decreases c
  {
    match c
    case UserCallable(_, _) => 0
    case CallableRunnable(r) => 1 + RunDepth(r)
    case DelegatingCallable(w, _) => 1 + CallDepth(w)
    case TimedCallable(w, _, _) => 1 + CallDepth(w)
  }

  function RunDepth(r: Runnable): nat
    decreases r
  {
    match r
    case UserRunnable(_, _) => 0
    case RunnableCallable(c) => 1 + CallDepth(c)
    case DelegatingRunnable(w, _) => 1 + RunDepth(w)
  }

  /** A wrap keeps the task when it adds no layer, and otherwise makes it deeper. */
  lemma {:induction false} WrapDepth(w: CallableWrapper, config: Configuration, c: Callable, context: Context, reading: nat -> int, tick: nat)
    ensures !AddsLayer(w, config) ==> WrappedCallable(w, config, c, context, reading, tick) == c
    ensures AddsLayer(w, config) ==> CallDepth(WrappedCallable(w, config, c, context, reading, tick)) > CallDepth(c)
    decreases w, 0
  {
    match w
    case ThreadDelegating =>
    case Timing(_) =>
    case Combined(ws) => FoldDepth(ws, config, c, context, reading, tick);
  }

  lemma {:induction false} FoldDepth(ws: seq<CallableWrapper>, config: Configuration, c: Callable, context: Context, reading: nat -> int, tick: nat)
    ensures !SeqAddsLayer(ws, config) ==> FoldCallable(ws, config, c, context, reading, tick) == c
    ensures SeqAddsLayer(ws, config) ==> CallDepth(FoldCallable(ws, config, c, context, reading, tick)) > CallDepth(c)
    ensures CallDepth(FoldCallable(ws, config, c, context, reading, tick)) >= CallDepth(c)
    decreases ws, 0
  {
    if ws != [] {
      var c' := WrappedCallable(ws[0], config, c, context, reading, tick);
      WrapDepth(ws[0], config, c, context, reading, tick);
      FoldDepth(ws[1..], config, c', context, reading, tick + WrapTicks(ws[0]));
    }
  }

  /**
   * A wrapper returns the very callable it was given exactly when it adds no
   * layer; otherwise what it returns is new. This is why comparing the
   * results by value stands for Java's comparison by reference.
   */
  lemma WrapIsIdentityIffNoLayer(w: CallableWrapper, config: Configuration, c: Callable, context: Context, reading: nat -> int, tick: nat)
    ensures WrappedCallable(w, config, c, context, reading, tick) == c <==> !AddsLayer(w, config)
  {
    WrapDepth(w, config, c, context, reading, tick);
  }

  lemma {:induction false} RunnableWrapDepth(w: CallableWrapper, config: Configuration, r: Runnable, context: Context, reading: nat -> int, tick: nat)
    ensures !AddsLayer(w, config) ==> WrappedRunnable(w, config, r, context, reading, tick) == r
    ensures AddsLayer(w, config) ==> RunDepth(WrappedRunnable(w, config, r, context, reading, tick)) > RunDepth(r)
    decreases w, 2
  {
    match w
    case ThreadDelegating =>
    case Timing(_) => WrapDepth(w, config, CallableRunnable(r), context, reading, tick);
    case Combined(ws) => RunnableFoldDepth(ws, config, r, context, reading, tick);
  }

  lemma {:induction false} RunnableFoldDepth(ws: seq<CallableWrapper>, config: Configuration, r: Runnable, context: Context, reading: nat -> int, tick: nat)
    ensures !SeqAddsLayer(ws, config) ==> FoldRunnable(ws, config, r, context, reading, tick) == r
    ensures SeqAddsLayer(ws, config) ==> RunDepth(FoldRunnable(ws, config, r, context, reading, tick)) > RunDepth(r)
    ensures RunDepth(FoldRunnable(ws, config, r, context, reading, tick)) >= RunDepth(r)
    decreases ws, 0
  {
    if ws != [] {
      var r' := WrappedRunnable(ws[0], config, r, context, reading, tick);
      RunnableWrapDepth(ws[0], config, r, context, reading, tick);
      RunnableFoldDepth(ws[1..], config, r', context, reading, tick + WrapTicks(ws[0]));
    }
  }

  /** The same for runnables: the runnable comes back unchanged exactly when no layer is added. */
  lemma RunnableWrapIsIdentityIffNoLayer(w: CallableWrapper, config: Configuration, r: Runnable, context: Context, reading: nat -> int, tick: nat)
    ensures WrappedRunnable(w, config, r, context, reading, tick) == r <==> !AddsLayer(w, config)
  {
    RunnableWrapDepth(w, config, r, context, reading, tick);
  }

  /** Wrapping never changes which user code runs, nor how the call ends. */
  lemma {:induction false} WrapKeepsBehaviour(w: CallableWrapper, config: Configuration, c: Callable, context: Context, reading: nat -> int, tick: nat)
    ensures CallResult(WrappedCallable(w, config, c, context, reading, tick)) == CallResult(c)
    ensures CallBody(WrappedCallable(w, config, c, context, reading, tick)) == CallBody(c)
    decreases w, 0
  {
    match w
    case ThreadDelegating =>
    case Timing(_) =>
    case Combined(ws) => FoldKeepsBehaviour(ws, config, c, context, reading, tick);
  }

  lemma {:induction false} FoldKeepsBehaviour(ws: seq<CallableWrapper>, config: Configuration, c: Callable, context: Context, reading: nat -> int, tick: nat)
    ensures CallResult(FoldCallable(ws, config, c, context, reading, tick)) == CallResult(c)
    ensures CallBody(FoldCallable(ws, config, c, context, reading, tick)) == CallBody(c)
    decreases ws, 0
  {
    if ws != [] {
      WrapKeepsBehaviour(ws[0], config, c, context, reading, tick);
      FoldKeepsBehaviour(ws[1..], config, WrappedCallable(ws[0], config, c, context, reading, tick), context, reading, tick + WrapTicks(ws[0]));
    }
  }

  /**
   * Wrapping a runnable never changes which user code runs, nor what it
   * throws: a runnable throws no checked exception, so the adapter's
   * `Throwables.propagate` hands its exception on as it is.
   */
  lemma {:induction false} RunnableWrapKeepsBehaviour(w: CallableWrapper, config: Configuration, r: Runnable, context: Context, reading: nat -> int, tick: nat)
    ensures RunResult(WrappedRunnable(w, config, r, context, reading, tick)) == RunResult(r)
    ensures RunBody(WrappedRunnable(w, config, r, context, reading, tick)) == RunBody(r)
    decreases w, 2
  {
    match w
    case ThreadDelegating =>
    case Timing(_) => WrapKeepsBehaviour(w, config, CallableRunnable(r), context, reading, tick);
    case Combined(ws) => RunnableFoldKeepsBehaviour(ws, config, r, context, reading, tick);
  }

  lemma {:induction false} RunnableFoldKeepsBehaviour(ws: seq<CallableWrapper>, config: Configuration, r: Runnable, context: Context, reading: nat -> int, tick: nat)
    ensures RunResult(FoldRunnable(ws, config, r, context, reading, tick)) == RunResult(r)
    ensures RunBody(FoldRunnable(ws, config, r, context, reading, tick)) == RunBody(r)
    decreases ws, 0
  {
    if ws != [] {
      RunnableWrapKeepsBehaviour(ws[0], config, r, context, reading, tick);
      RunnableFoldKeepsBehaviour(ws[1..], config, WrappedRunnable(ws[0], config, r, context, reading, tick), context, reading, tick + WrapTicks(ws[0]));
    }
  }

  /**
   * After wrapping, the innermost installed context is the task's own, if it
   * installs one; otherwise the wrapping thread's, if the wrapper delegates.
   */
  lemma {:induction false} WrapInstalls(w: CallableWrapper, config: Configuration, c: Callable, context: Context, reading: nat -> int, tick: nat)
    ensures CallInstalls(WrappedCallable(w, config, c, context, reading, tick))
         == if CallInstalls(c).Some? then CallInstalls(c) else if Delegates(w) then Some(context) else None
    decreases w, 0
  {
    match w
    case ThreadDelegating =>
    case Timing(_) =>
    case Combined(ws) => FoldInstalls(ws, config, c, context, reading, tick);
  }

  lemma {:induction false} FoldInstalls(ws: seq<CallableWrapper>, config: Configuration, c: Callable, context: Context, reading: nat -> int, tick: nat)
    ensures CallInstalls(FoldCallable(ws, config, c, context, reading, tick))
         == if CallInstalls(c).Some? then CallInstalls(c) else if SeqDelegates(ws) then Some(context) else None
    decreases ws, 0
  {
    if ws != [] {
      WrapInstalls(ws[0], config, c, context, reading, tick);
      FoldInstalls(ws[1..], config, WrappedCallable(ws[0], config, c, context, reading, tick), context, reading, tick + WrapTicks(ws[0]));
    }
  }

  lemma {:induction false} MemberDelegates(ws: seq<CallableWrapper>, w: CallableWrapper)
    requires w in ws && Delegates(w)
    ensures SeqDelegates(ws)
  {
    if ws[0] != w {
      MemberDelegates(ws[1..], w);
    }
  }

  /**
   * A plain callable submitted through a combination that includes the
   * delegating wrapper runs under the context of the thread that submitted
   * it, whatever context the worker thread has.
   */
  lemma DelegatedCallSeesSubmitterContext(ws: seq<CallableWrapper>, config: Configuration, c: Callable, submitter: Context, reading: nat -> int, tick: nat, worker: Context)
    requires ThreadDelegating in ws
    requires CallInstalls(c) == None
    ensures CallContext(WrappedCallable(Combine(ws), config, c, submitter, reading, tick), worker) == submitter
  {
    var w := Combine(ws);
    MemberDelegates(w.wrappers, ThreadDelegating);
    WrapInstalls(w, config, c, submitter, reading, tick);
    ContextIsInnermostInstalled(WrappedCallable(w, config, c, submitter, reading, tick), worker);
  }

  /** Without a delegating wrapper the body runs under the worker's own context. */
  lemma UndelegatedCallSeesWorkerContext(w: CallableWrapper, config: Configuration, c: Callable, submitter: Context, reading: nat -> int, tick: nat, worker: Context)
    requires !Delegates(w)
    requires CallInstalls(c) == None
    ensures CallContext(WrappedCallable(w, config, c, submitter, reading, tick), worker) == worker
  {
    WrapInstalls(w, config, c, submitter, reading, tick);
    ContextIsInnermostInstalled(WrappedCallable(w, config, c, submitter, reading, tick), worker);
  }

  /** Combining no wrappers wraps nothing. */
  lemma CombineNothingIsIdentity(config: Configuration, c: Callable, r: Runnable, context: Context, reading: nat -> int, tick: nat)
    ensures WrappedCallable(Combine([]), config, c, context, reading, tick) == c
    ensures WrappedRunnable(Combine([]), config, r, context, reading, tick) == r
  {
  }

  /** The timing wrappers a wrapper holds exist on the heap, so the heap frames of calls apply to them. */
  lemma {:induction false} TimersAllocated(w: CallableWrapper)
    ensures forall t :: t in Timers(w) ==> allocated(t)
    decreases w, 1
  {
    match w
    case ThreadDelegating =>
    case Timing(_) =>
    case Combined(ws) => SeqTimersAllocated(ws);
  }

  lemma {:induction false} SeqTimersAllocated(ws: seq<CallableWrapper>)
    ensures forall t :: t in SeqTimers(ws) ==> allocated(t)
    decreases ws, 0
  {
    if ws != [] {
      TimersAllocated(ws[0]);
      SeqTimersAllocated(ws[1..]);
    }
  }

  lemma {:induction false} MemberTimers(ws: seq<CallableWrapper>, i: nat)
    requires i < |ws|
    ensures Timers(ws[i]) <= SeqTimers(ws)
  {
    if i > 0 {
      MemberTimers(ws[1..], i - 1);
    }
  }

  lemma {:induction false} MemberEnqueueMeters(ws: seq<CallableWrapper>, config: Configuration, i: nat)
    requires i < |ws|
    ensures EnqueueMeters(ws[i], config) <= SeqEnqueueMeters(ws, config)
  {
    if i > 0 {
      MemberEnqueueMeters(ws[1..], config, i - 1);
    }
  }

  /** A meter outside a wrapper's enqueue meters is not marked by wrapping. */
  lemma {:induction false} UnusedEnqueueMeterUnmarked(w: CallableWrapper, config: Configuration, meter: Meter)
    requires meter !in EnqueueMeters(w, config)
    ensures EnqueueMarks(w, config, meter) == 0
    decreases w, 1
  {
    match w
    case ThreadDelegating =>
    case Timing(_) =>
    case Combined(ws) => SeqUnusedEnqueueMeterUnmarked(ws, config, meter);
  }

  lemma {:induction false} SeqUnusedEnqueueMeterUnmarked(ws: seq<CallableWrapper>, config: Configuration, meter: Meter)
    requires meter !in SeqEnqueueMeters(ws, config)
    ensures SeqEnqueueMarks(ws, config, meter) == 0
    decreases ws, 0
  {
    if ws != [] {
      UnusedEnqueueMeterUnmarked(ws[0], config, meter);
      SeqUnusedEnqueueMeterUnmarked(ws[1..], config, meter);
    }
  }
}
