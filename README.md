# ness-executors, modelled in Dafny

A model of the executor utilities of the NessComputing `ness-executors`
component, with proofs of what they promise:

- `NessExecutors.invokeAllExplosively`: submit a batch of callables, collect
  futures in completion order until the first failure, cancel everything still
  in flight, and throw `InterruptedException` when the waiting thread was
  interrupted (module `NessExecutors`, file `ness_executors.dfy`).
- The try-with-resources wrappers made by `autoShutdown` and `autoTerminate`.
  Closing requests shutdown and, for the terminating kinds, waits once with the
  stored timeout. An unconfirmed termination becomes a `TimeoutException`
  naming the service and the duration. An interrupted wait re-asserts the
  thread's interrupt flag (module `Lifecycle`, file `lifecycle.dfy`; the
  decimal rendering of the timeout is in `decimal.dfy`).
- Callable wrappers (modules `Tasks`, `CallableWrappers`, `Wrapping` and
  `Execution`):
  - the default `wrap(Runnable)` with its identity short-circuit;
  - the runnable/callable adapters;
  - `CallableWrappers.combine` and its two folds;
  - the thread-delegating wrapper, which captures the submitting thread's
    context and installs it around the call on the worker thread;
  - `TimerWrapper`, which marks meters and records queue and total durations.
- `TimerWrapper`'s metrics: registry names derived from the pool name, and the
  provider that attaches metrics only when a registry was injected (modules
  `Instruments` and `TimerWrappers`).
- The thread-pool configuration: defaults, the rejected-handler-to-policy
  mapping, and the documented rules for thread counts and the queue kind
  (module `PoolConfiguration`).

Concurrency is replaced by inputs. For `invokeAllExplosively` these are how
each future completes, the completion order, and where the waiting thread is
interrupted. For closing, they are the answer of `awaitTermination`.
`System.nanoTime()` becomes a `Clock` whose readings are an arbitrary
function of how many readings were taken before.

A task is a datatype with one constructor per Java class that wraps a task:
the user's callable or runnable, `CallableRunnable`, `RunnableCallable`,
`DelegatingCallable`, `DelegatingRunnable`, and the timed callable. The
functions in `Tasks` state what running a task does:

- its outcome;
- which user body runs, and under which delegated context;
- how many clock readings it takes;
- the marks and samples it leaves on each meter and timer.

The methods in `Execution` run a task step by step over the worker's scope,
the clock, the metrics and a journal of user-body runs. They are proved to do
exactly what those functions say. The methods in `Wrapping` build wrapped
tasks step by step, loops included. They are proved to build what the
functions in `CallableWrappers` describe.

For the thread counts the model follows the rule the configuration documents
(`ThreadPoolConfiguration.java:86-87`): `0 < min < max`, unless max is 0.

## Model

| member | source | states |
|---|---|---|
| NessExecutors.InvokeAllExplosively | src/main/java/com/nesscomputing/concurrent/NessExecutors.java:86-130 | Throws `InterruptedException` exactly when the wait of a reached round is interrupted, and otherwise returns the futures taken before the loop stopped, in completion order. Cancel requests go to exactly the futures not taken, each once, always with `mayInterruptIfRunning` set. |
| NessExecutors.SubmitAll | src/main/java/com/nesscomputing/concurrent/NessExecutors.java:95-97 | After submitting, exactly the futures of the batch are in flight. |
| NessExecutors.TakeUntilFailure | src/main/java/com/nesscomputing/concurrent/NessExecutors.java:99-119 | The loop ends with the taken futures and the interrupted flag that `Explode` gives. Exactly the submitted futures not taken remain in flight. |
| NessExecutors.Explode | src/main/java/com/nesscomputing/concurrent/NessExecutors.java:99-119 | Reference definition of what the loop observes: it stops at the first failure, or at an interrupted `take()` before appending, or at an interrupted `get()` after appending. What is taken is a prefix of the completion order whose earlier entries completed, and without an interruption nothing is thrown. |
| NessExecutors.IsCompletionOrder | src/main/java/com/nesscomputing/concurrent/NessExecutors.java:99-102 | The model's premise about `take()`: it hands back each of the n submitted futures exactly once. |
| NessExecutors.CancelInFlight | src/main/java/com/nesscomputing/concurrent/NessExecutors.java:121-123 | One cancel request per future still in flight, and none to any other future; every request has `mayInterruptIfRunning` set. |
| NessExecutors.FirstFailure | src/main/java/com/nesscomputing/concurrent/NessExecutors.java:108-118 | The position in completion order of the first failed future: every earlier future completed, and the one there failed (or there is none). |
| NessExecutors.CompletionOrderCoversAll | src/main/java/com/nesscomputing/concurrent/NessExecutors.java:95-119 | Under the model's premise that the completion service hands back each submitted future exactly once, every submitted future is eventually taken. |
| NessExecutors.AllSucceededReturnsEveryFuture | src/main/java/com/nesscomputing/concurrent/NessExecutors.java:95-129 | With no failure and no interruption, the result has exactly N entries, each submitted future exactly once, in completion order. |
| NessExecutors.FailureEndsTheList | src/main/java/com/nesscomputing/concurrent/NessExecutors.java:108-118 | The first failed future is appended and ends the loop: the result is the completion-order prefix through it. |
| NessExecutors.ObservedIsCompletionPrefix | src/main/java/com/nesscomputing/concurrent/NessExecutors.java:99-119 | What is taken is a repetition-free prefix of the completion order whose entries, except possibly the last, completed; without interruption it holds every future or ends with a failure. |
| NessExecutors.InterruptionReachedIsThrown | src/main/java/com/nesscomputing/concurrent/NessExecutors.java:99-127 | An interruption in a round the loop reaches always ends the call with `InterruptedException`. What was taken is the completion-order prefix before the interrupted `take()`, or through the future whose `get()` was interrupted. |
| NessExecutors.NothingFailedTakesAll | src/main/java/com/nesscomputing/concurrent/NessExecutors.java:99-119 | With every future completed and no interruption while the loop runs, every future is taken, in completion order, and returned. |
| NessExecutors.NotTakenMeansRoundsLeft | src/main/java/com/nesscomputing/concurrent/NessExecutors.java:99 | While some submitted future is still in flight, the completion order has rounds left, so `take()` has a future to hand back. |
| NessExecutors.EmptyBatchReturnsEmpty | src/main/java/com/nesscomputing/concurrent/NessExecutors.java:95-129 | An empty batch returns an empty list, whatever interruption is planned. |
| NessExecutors.ExplosivenessScenario | src/test/java/com/nesscomputing/concurrent/TestInvokeExplosively.java:85-116 | In the scenario of the explosiveness test, two futures are returned: the completed one and then the failed one. |
| NessExecutors.AutoShutdown | src/main/java/com/nesscomputing/concurrent/NessExecutors.java:45-48 | A new shutdown wrapper over the given service. |
| NessExecutors.AutoTerminate | src/main/java/com/nesscomputing/concurrent/NessExecutors.java:55-58 | A new terminating wrapper over the given service with the given timeout and units. |
| NessExecutors.AutoShutdownScheduled | src/main/java/com/nesscomputing/concurrent/NessExecutors.java:65-68 | The same for a scheduled service. |
| NessExecutors.AutoTerminateScheduled | src/main/java/com/nesscomputing/concurrent/NessExecutors.java:75-78 | The same for a scheduled service. |
| Lifecycle.ShutdownExecutorService.Close | src/test/java/com/nesscomputing/concurrent/TestTryWithResourcesExecutorShutdown.java:36-47 | Closing makes exactly one call on the service, `shutdown`. |
| Lifecycle.ShutdownScheduledExecutorService.Close | src/test/java/com/nesscomputing/concurrent/TestTryWithResourcesExecutorShutdown.java:51-62 | The same for a scheduled service. |
| Lifecycle.TerminatingExecutorService.constructor | src/main/java/com/nesscomputing/concurrent/TerminatingExecutorService.java:34-39 | Keeps the service, the timeout and the units. |
| Lifecycle.TerminatingExecutorService.Close | src/main/java/com/nesscomputing/concurrent/TerminatingExecutorService.java:42-54 | Calls `shutdown` and then `awaitTermination(timeout, units)`, once each. Throws `TimeoutException` exactly when termination is not confirmed, with the message naming the service and the duration. The thread's interrupt flag is set afterwards exactly when it was set before or the wait was interrupted. |
| Lifecycle.TerminatingScheduledExecutorService.constructor | src/main/java/com/nesscomputing/concurrent/TerminatingScheduledExecutorService.java:36-41 | Keeps the service, the timeout and the units. |
| Lifecycle.TerminatingScheduledExecutorService.Close | src/main/java/com/nesscomputing/concurrent/TerminatingScheduledExecutorService.java:44-56 | The same close contract for a scheduled service. |
| Lifecycle.TimeoutMessage | src/main/java/com/nesscomputing/concurrent/TerminatingExecutorService.java:48 | The `TimeoutException` message: it starts with the fixed head naming the service, holds the service's name after `Executor service `, and ends with the unit's name. |
| Lifecycle.UnitName | src/main/java/com/nesscomputing/concurrent/TerminatingExecutorService.java:48 | `TimeUnit.toString()` in the message: the unit's constant name, one non-empty word without spaces. |
| Lifecycle.TimeoutMessageNamesDuration | src/main/java/com/nesscomputing/concurrent/TerminatingExecutorService.java:47-49 | The timeout message is never empty and contains the configured duration as number, space, unit. |
| Lifecycle.TimeoutMessageIdentifiesDuration | src/main/java/com/nesscomputing/concurrent/TerminatingExecutorService.java:48 | Two timeout messages for the same service are equal only when their timeouts and units are equal. |
| Decimal.IntToString | src/main/java/com/nesscomputing/concurrent/TerminatingExecutorService.java:48 | The decimal text of the `int` timeout: non-empty, with no spaces, and starting with a minus sign exactly when the timeout is negative. |
| Decimal.IntToStringRoundTrip | src/main/java/com/nesscomputing/concurrent/TerminatingExecutorService.java:48 | The decimal text of the `int` timeout in the message parses back to the timeout. |
| Decimal.IntToStringInjective | src/main/java/com/nesscomputing/concurrent/TerminatingExecutorService.java:48 | Different timeouts are rendered as different texts. |
| Tasks.Propagate | src/main/java/com/nesscomputing/concurrent/CallableWrapper.java:50-51 | A checked exception is wrapped in an unchecked one that has it as its cause; anything else is rethrown unchanged. |
| Tasks.CallResult | src/main/java/com/nesscomputing/concurrent/CallableWrapper.java:45-70 | Reference definition of how calling a task ends: the user callable's own outcome; `null` or the runnable's failure through the callable adapter (lines 65-70); unchanged through delegating and timing layers. Its properties are stated by CallableWrappers.WrapKeepsBehaviour, Tasks.MarksPerTimingLayer and Tasks.CheckedOnlyFromCallableBody. |
| Tasks.RunResult | src/main/java/com/nesscomputing/concurrent/CallableWrapper.java:45-53 | Reference definition of what running a runnable throws: the user runnable's failure; through the runnable adapter, the callable's exception passed through `Throwables.propagate` (lines 48-51); unchanged through a delegating layer. Properties in CallableWrappers.RunnableWrapKeepsBehaviour and Tasks.RunMarksPerTimingLayer. |
| Tasks.CallContext | src/main/java/com/nesscomputing/concurrent/ThreadDelegatingDecorator.java:97-111 | Reference definition of the context the user body sees: a delegating layer replaces the current context by the one it captured (line 103). Characterised by Tasks.ContextIsInnermostInstalled. |
| Tasks.RunContext | src/main/java/com/nesscomputing/concurrent/ThreadDelegatingDecorator.java:69-83 | The same for runnables (line 75). Characterised by Tasks.RunContextIsInnermostInstalled. |
| Tasks.CallTicks | src/main/java/com/nesscomputing/concurrent/TimerWrapper.java:57-68 | Reference definition of the clock readings a call takes: one before and one after what each timing layer encloses (lines 59 and 67). Tasks.TicksTwoPerTimingLayer states it as two per timing layer. |
| Tasks.CallMarks | src/main/java/com/nesscomputing/concurrent/TimerWrapper.java:57-68 | Reference definition of the marks a call makes on a meter: the dequeue mark of line 60 and the exception mark of line 64 of each timing layer. Tasks.MarksPerTimingLayer and Tasks.TimedCallRecords state what it counts. |
| Tasks.CallSamples | src/main/java/com/nesscomputing/concurrent/TimerWrapper.java:57-68 | Reference definition of the samples a call records on a timer, in order and with the clock readings used: the queue sample at the layer's first reading (line 59), then the enclosed call's, then the total sample at its last reading (line 67). Tasks.SamplesOnePerTimerRole and Tasks.TimedCallRecords state what it records. |
| Tasks.TicksTwoPerTimingLayer | src/main/java/com/nesscomputing/concurrent/TimerWrapper.java:57-68 | A call reads the clock exactly twice per timing layer it holds, and no other layer reads it. |
| Tasks.RunTicksTwoPerTimingLayer | src/main/java/com/nesscomputing/concurrent/TimerWrapper.java:57-68 | The same for runnables, whose timing layers sit behind the callable adapter. |
| Tasks.MarksPerTimingLayer | src/main/java/com/nesscomputing/concurrent/TimerWrapper.java:57-68 | The marks a call makes on a meter are one per timing layer whose dequeue meter it is, plus, exactly when the whole call throws, one per timing layer whose exception meter it is: a throw passes every layer, the adapters included. |
| Tasks.RunMarksPerTimingLayer | src/main/java/com/nesscomputing/concurrent/TimerWrapper.java:57-68 | The same for runnables, with "throws" meaning that running fails. |
| Tasks.SamplesOnePerTimerRole | src/main/java/com/nesscomputing/concurrent/TimerWrapper.java:57-68 | A call records on a timer exactly one sample per timing layer using it as queue timer and one per layer using it as total timer. |
| Tasks.RunSamplesOnePerTimerRole | src/main/java/com/nesscomputing/concurrent/TimerWrapper.java:57-68 | The same for runnables. |
| Tasks.CheckedOnlyFromCallableBody | src/main/java/com/nesscomputing/concurrent/CallableWrapper.java:45-53 | A checked exception escapes a call only when the user code at its core is a callable: `run()` cannot throw one, so a runnable at the core never lets one out. |
| Tasks.ContextIsInnermostInstalled | src/main/java/com/nesscomputing/concurrent/ThreadDelegatingDecorator.java:98-111 | The user body runs under the context captured by the innermost delegating layer, or under the calling thread's own when there is none. |
| Tasks.RunContextIsInnermostInstalled | src/main/java/com/nesscomputing/concurrent/ThreadDelegatingDecorator.java:70-83 | The same for runnables. |
| Tasks.UnusedMeterUnmarked | src/main/java/com/nesscomputing/concurrent/TimerWrapper.java:57-68 | A call marks only the meters of its own timing layers. |
| Tasks.RunUnusedMeterUnmarked | src/main/java/com/nesscomputing/concurrent/TimerWrapper.java:57-68 | The same for runnables. |
| Tasks.UnusedTimerEmpty | src/main/java/com/nesscomputing/concurrent/TimerWrapper.java:57-68 | A call records samples only on the timers of its own timing layers. |
| Tasks.RunUnusedTimerEmpty | src/main/java/com/nesscomputing/concurrent/TimerWrapper.java:57-68 | The same for runnables. |
| Tasks.TimedCallRecords | src/main/java/com/nesscomputing/concurrent/TimerWrapper.java:57-68 | A timed call gives one dequeue mark, and one exception mark exactly when the inner call throws. It leaves the enqueue meter to the inner call. Its queue sample is the first reading minus the enqueue time; its total sample is the last reading minus the enqueue time. |
| Execution.Call | src/main/java/com/nesscomputing/concurrent/ThreadDelegatingDecorator.java:105 | The virtual `call()` made on a task of any layer (here the delegating layer's call of what it encloses; likewise TimerWrapper.java:62 and CallableWrapper.java:49). It dispatches on the layer, and the outcome, clock readings, journal, marks and samples are exactly those the task functions give for that task. |
| Execution.Run | src/main/java/com/nesscomputing/concurrent/ThreadDelegatingDecorator.java:77 | The virtual `run()` made on a runnable of any layer (here the delegating layer's run of what it encloses; likewise CallableWrapper.java:68). It dispatches on the layer, and what it throws and every effect are exactly those the task functions give. |
| Execution.CallRunnable | src/main/java/com/nesscomputing/concurrent/CallableWrapper.java:66-70 | Runs the runnable and returns `null`, or throws what it threw; every effect is as the task functions describe. |
| Execution.RunCallable | src/main/java/com/nesscomputing/concurrent/CallableWrapper.java:46-53 | Calls the callable and discards its value; a thrown exception passes through `Throwables.propagate`; every effect is as the task functions describe. |
| Execution.CallDelegating | src/main/java/com/nesscomputing/concurrent/ThreadDelegatingDecorator.java:98-111 | The wrapped call runs under the captured context. The worker's own context is restored afterwards, also when the call throws. |
| Execution.RunDelegating | src/main/java/com/nesscomputing/concurrent/ThreadDelegatingDecorator.java:70-83 | The same for runnables. |
| Execution.CallTimed | src/main/java/com/nesscomputing/concurrent/TimerWrapper.java:57-68 | Records the queue duration and the dequeue mark, calls, marks an exception and rethrows when the call throws, and always records the total duration. Outcome, clock readings, marks and samples are exactly as the task functions describe. |
| Execution.CallRecordingTotal | src/main/java/com/nesscomputing/concurrent/TimerWrapper.java:61-67 | The `try`/`catch`/`finally` of the timed call. The outcome is the enclosed call's. One exception mark is added exactly when that call throws. One total-duration sample is added on every exit, at the clock reading after the enclosed call's ticks. Every other meter and timer changes only as the enclosed call changes it. |
| Execution.TimedStart | src/main/java/com/nesscomputing/concurrent/TimerWrapper.java:59-60 | One clock reading; the queue timer gets that reading minus the enqueue time; the dequeue meter gets one mark. |
| Execution.TimedFinish | src/main/java/com/nesscomputing/concurrent/TimerWrapper.java:63-67 | The exception meter is marked exactly when the call threw; one clock reading; the total timer gets that reading minus the enqueue time. |
| TimerWrappers.MetricName | src/main/java/com/nesscomputing/concurrent/TimerWrapper.java:83-88 | A metric's registry name is the pool name, a dot, and the metric's own name, in that order. |
| TimerWrappers.MetricNameInjective | src/main/java/com/nesscomputing/concurrent/TimerWrapper.java:83-88 | Within a pool, the registry name determines the metric. |
| TimerWrappers.MetricNameIdentifiesPool | src/main/java/com/nesscomputing/concurrent/TimerWrapper.java:83-88 | For a given metric, the registry name determines the pool. |
| TimerWrappers.MetricNamesDistinct | src/main/java/com/nesscomputing/concurrent/TimerWrapper.java:84-88 | A pool's three meters have three different names, and its two timers have two different names. |
| TimerWrappers.MeterNames | src/main/java/com/nesscomputing/concurrent/TimerWrapper.java:84-86 | The registry names of a pool's three meters; there are three different ones. |
| TimerWrappers.TimerNames | src/main/java/com/nesscomputing/concurrent/TimerWrapper.java:87-88 | The registry names of a pool's two timers; there are two different ones. |
| TimerWrappers.NewMetrics | src/main/java/com/nesscomputing/concurrent/TimerWrapper.java:81-89 | Each of the five metrics is the one the registry holds under its name for the pool. The three meters are different objects, and so are the two timers. Earlier registrations are kept, and the registry gains exactly the pool's five names and no other. |
| TimerWrappers.NewMeters | src/main/java/com/nesscomputing/concurrent/TimerWrapper.java:84-86 | The exception, enqueue and dequeue meters, registered under their names and pairwise different. The meter names gain exactly those three; the timers are untouched. |
| TimerWrappers.NewTimers | src/main/java/com/nesscomputing/concurrent/TimerWrapper.java:87-88 | The queued-duration and total-duration timers, registered under their names and different. The timer names gain exactly those two; the meters are untouched. |
| TimerWrappers.TimerWrapper.constructor | src/main/java/com/nesscomputing/concurrent/TimerWrapper.java:32-35 | A wrapper for the named pool, without metrics. |
| TimerWrappers.TimerWrapper.SetMetricsRegistry | src/main/java/com/nesscomputing/concurrent/TimerWrapper.java:37-41 | Sets metrics registered for the pool in the given registry and returns the wrapper itself. The registry stays valid, keeps its earlier registrations, and gains exactly the pool's five names. |
| TimerWrappers.TimerWrapperProvider.constructor | src/main/java/com/nesscomputing/concurrent/TimerWrapper.java:98-101 | A provider for the named pool, without a registry. |
| TimerWrappers.TimerWrapperProvider.SetMetricsRegistry | src/main/java/com/nesscomputing/concurrent/TimerWrapper.java:103-107 | The injected registry is kept. |
| TimerWrappers.TimerWrapperProvider.Get | src/main/java/com/nesscomputing/concurrent/TimerWrapper.java:110-117 | A new wrapper for the pool. It has metrics exactly when a registry was injected, and those metrics are the registry's ones for the pool. The registry stays valid, keeps its earlier registrations, and gains exactly the pool's five names, so `get` can be called again. |
| CallableWrappers.Dedup | src/main/java/com/nesscomputing/concurrent/CallableWrappers.java:39 | The kept wrappers have no repetitions, and each given wrapper is among them. |
| CallableWrappers.DedupKeepsDistinct | src/main/java/com/nesscomputing/concurrent/CallableWrappers.java:39 | A list without repetitions is kept as it is, order included. |
| CallableWrappers.Combine | src/main/java/com/nesscomputing/concurrent/CallableWrappers.java:28-40 | A combined wrapper holding exactly the given wrappers, each once. |
| CallableWrappers.WrapIsIdentityIffNoLayer | src/main/java/com/nesscomputing/concurrent/CallableWrapper.java:28-33 | A wrapper gives back the very callable it got exactly when it adds no layer, so the `wrapped == unwrapped` test can be decided by value. |
| CallableWrappers.RunnableWrapIsIdentityIffNoLayer | src/main/java/com/nesscomputing/concurrent/CallableWrapper.java:26-34 | `wrap(Runnable)` gives back the very runnable exactly when no layer is added. |
| CallableWrappers.WrapKeepsBehaviour | src/main/java/com/nesscomputing/concurrent/CallableWrappers.java:43-49 | Wrapping never changes how a call ends, nor which user code runs. |
| CallableWrappers.FoldKeepsBehaviour | src/main/java/com/nesscomputing/concurrent/CallableWrappers.java:45-47 | The same for each step of the combined fold. |
| CallableWrappers.RunnableWrapKeepsBehaviour | src/main/java/com/nesscomputing/concurrent/CallableWrappers.java:52-58 | Wrapping a runnable never changes what it throws, nor which user code runs. |
| CallableWrappers.RunnableFoldKeepsBehaviour | src/main/java/com/nesscomputing/concurrent/CallableWrappers.java:54-56 | The same for each step of the combined fold over runnables. |
| CallableWrappers.WrapInstalls | src/main/java/com/nesscomputing/concurrent/ThreadDelegatingDecorator.java:47-55 | After wrapping, the innermost installed context is the task's own if it has one, and otherwise the wrapping thread's when the wrapper delegates. |
| CallableWrappers.FoldInstalls | src/main/java/com/nesscomputing/concurrent/CallableWrappers.java:43-49 | The same for a fold over several wrappers. |
| CallableWrappers.DelegatedCallSeesSubmitterContext | src/main/java/com/nesscomputing/concurrent/ThreadDelegatingDecorator.java:91-111 | A plain callable submitted through a combination containing the delegating wrapper runs under the submitting thread's context, whatever the worker's context. |
| CallableWrappers.UndelegatedCallSeesWorkerContext | src/main/java/com/nesscomputing/concurrent/CallableWrappers.java:43-49 | Without a delegating wrapper, the body runs under the worker's own context. |
| CallableWrappers.CombineNothingIsIdentity | src/main/java/com/nesscomputing/concurrent/CallableWrappers.java:43-58 | Combining no wrappers gives back both callables and runnables unchanged. |
| CallableWrappers.WrappedCallable | src/main/java/com/nesscomputing/concurrent/CallableWrapper.java:24 | Reference definition of `wrap(Callable)` for each kind of wrapper. Its properties are `WrapIsIdentityIffNoLayer`, `WrapKeepsBehaviour` and `WrapInstalls`. |
| CallableWrappers.FoldCallable | src/main/java/com/nesscomputing/concurrent/CallableWrappers.java:45-47 | Reference definition of the combined fold: each wrapper in turn, in iteration order, the first one innermost. Its properties are `FoldKeepsBehaviour` and `FoldInstalls`. |
| CallableWrappers.WrappedRunnable | src/main/java/com/nesscomputing/concurrent/CallableWrapper.java:26-34 | Reference definition of `wrap(Runnable)` for each kind of wrapper: the delegating wrapper's own override, and the default adapter otherwise. Its properties are `RunnableWrapIsIdentityIffNoLayer` and `RunnableWrapKeepsBehaviour`. |
| CallableWrappers.AdaptedRunnable | src/main/java/com/nesscomputing/concurrent/CallableWrapper.java:26-34 | Reference definition of the default `wrap(Runnable)`: the runnable itself when wrapping its adapter adds nothing, otherwise a runnable around the wrapped adapter. |
| CallableWrappers.FoldRunnable | src/main/java/com/nesscomputing/concurrent/CallableWrappers.java:54-56 | Reference definition of the combined fold over runnables. Its property is `RunnableFoldKeepsBehaviour`. |
| Wrapping.DelegateCallable | src/main/java/com/nesscomputing/concurrent/ThreadDelegatingDecorator.java:91-95 | A delegating callable around the given one, holding the calling thread's current context. |
| Wrapping.DelegateRunnable | src/main/java/com/nesscomputing/concurrent/ThreadDelegatingDecorator.java:63-67 | A delegating runnable around the given one, holding the calling thread's current context. |
| Wrapping.WrapCallable | src/main/java/com/nesscomputing/concurrent/CallableWrappers.java:46 | The virtual `wrap(Callable)` call: it builds exactly `WrappedCallable`, takes exactly its clock readings and makes exactly its enqueue marks. |
| Wrapping.WrapRunnable | src/main/java/com/nesscomputing/concurrent/CallableWrappers.java:55 | The virtual `wrap(Runnable)` call: it builds exactly `WrappedRunnable`, with exactly its clock readings and enqueue marks. |
| Wrapping.TimeCallable | src/main/java/com/nesscomputing/concurrent/TimerWrapper.java:45-55 | Always takes one clock reading. Without metrics it returns the callable itself. With metrics it marks the enqueue meter once and returns a timed callable holding the metrics and that reading. |
| Wrapping.AdaptRunnable | src/main/java/com/nesscomputing/concurrent/CallableWrapper.java:26-34 | Builds what the default `wrap(Runnable)` describes: the runnable itself when wrapping its adapter adds nothing, otherwise a runnable around the wrapped adapter. Clock readings and enqueue marks are exactly those of the wrap. |
| Wrapping.CombinedWrapCallable | src/main/java/com/nesscomputing/concurrent/CallableWrappers.java:43-49 | The loop builds the fold of the wrappers, in iteration order, and its clock readings and enqueue marks are the sum of theirs. |
| Wrapping.CombinedWrapRunnable | src/main/java/com/nesscomputing/concurrent/CallableWrappers.java:52-58 | The same for runnables, each wrapper applying its own `wrap(Runnable)`. |
| PoolConfiguration.GetHandler | src/main/java/com/nesscomputing/concurrent/ThreadPoolConfiguration.java:45-84 | Each handler selects a policy from which the handler is recovered. |
| PoolConfiguration.GetHandlerBijective | src/main/java/com/nesscomputing/concurrent/ThreadPoolConfiguration.java:49-81 | Different handlers select different policies, and every policy is selected by some handler. |
| PoolConfiguration.Resolve | src/main/java/com/nesscomputing/concurrent/ThreadPoolConfiguration.java:89-122 | Every unset tunable takes its stated default, and every set one keeps its value. |
| PoolConfiguration.ResolveExplicit | src/main/java/com/nesscomputing/concurrent/ThreadPoolConfiguration.java:89-122 | Setting every tunable explicitly resolves to exactly those values. |
| PoolConfiguration.QueueFor | src/main/java/com/nesscomputing/concurrent/ThreadPoolConfiguration.java:109-110 | Size 0 selects a synchronous hand-off, and a positive size a bounded array queue of that capacity. A negative size selects no queue. The documentation does not cover that case; it follows the array queue's own requirement of a positive capacity. |
| PoolConfiguration.PlanFor | src/main/java/com/nesscomputing/concurrent/ThreadPoolConfiguration.java:86-114 | Max 0 means running in the calling thread. Otherwise the configuration is rejected exactly when the thread counts break `0 < min < max` or the queue size is negative. Any pool has the configured counts, timeout, queue and policy. |
| PoolConfiguration.PlanDeterminesSettings | src/main/java/com/nesscomputing/concurrent/ThreadPoolConfiguration.java:86-122 | A pool determines the resolved configuration it came from. |
| PoolConfiguration.DefaultsMakeAPool | src/main/java/com/nesscomputing/concurrent/ThreadPoolConfiguration.java:36-40 | The defaults are valid. They describe a pool of 1 to 16 threads with a 30-minute idle timeout, an array queue of 100, and the caller-runs policy. |
| PoolConfiguration.NoPoolWithoutThreads | src/main/java/com/nesscomputing/concurrent/ThreadPoolConfiguration.java:93-97 | Requests run in the calling thread exactly when max threads is set to 0. |

## Left out

- NessExecutors.InvokeAllExplosively: two error paths of the source are not modelled. First, `submit` (NessExecutors.java:95-97) can throw `RejectedExecutionException`, for instance under the abort policy on a saturated or shut-down pool. The exception then escapes before the cancel sweep, so futures already submitted are not cancelled. Second, a task discarded by the discard or discard-oldest policy never completes, so `take()` blocks until the thread is interrupted. The model's premise `IsCompletionOrder` hands back every submitted future exactly once, which excludes both paths.
- Real concurrency is not modelled: thread scheduling, blocking in `take`, `get` and `awaitTermination`, and what cancelling a running task actually does. Completion order, outcomes, interruption points and the answer of `awaitTermination` are inputs instead.
- `ShutdownExecutorService`, `ShutdownScheduledExecutorService`, the delegating executor services and `DecoratingExecutors` are not part of this model. The two shutdown wrappers are modelled only by what closing them is observed to do: one `shutdown` call.
- The executor-service decorators (`ThreadDelegatingDecorator.wrapExecutor` and the like) are not modelled, because they only hand a wrapper to `DecoratingExecutors`.
- `TimedExecutors` and the JMX management beans are not modelled. They only delegate to `ThreadPoolExecutor` or to `TimerWrapper.setMetricsRegistry`.
- The module that builds a pool from the configuration is not part of this model. `PoolConfiguration.PlanFor` states the rules the configuration documents, not the behaviour of the JDK `ThreadPoolExecutor`, its queues or its rejection policies.
- `TimeSpan` parsing is not modelled: a duration is an amount and a unit.
- Logging is not modelled.
- Yammer meters are reduced to a mark count, and timers to the list of recorded durations; rates, histograms and the time-unit argument are not modelled.
- Guava's `ImmutableSet` is modelled as an ordered list of distinct elements. Registry lookups are modelled by name; the `TimedExecutors` group and the meters' event-type and rate-unit arguments are dropped.
- Execution.CallTimed: durations are unbounded integers, so the 64-bit wrap-around of `System.nanoTime()` differences is not modelled. The metrics library dropping negative durations is not modelled either.
- CallableWrappers.Combine: duplicates are removed by value, while `ImmutableSet` compares wrappers by `equals`, which for these classes is identity. Two distinct timer wrappers stay distinct here too, since they are references. Two separately built combined wrappers with the same contents count as one here, but as two in Java.
- Wrapping.CombinedWrapCallable: the metrics of each timing wrapper are taken as fixed while one wrap runs, through a ghost snapshot of the wrappers' metrics. A concurrent `setMetricsRegistry` during a wrap is not modelled.
- Tasks.Propagate: Guava's choice of exception class for the wrapped checked exception is not modelled. Only the fact that the cause is kept is.
- A user task is reduced to its outcome and an identity. What user code does to the heap or to the scope is not modelled, and its effect on the clock is nothing.
