/**
 * `TimerWrapper`'s configuration side: the five metrics of a pool, looked up
 * in a registry under names derived from the pool's name, and the provider
 * that attaches them only when a registry is present. The wrapping and the
 * timed call live in the Wrapping and Execution modules.
 */
module TimerWrappers {
  import opened Instruments
  import opened Optional

  /** `TimerWrapper.Metrics`: the meters and timers one pool reports to. */
  datatype Metrics = Metrics(
    exceptionMeter: Meter,
    enqueueMeter: Meter,
    dequeueMeter: Meter,
    queueTimer: Timer,
    totalTimer: Timer)

  const EXCEPTION := "exception"
  const ENQUEUE := "enqueue"
  const DEQUEUE := "dequeue"
  const QUEUED_DURATION := "queued-duration"
  const TOTAL_DURATION := "total-duration"

  /** The registry name of one of a pool's metrics: the pool's name, a dot, the metric's own name. */
  function MetricName(threadPoolName: string, metric: string): (name: string)
    ensures |name| == |threadPoolName| + 1 + |metric|
    ensures name[..|threadPoolName| + 1] == threadPoolName + "."
    ensures name[|threadPoolName| + 1..] == metric
  {
    threadPoolName + "." + metric
  }

  /** Within one pool, the metric's own name is recovered from the registry name. */
  lemma MetricNameInjective(threadPoolName: string, m1: string, m2: string)
    requires MetricName(threadPoolName, m1) == MetricName(threadPoolName, m2)
    ensures m1 == m2
  {
    assert m1 == MetricName(threadPoolName, m1)[|threadPoolName| + 1..];
  }

  /** Two pools share a metric name only when they share their own name. */
  lemma MetricNameIdentifiesPool(p1: string, p2: string, metric: string)
    requires MetricName(p1, metric) == MetricName(p2, metric)
    ensures p1 == p2
  {
    var n := MetricName(p1, metric);
    assert p1 == n[..|p1|];
  }

  /** The five metrics of a pool are registered under five different names. */
  lemma MetricNamesDistinct(threadPoolName: string)
    ensures MetricName(threadPoolName, EXCEPTION) != MetricName(threadPoolName, ENQUEUE)
    ensures MetricName(threadPoolName, EXCEPTION) != MetricName(threadPoolName, DEQUEUE)
    ensures MetricName(threadPoolName, ENQUEUE) != MetricName(threadPoolName, DEQUEUE)
    ensures MetricName(threadPoolName, QUEUED_DURATION) != MetricName(threadPoolName, TOTAL_DURATION)
  {
  }

  /** The names of a pool's three meters. */
  ghost function MeterNames(threadPoolName: string): (names: set<string>)
    ensures |names| == 3
  {
    MetricNamesDistinct(threadPoolName);
    {MetricName(threadPoolName, EXCEPTION), MetricName(threadPoolName, ENQUEUE), MetricName(threadPoolName, DEQUEUE)}
  }

  /** The names of a pool's two timers. */
  ghost function TimerNames(threadPoolName: string): (names: set<string>)
    ensures |names| == 2
  {
    MetricNamesDistinct(threadPoolName);
    {MetricName(threadPoolName, QUEUED_DURATION), MetricName(threadPoolName, TOTAL_DURATION)}
  }

  /** No two roles of a pool share a meter, and the two timers are different. */
  predicate Separate(m: Metrics) {
    && m.exceptionMeter != m.enqueueMeter
    && m.exceptionMeter != m.dequeueMeter
    && m.enqueueMeter != m.dequeueMeter
    && m.queueTimer != m.totalTimer
  }

  /** Each metric is the one the registry holds under its name for the pool. */
  ghost predicate RegisteredFor(m: Metrics, threadPoolName: string, registry: MetricsRegistry)
    reads registry
  {
    && MetricName(threadPoolName, EXCEPTION) in registry.meters
    && MetricName(threadPoolName, ENQUEUE) in registry.meters
    && MetricName(threadPoolName, DEQUEUE) in registry.meters
    && MetricName(threadPoolName, QUEUED_DURATION) in registry.timers
    && MetricName(threadPoolName, TOTAL_DURATION) in registry.timers
    && m.exceptionMeter == registry.meters[MetricName(threadPoolName, EXCEPTION)]
    && m.enqueueMeter == registry.meters[MetricName(threadPoolName, ENQUEUE)]
    && m.dequeueMeter == registry.meters[MetricName(threadPoolName, DEQUEUE)]
    && m.queueTimer == registry.timers[MetricName(threadPoolName, QUEUED_DURATION)]
    && m.totalTimer == registry.timers[MetricName(threadPoolName, TOTAL_DURATION)]
  }

  /**
   * The `Metrics` constructor: looks up, or registers, the pool's five
   * metrics. Metrics registered earlier under these names are reused.
   */
  method NewMetrics(threadPoolName: string, registry: MetricsRegistry) returns (m: Metrics)
    requires registry.Valid()
    modifies registry
    ensures registry.Valid()
    ensures RegisteredFor(m, threadPoolName, registry)
    ensures Separate(m)
    ensures Extends(registry.meters, old(registry.meters)) && Extends(registry.timers, old(registry.timers))
    ensures registry.meters.Keys == old(registry.meters.Keys) + MeterNames(threadPoolName)
    ensures registry.timers.Keys == old(registry.timers.Keys) + TimerNames(threadPoolName)
  {
    var exceptionMeter, enqueueMeter, dequeueMeter := NewMeters(threadPoolName, registry);
    var queueTimer, totalTimer := NewTimers(threadPoolName, registry);
    m := Metrics(exceptionMeter, enqueueMeter, dequeueMeter, queueTimer, totalTimer);
  }

  /** The three meters of the pool, in the order the constructor asks for them. */
  method NewMeters(threadPoolName: string, registry: MetricsRegistry) returns (exception: Meter, enqueue: Meter, dequeue: Meter)
    requires registry.Valid()
    modifies registry
    ensures registry.Valid()
    ensures MetricName(threadPoolName, EXCEPTION) in registry.meters && registry.meters[MetricName(threadPoolName, EXCEPTION)] == exception
    ensures MetricName(threadPoolName, ENQUEUE) in registry.meters && registry.meters[MetricName(threadPoolName, ENQUEUE)] == enqueue
    ensures MetricName(threadPoolName, DEQUEUE) in registry.meters && registry.meters[MetricName(threadPoolName, DEQUEUE)] == dequeue
    ensures exception != enqueue && exception != dequeue && enqueue != dequeue
    ensures Extends(registry.meters, old(registry.meters)) && registry.timers == old(registry.timers)
    ensures registry.meters.Keys == old(registry.meters.Keys) + MeterNames(threadPoolName)
  {
    MetricNamesDistinct(threadPoolName);
    var e, q, d := MetricName(threadPoolName, EXCEPTION), MetricName(threadPoolName, ENQUEUE), MetricName(threadPoolName, DEQUEUE);
    exception := registry.NewMeter(e);
    label Exception:
    enqueue := registry.NewMeter(q);
    ExtendsTransitive(registry.meters, old@Exception(registry.meters), old(registry.meters));
    assert registry.meters.Keys == old(registry.meters.Keys) + {e, q};
    label Enqueue:
    dequeue := registry.NewMeter(d);
    ExtendsTransitive(registry.meters, old@Enqueue(registry.meters), old(registry.meters));
    assert MeterNames(threadPoolName) == {e, q, d};
  }

  /** The two timers of the pool, queued duration first. */
  method NewTimers(threadPoolName: string, registry: MetricsRegistry) returns (queue: Timer, total: Timer)
    requires registry.Valid()
    modifies registry
    ensures registry.Valid()
    ensures MetricName(threadPoolName, QUEUED_DURATION) in registry.timers && registry.timers[MetricName(threadPoolName, QUEUED_DURATION)] == queue
    ensures MetricName(threadPoolName, TOTAL_DURATION) in registry.timers && registry.timers[MetricName(threadPoolName, TOTAL_DURATION)] == total
    ensures queue != total
    ensures Extends(registry.timers, old(registry.timers)) && registry.meters == old(registry.meters)
    ensures registry.timers.Keys == old(registry.timers.Keys) + TimerNames(threadPoolName)
  {
    MetricNamesDistinct(threadPoolName);
    var q, t := MetricName(threadPoolName, QUEUED_DURATION), MetricName(threadPoolName, TOTAL_DURATION);
    queue := registry.NewTimer(q);
    label Queue:
    total := registry.NewTimer(t);
    ExtendsTransitive(registry.timers, old@Queue(registry.timers), old(registry.timers));
    assert TimerNames(threadPoolName) == {q, t};
  }

  /** `TimerWrapper`: a pool's timing wrapper, without metrics until a registry is set. */
  class TimerWrapper {
    const threadPoolName: string
    var metrics: Option<Metrics>

    constructor (threadPoolName: string)
      ensures this.threadPoolName == threadPoolName && metrics == None
    {
      this.threadPoolName := threadPoolName;
      metrics := None;
    }

    /** Replaces the wrapper's metrics by the registry's ones for the pool and returns the wrapper itself. */
    method SetMetricsRegistry(registry: MetricsRegistry) returns (self: TimerWrapper)
      requires registry.Valid()
      modifies this, registry
      ensures self == this
      ensures registry.Valid()
      ensures metrics.Some? && RegisteredFor(metrics.value, threadPoolName, registry) && Separate(metrics.value)
      ensures Extends(registry.meters, old(registry.meters)) && Extends(registry.timers, old(registry.timers))
      ensures registry.meters.Keys == old(registry.meters.Keys) + MeterNames(threadPoolName)
      ensures registry.timers.Keys == old(registry.timers.Keys) + TimerNames(threadPoolName)
    {
      var m := NewMetrics(threadPoolName, registry);
      metrics := Some(m);
      self := this;
    }
  }

  /** `TimerWrapperProvider`: makes timing wrappers for one pool, with metrics when a registry was injected. */
  class TimerWrapperProvider {
    const threadPoolName: string
    var registry: Option<MetricsRegistry>

    constructor (threadPoolName: string)
      ensures this.threadPoolName == threadPoolName && registry == None
    {
      this.threadPoolName := threadPoolName;
      registry := None;
    }

    /** The optional injection point. */
    method SetMetricsRegistry(registry: MetricsRegistry)
      modifies this
      ensures this.registry == Some(registry)
    {
      this.registry := Some(registry);
    }

    method Get() returns (w: TimerWrapper)
      requires registry.Some? ==> registry.value.Valid()
      modifies if registry.Some? then {registry.value} else {}
      ensures fresh(w) && w.threadPoolName == threadPoolName
      ensures w.metrics.Some? <==> registry.Some?
      ensures registry.Some? ==> RegisteredFor(w.metrics.value, threadPoolName, registry.value) && Separate(w.metrics.value)
      ensures registry.Some? ==> registry.value.Valid()
      ensures registry.Some? ==> Extends(registry.value.meters, old(registry.value.meters))
      ensures registry.Some? ==> Extends(registry.value.timers, old(registry.value.timers))
      ensures registry.Some? ==> registry.value.meters.Keys == old(registry.value.meters.Keys) + MeterNames(threadPoolName)
      ensures registry.Some? ==> registry.value.timers.Keys == old(registry.value.timers.Keys) + TimerNames(threadPoolName)
    {
      w := new TimerWrapper(threadPoolName);
      if registry.Some? {
        w := w.SetMetricsRegistry(registry.value);
      }
    }
  }
}
