/**
 * The thread pool configuration: the tunables a pool is configured with,
 * their defaults, the mapping from the configured rejected-execution handler
 * to the executor's policy, and the documented rules for what a setting
 * means (when a pool exists at all, which queue it uses, which thread counts
 * are acceptable).
 */
module PoolConfiguration {
  import opened Optional
  import opened Lifecycle

  /** A time span: an amount of a unit, as in the configured `timeout`. */
  datatype Duration = Duration(amount: nat, unit: TimeUnit)

  /** The configurable choice of rejected-execution handler. */
  datatype RejectedHandler = CALLER_RUNS | ABORT | DISCARD_NEWEST | DISCARD_OLDEST

  /** The executor's rejection policies the handlers select. */
  datatype Policy = CallerRunsPolicy | AbortPolicy | DiscardPolicy | DiscardOldestPolicy

  const DEFAULT_MIN_THREADS: int := 1
  const DEFAULT_MAX_THREADS: int := 16
  const DEFAULT_TIMEOUT: Duration := Duration(30, MINUTES)
  const DEFAULT_QUEUE_SIZE: int := 100
  const DEFAULT_REJECTED_HANDLER: RejectedHandler := CALLER_RUNS

  /** `RejectedHandler.getHandler`: each handler selects its own policy. */
  function GetHandler(h: RejectedHandler): (p: Policy)
    ensures HandlerFor(p) == h
  {
    match h
    case CALLER_RUNS => CallerRunsPolicy
    case ABORT => AbortPolicy
    case DISCARD_NEWEST => DiscardPolicy
    case DISCARD_OLDEST => DiscardOldestPolicy
  }

  /** The handler that selects a policy: the inverse of `GetHandler`. */
  function HandlerFor(p: Policy): RejectedHandler
  {
    match p
    case CallerRunsPolicy => CALLER_RUNS
    case AbortPolicy => ABORT
    case DiscardPolicy => DISCARD_NEWEST
    case DiscardOldestPolicy => DISCARD_OLDEST
  }

  /** Every policy is selected by exactly one handler. */
  lemma GetHandlerBijective(p: Policy, h1: RejectedHandler, h2: RejectedHandler)
    ensures GetHandler(HandlerFor(p)) == p
    ensures GetHandler(h1) == GetHandler(h2) <==> h1 == h2
  {
    assert HandlerFor(GetHandler(h1)) == h1 && HandlerFor(GetHandler(h2)) == h2;
  }

  /** The tunables as configured: each may be left unset. */
  datatype Settings = Settings(
    minThreads: Option<int>,
    maxThreads: Option<int>,
    threadTimeout: Option<Duration>,
    queueSize: Option<int>,
    rejectedHandler: Option<RejectedHandler>)

  /** The tunables once every unset one has taken its default. */
  datatype Resolved = Resolved(
    minThreads: int,
    maxThreads: int,
    threadTimeout: Duration,
    queueSize: int,
    rejectedHandler: RejectedHandler)

  function OrDefault<T>(o: Option<T>, default: T): T
  {
    if o.Some? then o.value else default
  }

  /** Every unset tunable takes its stated default; every set one is kept. */
  function Resolve(s: Settings): (r: Resolved)
    ensures s.minThreads.None? ==> r.minThreads == DEFAULT_MIN_THREADS
    ensures s.minThreads.Some? ==> r.minThreads == s.minThreads.value
    ensures s.maxThreads.None? ==> r.maxThreads == DEFAULT_MAX_THREADS
    ensures s.maxThreads.Some? ==> r.maxThreads == s.maxThreads.value
    ensures s.threadTimeout.None? ==> r.threadTimeout == DEFAULT_TIMEOUT
    ensures s.threadTimeout.Some? ==> r.threadTimeout == s.threadTimeout.value
    ensures s.queueSize.None? ==> r.queueSize == DEFAULT_QUEUE_SIZE
    ensures s.queueSize.Some? ==> r.queueSize == s.queueSize.value
    ensures s.rejectedHandler.None? ==> r.rejectedHandler == DEFAULT_REJECTED_HANDLER
    ensures s.rejectedHandler.Some? ==> r.rejectedHandler == s.rejectedHandler.value
  {
    Resolved(
      OrDefault(s.minThreads, DEFAULT_MIN_THREADS),
      OrDefault(s.maxThreads, DEFAULT_MAX_THREADS),
      OrDefault(s.threadTimeout, DEFAULT_TIMEOUT),
      OrDefault(s.queueSize, DEFAULT_QUEUE_SIZE),
      OrDefault(s.rejectedHandler, DEFAULT_REJECTED_HANDLER))
  }

  /** The same tunables, every one of them set explicitly. */
  function Explicit(r: Resolved): Settings
  {
    Settings(Some(r.minThreads), Some(r.maxThreads), Some(r.threadTimeout), Some(r.queueSize), Some(r.rejectedHandler))
  }

  /** Setting every tunable explicitly resolves to exactly those values. */
  lemma ResolveExplicit(r: Resolved)
    ensures Resolve(Explicit(r)) == r
  {
  }

  /** The configuration with nothing set. */
  const Unset: Settings := Settings(None, None, None, None, None)

  /** The documented thread-count rule: `0 < min < max`, unless max is 0. */
  predicate ValidThreadCounts(r: Resolved)
  {
    r.maxThreads == 0 || 0 < r.minThreads < r.maxThreads
  }

  /** The queue a pool uses. */
  datatype Queue = SynchronousQueue | ArrayBlockingQueue(capacity: nat)

  /** Why a configuration does not describe a pool. */
  datatype ConfigError = InvalidThreadCounts | NegativeQueueSize

  /**
   * What a resolved configuration stands for: with max 0 no pool, every
   * request running in the calling thread; otherwise a pool with the thread
   * counts, idle timeout, queue and rejection policy configured.
   */
  datatype Plan =
    | RunInCaller
    | Pool(coreThreads: int, maxThreads: int, keepAlive: Duration, queue: Queue, policy: Policy)
    | Misconfigured(error: ConfigError)

  /** Queue size 0 is a synchronous hand-off; a positive size a bounded array queue of that capacity. */
  function QueueFor(size: int): (q: Option<Queue>)
    ensures q == Some(SynchronousQueue) <==> size == 0
    ensures q.Some? && q.value.ArrayBlockingQueue? <==> size > 0
    ensures q.Some? && q.value.ArrayBlockingQueue? ==> q.value.capacity == size
    ensures q.None? <==> size < 0
  {
    if size == 0 then Some(SynchronousQueue)
    else if size > 0 then Some(ArrayBlockingQueue(size))
    else None
  }

  /** The queue size a queue stands for. */
  function QueueSize(q: Queue): int
  {
    match q
    case SynchronousQueue => 0
    case ArrayBlockingQueue(capacity) => capacity
  }

  function PlanFor(r: Resolved): (p: Plan)
    ensures p.RunInCaller? <==> r.maxThreads == 0
    ensures p.Misconfigured? <==> r.maxThreads != 0 && (!ValidThreadCounts(r) || r.queueSize < 0)
    ensures p.Misconfigured? && p.error == NegativeQueueSize ==> ValidThreadCounts(r)
    ensures p.Pool? ==> 0 < p.coreThreads < p.maxThreads
    ensures p.Pool? ==> p.coreThreads == r.minThreads && p.maxThreads == r.maxThreads
    ensures p.Pool? ==> p.keepAlive == r.threadTimeout && p.policy == GetHandler(r.rejectedHandler)
    ensures p.Pool? ==> (p.queue.SynchronousQueue? <==> r.queueSize == 0)
  {
    if r.maxThreads == 0 then RunInCaller
    else if !ValidThreadCounts(r) then Misconfigured(InvalidThreadCounts)
    else match QueueFor(r.queueSize)
      case None => Misconfigured(NegativeQueueSize)
      case Some(queue) => Pool(r.minThreads, r.maxThreads, r.threadTimeout, queue, GetHandler(r.rejectedHandler))
  }

  /** A pool plan determines the configuration it came from. */
  lemma PlanDeterminesSettings(r: Resolved)
    requires PlanFor(r).Pool?
    ensures var p := PlanFor(r);
      Resolved(p.coreThreads, p.maxThreads, p.keepAlive, QueueSize(p.queue), HandlerFor(p.policy)) == r
  {
  }

  /**
   * The defaults describe a valid pool: one to sixteen threads, a thirty
   * minute idle timeout, a bounded queue of a hundred and the caller-runs policy.
   */
  lemma DefaultsMakeAPool()
    ensures ValidThreadCounts(Resolve(Unset))
    ensures PlanFor(Resolve(Unset)) == Pool(1, 16, Duration(30, MINUTES), ArrayBlockingQueue(100), CallerRunsPolicy)
  {
  }

  /** Setting max threads to 0 alone turns the pool off, whatever else is set. */
  lemma NoPoolWithoutThreads(s: Settings)
    ensures PlanFor(Resolve(s)) == RunInCaller <==> s.maxThreads == Some(0)
  {
  }
}
