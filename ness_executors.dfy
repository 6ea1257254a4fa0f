/**
 * `NessExecutors`: the try-with-resources factories and `invokeAllExplosively`.
 *
 * The completion service is replaced by oracles. Submitting the `i`-th task
 * yields future `i`; `tasks[i]` is how that future completes; `order` is the
 * order in which `take()` hands the futures back; `interruption` says whether,
 * and in which round of the loop, the calling thread's wait is interrupted.
 */
module NessExecutors {
  import opened Lifecycle
  import opened Sequences

  /** How a submitted task's future completes. */
  datatype Outcome<T, E> = Completed(value: T) | Failed(cause: E)

  /** Where the calling thread is interrupted, if at all: in `take()` or in `get()` of a given round. */
  datatype Interruption = Uninterrupted | DuringTake(round: nat) | DuringGet(round: nat)

  /** How the call ends: returning the list of futures, or throwing `InterruptedException`. */
  datatype Invocation = Returned(futures: seq<nat>) | Interrupted

  /** A `future.cancel(mayInterruptIfRunning)` request. */
  datatype CancelRequest = Cancel(future: nat, mayInterruptIfRunning: bool)

  /** The futures observed (taken) before the loop stopped, and whether it stopped by interruption. */
  datatype Observation = Observation(taken: seq<nat>, interrupted: bool)

  /** `order` is something a completion service can deliver for `n` submitted futures: each exactly once. */
  predicate IsCompletionOrder(order: seq<nat>, n: nat) {
    |order| == n && (forall i :: 0 <= i < n ==> order[i] < n) && NoDuplicates(order)
  }

  /** The futures the requests are addressed to, in the order the requests are made. */
  function Targets(cancels: seq<CancelRequest>): (fs: seq<nat>)
    ensures |fs| == |cancels|
  {
    if cancels == [] then [] else Targets(cancels[..|cancels| - 1]) + [cancels[|cancels| - 1].future]
  }

  /** Position, in completion order, of the first future that failed; `|order|` when none did. */
  function FirstFailure<T, E>(tasks: seq<Outcome<T, E>>, order: seq<nat>): (k: nat)
    requires forall i :: 0 <= i < |order| ==> order[i] < |tasks|
    ensures k <= |order|
    ensures forall i :: 0 <= i < k ==> tasks[order[i]].Completed?
    ensures k < |order| ==> tasks[order[k]].Failed?
  {
    if order == [] || tasks[order[0]].Failed? then 0 else 1 + FirstFailure(tasks, order[1..])
  }

  /** Every future before position `k` completed, so the first failure is not before `k`. */
  lemma FirstFailureAtLeast<T, E>(tasks: seq<Outcome<T, E>>, order: seq<nat>, k: nat)
    requires forall i :: 0 <= i < |order| ==> order[i] < |tasks|
    requires k <= |order|
    requires forall i :: 0 <= i < k ==> tasks[order[i]].Completed?
    ensures k <= FirstFailure(tasks, order)
  {
  }

  /** A position whose future failed, after only completed ones, is the first failure. */
  lemma FirstFailureAt<T, E>(tasks: seq<Outcome<T, E>>, order: seq<nat>, k: nat)
    requires forall i :: 0 <= i < |order| ==> order[i] < |tasks|
    requires k <= |order|
    requires forall i :: 0 <= i < k ==> tasks[order[i]].Completed?
    requires k < |order| ==> tasks[order[k]].Failed?
    ensures FirstFailure(tasks, order) == k
  {
    FirstFailureAtLeast(tasks, order, k);
  }

  /** Number of rounds the loop can complete without interruption: up to and including the first failure. */
  function Rounds<T, E>(tasks: seq<Outcome<T, E>>, order: seq<nat>): nat
    requires forall i :: 0 <= i < |order| ==> order[i] < |tasks|
  {
    var f := FirstFailure(tasks, order);
    if f < |order| then f + 1 else |order|
  }

  /**
   * What the loop of `invokeAllExplosively` observes: round `k` takes `order[k]`
   * and appends it; it stops after the first failure, or when the wait of
   * some round is interrupted (in `take()` before appending, in `get()` after).
   */
  function Explode<T, E>(tasks: seq<Outcome<T, E>>, order: seq<nat>, interruption: Interruption): (obs: Observation)
    requires IsCompletionOrder(order, |tasks|)
    ensures |obs.taken| <= |order| && obs.taken == order[..|obs.taken|]
    ensures forall i :: 0 <= i < |obs.taken| - 1 ==> tasks[obs.taken[i]].Completed?
    ensures interruption.Uninterrupted? ==> !obs.interrupted
  {
    var last := Rounds(tasks, order);
    match interruption
    case DuringTake(k) =>
      if k < last then Observation(order[..k], true) else Observation(order[..last], false)
    case DuringGet(k) =>
      if k < last then Observation(order[..k + 1], true) else Observation(order[..last], false)
    case Uninterrupted =>
      Observation(order[..last], false)
  }

  /**
   * `invokeAllExplosively`: submit every task, take completions until one fails,
   * cancel every future still in flight, then throw if interrupted, else return
   * the taken futures in completion order.
   */
  method InvokeAllExplosively<T, E>(tasks: seq<Outcome<T, E>>, order: seq<nat>, interruption: Interruption)
    returns (result: Invocation, cancels: seq<CancelRequest>)
    requires IsCompletionOrder(order, |tasks|)
    ensures var obs := Explode(tasks, order, interruption);
            && result == (if obs.interrupted then Interrupted else Returned(obs.taken))
            && (forall f: nat :: f in Targets(cancels) <==> f < |tasks| && f !in obs.taken)
    ensures forall i :: 0 <= i < |cancels| ==> cancels[i].mayInterruptIfRunning
    ensures NoDuplicates(Targets(cancels))
  {
    var inFlight := SubmitAll(|tasks|);
    var results, interrupted;
    results, interrupted, inFlight := TakeUntilFailure(tasks, order, interruption, inFlight);
    cancels := CancelInFlight(inFlight);
    result := if interrupted then Interrupted else Returned(results);
  }

  /** The submit loop: future `i` for the `i`-th task, each added to the in-flight set. */
  method SubmitAll(n: nat) returns (inFlight: set<nat>)
    ensures forall f: nat :: f in inFlight <==> f < n
  {
    inFlight := {};
    for i := 0 to n
      invariant forall f: nat :: f in inFlight <==> f < i
    {
      inFlight := inFlight + {i};
    }
  }

  /**
   * The `while (!inFlight.isEmpty())` loop: take the next completed future,
   * move it from the in-flight set to the results, and stop at an interrupted
   * wait or at the first failure. Returning from here is the loop's `break`.
   */
  method TakeUntilFailure<T, E>(tasks: seq<Outcome<T, E>>, order: seq<nat>, interruption: Interruption, submitted: set<nat>)
    returns (results: seq<nat>, interrupted: bool, inFlight: set<nat>)
    requires IsCompletionOrder(order, |tasks|)
    requires forall f: nat :: f in submitted <==> f < |tasks|
    ensures Observation(results, interrupted) == Explode(tasks, order, interruption)
    ensures forall f: nat :: f in inFlight <==> f < |tasks| && f !in results
  {
    inFlight := submitted;
    results := [];
    interrupted := false;
    var round := 0;
    while inFlight != {}
      invariant round <= |tasks|
      invariant results == order[..round]
      invariant forall f: nat :: f in inFlight <==> f < |tasks| && f !in results
      invariant round < |tasks| ==> order[round] in inFlight
      invariant forall i :: 0 <= i < round ==> tasks[order[i]].Completed?
      invariant interruption.DuringTake? || interruption.DuringGet? ==> round <= interruption.round
      decreases |tasks| - round
    {
      ghost var pending :| pending in inFlight;
      NotTakenMeansRoundsLeft(order, |tasks|, round, pending);
      if interruption == DuringTake(round) {
        InterruptionReachedIsThrown(tasks, order, interruption);
        interrupted := true;
        return;
      }
      var future := order[round];
      inFlight := inFlight - {future};
      results := results + [future];
      assert results == order[..round + 1];
      if interruption == DuringGet(round) {
        InterruptionReachedIsThrown(tasks, order, interruption);
        interrupted := true;
        return;
      }
      if tasks[future].Failed? {
        FailureEndsTheList(tasks, order, interruption, round);
        return;
      }
      round := round + 1;
      if round < |tasks| {
        assert forall i :: 0 <= i < round ==> order[i] != order[round];
      }
    }
    NothingFailedTakesAll(tasks, order, interruption);
  }

  /** The sweep `for (future : inFlight) future.cancel(true)`: one request per future still in flight. */
  method CancelInFlight(inFlight: set<nat>) returns (cancels: seq<CancelRequest>)
    ensures forall f: nat :: f in Targets(cancels) <==> f in inFlight
    ensures forall i :: 0 <= i < |cancels| ==> cancels[i].mayInterruptIfRunning
    ensures NoDuplicates(Targets(cancels))
  {
    cancels := [];
    var pending := inFlight;
    while pending != {}
      invariant pending <= inFlight
      invariant forall f: nat :: f in Targets(cancels) <==> f in inFlight && f !in pending
      invariant forall i :: 0 <= i < |cancels| ==> cancels[i].mayInterruptIfRunning
      invariant NoDuplicates(Targets(cancels))
      decreases |pending|
    {
      var future :| future in pending;
      assert (cancels + [Cancel(future, true)])[..|cancels|] == cancels;
      cancels := cancels + [Cancel(future, true)];
      pending := pending - {future};
    }
  }

  /** The ids of `n` submitted futures, as a set. */
  function Below(n: nat): (s: set<nat>)
    ensures forall f: nat :: f in s <==> f < n
    ensures |s| == n
  {
    if n == 0 then {} else Below(n - 1) + {n - 1}
  }

  lemma {:induction false} DistinctElementsSize(s: seq<nat>)
    requires NoDuplicates(s)
    ensures |set i | 0 <= i < |s| :: s[i]| == |s|
  {
    if s != [] {
      var init := s[..|s| - 1];
      DistinctElementsSize(init);
      assert (set i | 0 <= i < |s| :: s[i]) == (set i | 0 <= i < |init| :: init[i]) + {s[|s| - 1]};
    }
  }

  /** A completion order of `n` futures hands back every one of them. */
  lemma CompletionOrderCoversAll(order: seq<nat>, n: nat)
    requires IsCompletionOrder(order, n)
    ensures forall f: nat :: f < n ==> f in order
  {
    var seen := set i | 0 <= i < |order| :: order[i];
    DistinctElementsSize(order);
    assert seen <= Below(n);
    assert |Below(n) - seen| == 0;
    assert Below(n) - seen == {};
    forall f: nat | f < n
      ensures f in order
    {
      assert f in Below(n);
      assert f in seen;
    }
  }

  /**
   * Everything succeeds and nothing interrupts: the call returns all `n` futures
   * in completion order, each submitted future exactly once.
   */
  lemma AllSucceededReturnsEveryFuture<T, E>(tasks: seq<Outcome<T, E>>, order: seq<nat>)
    requires IsCompletionOrder(order, |tasks|)
    requires forall i :: 0 <= i < |tasks| ==> tasks[i].Completed?
    ensures Explode(tasks, order, Uninterrupted) == Observation(order, false)
    ensures |order| == |tasks| && NoDuplicates(order)
    ensures forall f: nat :: f < |tasks| ==> f in order
  {
    FirstFailureAt(tasks, order, |order|);
    assert order[..|order|] == order;
    CompletionOrderCoversAll(order, |tasks|);
  }

  /**
   * The first failing future, in completion order, ends the list: the result is
   * the completion-order prefix up to and including it, and every earlier
   * entry completed. An interruption planned for a later round never happens.
   */
  lemma FailureEndsTheList<T, E>(tasks: seq<Outcome<T, E>>, order: seq<nat>, interruption: Interruption, k: nat)
    requires IsCompletionOrder(order, |tasks|)
    requires k < |order| && tasks[order[k]].Failed?
    requires forall i :: 0 <= i < k ==> tasks[order[i]].Completed?
    requires interruption.DuringTake? || interruption.DuringGet? ==> k < interruption.round
    ensures Explode(tasks, order, interruption) == Observation(order[..k + 1], false)
  {
    FirstFailureAt(tasks, order, k);
  }

  /**
   * Shape of what is observed: a completion-order prefix without repeats, all of
   * whose entries but the last completed; when the loop was not interrupted it
   * either took every future or its last entry is the failure that stopped it.
   */
  lemma ObservedIsCompletionPrefix<T, E>(tasks: seq<Outcome<T, E>>, order: seq<nat>, interruption: Interruption)
    requires IsCompletionOrder(order, |tasks|)
    ensures var obs := Explode(tasks, order, interruption);
            && |obs.taken| <= |order|
            && obs.taken == order[..|obs.taken|]
            && NoDuplicates(obs.taken)
            && (forall i :: 0 <= i < |obs.taken| - 1 ==> tasks[obs.taken[i]].Completed?)
            && (!obs.interrupted && obs.taken != [] ==>
                  |obs.taken| == |tasks| || tasks[obs.taken[|obs.taken| - 1]].Failed?)
  {
  }

  /**
   * Interruption in a round that is reached always wins: no list is returned,
   * and what was taken is the completion-order prefix before the interrupted
   * `take()`, or through the future whose `get()` was interrupted.
   */
  lemma InterruptionReachedIsThrown<T, E>(tasks: seq<Outcome<T, E>>, order: seq<nat>, interruption: Interruption)
    requires IsCompletionOrder(order, |tasks|)
    requires interruption.DuringTake? || interruption.DuringGet?
    requires interruption.round < |order|
    requires forall i :: 0 <= i < interruption.round ==> tasks[order[i]].Completed?
    ensures interruption.DuringTake? ==> Explode(tasks, order, interruption) == Observation(order[..interruption.round], true)
    ensures interruption.DuringGet? ==> Explode(tasks, order, interruption) == Observation(order[..interruption.round + 1], true)
  {
    FirstFailureAtLeast(tasks, order, interruption.round);
  }

  /**
   * When every future completed and no interruption happens while the loop
   * runs, the loop takes every future, in completion order, and returns them.
   */
  lemma NothingFailedTakesAll<T, E>(tasks: seq<Outcome<T, E>>, order: seq<nat>, interruption: Interruption)
    requires IsCompletionOrder(order, |tasks|)
    requires forall i :: 0 <= i < |order| ==> tasks[order[i]].Completed?
    requires interruption.DuringTake? || interruption.DuringGet? ==> |order| <= interruption.round
    ensures Explode(tasks, order, interruption) == Observation(order, false)
  {
    FirstFailureAt(tasks, order, |order|);
    assert order[..|order|] == order;
  }

  /** A submitted future not yet taken means the completion order still has rounds left. */
  lemma NotTakenMeansRoundsLeft(order: seq<nat>, n: nat, round: nat, f: nat)
    requires IsCompletionOrder(order, n) && round <= n
    requires f < n && f !in order[..round]
    ensures round < n
  {
    CompletionOrderCoversAll(order, n);
    assert order[..n] == order;
  }

  /** An empty batch returns an empty list. */
  lemma EmptyBatchReturnsEmpty<T, E>(interruption: Interruption)
    ensures Explode<T, E>([], [], interruption) == Observation([], false)
  {
  }

  /**
   * The scenario of the explosiveness test: a runner and three futures; the
   * second future fails; two futures are returned, the first completed, the
   * second the failure.
   */
  lemma ExplosivenessScenario()
    ensures var tasks := [Completed("d"), Completed("a"), Failed("exc"), Completed("c")];
            Explode(tasks, [1, 2, 3, 0], Uninterrupted) == Observation([1, 2], false)
  {
    var tasks := [Completed("d"), Completed("a"), Failed("exc"), Completed("c")];
    FirstFailureAt(tasks, [1, 2, 3, 0], 1);
  }

  /** `autoShutdown(ExecutorService)`. */
  method AutoShutdown(service: ExecutorService) returns (w: ShutdownExecutorService)
    ensures fresh(w) && w.delegate == service
  {
    w := new ShutdownExecutorService(service);
  }

  /** `autoShutdown(ScheduledExecutorService)`. */
  method AutoShutdownScheduled(service: ExecutorService) returns (w: ShutdownScheduledExecutorService)
    requires service.scheduled
    ensures fresh(w) && w.delegate == service
  {
    w := new ShutdownScheduledExecutorService(service);
  }

  /** `autoTerminate(ExecutorService, timeout, units)`. */
  method AutoTerminate(service: ExecutorService, timeout: int, units: TimeUnit) returns (w: TerminatingExecutorService)
    ensures fresh(w) && w.delegate == service && w.timeout == timeout && w.units == units
  {
    w := new TerminatingExecutorService(service, timeout, units);
  }

  /** `autoTerminate(ScheduledExecutorService, timeout, units)`. */
  method AutoTerminateScheduled(service: ExecutorService, timeout: int, units: TimeUnit)
    returns (w: TerminatingScheduledExecutorService)
    requires service.scheduled
    ensures fresh(w) && w.delegate == service && w.timeout == timeout && w.units == units
  {
    w := new TerminatingScheduledExecutorService(service, timeout, units);
  }
}
