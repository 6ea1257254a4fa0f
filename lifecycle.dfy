/**
 * Scoped executor lifecycle: the wrappers that make an executor service usable
 * as a try-with-resources resource.
 *
 * The delegate `ExecutorService` is a recording stand-in, like the mocks the
 * tests build: it logs every call made on it, and the answer of
 * `awaitTermination` (terminated, not terminated in time, or the waiting thread
 * was interrupted) is fixed when it is created.
 */
module Lifecycle {
  import Decimal

  datatype TimeUnit = NANOSECONDS | MICROSECONDS | MILLISECONDS | SECONDS | MINUTES | HOURS | DAYS

  /** `TimeUnit.toString()`: the constant's name, a single non-empty word. */
  function UnitName(u: TimeUnit): (name: string)
    ensures name != ""
    ensures forall i :: 0 <= i < |name| ==> name[i] != ' '
  {
    match u
    case NANOSECONDS => "NANOSECONDS"
    case MICROSECONDS => "MICROSECONDS"
    case MILLISECONDS => "MILLISECONDS"
    case SECONDS => "SECONDS"
    case MINUTES => "MINUTES"
    case HOURS => "HOURS"
    case DAYS => "DAYS"
  }

  /** A call made on the delegate, in the order made. */
  datatype ServiceCall = Shutdown | AwaitTermination(timeout: int, units: TimeUnit)

  /** What `awaitTermination` does when called: the oracle standing for the real wait. */
  datatype AwaitAnswer = Terminated | StillRunning | WaitInterrupted

  /** How `close()` ends: normally, or by throwing `TimeoutException` with a message. */
  datatype CloseResult = Closed | TimeoutException(message: string)

  class ExecutorService {
    /** What `toString()` of the service yields. */
    const name: string
    /** Whether the service is a `ScheduledExecutorService`. */
    const scheduled: bool
    const awaitAnswer: AwaitAnswer
    var calls: seq<ServiceCall>

    constructor (name: string, scheduled: bool, awaitAnswer: AwaitAnswer)
      ensures this.name == name && this.scheduled == scheduled && this.awaitAnswer == awaitAnswer
      ensures calls == []
    {
      this.name := name;
      this.scheduled := scheduled;
      this.awaitAnswer := awaitAnswer;
      calls := [];
    }

    method Shutdown()
      modifies this
      ensures calls == old(calls) + [ServiceCall.Shutdown]
    {
      calls := calls + [ServiceCall.Shutdown];
    }

    method AwaitTermination(timeout: int, units: TimeUnit) returns (answer: AwaitAnswer)
      modifies this
      ensures calls == old(calls) + [ServiceCall.AwaitTermination(timeout, units)]
      ensures answer == awaitAnswer
    {
      calls := calls + [ServiceCall.AwaitTermination(timeout, units)];
      answer := awaitAnswer;
    }
  }

  /** The calling thread, reduced to its interrupt flag. */
  class CurrentThread {
    var interrupted: bool

    constructor (interrupted: bool)
      ensures this.interrupted == interrupted
    {
      this.interrupted := interrupted;
    }

    method Interrupt()
      modifies this
      ensures interrupted
    {
      interrupted := true;
    }
  }

  /** The text of the `TimeoutException` thrown when termination is not confirmed. */
  function TimeoutMessage(serviceName: string, timeout: int, units: TimeUnit): (message: string)
    ensures |message| > |MessageHead(serviceName)|
    ensures message[..|MessageHead(serviceName)|] == MessageHead(serviceName)
    ensures message[|message| - |UnitName(units)|..] == UnitName(units)
    ensures ContainsAt(message, serviceName, |"Executor service "|)
  {
    MessageHead(serviceName) + DurationText(timeout, units)
  }

  function MessageHead(serviceName: string): string {
    "Executor service " + serviceName + " did not shutdown after "
  }

  /** The configured duration as the message spells it: the number, a space, the unit's name. */
  function DurationText(timeout: int, units: TimeUnit): string {
    Decimal.IntToString(timeout) + " " + UnitName(units)
  }

  ghost predicate ContainsAt(s: string, part: string, at: nat) {
    at + |part| <= |s| && s[at..at + |part|] == part
  }

  /** The message is never empty and names the configured duration, number then unit. */
  lemma TimeoutMessageNamesDuration(serviceName: string, timeout: int, units: TimeUnit)
    ensures TimeoutMessage(serviceName, timeout, units) != ""
    ensures exists at: nat :: ContainsAt(TimeoutMessage(serviceName, timeout, units), DurationText(timeout, units), at)
  {
    var head := MessageHead(serviceName);
    var msg := TimeoutMessage(serviceName, timeout, units);
    assert msg[|head|..] == DurationText(timeout, units);
    assert ContainsAt(msg, DurationText(timeout, units), |head|);
  }

  /** Position of the first space in `s`, or `|s|` when there is none. */
  function IndexOfSpace(s: string): (k: nat)
    ensures k <= |s|
  {
    if s == [] || s[0] == ' ' then 0 else 1 + IndexOfSpace(s[1..])
  }

  lemma {:induction false} SpaceEndsWord(a: string, x: string)
    requires forall i :: 0 <= i < |a| ==> a[i] != ' '
    ensures IndexOfSpace(a + " " + x) == |a|
  {
    if a != [] {
      assert (a + " " + x)[1..] == a[1..] + " " + x;
      SpaceEndsWord(a[1..], x);
    }
  }

  /** A word without spaces, a space, then the rest: the first space marks where the word ends. */
  lemma SplitAtFirstSpace(a: string, x: string, b: string, y: string)
    requires forall i :: 0 <= i < |a| ==> a[i] != ' '
    requires forall i :: 0 <= i < |b| ==> b[i] != ' '
    requires a + " " + x == b + " " + y
    ensures a == b && x == y
  {
    var s := a + " " + x;
    SpaceEndsWord(a, x);
    SpaceEndsWord(b, y);
    assert a == s[..|a|] && b == (b + " " + y)[..|b|];
    assert x == s[|a| + 1..] && y == (b + " " + y)[|b| + 1..];
  }

  lemma UnitNameInjective(u1: TimeUnit, u2: TimeUnit)
    requires UnitName(u1) == UnitName(u2)
    ensures u1 == u2
  {
  }

  /** Two timeout messages about the same service agree only when the durations agree. */
  lemma TimeoutMessageIdentifiesDuration(serviceName: string, t1: int, u1: TimeUnit, t2: int, u2: TimeUnit)
    requires TimeoutMessage(serviceName, t1, u1) == TimeoutMessage(serviceName, t2, u2)
    ensures t1 == t2 && u1 == u2
  {
    var head := MessageHead(serviceName);
    var m1, m2 := TimeoutMessage(serviceName, t1, u1), TimeoutMessage(serviceName, t2, u2);
    assert DurationText(t1, u1) == m1[|head|..] == m2[|head|..] == DurationText(t2, u2);
    SplitAtFirstSpace(Decimal.IntToString(t1), UnitName(u1), Decimal.IntToString(t2), UnitName(u2));
    Decimal.IntToStringInjective(t1, t2);
    UnitNameInjective(u1, u2);
  }

  /** `ShutdownExecutorService`: closing only requests shutdown. */
  class ShutdownExecutorService {
    const delegate: ExecutorService

    constructor (service: ExecutorService)
      ensures delegate == service
    {
      delegate := service;
    }

    method Close()
      modifies delegate
      ensures delegate.calls == old(delegate.calls) + [ServiceCall.Shutdown]
    {
      delegate.Shutdown();
    }
  }

  /** `ShutdownScheduledExecutorService`: the same best-effort close over a scheduled service. */
  class ShutdownScheduledExecutorService {
    const delegate: ExecutorService

    constructor (service: ExecutorService)
      requires service.scheduled
      ensures delegate == service
    {
      delegate := service;
    }

    method Close()
      modifies delegate
      ensures delegate.calls == old(delegate.calls) + [ServiceCall.Shutdown]
    {
      delegate.Shutdown();
    }
  }

  /**
   * `TerminatingExecutorService`: closing requests shutdown, then waits once
   * with the stored timeout; an unconfirmed termination is a `TimeoutException`,
   * an interrupted wait re-asserts the thread's interrupt flag and is not thrown.
   */
  class TerminatingExecutorService {
    const delegate: ExecutorService
    const timeout: int
    const units: TimeUnit

    constructor (service: ExecutorService, timeout: int, units: TimeUnit)
      ensures delegate == service && this.timeout == timeout && this.units == units
    {
      delegate := service;
      this.timeout := timeout;
      this.units := units;
    }

    method Close(thread: CurrentThread) returns (r: CloseResult)
      modifies delegate, thread
      ensures delegate.calls == old(delegate.calls) + [ServiceCall.Shutdown, ServiceCall.AwaitTermination(timeout, units)]
      ensures r.TimeoutException? <==> delegate.awaitAnswer == StillRunning
      ensures r.TimeoutException? ==> r.message == TimeoutMessage(delegate.name, timeout, units)
      ensures thread.interrupted == (old(thread.interrupted) || delegate.awaitAnswer == WaitInterrupted)
    {
      var service := delegate;
      service.Shutdown();
      var answer := service.AwaitTermination(timeout, units);
      match answer
      case Terminated =>
        r := Closed;
      case StillRunning =>
        r := TimeoutException(TimeoutMessage(service.name, timeout, units));
      case WaitInterrupted =>
        thread.Interrupt();
        r := Closed;
    }
  }

  /** `TerminatingScheduledExecutorService`: the same close over a scheduled service. */
  class TerminatingScheduledExecutorService {
    const delegate: ExecutorService
    const timeout: int
    const units: TimeUnit

    constructor (service: ExecutorService, timeout: int, units: TimeUnit)
      requires service.scheduled
      ensures delegate == service && this.timeout == timeout && this.units == units
    {
      delegate := service;
      this.timeout := timeout;
      this.units := units;
    }

    method Close(thread: CurrentThread) returns (r: CloseResult)
      modifies delegate, thread
      ensures delegate.calls == old(delegate.calls) + [ServiceCall.Shutdown, ServiceCall.AwaitTermination(timeout, units)]
      ensures r.TimeoutException? <==> delegate.awaitAnswer == StillRunning
      ensures r.TimeoutException? ==> r.message == TimeoutMessage(delegate.name, timeout, units)
      ensures thread.interrupted == (old(thread.interrupted) || delegate.awaitAnswer == WaitInterrupted)
    {
      var service := delegate;
      service.Shutdown();
      var answer := service.AwaitTermination(timeout, units);
      match answer
      case Terminated =>
        r := Closed;
      case StillRunning =>
        r := TimeoutException(TimeoutMessage(service.name, timeout, units));
      case WaitInterrupted =>
        thread.Interrupt();
        r := Closed;
    }
  }
}
