/**
 * The parts of the metrics library the timing wrapper uses: meters that count
 * marks, timers that record durations, and a registry that hands out one
 * metric per name.
 */
module Instruments {

  /** A meter, reduced to the number of times it was marked (rates are not modelled). */
  class Meter {
    var count: nat

    constructor ()
      ensures count == 0
    {
      count := 0;
    }

    method Mark()
      modifies this
      ensures count == old(count) + 1
    {
      count := count + 1;
    }
  }

  /** A timer, reduced to the durations recorded on it, in nanoseconds, oldest first. */
  class Timer {
    var samples: seq<int>

    constructor ()
      ensures samples == []
    {
      samples := [];
    }

    method Update(nanos: int)
      modifies this
      ensures samples == old(samples) + [nanos]
    {
      samples := samples + [nanos];
    }
  }

  /** What registering adds: the earlier names keep their metrics. */
  ghost predicate Extends<V>(after: map<string, V>, before: map<string, V>) {
    forall n :: n in before ==> n in after && after[n] == before[n]
  }

  /** Registering in two steps extends what was there before the first. */
  lemma ExtendsTransitive<V>(after: map<string, V>, middle: map<string, V>, before: map<string, V>)
    requires Extends(after, middle) && Extends(middle, before)
    ensures Extends(after, before)
  {
  }

  /**
   * A metrics registry: asking for a metric under a name that is already
   * registered returns the registered one, otherwise a new one is registered.
   */
  class MetricsRegistry {
    var meters: map<string, Meter>
    var timers: map<string, Timer>

    /** Different names hold different metrics. */
    ghost predicate Valid()
      reads this
    {
      && (forall a, b :: a in meters && b in meters && a != b ==> meters[a] != meters[b])
      && (forall a, b :: a in timers && b in timers && a != b ==> timers[a] != timers[b])
    }

    constructor ()
      ensures Valid() && meters == map[] && timers == map[]
    {
      meters := map[];
      timers := map[];
    }

    method NewMeter(name: string) returns (m: Meter)
      requires Valid()
      modifies this
      ensures Valid()
      ensures name in old(meters) ==> m == old(meters)[name] && meters == old(meters)
      ensures name !in old(meters) ==> fresh(m) && m.count == 0 && meters == old(meters)[name := m]
      ensures name in meters && meters[name] == m && meters.Keys == old(meters.Keys) + {name}
      ensures Extends(meters, old(meters))
      ensures timers == old(timers)
    {
      if name in meters {
        m := meters[name];
      } else {
        m := new Meter();
        meters := meters[name := m];
      }
    }

    method NewTimer(name: string) returns (t: Timer)
      requires Valid()
      modifies this
      ensures Valid()
      ensures name in old(timers) ==> t == old(timers)[name] && timers == old(timers)
      ensures name !in old(timers) ==> fresh(t) && t.samples == [] && timers == old(timers)[name := t]
      ensures name in timers && timers[name] == t && timers.Keys == old(timers.Keys) + {name}
      ensures Extends(timers, old(timers))
      ensures meters == old(meters)
    {
      if name in timers {
        t := timers[name];
      } else {
        t := new Timer();
        timers := timers[name := t];
      }
    }
  }
}
