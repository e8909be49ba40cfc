/** The incremental time integral of a level, as kept per balancer queue and per server. */
module Occupancy {
  import opened Domain

  datatype Accumulator = Accumulator(lastSample: Option<Time>, lastLevel: nat, integral: int)

  const EMPTY := Accumulator(None, 0, 0)

  function Sampled(a: Accumulator, now: Time, level: nat): Accumulator
  {
    Accumulator(
      Some(now), level,
      if a.lastSample.Some? then a.integral + a.lastLevel * (now - a.lastSample.value) else a.integral)
  }

  /** The integral of the level up to `now`, counting the level as zero before the first sample. */
  function IntegralAt(a: Accumulator, now: Time): int
  {
    if a.lastSample.Some? then a.integral + a.lastLevel * (now - a.lastSample.value) else a.integral
  }

  function Level(a: Accumulator): nat
  {
    if a.lastSample.Some? then a.lastLevel else 0
  }

  /** Sampling never changes the area measured so far, whatever the new level is. */
  lemma SamplingKeepsIntegral(a: Accumulator, now: Time, level: nat)
    ensures IntegralAt(Sampled(a, now, level), now) == IntegralAt(a, now)
  {
  }

  /** Between samples the area grows by the level times the time that passes. */
  lemma IntegralGrows(a: Accumulator, now: Time, later: Time)
    ensures IntegralAt(a, later) == IntegralAt(a, now) + Level(a) * (later - now) || a.lastSample.None?
  {
    if a.lastSample.Some? {
      var t0 := a.lastSample.value;
      assert a.lastLevel * (later - t0) == a.lastLevel * (now - t0) + a.lastLevel * (later - now);
    }
  }

  class OccupancyAccumulator {
    var lastSample: Option<Time>
    var lastLevel: nat
    var integral: int

    ghost function Value(): Accumulator
      reads this
    {
      Accumulator(lastSample, lastLevel, integral)
    }

    constructor ()
      ensures Value() == EMPTY
    {
      lastSample, lastLevel, integral := None, 0, 0;
    }

    method Record(now: Time, level: nat)
      requires lastSample.Some? ==> lastSample.value <= now
      modifies this
      ensures Value() == Sampled(old(Value()), now, level)
      ensures IntegralAt(Value(), now) == IntegralAt(old(Value()), now)
    {
      if lastSample.Some? {
        var dt := now - lastSample.value;
        integral := integral + lastLevel * dt;
      }
      lastSample := Some(now);
      lastLevel := level;
    }

    /** The average is the whole area divided by the observation window, or zero for an empty window. */
    method Finalize(end: Time, simStart: Time) returns (average: real)
      requires simStart <= end && (lastSample.Some? ==> lastSample.value <= end)
      modifies this
      ensures integral == IntegralAt(old(Value()), end)
      ensures lastSample == old(lastSample) && lastLevel == old(lastLevel)
      ensures end > simStart ==> average * (end - simStart) as real == integral as real
      ensures end == simStart ==> average == 0.0
    {
      var start := if lastSample.Some? then lastSample.value else simStart;
      var level := if lastSample.Some? then lastLevel else 0;
      var dt := end - start;
      integral := integral + level * dt;
      var obs := end - simStart;
      if obs <= 0 {
        return 0.0;
      }
      average := integral as real / obs as real;
    }
  }
}
