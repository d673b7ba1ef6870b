/** What the system monitor's ticks guarantee. */
module SystemMonitorFacts {
  import opened Strings
  import opened Numbers
  import opened SystemMonitor

  predicate Within(h: seq<real>, lo: real, hi: real) {
    forall i :: 0 <= i < |h| ==> lo <= h[i] <= hi
  }

  /**
   * Every reading and every reading in the histories lies within its bounds,
   * the histories hold thirty readings, and the uptime is not negative.
   */
  predicate Inv(s: Readings) {
    10.0 <= s.cpuUsage <= 95.0 && 30.0 <= s.memoryUsage <= 85.0 && 45.0 <= s.cpuTemp <= 75.0
    && |s.cpuHistory| == HistoryLength && |s.memHistory| == HistoryLength
    && Within(s.cpuHistory, 10.0, 95.0) && Within(s.memHistory, 30.0, 85.0)
    && s.uptime >= 0
  }

  lemma InitialInv()
    ensures Inv(InitialReadings)
  {
  }

  lemma ShiftedWithin(h: seq<real>, v: real, lo: real, hi: real)
    requires Within(h, lo, hi) && lo <= v <= hi
    ensures Within(Shifted(h, v), lo, hi)
  {
    var r := Shifted(h, v);
    forall i | 0 <= i < |r|
      ensures lo <= r[i] <= hi
    {
      if i < |r| - 1 {
        assert r[i] == h[i + 1];
      }
    }
  }

  /** A tick keeps the invariant, whatever the random draws. */
  lemma TickKeeps(s: Readings, d: Draws)
    requires Inv(s)
    ensures Inv(TickStep(s, d))
  {
    var r := TickStep(s, d);
    ShiftedWithin(s.cpuHistory, r.cpuUsage, 10.0, 95.0);
    ShiftedWithin(s.memHistory, r.memoryUsage, 30.0, 85.0);
  }

  /** `(random - 0.5) * amplitude` lies within half the amplitude either way. */
  lemma StepBound(random: real, amplitude: real)
    requires IsRandom(random) && amplitude >= 0.0
    ensures -amplitude / 2.0 <= (random - 0.5) * amplitude <= amplitude / 2.0
  {
    assert (random - 0.5) * amplitude == random * amplitude - amplitude / 2.0;
    assert 0.0 <= random * amplitude;
    assert random * amplitude <= amplitude by {
      assert amplitude - random * amplitude == (1.0 - random) * amplitude;
    }
  }

  /** Clamping to bounds that hold `prev` never moves a value further from `prev`. */
  lemma ClampNear(prev: real, x: real, a: real, lo: real, hi: real)
    requires lo <= prev <= hi && prev - a <= x <= prev + a
    ensures prev - a <= Clamp(x, lo, hi) <= prev + a
  {
  }

  /** A random draw moves a reading inside its bounds by at most half its amplitude. */
  lemma DriftStep(prev: real, random: real, amplitude: real, lo: real, hi: real)
    requires lo <= prev <= hi && IsRandom(random) && amplitude >= 0.0
    ensures -amplitude / 2.0 <= Drift(prev, random, amplitude, lo, hi) - prev <= amplitude / 2.0
  {
    StepBound(random, amplitude);
    ClampNear(prev, prev + (random - 0.5) * amplitude, amplitude / 2.0, lo, hi);
  }

  function Run(s: Readings, draws: seq<Draws>): Readings
    decreases |draws|
  {
    if |draws| == 0 then s else Run(TickStep(s, draws[0]), draws[1..])
  }

  /** After `n` ticks the invariant still holds and the uptime has grown by `n`. */
  lemma {:induction false} RunKeeps(s: Readings, draws: seq<Draws>)
    requires Inv(s)
    ensures Inv(Run(s, draws)) && Run(s, draws).uptime == s.uptime + |draws|
    decreases |draws|
  {
    if |draws| > 0 {
      TickKeeps(s, draws[0]);
      RunKeeps(TickStep(s, draws[0]), draws[1..]);
    }
  }

  /** After `n` ticks from the start, the uptime shown is `n` seconds. */
  lemma Uptime(draws: seq<Draws>)
    ensures Inv(Run(InitialReadings, draws)) && Run(InitialReadings, draws).uptime == |draws|
  {
    InitialInv();
    RunKeeps(InitialReadings, draws);
  }

  /** The uptime shown after an hour, a minute and a second. */
  lemma UptimeExample()
    ensures FormatUptime(3661) == "1h 1m 1s"
  {
    assert UptimeParts(3661) == (1, 1, 1);
    assert NatToString(1) == "1";
  }
}
