/**
 * The system monitor of src/components/apps/SystemMonitor.tsx: simulated CPU,
 * memory and temperature readings that drift by a random step every second
 * inside fixed bounds, the last thirty CPU and memory readings, the network
 * rates and the uptime in seconds.
 *
 * The random numbers of a tick are parameters (`Draws`), one per
 * `Math.random()` call. Readings are exact reals. `SystemMonitorWindow` holds
 * the state fields and its `Tick` rewrites them in place.
 */
module SystemMonitor {
  import opened Strings
  import opened Numbers

  /** The length of the CPU and memory histories. */
  const HistoryLength: nat := 30

  /** The readings of the monitor. */
  datatype Readings = Readings(
    cpuUsage: real, memoryUsage: real, cpuTemp: real, cpuHistory: seq<real>, memHistory: seq<real>,
    networkRx: real, networkTx: real, uptime: int)

  /** The values of the five `Math.random()` calls of one tick. */
  datatype Draws = Draws(cpu: real, memory: real, temp: real, rx: real, tx: real)

  /** A `Math.random()` value. */
  predicate IsRandom(x: real) {
    0.0 <= x < 1.0
  }

  /** `Array(n).fill(v)`. */
  function Filled(n: nat, v: real): (r: seq<real>)
    ensures |r| == n && forall i :: 0 <= i < n ==> r[i] == v
  {
    seq(n, _ => v)
  }

  /** The initial readings: 35 % CPU, 42 % memory, 52 degrees, histories filled with the first reading. */
  const InitialReadings: Readings :=
    Readings(35.0, 42.0, 52.0, Filled(HistoryLength, 35.0), Filled(HistoryLength, 42.0), 0.0, 0.0, 0)

  /** `[...h.slice(1), v]`: drop the oldest reading, append the new one. */
  function Shifted(h: seq<real>, v: real): (r: seq<real>)
    ensures |h| >= 1 ==> |r| == |h| && r[..|h| - 1] == h[1..]
    ensures |r| >= 1 && r[|r| - 1] == v
  {
    (if |h| == 0 then [] else h[1..]) + [v]
  }

  /** `Math.max(lo, Math.min(hi, prev + (random - 0.5) * amplitude))`. */
  function Drift(prev: real, random: real, amplitude: real, lo: real, hi: real): (r: real)
    requires lo <= hi
    ensures lo <= r <= hi
  {
    Clamp(prev + (random - 0.5) * amplitude, lo, hi)
  }

  /** One second of the interval. */
  function TickStep(s: Readings, d: Draws): (r: Readings)
    ensures 10.0 <= r.cpuUsage <= 95.0 && 30.0 <= r.memoryUsage <= 85.0 && 45.0 <= r.cpuTemp <= 75.0
    ensures r.cpuHistory == Shifted(s.cpuHistory, r.cpuUsage) && r.memHistory == Shifted(s.memHistory, r.memoryUsage)
    ensures r.networkRx == d.rx * 5000.0 && r.networkTx == d.tx * 2000.0
    ensures r.uptime == s.uptime + 1
  {
    var cpu := Drift(s.cpuUsage, d.cpu, 15.0, 10.0, 95.0);
    var mem := Drift(s.memoryUsage, d.memory, 5.0, 30.0, 85.0);
    Readings(cpu, mem, Drift(s.cpuTemp, d.temp, 3.0, 45.0, 75.0), Shifted(s.cpuHistory, cpu), Shifted(s.memHistory, mem),
             d.rx * 5000.0, d.tx * 2000.0, s.uptime + 1)
  }

  /** The parts of `formatUptime`: hours, minutes of the hour and seconds of the minute. */
  function UptimeParts(seconds: nat): (r: (nat, nat, nat))
    ensures r.0 * 3600 + r.1 * 60 + r.2 == seconds
    ensures r.1 < 60 && r.2 < 60
  {
    (seconds / 3600, seconds % 3600 / 60, seconds % 60)
  }

  /** `formatUptime`: `<h>h <m>m <s>s`. */
  function FormatUptime(seconds: nat): string {
    var (h, m, s) := UptimeParts(seconds);
    NatToString(h) + "h " + NatToString(m) + "m " + NatToString(s) + "s"
  }

  /** The monitor window's state. */
  class SystemMonitorWindow {
    const diskUsage: real
    var cpuUsage: real
    var memoryUsage: real
    var cpuTemp: real
    var cpuHistory: seq<real>
    var memHistory: seq<real>
    var networkRx: real
    var networkTx: real
    var uptime: int

    function State(): Readings
      reads this
    {
      Readings(cpuUsage, memoryUsage, cpuTemp, cpuHistory, memHistory, networkRx, networkTx, uptime)
    }

    constructor ()
      ensures State() == InitialReadings && diskUsage == 67.0
    {
      diskUsage := 67.0;
      cpuUsage := 35.0;
      memoryUsage := 42.0;
      cpuTemp := 52.0;
      cpuHistory := Filled(HistoryLength, 35.0);
      memHistory := Filled(HistoryLength, 42.0);
      networkRx := 0.0;
      networkTx := 0.0;
      uptime := 0;
    }

    method Tick(d: Draws)
      modifies this
      ensures State() == TickStep(old(State()), d)
    {
      cpuUsage := Drift(cpuUsage, d.cpu, 15.0, 10.0, 95.0);
      cpuHistory := (if |cpuHistory| == 0 then [] else cpuHistory[1..]) + [cpuUsage];
      memoryUsage := Drift(memoryUsage, d.memory, 5.0, 30.0, 85.0);
      memHistory := (if |memHistory| == 0 then [] else memHistory[1..]) + [memoryUsage];
      cpuTemp := Drift(cpuTemp, d.temp, 3.0, 45.0, 75.0);
      networkRx := d.rx * 5000.0;
      networkTx := d.tx * 2000.0;
      uptime := uptime + 1;
    }
  }
}
