/**
 * The learning metrics of src/stores/metricsStore.ts: counters, the badges
 * they unlock, the simulated energy savings and a thirty-day activity log.
 * Each action is a function from the old metrics to the new ones;
 * `MetricsStore` holds them in a field and rewrites it in place. "Today" is a
 * parameter. The energy figures are computed on exact reals.
 */
module Metrics {
  import opened Numbers
  import opened Strings

  /** One entry of `dailyActivity`. */
  datatype Day = Day(date: string, commands: int, timeSpent: int)

  /** `UserMetrics`. */
  datatype UserMetrics = UserMetrics(
    commandsExecuted: int, filesCreated: int, foldersCreated: int, appsOpened: int,
    totalTimeSpent: int, sessionsCount: int,
    energySaved: real, co2Saved: real, waterSaved: real,
    badges: seq<string>, dailyActivity: seq<Day>)

  /** `INITIAL_METRICS`. */
  const InitialMetrics: UserMetrics := UserMetrics(0, 0, 0, 0, 0, 1, 0.0, 0.0, 0.0, [], [])

  /** The number of days the activity log keeps. */
  const KeptDays: nat := 30

  /** `addBadge`: append the badge unless it is already there. */
  function WithBadge(badges: seq<string>, badge: string): (r: seq<string>)
    ensures badge in r && forall b :: b in r <==> b in badges || b == badge
  {
    if badge in badges then badges else badges + [badge]
  }

  /** The badge unlocked when a counter reaches `at`. */
  function UnlockAt(badges: seq<string>, count: int, at: int, badge: string): seq<string> {
    if count == at then WithBadge(badges, badge) else badges
  }

  /** `calculateEnergySavings`: 60 Wh saved per hour, 475 g of CO2 and 1.5 l of water per kWh. */
  function EnergyStep(m: UserMetrics): UserMetrics {
    var hours := m.totalTimeSpent as real / 3600.0;
    var energy := hours * 60.0;
    var co2 := energy / 1000.0 * 475.0;
    var water := energy / 1000.0 * 1.5;
    m.(energySaved := Round(energy * 10.0) as real / 10.0,
       co2Saved := Round(co2 * 10.0) as real / 10.0,
       waterSaved := Round(water * 100.0) as real / 100.0)
  }

  /** `incrementCommands`: one more command, with the badges for the 1st, 10th and 50th. */
  function CommandsStep(m: UserMetrics): UserMetrics {
    var n := m.commandsExecuted + 1;
    var badges := UnlockAt(UnlockAt(UnlockAt(m.badges, n, 1, "first-command"), n, 10, "terminal-novice"),
                           n, 50, "terminal-expert");
    EnergyStep(m.(commandsExecuted := n, badges := badges))
  }

  /** `incrementFiles`. */
  function FilesStep(m: UserMetrics): UserMetrics {
    EnergyStep(m.(filesCreated := m.filesCreated + 1))
  }

  /** `incrementFolders`. */
  function FoldersStep(m: UserMetrics): UserMetrics {
    EnergyStep(m.(foldersCreated := m.foldersCreated + 1))
  }

  /** `incrementApps`: one more app, with the badges for the 1st and 5th; no energy update. */
  function AppsStep(m: UserMetrics): UserMetrics {
    var n := m.appsOpened + 1;
    m.(appsOpened := n, badges := UnlockAt(UnlockAt(m.badges, n, 1, "first-app"), n, 5, "app-explorer"))
  }

  /** `addTimeSpent`. */
  function TimeStep(m: UserMetrics, seconds: int): UserMetrics {
    EnergyStep(m.(totalTimeSpent := m.totalTimeSpent + seconds))
  }

  /** `addBadge`. */
  function BadgeStep(m: UserMetrics, badge: string): UserMetrics {
    m.(badges := WithBadge(m.badges, badge))
  }

  /** `dailyActivity.findIndex((d) => d.date === today)`, or -1. */
  function DayIndex(days: seq<Day>, today: string): (r: int)
    ensures -1 <= r < |days|
    ensures r >= 0 ==> days[r].date == today && forall i :: 0 <= i < r ==> days[i].date != today
    ensures r == -1 ==> forall i :: 0 <= i < |days| ==> days[i].date != today
  {
    if |days| == 0 then -1
    else if days[0].date == today then 0
    else var k := DayIndex(days[1..], today); if k == -1 then -1 else k + 1
  }

  /** `slice(-n)`: the last `n` entries. */
  function LastN<T>(xs: seq<T>, n: nat): (r: seq<T>)
    ensures |r| == if |xs| <= n then |xs| else n
    ensures r == xs[|xs| - |r|..]
  {
    if |xs| <= n then xs else xs[|xs| - n..]
  }

  /** The log with today's counts added: into today's entry if there is one, as a new last entry otherwise. */
  function Logged(days: seq<Day>, today: string, commands: int, timeSpent: int): seq<Day> {
    var k := DayIndex(days, today);
    if k >= 0 then days[k := Day(today, days[k].commands + commands, days[k].timeSpent + timeSpent)]
    else days + [Day(today, commands, timeSpent)]
  }

  /** `updateDailyActivity`, with the date of today passed in. */
  function DailyStep(m: UserMetrics, today: string, commands: int, timeSpent: int): UserMetrics {
    m.(dailyActivity := LastN(Logged(m.dailyActivity, today, commands, timeSpent), KeptDays))
  }

  /** No two entries of the log share a date. */
  predicate DistinctDates(days: seq<Day>) {
    forall i, j :: 0 <= i < j < |days| ==> days[i].date != days[j].date
  }

  /** What every reachable metrics value satisfies. */
  predicate Inv(m: UserMetrics) {
    NoDuplicates(m.badges) && DistinctDates(m.dailyActivity) && |m.dailyActivity| <= KeptDays
  }

  /** The store. */
  class MetricsStore {
    var metrics: UserMetrics

    constructor ()
      ensures metrics == InitialMetrics
    {
      metrics := InitialMetrics;
    }

    method IncrementCommands()
      modifies this
      ensures metrics == CommandsStep(old(metrics))
    {
      var n := metrics.commandsExecuted + 1;
      var badges := metrics.badges;
      if n == 1 && "first-command" !in badges {
        badges := badges + ["first-command"];
      }
      if n == 10 && "terminal-novice" !in badges {
        badges := badges + ["terminal-novice"];
      }
      if n == 50 && "terminal-expert" !in badges {
        badges := badges + ["terminal-expert"];
      }
      metrics := metrics.(commandsExecuted := n, badges := badges);
      CalculateEnergySavings();
    }

    method IncrementFiles()
      modifies this
      ensures metrics == FilesStep(old(metrics))
    {
      metrics := metrics.(filesCreated := metrics.filesCreated + 1);
      CalculateEnergySavings();
    }

    method IncrementFolders()
      modifies this
      ensures metrics == FoldersStep(old(metrics))
    {
      metrics := metrics.(foldersCreated := metrics.foldersCreated + 1);
      CalculateEnergySavings();
    }

    method IncrementApps()
      modifies this
      ensures metrics == AppsStep(old(metrics))
    {
      var n := metrics.appsOpened + 1;
      var badges := metrics.badges;
      if n == 1 && "first-app" !in badges {
        badges := badges + ["first-app"];
      }
      if n == 5 && "app-explorer" !in badges {
        badges := badges + ["app-explorer"];
      }
      metrics := metrics.(appsOpened := n, badges := badges);
    }

    method AddTimeSpent(seconds: int)
      modifies this
      ensures metrics == TimeStep(old(metrics), seconds)
    {
      metrics := metrics.(totalTimeSpent := metrics.totalTimeSpent + seconds);
      CalculateEnergySavings();
    }

    method AddBadge(badge: string)
      modifies this
      ensures metrics == BadgeStep(old(metrics), badge)
    {
      if badge !in metrics.badges {
        metrics := metrics.(badges := metrics.badges + [badge]);
      }
    }

    method UpdateDailyActivity(today: string, commands: int, timeSpent: int)
      modifies this
      ensures metrics == DailyStep(old(metrics), today, commands, timeSpent)
    {
      var days := metrics.dailyActivity;
      var k := DayIndex(days, today);
      if k >= 0 {
        days := days[k := Day(today, days[k].commands + commands, days[k].timeSpent + timeSpent)];
      } else {
        days := days + [Day(today, commands, timeSpent)];
      }
      metrics := metrics.(dailyActivity := LastN(days, KeptDays));
    }

    method CalculateEnergySavings()
      modifies this
      ensures metrics == EnergyStep(old(metrics))
    {
      metrics := EnergyStep(metrics);
    }

    method ResetMetrics()
      modifies this
      ensures metrics == InitialMetrics
    {
      metrics := InitialMetrics;
    }
  }
}
