/** What the metrics store guarantees: the badge thresholds, the thirty-day log and the invariant every action keeps. */
module MetricsFacts {
  import opened Numbers
  import opened Strings
  import opened Metrics

  /** `incrementCommands` unlocks exactly the badge of the count it reaches, after the ones already won. */
  lemma CommandBadges(m: UserMetrics)
    ensures var r := CommandsStep(m); var n := m.commandsExecuted + 1;
      r.commandsExecuted == n && m.badges <= r.badges &&
      forall b :: b in r.badges <==>
        b in m.badges || (b == "first-command" && n == 1) || (b == "terminal-novice" && n == 10) ||
        (b == "terminal-expert" && n == 50)
  {
  }

  /** `incrementApps` unlocks exactly the badge of the count it reaches, after the ones already won. */
  lemma AppBadges(m: UserMetrics)
    ensures var r := AppsStep(m); var n := m.appsOpened + 1;
      r.appsOpened == n && m.badges <= r.badges &&
      forall b :: b in r.badges <==> b in m.badges || (b == "first-app" && n == 1) || (b == "app-explorer" && n == 5)
  {
  }

  /** `addBadge` twice is `addBadge` once, and a badge already won changes nothing. */
  lemma BadgeIdempotent(m: UserMetrics, badge: string)
    ensures BadgeStep(BadgeStep(m, badge), badge) == BadgeStep(m, badge)
    ensures badge in m.badges ==> BadgeStep(m, badge) == m
    ensures badge in BadgeStep(m, badge).badges
  {
  }

  lemma WithBadgeDistinct(badges: seq<string>, badge: string)
    requires NoDuplicates(badges)
    ensures NoDuplicates(WithBadge(badges, badge))
  {
  }

  lemma UnlockAtDistinct(badges: seq<string>, count: int, at: int, badge: string)
    requires NoDuplicates(badges)
    ensures NoDuplicates(UnlockAt(badges, count, at, badge)) && badges <= UnlockAt(badges, count, at, badge)
  {
    if count == at {
      WithBadgeDistinct(badges, badge);
    }
  }

  /** The energy figures depend on the time spent only. */
  predicate Settled(m: UserMetrics) {
    EnergyStep(m) == m
  }

  /** On settled metrics, `incrementFiles` and `incrementFolders` change their own counter and nothing else. */
  lemma CountersOnlyOwn(m: UserMetrics)
    requires Settled(m)
    ensures FilesStep(m) == m.(filesCreated := m.filesCreated + 1)
    ensures FoldersStep(m) == m.(foldersCreated := m.foldersCreated + 1)
    ensures Settled(CommandsStep(m)) && Settled(TimeStep(m, 0)) && TimeStep(m, 0) == m
  {
  }


  /** More time spent never saves less energy, CO2 or water, and no time saves none. */
  lemma EnergyMonotone(m1: UserMetrics, m2: UserMetrics)
    requires 0 <= m1.totalTimeSpent <= m2.totalTimeSpent
    ensures var e1 := EnergyStep(m1); var e2 := EnergyStep(m2);
      0.0 <= e1.energySaved <= e2.energySaved && 0.0 <= e1.co2Saved <= e2.co2Saved &&
      0.0 <= e1.waterSaved <= e2.waterSaved
  {
    var h1 := m1.totalTimeSpent as real / 3600.0;
    var h2 := m2.totalTimeSpent as real / 3600.0;
    assert 0.0 <= h1 <= h2;
    RoundMono(0.0, h1 * 60.0 * 10.0);
    RoundMono(h1 * 60.0 * 10.0, h2 * 60.0 * 10.0);
    RoundMono(0.0, h1 * 60.0 / 1000.0 * 475.0 * 10.0);
    RoundMono(h1 * 60.0 / 1000.0 * 475.0 * 10.0, h2 * 60.0 / 1000.0 * 475.0 * 10.0);
    RoundMono(0.0, h1 * 60.0 / 1000.0 * 1.5 * 100.0);
    RoundMono(h1 * 60.0 / 1000.0 * 1.5 * 100.0, h2 * 60.0 / 1000.0 * 1.5 * 100.0);
  }

  /** One hour in the simulator saves 60 Wh, 28.5 g of CO2 and 0.09 l of water. */
  lemma OneHour(m: UserMetrics)
    requires m.totalTimeSpent == 3600
    ensures EnergyStep(m).energySaved == 60.0 && EnergyStep(m).co2Saved == 28.5 && EnergyStep(m).waterSaved == 0.09
  {
    assert Round(600.0) == 600;
    assert Round(285.0) == 285;
    assert Round(9.0) == 9;
  }

  /** Updating today's entry of a log with distinct dates keeps them distinct. */
  lemma LoggedDistinct(days: seq<Day>, today: string, commands: int, timeSpent: int)
    requires DistinctDates(days)
    ensures DistinctDates(Logged(days, today, commands, timeSpent))
  {
  }

  lemma SuffixDistinct(days: seq<Day>, n: nat)
    requires DistinctDates(days)
    ensures DistinctDates(LastN(days, n))
  {
    DropDistinct(days, |days| - |LastN(days, n)|);
  }

  lemma DropDistinct(days: seq<Day>, d: nat)
    requires DistinctDates(days) && d <= |days|
    ensures DistinctDates(days[d..])
  {
    var r := days[d..];
    forall i, j | 0 <= i < j < |r|
      ensures r[i].date != r[j].date
    {
      assert r[i] == days[d + i];
      assert r[j] == days[d + j];
    }
  }

  /** In a log with distinct dates, the entry dated `today` is the one `DayIndex` finds. */
  lemma DayIndexAt(days: seq<Day>, today: string, p: int)
    requires DistinctDates(days) && 0 <= p < |days| && days[p].date == today
    ensures DayIndex(days, today) == p
  {
  }

  /** Where `Logged` leaves today's entry, and what it holds. */
  function TodayAt(days: seq<Day>, today: string): int {
    var k := DayIndex(days, today);
    if k >= 0 then k else |days|
  }

  lemma LoggedAt(days: seq<Day>, today: string, commands: int, timeSpent: int)
    ensures var l := Logged(days, today, commands, timeSpent); var k := DayIndex(days, today);
      |l| == (if k >= 0 then |days| else |days| + 1) && 0 <= TodayAt(days, today) < |l| &&
      l[TodayAt(days, today)] == (if k >= 0 then Day(today, days[k].commands + commands, days[k].timeSpent + timeSpent)
                                  else Day(today, commands, timeSpent))
  {
  }

  /**
   * `updateDailyActivity` keeps at most thirty entries with distinct dates;
   * on such a log, today's entry afterwards holds the counts it had (none if
   * it was missing) plus the new ones, and is the last entry when it is new.
   */
  lemma DailyToday(m: UserMetrics, today: string, commands: int, timeSpent: int)
    requires DistinctDates(m.dailyActivity) && |m.dailyActivity| <= KeptDays
    ensures var r := DailyStep(m, today, commands, timeSpent).dailyActivity;
      var k := DayIndex(m.dailyActivity, today);
      var j := DayIndex(r, today);
      |r| <= KeptDays && DistinctDates(r) && j >= 0 &&
      r[j] == (if k >= 0 then Day(today, m.dailyActivity[k].commands + commands, m.dailyActivity[k].timeSpent + timeSpent)
               else Day(today, commands, timeSpent)) &&
      (k == -1 ==> j == |r| - 1)
  {
    var days := m.dailyActivity;
    var l := Logged(days, today, commands, timeSpent);
    var r := LastN(l, KeptDays);
    LoggedDistinct(days, today, commands, timeSpent);
    SuffixDistinct(l, KeptDays);
    LoggedAt(days, today, commands, timeSpent);
    var pos := TodayAt(days, today);
    var d := |l| - |r|;
    assert d <= pos;
    assert r[pos - d] == l[pos];
    DayIndexAt(r, today, pos - d);
  }

  /** `updateDailyActivity` invents no other day: every entry not dated today was in the log before, unchanged. */
  lemma DailyOthers(m: UserMetrics, today: string, commands: int, timeSpent: int, e: Day)
    requires e in DailyStep(m, today, commands, timeSpent).dailyActivity && e.date != today
    ensures e in m.dailyActivity
  {
    var days := m.dailyActivity;
    var l := Logged(days, today, commands, timeSpent);
    var r := LastN(l, KeptDays);
    var i :| 0 <= i < |r| && r[i] == e;
    assert l[|l| - |r| + i] == e;
    LoggedOthers(days, today, commands, timeSpent, |l| - |r| + i);
  }

  lemma LoggedOthers(days: seq<Day>, today: string, commands: int, timeSpent: int, i: int)
    requires 0 <= i < |Logged(days, today, commands, timeSpent)|
    requires Logged(days, today, commands, timeSpent)[i].date != today
    ensures i < |days| && Logged(days, today, commands, timeSpent)[i] == days[i]
  {
  }

  /** Every action of the store. */
  datatype Op =
    | IncCommands | IncFiles | IncFolders | IncApps | Time(seconds: int) | Badge(badge: string)
    | Daily(today: string, commands: int, timeSpent: int) | Energy | Reset

  function Apply(m: UserMetrics, op: Op): UserMetrics {
    match op
    case IncCommands => CommandsStep(m)
    case IncFiles => FilesStep(m)
    case IncFolders => FoldersStep(m)
    case IncApps => AppsStep(m)
    case Time(seconds) => TimeStep(m, seconds)
    case Badge(badge) => BadgeStep(m, badge)
    case Daily(today, commands, timeSpent) => DailyStep(m, today, commands, timeSpent)
    case Energy => EnergyStep(m)
    case Reset => InitialMetrics
  }

  /** Every action keeps the invariant, and every action but a reset keeps the badges already won. */
  lemma ApplyKeeps(m: UserMetrics, op: Op)
    requires Inv(m)
    ensures Inv(Apply(m, op))
    ensures op != Reset ==> m.badges <= Apply(m, op).badges
  {
    match op
    case IncCommands =>
      var n := m.commandsExecuted + 1;
      UnlockAtDistinct(m.badges, n, 1, "first-command");
      var b1 := UnlockAt(m.badges, n, 1, "first-command");
      UnlockAtDistinct(b1, n, 10, "terminal-novice");
      var b2 := UnlockAt(b1, n, 10, "terminal-novice");
      UnlockAtDistinct(b2, n, 50, "terminal-expert");
    case IncApps =>
      var n := m.appsOpened + 1;
      UnlockAtDistinct(m.badges, n, 1, "first-app");
      UnlockAtDistinct(UnlockAt(m.badges, n, 1, "first-app"), n, 5, "app-explorer");
    case Badge(badge) =>
      WithBadgeDistinct(m.badges, badge);
    case Daily(today, commands, timeSpent) =>
      DailyToday(m, today, commands, timeSpent);
    case _ =>
  }

  function Run(m: UserMetrics, ops: seq<Op>): UserMetrics
    decreases |ops|
  {
    if |ops| == 0 then m else Run(Apply(m, ops[0]), ops[1..])
  }

  /** Any sequence of actions from the initial metrics keeps the invariant. */
  lemma {:induction false} RunKeeps(m: UserMetrics, ops: seq<Op>)
    requires Inv(m)
    ensures Inv(Run(m, ops))
    decreases |ops|
  {
    if |ops| > 0 {
      ApplyKeeps(m, ops[0]);
      RunKeeps(Apply(m, ops[0]), ops[1..]);
    }
  }

  lemma Reachable(ops: seq<Op>)
    ensures Inv(Run(InitialMetrics, ops))
  {
    RunKeeps(InitialMetrics, ops);
  }

  /** `k` calls of `incrementCommands`. */
  function Commands(m: UserMetrics, k: nat): UserMetrics {
    if k == 0 then m else CommandsStep(Commands(m, k - 1))
  }

  /** From fresh metrics, `k` commands win exactly the command badges whose thresholds `k` has reached. */
  lemma {:induction false} CommandThresholds(k: nat)
    ensures var m := Commands(InitialMetrics, k);
      m.commandsExecuted == k &&
      forall b :: b in m.badges <==>
        (b == "first-command" && k >= 1) || (b == "terminal-novice" && k >= 10) || (b == "terminal-expert" && k >= 50)
  {
    if k > 0 {
      CommandThresholds(k - 1);
      CommandBadges(Commands(InitialMetrics, k - 1));
    }
  }
}
