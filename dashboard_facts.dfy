/** What the dashboard's time format and badges guarantee. */
module DashboardFacts {
  import opened Strings
  import opened Metrics
  import opened Dashboard

  /** For a time spent, the minutes are those of the last hour and the seconds left over are under a minute. */
  lemma TimeParts(seconds: int)
    requires seconds >= 0
    ensures 0 <= Minutes(seconds) < 60 && Hours(seconds) >= 0
    ensures Hours(seconds) * 3600 + Minutes(seconds) * 60 <= seconds < Hours(seconds) * 3600 + Minutes(seconds) * 60 + 60
  {
  }

  /** The hours appear exactly from one hour on, for any integer. */
  lemma HoursShown(seconds: int)
    ensures Hours(seconds) > 0 <==> seconds >= 3600
  {
  }

  /** For a time spent, the minutes are those of the Euclidean remainder. */
  lemma MinutesOf(seconds: int)
    requires seconds >= 0
    ensures Minutes(seconds) == seconds % 3600 / 60
  {
    JsRemNonNegative(seconds, 3600);
  }

  /** What is shown, for a time spent. */
  lemma FormatShape(seconds: int)
    requires seconds >= 0
    ensures seconds >= 3600 ==>
      FormatTime(seconds) == NatToString(seconds / 3600) + "h " + NatToString(seconds % 3600 / 60) + "min"
    ensures seconds < 3600 ==> FormatTime(seconds) == NatToString(seconds / 60) + "min"
  {
    HoursShown(seconds);
    MinutesOf(seconds);
  }

  /**
   * A negative time never shows hours, and its minutes lie between -60 and 0:
   * the truncated remainder rounded down, so one second short of zero shows
   * `-1min`.
   */
  lemma NegativeTime(seconds: int)
    requires seconds < 0
    ensures FormatTime(seconds) == IntToString(Minutes(seconds)) + "min"
    ensures -60 <= Minutes(seconds) <= 0
    ensures FormatTime(-1) == "-1min"
  {
    HoursShown(seconds);
    HoursShown(-1);
    assert JsRem(-1, 3600) == -1;
    assert Minutes(-1) == -1;
    assert IntToString(-1) == "-" + NatToString(1);
  }

  /** The seconds left over from the last minute are dropped. */
  lemma SecondsDropped(seconds: int)
    requires seconds >= 0
    ensures FormatTime(seconds) == FormatTime(seconds / 60 * 60)
  {
    var t := seconds / 60 * 60;
    MinutesOf(seconds);
    MinutesOf(t);
    assert t / 3600 == seconds / 3600;
    assert t % 3600 / 60 == seconds % 3600 / 60;
  }

  /** 5400 seconds are shown as `1h 30min`, 59 seconds as `0min`. */
  lemma FormatExamples()
    ensures FormatTime(5400) == "1h 30min"
    ensures FormatTime(59) == "0min"
  {
    assert NatToString(1) == "1";
    assert NatToString(30) == NatToString(3) + "0";
    assert NatToString(0) == "0";
  }

  /** A badge other than `eco-warrior` is shown unlocked once earned, and stays so as badges are added. */
  lemma BadgeShown(m: UserMetrics, i: nat, badge: string)
    requires i < |BadgeIds| && BadgeIds[i] != EcoWarrior
    ensures ShownBadges(m)[i].unlocked <==> BadgeIds[i] in m.badges
    ensures ShownBadges(m)[i].unlocked ==> ShownBadges(BadgeStep(m, badge))[i].unlocked
  {
  }

  /** The first command unlocks the first badge on the dashboard. */
  lemma FirstCommandShown(m: UserMetrics)
    requires m.commandsExecuted == 0
    ensures ShownBadges(CommandsStep(m))[0].unlocked
  {
    assert "first-command" in CommandsStep(m).badges;
  }

  /** `eco-warrior` is never earned through the metrics' badge list: only the energy saved counts. */
  lemma EcoWarriorByEnergy(m: UserMetrics)
    requires EcoWarrior in m.badges && m.energySaved <= 50.0
    ensures !ShownBadges(m)[5].unlocked
  {
  }
}
