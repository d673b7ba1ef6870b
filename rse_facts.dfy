/** What the responsibility store guarantees: clamped scores, a bounded global score and badges won once. */
module RseFacts {
  import opened Numbers
  import opened Strings
  import opened Rse

  predicate IsPercent(x: real) {
    0.0 <= x <= 100.0
  }

  /** Every score the store keeps lies in 0..100. */
  predicate InRange(m: RSEMetrics) {
    IsPercent(m.environmental.energyEfficiencyScore) && IsPercent(m.environmental.codeOptimizationLevel) &&
    IsPercent(m.environmental.carbonAwareness) && IsPercent(m.social.accessibilityScore) &&
    IsPercent(m.social.inclusivityLevel) && IsPercent(m.ethical.privacyScore) && IsPercent(m.ethical.dataTransparency)
  }

  /** What every metrics value reachable by green-command and positive-point actions satisfies. */
  predicate Inv(m: RSEMetrics) {
    NoDuplicates(m.rseBadges) && InRange(m) && 0 <= m.globalRSEScore <= 100
  }


  /** With every score in 0..100, each pillar is at most 100, so the global score lies in 0..100. */
  lemma ScoreBounds(m: RSEMetrics)
    requires InRange(m)
    ensures 0 <= Score(m) <= 100
  {
    var env := (m.environmental.energyEfficiencyScore + m.environmental.codeOptimizationLevel +
                m.environmental.carbonAwareness) / 3.0;
    var social := (m.social.accessibilityScore + m.social.inclusivityLevel +
                   (if m.social.adaptiveLearningUsed then 20.0 else 0.0)) / 2.2;
    var ethical := (m.ethical.privacyScore + m.ethical.dataTransparency +
                    (if m.ethical.consentGiven then 30.0 else 0.0) +
                    (if m.ethical.ethicalCharterAccepted then 20.0 else 0.0)) / 2.5;
    assert 0.0 <= env <= 100.0;
    assert 0.0 <= social <= 100.0;
    assert 0.0 <= ethical <= 100.0;
    RoundMono(0.0, (env + social + ethical) / 3.0);
    RoundMono((env + social + ethical) / 3.0, 100.0);
  }

  /** Every score at its maximum and every flag set give exactly 100. */
  lemma ScoreMaximum(m: RSEMetrics)
    requires m.environmental.energyEfficiencyScore == 100.0 && m.environmental.codeOptimizationLevel == 100.0
    requires m.environmental.carbonAwareness == 100.0 && m.social.accessibilityScore == 100.0
    requires m.social.inclusivityLevel == 100.0 && m.ethical.privacyScore == 100.0
    requires m.ethical.dataTransparency == 100.0
    requires m.social.adaptiveLearningUsed && m.ethical.consentGiven && m.ethical.ethicalCharterAccepted
    ensures Score(m) == 100
  {
    assert Round(100.0) == 100;
  }

  /** The stored initial global score, 50, is not what `calculateScore` gives for the initial metrics (53). */
  lemma InitialScoreStale()
    ensures InitialRSE.globalRSEScore == 50 && Score(InitialRSE) == 53
  {
    var x := ((50.0 + 50.0 + 0.0) / 3.0 + (50.0 + 50.0 + 0.0) / 2.2 + (100.0 + 100.0 + 0.0 + 0.0) / 2.5) / 3.0;
    assert 52.5 <= x < 53.5;
  }

  /** Giving consent, accepting the charter or enabling adaptive learning never lowers the score. */
  lemma FlagsRaiseScore(m: RSEMetrics)
    ensures Score(m) <= Score(m.(ethical := m.ethical.(consentGiven := true)))
    ensures Score(m) <= Score(m.(ethical := m.ethical.(ethicalCharterAccepted := true)))
    ensures Score(m) <= Score(m.(social := m.social.(adaptiveLearningUsed := true)))
  {
    var env := (m.environmental.energyEfficiencyScore + m.environmental.codeOptimizationLevel +
                m.environmental.carbonAwareness) / 3.0;
    var a := (if m.social.adaptiveLearningUsed then 20.0 else 0.0);
    var c := (if m.ethical.consentGiven then 30.0 else 0.0);
    var e := (if m.ethical.ethicalCharterAccepted then 20.0 else 0.0);
    var base := m.social.accessibilityScore + m.social.inclusivityLevel;
    var priv := m.ethical.privacyScore + m.ethical.dataTransparency;
    RoundMono((env + (base + a) / 2.2 + (priv + c + e) / 2.5) / 3.0, (env + (base + a) / 2.2 + (priv + 30.0 + e) / 2.5) / 3.0);
    RoundMono((env + (base + a) / 2.2 + (priv + c + e) / 2.5) / 3.0, (env + (base + a) / 2.2 + (priv + c + 20.0) / 2.5) / 3.0);
    RoundMono((env + (base + a) / 2.2 + (priv + c + e) / 2.5) / 3.0, (env + (base + 20.0) / 2.2 + (priv + c + e) / 2.5) / 3.0);
  }

  /** The environmental setters store the clamped value and change no other field than the global score. */
  lemma EnvironmentalSetters(m: RSEMetrics, x: real)
    ensures var r := EnergyStep(m, x);
      r.environmental == m.environmental.(energyEfficiencyScore := Percent(x)) && IsPercent(Percent(x)) &&
      r.social == m.social && r.ethical == m.ethical && r.rseBadges == m.rseBadges && r.globalRSEScore == Score(r)
    ensures var r := CodeStep(m, x);
      r.environmental == m.environmental.(codeOptimizationLevel := Percent(x)) &&
      r.social == m.social && r.ethical == m.ethical && r.rseBadges == m.rseBadges && r.globalRSEScore == Score(r)
  {
  }

  /** The social setters store the clamped value and change no other field than the global score. */
  lemma SocialSetters(m: RSEMetrics, x: real)
    ensures var r := AccessibilityStep(m, x);
      r.social == m.social.(accessibilityScore := Percent(x)) && IsPercent(Percent(x)) &&
      r.environmental == m.environmental && r.ethical == m.ethical && r.rseBadges == m.rseBadges &&
      r.globalRSEScore == Score(r)
    ensures var r := InclusivityStep(m, x);
      r.social == m.social.(inclusivityLevel := Percent(x)) &&
      r.environmental == m.environmental && r.ethical == m.ethical && r.rseBadges == m.rseBadges &&
      r.globalRSEScore == Score(r)
  {
  }

  /** The ethical setters store the clamped value and change no other field than the global score. */
  lemma EthicalSetters(m: RSEMetrics, x: real)
    ensures var r := PrivacyStep(m, x);
      r.ethical == m.ethical.(privacyScore := Percent(x)) && IsPercent(Percent(x)) &&
      r.environmental == m.environmental && r.social == m.social && r.rseBadges == m.rseBadges &&
      r.globalRSEScore == Score(r)
    ensures var r := TransparencyStep(m, x);
      r.ethical == m.ethical.(dataTransparency := Percent(x)) &&
      r.environmental == m.environmental && r.social == m.social && r.rseBadges == m.rseBadges &&
      r.globalRSEScore == Score(r)
  {
  }

  /** Carbon awareness is capped at 100 and stays non-negative for non-negative points. */
  lemma CarbonCapped(m: RSEMetrics, points: real)
    ensures CarbonStep(m, points).environmental.carbonAwareness <= 100.0
    ensures 0.0 <= points && 0.0 <= m.environmental.carbonAwareness ==>
      0.0 <= CarbonStep(m, points).environmental.carbonAwareness
  {
  }

  /** There is no lower bound: negative points take carbon awareness below 0. */
  lemma CarbonBelowZero()
    ensures CarbonStep(InitialRSE, -5.0).environmental.carbonAwareness == -5.0
  {
  }

  /** `eco-coder` is won exactly when the tenth green command is counted, unless already held. */
  lemma EcoCoder(m: RSEMetrics)
    ensures var r := GreenStep(m);
      r.environmental.greenCommandsUsed == m.environmental.greenCommandsUsed + 1 && m.rseBadges <= r.rseBadges &&
      forall b :: b in r.rseBadges <==>
        b in m.rseBadges || (b == "eco-coder" && m.environmental.greenCommandsUsed + 1 == 10)
  {
  }

  /** Giving consent, accepting the charter and unlocking a badge are idempotent, and each adds its badge. */
  lemma OnceOnly(m: RSEMetrics, badge: string)
    ensures ConsentStep(ConsentStep(m)) == ConsentStep(m) && "digital-citizen" in ConsentStep(m).rseBadges
    ensures ConsentStep(m).ethical.consentGiven
    ensures CharterStep(CharterStep(m)) == CharterStep(m) && "ethical-engaged" in CharterStep(m).rseBadges
    ensures CharterStep(m).ethical.ethicalCharterAccepted
    ensures UnlockStep(UnlockStep(m, badge), badge) == UnlockStep(m, badge)
    ensures badge in m.rseBadges ==> UnlockStep(m, badge) == m
  {
    var c := ConsentStep(m);
    assert c.ethical.(consentGiven := true) == c.ethical;
    var e := CharterStep(m);
    assert e.ethical.(ethicalCharterAccepted := true) == e.ethical;
  }

  /** `incrementHelpGiven` and `requestDataExport` add one to their counter and change nothing else, not even the score. */
  lemma CountersOnly(m: RSEMetrics)
    ensures HelpStep(m).social.helpGiven == m.social.helpGiven + 1
    ensures HelpStep(m).(social := m.social) == m
    ensures ExportStep(m).ethical.dataExportsRequested == m.ethical.dataExportsRequested + 1
    ensures ExportStep(m).(ethical := m.ethical) == m
  {
  }

  lemma WithBadgeDistinct(badges: seq<string>, badge: string)
    requires NoDuplicates(badges)
    ensures NoDuplicates(WithBadge(badges, badge)) && badges <= WithBadge(badges, badge)
  {
  }

  /** Every action of the store. */
  datatype Op =
    | Green | EnergyTo(score: real) | CodeTo(level: real) | Carbon(points: real)
    | AccessibilityTo(score: real) | InclusivityTo(level: real) | Help | Adaptive | Language(lang: string)
    | PrivacyTo(score: real) | TransparencyTo(score: real) | Consent | Export | Charter | Unlock(badge: string)
    | Recalculate

  function Apply(m: RSEMetrics, op: Op): RSEMetrics {
    match op
    case Green => GreenStep(m)
    case EnergyTo(score) => EnergyStep(m, score)
    case CodeTo(level) => CodeStep(m, level)
    case Carbon(points) => CarbonStep(m, points)
    case AccessibilityTo(score) => AccessibilityStep(m, score)
    case InclusivityTo(level) => InclusivityStep(m, level)
    case Help => HelpStep(m)
    case Adaptive => AdaptiveStep(m)
    case Language(lang) => LanguageStep(m, lang)
    case PrivacyTo(score) => PrivacyStep(m, score)
    case TransparencyTo(score) => TransparencyStep(m, score)
    case Consent => ConsentStep(m)
    case Export => ExportStep(m)
    case Charter => CharterStep(m)
    case Unlock(badge) => UnlockStep(m, badge)
    case Recalculate => Scored(m)
  }

  /** The terminal only ever raises carbon awareness. */
  predicate NonNegative(op: Op) {
    op.Carbon? ==> 0.0 <= op.points
  }

  lemma KeepsRange(m: RSEMetrics, op: Op)
    requires InRange(m) && NonNegative(op)
    ensures InRange(Apply(m, op))
  {
  }

  lemma KeepsBadges(m: RSEMetrics, op: Op)
    requires NoDuplicates(m.rseBadges)
    ensures NoDuplicates(Apply(m, op).rseBadges) && m.rseBadges <= Apply(m, op).rseBadges
  {
    match op {
      case Green =>
        WithBadgeDistinct(m.rseBadges, "eco-coder");
      case Consent =>
        WithBadgeDistinct(m.rseBadges, "digital-citizen");
      case Charter =>
        WithBadgeDistinct(m.rseBadges, "ethical-engaged");
      case Unlock(badge) =>
        WithBadgeDistinct(m.rseBadges, badge);
      case _ =>
    }
  }

  /** Every action keeps the invariant, as long as carbon awareness is never lowered; no action loses a badge. */
  lemma ApplyKeeps(m: RSEMetrics, op: Op)
    requires Inv(m) && NonNegative(op)
    ensures Inv(Apply(m, op)) && m.rseBadges <= Apply(m, op).rseBadges
  {
    KeepsRange(m, op);
    KeepsBadges(m, op);
    KeepsScore(m, op);
  }

  lemma KeepsScore(m: RSEMetrics, op: Op)
    requires 0 <= m.globalRSEScore <= 100 && InRange(Apply(m, op))
    ensures 0 <= Apply(m, op).globalRSEScore <= 100
  {
    var r := Apply(m, op);
    if !(op.Help? || op.Language? || op.Export? || op.Unlock?) {
      assert r.globalRSEScore == Score(r);
      ScoreBounds(r);
    }
  }

  function Run(m: RSEMetrics, ops: seq<Op>): RSEMetrics
    decreases |ops|
  {
    if |ops| == 0 then m else Run(Apply(m, ops[0]), ops[1..])
  }

  /** Any sequence of such actions from the initial metrics keeps the invariant. */
  lemma {:induction false} RunKeeps(m: RSEMetrics, ops: seq<Op>)
    requires Inv(m) && forall i :: 0 <= i < |ops| ==> NonNegative(ops[i])
    ensures Inv(Run(m, ops))
    decreases |ops|
  {
    if |ops| > 0 {
      ApplyKeeps(m, ops[0]);
      RunKeeps(Apply(m, ops[0]), ops[1..]);
    }
  }

  lemma Reachable(ops: seq<Op>)
    requires forall i :: 0 <= i < |ops| ==> NonNegative(ops[i])
    ensures Inv(Run(InitialRSE, ops))
  {
    RunKeeps(InitialRSE, ops);
  }
}
