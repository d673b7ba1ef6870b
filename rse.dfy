/**
 * The corporate-social-responsibility metrics of src/stores/rseStore.ts:
 * three pillars of scores and counters, a list of badges and a global score
 * recomputed after most actions. Each action is a function from the old
 * metrics to the new ones; `RSEStore` holds them in a field and rewrites it in
 * place. Scores are exact reals.
 */
module Rse {
  import opened Numbers

  datatype Environmental = Environmental(
    greenCommandsUsed: int, energyEfficiencyScore: real, codeOptimizationLevel: real, carbonAwareness: real)

  datatype Social = Social(
    accessibilityScore: real, inclusivityLevel: real, helpGiven: int, adaptiveLearningUsed: bool,
    languagePreference: string)

  datatype Ethical = Ethical(
    privacyScore: real, dataTransparency: real, consentGiven: bool, dataExportsRequested: int,
    ethicalCharterAccepted: bool)

  /** `RSEMetrics`. */
  datatype RSEMetrics = RSEMetrics(
    environmental: Environmental, social: Social, ethical: Ethical, rseBadges: seq<string>, globalRSEScore: int)

  /** The store's initial metrics: privacy and transparency at their maximum, the global score at 50. */
  const InitialRSE: RSEMetrics := RSEMetrics(
    Environmental(0, 50.0, 50.0, 0.0),
    Social(50.0, 50.0, 0, false, "fr"),
    Ethical(100.0, 100.0, false, 0, false),
    [], 50)

  /** A score as the setters store it. */
  function Percent(x: real): real {
    Clamp(x, 0.0, 100.0)
  }

  /** `calculateScore`: the mean of the three pillars, rounded. */
  function Score(m: RSEMetrics): int {
    PillarScore(m.environmental, m.social, m.ethical)
  }

  function PillarScore(e: Environmental, s: Social, t: Ethical): int {
    var env := (e.energyEfficiencyScore + e.codeOptimizationLevel + e.carbonAwareness) / 3.0;
    var social := (s.accessibilityScore + s.inclusivityLevel + (if s.adaptiveLearningUsed then 20.0 else 0.0)) / 2.2;
    var ethical := (t.privacyScore + t.dataTransparency + (if t.consentGiven then 30.0 else 0.0) +
                    (if t.ethicalCharterAccepted then 20.0 else 0.0)) / 2.5;
    Round((env + social + ethical) / 3.0)
  }

  /** `calculateGlobalScore`. */
  function Scored(m: RSEMetrics): RSEMetrics {
    m.(globalRSEScore := Score(m))
  }

  /** `unlockRSEBadge`: append the badge unless it is already there. */
  function WithBadge(badges: seq<string>, badge: string): (r: seq<string>)
    ensures badge in r && forall b :: b in r <==> b in badges || b == badge
  {
    if badge in badges then badges else badges + [badge]
  }

  /** `incrementGreenCommands`: one more green command, with `eco-coder` at the tenth. */
  function GreenStep(m: RSEMetrics): RSEMetrics {
    var n := m.environmental.greenCommandsUsed + 1;
    var badges := if n == 10 then WithBadge(m.rseBadges, "eco-coder") else m.rseBadges;
    Scored(m.(environmental := m.environmental.(greenCommandsUsed := n), rseBadges := badges))
  }

  /** `updateEnergyScore`. */
  function EnergyStep(m: RSEMetrics, score: real): RSEMetrics {
    Scored(m.(environmental := m.environmental.(energyEfficiencyScore := Percent(score))))
  }

  /** `updateCodeOptimization`. */
  function CodeStep(m: RSEMetrics, level: real): RSEMetrics {
    Scored(m.(environmental := m.environmental.(codeOptimizationLevel := Percent(level))))
  }

  /** `increaseCarbonAwareness`: capped at 100, with no lower bound. */
  function CarbonStep(m: RSEMetrics, points: real): RSEMetrics {
    var c := m.environmental.carbonAwareness + points;
    Scored(m.(environmental := m.environmental.(carbonAwareness := if 100.0 < c then 100.0 else c)))
  }

  /** `updateAccessibilityScore`. */
  function AccessibilityStep(m: RSEMetrics, score: real): RSEMetrics {
    Scored(m.(social := m.social.(accessibilityScore := Percent(score))))
  }

  /** `updateInclusivityLevel`. */
  function InclusivityStep(m: RSEMetrics, level: real): RSEMetrics {
    Scored(m.(social := m.social.(inclusivityLevel := Percent(level))))
  }

  /** `incrementHelpGiven`: no score update. */
  function HelpStep(m: RSEMetrics): RSEMetrics {
    m.(social := m.social.(helpGiven := m.social.helpGiven + 1))
  }

  /** `enableAdaptiveLearning`. */
  function AdaptiveStep(m: RSEMetrics): RSEMetrics {
    Scored(m.(social := m.social.(adaptiveLearningUsed := true)))
  }

  /** `setLanguagePreference`: no score update. */
  function LanguageStep(m: RSEMetrics, lang: string): RSEMetrics {
    m.(social := m.social.(languagePreference := lang))
  }

  /** `updatePrivacyScore`. */
  function PrivacyStep(m: RSEMetrics, score: real): RSEMetrics {
    Scored(m.(ethical := m.ethical.(privacyScore := Percent(score))))
  }

  /** `updateDataTransparency`. */
  function TransparencyStep(m: RSEMetrics, score: real): RSEMetrics {
    Scored(m.(ethical := m.ethical.(dataTransparency := Percent(score))))
  }

  /** `giveConsent`: the consent flag and the `digital-citizen` badge. */
  function ConsentStep(m: RSEMetrics): RSEMetrics {
    Scored(m.(ethical := m.ethical.(consentGiven := true), rseBadges := WithBadge(m.rseBadges, "digital-citizen")))
  }

  /** `requestDataExport`: no score update. */
  function ExportStep(m: RSEMetrics): RSEMetrics {
    m.(ethical := m.ethical.(dataExportsRequested := m.ethical.dataExportsRequested + 1))
  }

  /** `acceptEthicalCharter`: the charter flag and the `ethical-engaged` badge. */
  function CharterStep(m: RSEMetrics): RSEMetrics {
    Scored(m.(ethical := m.ethical.(ethicalCharterAccepted := true),
              rseBadges := WithBadge(m.rseBadges, "ethical-engaged")))
  }

  /** `unlockRSEBadge`: no score update. */
  function UnlockStep(m: RSEMetrics, badge: string): RSEMetrics {
    m.(rseBadges := WithBadge(m.rseBadges, badge))
  }

  /** The store. */
  class RSEStore {
    var metrics: RSEMetrics

    constructor ()
      ensures metrics == InitialRSE
    {
      metrics := InitialRSE;
    }

    method IncrementGreenCommands()
      modifies this
      ensures metrics == GreenStep(old(metrics))
    {
      var n := metrics.environmental.greenCommandsUsed + 1;
      var next := metrics.(environmental := metrics.environmental.(greenCommandsUsed := n));
      if n == 10 && "eco-coder" !in metrics.rseBadges {
        next := next.(rseBadges := metrics.rseBadges + ["eco-coder"]);
      }
      metrics := next;
      CalculateGlobalScore();
    }

    method UpdateEnergyScore(score: real)
      modifies this
      ensures metrics == EnergyStep(old(metrics), score)
    {
      metrics := metrics.(environmental := metrics.environmental.(energyEfficiencyScore := Percent(score)));
      CalculateGlobalScore();
    }

    method UpdateCodeOptimization(level: real)
      modifies this
      ensures metrics == CodeStep(old(metrics), level)
    {
      metrics := metrics.(environmental := metrics.environmental.(codeOptimizationLevel := Percent(level)));
      CalculateGlobalScore();
    }

    method IncreaseCarbonAwareness(points: real)
      modifies this
      ensures metrics == CarbonStep(old(metrics), points)
    {
      var c := metrics.environmental.carbonAwareness + points;
      if 100.0 < c {
        c := 100.0;
      }
      metrics := metrics.(environmental := metrics.environmental.(carbonAwareness := c));
      CalculateGlobalScore();
    }

    method UpdateAccessibilityScore(score: real)
      modifies this
      ensures metrics == AccessibilityStep(old(metrics), score)
    {
      metrics := metrics.(social := metrics.social.(accessibilityScore := Percent(score)));
      CalculateGlobalScore();
    }

    method UpdateInclusivityLevel(level: real)
      modifies this
      ensures metrics == InclusivityStep(old(metrics), level)
    {
      metrics := metrics.(social := metrics.social.(inclusivityLevel := Percent(level)));
      CalculateGlobalScore();
    }

    method IncrementHelpGiven()
      modifies this
      ensures metrics == HelpStep(old(metrics))
    {
      metrics := metrics.(social := metrics.social.(helpGiven := metrics.social.helpGiven + 1));
    }

    method EnableAdaptiveLearning()
      modifies this
      ensures metrics == AdaptiveStep(old(metrics))
    {
      metrics := metrics.(social := metrics.social.(adaptiveLearningUsed := true));
      CalculateGlobalScore();
    }

    method SetLanguagePreference(lang: string)
      modifies this
      ensures metrics == LanguageStep(old(metrics), lang)
    {
      metrics := metrics.(social := metrics.social.(languagePreference := lang));
    }

    method UpdatePrivacyScore(score: real)
      modifies this
      ensures metrics == PrivacyStep(old(metrics), score)
    {
      metrics := metrics.(ethical := metrics.ethical.(privacyScore := Percent(score)));
      CalculateGlobalScore();
    }

    method UpdateDataTransparency(score: real)
      modifies this
      ensures metrics == TransparencyStep(old(metrics), score)
    {
      metrics := metrics.(ethical := metrics.ethical.(dataTransparency := Percent(score)));
      CalculateGlobalScore();
    }

    method GiveConsent()
      modifies this
      ensures metrics == ConsentStep(old(metrics))
    {
      var next := metrics.(ethical := metrics.ethical.(consentGiven := true));
      if "digital-citizen" !in metrics.rseBadges {
        next := next.(rseBadges := metrics.rseBadges + ["digital-citizen"]);
      }
      metrics := next;
      CalculateGlobalScore();
    }

    method RequestDataExport()
      modifies this
      ensures metrics == ExportStep(old(metrics))
    {
      metrics := metrics.(ethical := metrics.ethical.(dataExportsRequested := metrics.ethical.dataExportsRequested + 1));
    }

    method AcceptEthicalCharter()
      modifies this
      ensures metrics == CharterStep(old(metrics))
    {
      var next := metrics.(ethical := metrics.ethical.(ethicalCharterAccepted := true));
      if "ethical-engaged" !in metrics.rseBadges {
        next := next.(rseBadges := metrics.rseBadges + ["ethical-engaged"]);
      }
      metrics := next;
      CalculateGlobalScore();
    }

    method UnlockRSEBadge(badge: string)
      modifies this
      ensures metrics == UnlockStep(old(metrics), badge)
    {
      if badge !in metrics.rseBadges {
        metrics := metrics.(rseBadges := metrics.rseBadges + [badge]);
      }
    }

    method CalculateGlobalScore()
      modifies this
      ensures metrics == Scored(old(metrics))
    {
      metrics := metrics.(globalRSEScore := Score(metrics));
    }
  }
}
