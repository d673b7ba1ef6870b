/** What the accessibility settings and the panel's score guarantee. */
module AccessibilityFacts {
  import opened Wrappers
  import Rse
  import opened Accessibility

  /** A toggle flips its own flag, keeps the three choices, and undoes itself. */
  lemma ToggleFlips(s: Settings, f: Flag)
    ensures Get(Toggled(s, f), f) == !Get(s, f)
    ensures Toggled(s, f).fontSize == s.fontSize && Toggled(s, f).colorBlindMode == s.colorBlindMode
    ensures Toggled(s, f).language == s.language
    ensures Toggled(Toggled(s, f), f) == s
  {
  }

  /** A toggle keeps every other flag. */
  lemma ToggleKeepsOthers(s: Settings, f: Flag, g: Flag)
    requires g != f
    ensures Get(Toggled(s, f), g) == Get(s, g)
  {
    match f
    case HighContrast =>
    case DyslexiaFont =>
    case ReducedMotion =>
    case KeyboardNavigation =>
    case ScreenReaderOptimized =>
    case FocusIndicators =>
    case SimplifiedUI =>
    case Tooltips =>
    case SoundEffects =>
    case VoiceFeedback =>
  }

  /** Each font size has its own class, and only `none` has no colour filter. */
  lemma HelpersTotal(a: FontSize, b: FontSize, m: ColorBlindMode, n: ColorBlindMode)
    ensures FontSizeClass(a) == FontSizeClass(b) <==> a == b
    ensures ColorBlindFilter(m).None? <==> m == NoColorFilter
    ensures ColorBlindFilter(m) == ColorBlindFilter(n) <==> m == n
    ensures DyslexiaFontClass(true) != DyslexiaFontClass(false)
  {
  }

  /** What a flag is worth in the panel's score. */
  function Weight(f: Flag): int {
    match f
    case DyslexiaFont => 10
    case HighContrast => 10
    case KeyboardNavigation => 10
    case ScreenReaderOptimized => 10
    case FocusIndicators => 5
    case Tooltips => 5
    case _ => 0
  }

  /** The score lies in 50..100, so the cap at 100 never changes it. */
  lemma ScoreBounds(s: Settings)
    ensures 50 <= RawScore(s) <= 100 && PanelScore(s) == RawScore(s)
  {
  }

  /** Turning a flag on adds its weight, turning it off removes it; the other flags do not count. */
  lemma ToggleScore(s: Settings, f: Flag)
    ensures PanelScore(Toggled(s, f)) == PanelScore(s) + (if Get(s, f) then -Weight(f) else Weight(f))
  {
    ScoreBounds(s);
    ScoreBounds(Toggled(s, f));
    match f
    case HighContrast =>
    case DyslexiaFont =>
    case ReducedMotion =>
    case KeyboardNavigation =>
    case ScreenReaderOptimized =>
    case FocusIndicators =>
    case SimplifiedUI =>
    case Tooltips =>
    case SoundEffects =>
    case VoiceFeedback =>
  }

  /** Enabling a flag never lowers the score, and enabling one that is not counted leaves it unchanged. */
  lemma EnablingNeverLowers(s: Settings, f: Flag)
    requires !Get(s, f)
    ensures PanelScore(s) <= PanelScore(Toggled(s, f))
    ensures Weight(f) == 0 ==> PanelScore(Toggled(s, f)) == PanelScore(s)
  {
    ToggleScore(s, f);
  }

  /** The default settings score 70: keyboard navigation, focus indicators and tooltips. */
  lemma DefaultScore()
    ensures PanelScore(DefaultSettings) == 70
  {
  }

  /** Every score the panel sends is taken as is by the responsibility store's clamp. */
  lemma SentScoreUnclamped(s: Settings)
    ensures Rse.Percent(PanelScore(s) as real) == PanelScore(s) as real
  {
    ScoreBounds(s);
  }

  /**
   * As written, a click on a counted flag sends the score of the settings
   * before the click; from the defaults, enabling the dyslexia font sends 70
   * where the new settings score 80.
   */
  lemma StaleScore(s: Settings, f: Flag)
    requires Weight(f) != 0
    ensures HandleToggleAsWritten(s, f).1 != PanelScore(HandleToggleAsWritten(s, f).0)
    ensures HandleToggleAsWritten(DefaultSettings, DyslexiaFont).1 == 70
    ensures PanelScore(HandleToggleAsWritten(DefaultSettings, DyslexiaFont).0) == 80
  {
    ToggleScore(s, f);
    ToggleScore(DefaultSettings, DyslexiaFont);
  }

  /** As intended, the score sent is that of the new settings: the old score moved by the flag's weight. */
  lemma FreshScore(s: Settings, f: Flag)
    ensures HandleToggle(s, f).0 == Toggled(s, f)
    ensures HandleToggle(s, f).1 == PanelScore(s) + (if Get(s, f) then -Weight(f) else Weight(f))
    ensures HandleToggle(DefaultSettings, DyslexiaFont).1 == 80
  {
    ToggleScore(s, f);
    ToggleScore(DefaultSettings, DyslexiaFont);
  }
}
