/**
 * The accessibility settings of src/stores/accessibilityStore.ts, their CSS
 * helpers, and the score src/components/AccessibilityPanel.tsx derives from
 * them and pushes to the responsibility store. `AccessibilityStore` holds the
 * settings in a field and rewrites it in place; `setLanguage` also updates the
 * responsibility store, passed in as an object.
 */
module Accessibility {
  import opened Wrappers
  import Rse

  datatype FontSize = Small | Medium | Large | ExtraLarge

  datatype ColorBlindMode = NoColorFilter | Protanopia | Deuteranopia | Tritanopia

  datatype Language = Fr | En | Es | De

  /** `AccessibilitySettings`. */
  datatype Settings = Settings(
    fontSize: FontSize, highContrast: bool, dyslexiaFont: bool, reducedMotion: bool,
    colorBlindMode: ColorBlindMode, keyboardNavigation: bool, screenReaderOptimized: bool,
    focusIndicators: bool, language: Language, simplifiedUI: bool, tooltipsEnabled: bool,
    soundEffects: bool, voiceFeedback: bool)

  /** `defaultSettings`. */
  const DefaultSettings: Settings :=
    Settings(Medium, false, false, false, NoColorFilter, true, false, true, Fr, false, true, false, false)

  /** The boolean settings, one per toggle action. */
  datatype Flag =
    | HighContrast | DyslexiaFont | ReducedMotion | KeyboardNavigation | ScreenReaderOptimized
    | FocusIndicators | SimplifiedUI | Tooltips | SoundEffects | VoiceFeedback

  function Get(s: Settings, f: Flag): bool {
    match f
    case HighContrast => s.highContrast
    case DyslexiaFont => s.dyslexiaFont
    case ReducedMotion => s.reducedMotion
    case KeyboardNavigation => s.keyboardNavigation
    case ScreenReaderOptimized => s.screenReaderOptimized
    case FocusIndicators => s.focusIndicators
    case SimplifiedUI => s.simplifiedUI
    case Tooltips => s.tooltipsEnabled
    case SoundEffects => s.soundEffects
    case VoiceFeedback => s.voiceFeedback
  }

  /** The toggle action of flag `f`: `{ ...settings, f: !settings.f }`. */
  function Toggled(s: Settings, f: Flag): Settings {
    match f
    case HighContrast => s.(highContrast := !s.highContrast)
    case DyslexiaFont => s.(dyslexiaFont := !s.dyslexiaFont)
    case ReducedMotion => s.(reducedMotion := !s.reducedMotion)
    case KeyboardNavigation => s.(keyboardNavigation := !s.keyboardNavigation)
    case ScreenReaderOptimized => s.(screenReaderOptimized := !s.screenReaderOptimized)
    case FocusIndicators => s.(focusIndicators := !s.focusIndicators)
    case SimplifiedUI => s.(simplifiedUI := !s.simplifiedUI)
    case Tooltips => s.(tooltipsEnabled := !s.tooltipsEnabled)
    case SoundEffects => s.(soundEffects := !s.soundEffects)
    case VoiceFeedback => s.(voiceFeedback := !s.voiceFeedback)
  }

  /** The language code the responsibility store receives. */
  function LanguageCode(lang: Language): string {
    match lang
    case Fr => "fr"
    case En => "en"
    case Es => "es"
    case De => "de"
  }

  /** `getFontSizeClass`. */
  function FontSizeClass(size: FontSize): string {
    match size
    case Small => "text-sm"
    case Medium => "text-base"
    case Large => "text-lg"
    case ExtraLarge => "text-xl"
  }

  /** `getDyslexiaFontClass`. */
  function DyslexiaFontClass(enabled: bool): string {
    if enabled then "font-opendyslexic" else ""
  }

  /** `getColorBlindFilter`: no filter for `none`. */
  function ColorBlindFilter(mode: ColorBlindMode): Option<string> {
    match mode
    case NoColorFilter => None
    case Protanopia => Some("url(#protanopia-filter)")
    case Deuteranopia => Some("url(#deuteranopia-filter)")
    case Tritanopia => Some("url(#tritanopia-filter)")
  }

  function Bonus(enabled: bool, points: int): int {
    if enabled then points else 0
  }

  /** The panel's `calculateScore` before the cap: 50, 10 per major aid and 5 per minor one. */
  function RawScore(s: Settings): int {
    50 + Bonus(s.dyslexiaFont, 10) + Bonus(s.highContrast, 10) + Bonus(s.keyboardNavigation, 10) +
    Bonus(s.screenReaderOptimized, 10) + Bonus(s.focusIndicators, 5) + Bonus(s.tooltipsEnabled, 5)
  }

  /** The score the panel sends: `Math.min(100, score)`. */
  function PanelScore(s: Settings): int {
    if RawScore(s) < 100 then RawScore(s) else 100
  }

  /**
   * The panel's `handleToggle` as written: the timer runs the `calculateScore`
   * of the render the click came from, which still sees the settings before
   * the toggle. Returns the new settings and the score sent.
   */
  function HandleToggleAsWritten(s: Settings, f: Flag): (Settings, int) {
    (Toggled(s, f), PanelScore(s))
  }

  /** `handleToggle` as evidently intended: the score of the settings after the toggle. */
  function HandleToggle(s: Settings, f: Flag): (Settings, int) {
    var t := Toggled(s, f);
    (t, PanelScore(t))
  }

  /** The store. */
  class AccessibilityStore {
    var settings: Settings

    constructor ()
      ensures settings == DefaultSettings
    {
      settings := DefaultSettings;
    }

    method SetFontSize(size: FontSize)
      modifies this
      ensures settings == old(settings).(fontSize := size)
    {
      settings := settings.(fontSize := size);
    }

    method ToggleHighContrast()
      modifies this
      ensures settings == Toggled(old(settings), HighContrast)
    {
      settings := settings.(highContrast := !settings.highContrast);
    }

    method ToggleDyslexiaFont()
      modifies this
      ensures settings == Toggled(old(settings), DyslexiaFont)
    {
      settings := settings.(dyslexiaFont := !settings.dyslexiaFont);
    }

    method ToggleReducedMotion()
      modifies this
      ensures settings == Toggled(old(settings), ReducedMotion)
    {
      settings := settings.(reducedMotion := !settings.reducedMotion);
    }

    method SetColorBlindMode(mode: ColorBlindMode)
      modifies this
      ensures settings == old(settings).(colorBlindMode := mode)
    {
      settings := settings.(colorBlindMode := mode);
    }

    method ToggleKeyboardNavigation()
      modifies this
      ensures settings == Toggled(old(settings), KeyboardNavigation)
    {
      settings := settings.(keyboardNavigation := !settings.keyboardNavigation);
    }

    method ToggleScreenReaderOptimized()
      modifies this
      ensures settings == Toggled(old(settings), ScreenReaderOptimized)
    {
      settings := settings.(screenReaderOptimized := !settings.screenReaderOptimized);
    }

    method ToggleFocusIndicators()
      modifies this
      ensures settings == Toggled(old(settings), FocusIndicators)
    {
      settings := settings.(focusIndicators := !settings.focusIndicators);
    }

    /** Also records the language in the responsibility store. */
    method SetLanguage(lang: Language, rse: Rse.RSEStore)
      modifies this, rse
      ensures settings == old(settings).(language := lang)
      ensures rse.metrics == Rse.LanguageStep(old(rse.metrics), LanguageCode(lang))
    {
      settings := settings.(language := lang);
      rse.SetLanguagePreference(LanguageCode(lang));
    }

    method ToggleSimplifiedUI()
      modifies this
      ensures settings == Toggled(old(settings), SimplifiedUI)
    {
      settings := settings.(simplifiedUI := !settings.simplifiedUI);
    }

    method ToggleTooltips()
      modifies this
      ensures settings == Toggled(old(settings), Tooltips)
    {
      settings := settings.(tooltipsEnabled := !settings.tooltipsEnabled);
    }

    method ToggleSoundEffects()
      modifies this
      ensures settings == Toggled(old(settings), SoundEffects)
    {
      settings := settings.(soundEffects := !settings.soundEffects);
    }

    method ToggleVoiceFeedback()
      modifies this
      ensures settings == Toggled(old(settings), VoiceFeedback)
    {
      settings := settings.(voiceFeedback := !settings.voiceFeedback);
    }

    method ResetToDefaults()
      modifies this
      ensures settings == DefaultSettings
    {
      settings := DefaultSettings;
    }
  }
}
