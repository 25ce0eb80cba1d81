/** The accessibility panel: each switch negates one flag of the
    configuration and keeps the other two. */
module A11yHub {
  import opened Types

  /** The keys of an accessibility configuration. */
  datatype A11yKey = SimplifiedLanguage | HighContrast | VoiceGuidance

  function Get(config: AccessibilityConfig, key: A11yKey): bool
  {
    match key
    case SimplifiedLanguage => config.simplifiedLanguage
    case HighContrast => config.highContrast
    case VoiceGuidance => config.voiceGuidance
  }

  /** The configuration with one flag negated. */
  function Toggle(config: AccessibilityConfig, key: A11yKey): (r: AccessibilityConfig)
    ensures Get(r, key) == !Get(config, key)
    ensures forall other :: other != key ==> Get(r, other) == Get(config, other)
  {
    match key
    case SimplifiedLanguage => config.(simplifiedLanguage := !config.simplifiedLanguage)
    case HighContrast => config.(highContrast := !config.highContrast)
    case VoiceGuidance => config.(voiceGuidance := !config.voiceGuidance)
  }

  /** Toggling the same flag twice restores the configuration. */
  lemma ToggleTwice(config: AccessibilityConfig, key: A11yKey)
    ensures Toggle(Toggle(config, key), key) == config
  {
  }

  /** Toggles of two flags commute. */
  lemma ToggleCommutes(config: AccessibilityConfig, a: A11yKey, b: A11yKey)
    ensures Toggle(Toggle(config, a), b) == Toggle(Toggle(config, b), a)
  {
  }

  /** Every switch changes the configuration, and two different switches
      never have the same effect. */
  lemma ToggleDistinct(config: AccessibilityConfig, a: A11yKey, b: A11yKey)
    ensures Toggle(config, a) != config
    ensures Toggle(config, a) == Toggle(config, b) <==> a == b
  {
    assert Get(Toggle(config, a), a) != Get(config, a);
    if a != b {
      assert Get(Toggle(config, a), a) != Get(Toggle(config, b), a);
    }
  }
}
