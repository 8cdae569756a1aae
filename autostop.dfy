/** The auto-stop configuration: an immutable record with three presets, the
    adaptive silence threshold it computes, and the manager that holds the
    process-wide configuration, switches modes through property observers and
    persists both to a key/value store. Durations are seconds, as `real`. */
module AutoStop {
  import opened Basics

  datatype AutoStopConfiguration = AutoStopConfiguration(
    enabled: bool,
    threshold: real,
    adaptiveTimeout: bool,
    maxRecordingDuration: real)

  const Default := AutoStopConfiguration(true, 3.0, true, 60.0)
  const QuickMode := AutoStopConfiguration(true, 1.5, false, 30.0)
  const LearningMode := AutoStopConfiguration(true, 5.0, true, 120.0)

  /** The ranges the custom setter clamps to. */
  predicate InRange(c: AutoStopConfiguration) {
    0.5 <= c.threshold <= 10.0 && 10.0 <= c.maxRecordingDuration <= 300.0
  }

  /** Extra grace for an utterance already longer than 20 characters. */
  function LengthBonus(textLength: int): (b: real)
    ensures b == 1.0 <==> textLength > 20
    ensures b == 0.0 <==> textLength <= 20
  {
    if textLength > 20 then 1.0 else 0.0
  }

  /** Extra grace by the first two characters of the language code. */
  function LanguageBonus(language: string): (b: real)
    ensures b == 0.0 || b == 0.3 || b == 0.5
    ensures |language| < 2 ==> b == 0.0
  {
    var code := Prefix(language, 2);
    if code == "zh" || code == "ja" || code == "ko" then 0.5
    else if code == "de" || code == "fi" || code == "hu" then 0.3
    else 0.0
  }

  /** `getAdaptiveThreshold(for:language:)`. */
  function AdaptiveThreshold(c: AutoStopConfiguration, textLength: int, language: string): (t: real)
    ensures !c.adaptiveTimeout ==> t == c.threshold
    ensures c.adaptiveTimeout ==> t <= c.maxRecordingDuration
    ensures c.adaptiveTimeout && c.threshold <= c.maxRecordingDuration ==> c.threshold <= t
    ensures c.adaptiveTimeout && c.threshold + 1.5 <= c.maxRecordingDuration ==> t <= c.threshold + 1.5
  {
    if !c.adaptiveTimeout then c.threshold
    else Min(c.threshold + LengthBonus(textLength) + LanguageBonus(language), c.maxRecordingDuration)
  }

  /** With adaptation on, the result is the threshold plus the length bonus
      (1.0 exactly when the text is longer than 20) plus the language bonus,
      capped at the maximum recording duration. */
  lemma AdaptiveBonuses(c: AutoStopConfiguration, textLength: int, language: string)
    requires c.adaptiveTimeout
    ensures var t := AdaptiveThreshold(c, textLength, language);
      t == Min(c.threshold + (if textLength > 20 then 1.0 else 0.0) + LanguageBonus(language), c.maxRecordingDuration)
      && (textLength > 20 ==> t >= Min(c.threshold + 1.0, c.maxRecordingDuration))
  {
  }

  /** The language bonus is 0.5, 0.3 or 0, decided by the two-letter prefix alone. */
  lemma LanguageBonusByPrefix(language: string)
    ensures var code := Prefix(language, 2);
      (LanguageBonus(language) == 0.5 <==> code in {"zh", "ja", "ko"})
      && (LanguageBonus(language) == 0.3 <==> code in {"de", "fi", "hu"})
      && (LanguageBonus(language) == 0.0 <==> code !in {"zh", "ja", "ko", "de", "fi", "hu"})
  {
  }

  /** A region suffix does not matter: "zh-Hans" and "de_AT" get their family's bonus. */
  lemma LanguageBonusOfRegionalCode(family: string, region: string)
    requires |family| == 2
    ensures LanguageBonus(family + region) == LanguageBonus(family)
  {
    assert Prefix(family + region, 2) == family;
  }

  /** The adaptive threshold never falls as the text grows. */
  lemma AdaptiveMonotone(c: AutoStopConfiguration, m: int, n: int, language: string)
    requires m <= n
    ensures AdaptiveThreshold(c, m, language) <= AdaptiveThreshold(c, n, language)
  {
  }

  /** The configuration `setCustomConfiguration` builds: flags passed through,
      threshold clamped to [0.5, 10] and the maximum duration to [10, 300]. */
  function CustomConfiguration(enabled: bool, threshold: real, adaptive: bool, maxDuration: real): (c: AutoStopConfiguration)
    ensures InRange(c)
    ensures c.enabled == enabled && c.adaptiveTimeout == adaptive
    ensures 0.5 <= threshold <= 10.0 ==> c.threshold == threshold
    ensures 10.0 <= maxDuration <= 300.0 ==> c.maxRecordingDuration == maxDuration
    ensures threshold > 10.0 ==> c.threshold == 10.0
    ensures threshold < 0.5 ==> c.threshold == 0.5
    ensures maxDuration > 300.0 ==> c.maxRecordingDuration == 300.0
    ensures maxDuration < 10.0 ==> c.maxRecordingDuration == 10.0
  {
    AutoStopConfiguration(enabled, Clamp(0.5, 10.0, threshold), adaptive, Clamp(10.0, 300.0, maxDuration))
  }

  /** The presets are within the custom ranges, and the quick preset,
      which does not adapt, always gives 1.5 s. */
  lemma PresetsInRange()
    ensures InRange(Default) && InRange(QuickMode) && InRange(LearningMode)
    ensures forall n: int, l: string :: AdaptiveThreshold(QuickMode, n, l) == 1.5
  {
  }

  /** A value of the key/value store: encoded configuration data (`None` when
      it does not decode) or a boolean. */
  datatype StoredValue = ConfigData(decoded: Option<AutoStopConfiguration>) | Flag(flag: bool)

  type Store = map<string, StoredValue>

  const ConfigurationKey := "autoStopConfiguration"
  const LearningModeKey := "autoStopLearningMode"

  /** `loadConfiguration()`: the stored configuration, or the default preset
      when the key is absent or its data does not decode. */
  function LoadConfiguration(store: Store): (c: AutoStopConfiguration)
    ensures (ConfigurationKey !in store || store[ConfigurationKey] != ConfigData(Some(c))) ==> c == Default
    ensures forall d :: ConfigurationKey in store && store[ConfigurationKey] == ConfigData(Some(d)) ==> c == d
  {
    if ConfigurationKey in store && store[ConfigurationKey].ConfigData? && store[ConfigurationKey].decoded.Some?
    then store[ConfigurationKey].decoded.value
    else Default
  }

  /** `bool(forKey:)`: false unless a boolean is stored under the key. */
  predicate StoredFlag(store: Store, key: string): (r: bool)
    ensures r <==> key in store && store[key] == Flag(true)
  {
    key in store && store[key].Flag? && store[key].flag
  }

  /** `saveConfiguration()`: writes the configuration under its key, nothing else. */
  function SaveConfiguration(store: Store, c: AutoStopConfiguration): (r: Store)
    ensures r.Keys == store.Keys + {ConfigurationKey}
    ensures forall k :: k in store && k != ConfigurationKey ==> r[k] == store[k]
    ensures LoadConfiguration(r) == c
  {
    store[ConfigurationKey := ConfigData(Some(c))]
  }

  /** Whatever was stored before, loading after a save gives the saved
      configuration, and a later save replaces an earlier one. */
  lemma SaveThenLoad(store: Store, c: AutoStopConfiguration, d: AutoStopConfiguration)
    ensures LoadConfiguration(SaveConfiguration(store, c)) == c
    ensures SaveConfiguration(SaveConfiguration(store, c), d) == SaveConfiguration(store, d)
    ensures StoredFlag(SaveConfiguration(store, c), LearningModeKey) == StoredFlag(store, LearningModeKey)
  {
  }

  /** The configuration the learning-mode observer selects. */
  function ModeConfiguration(learning: bool): AutoStopConfiguration {
    if learning then LearningMode else Default
  }

  /** `AutoStopConfigurationManager`. Assigning `currentConfiguration` saves
      it; assigning `isLearningMode` stores the flag and then assigns the
      configuration for that mode (which saves it in turn). The observers do
      not run while the initialiser sets the fields. */
  class ConfigurationManager {
    var currentConfiguration: AutoStopConfiguration
    var isLearningMode: bool
    var defaults: Store

    constructor (store: Store)
      ensures currentConfiguration == LoadConfiguration(store)
      ensures isLearningMode == StoredFlag(store, LearningModeKey)
      ensures defaults == store
    {
      currentConfiguration := LoadConfiguration(store);
      isLearningMode := StoredFlag(store, LearningModeKey);
      defaults := store;
    }

    /** `currentConfiguration = c` together with its `didSet`. */
    method SetCurrentConfiguration(c: AutoStopConfiguration)
      modifies this
      ensures currentConfiguration == c && isLearningMode == old(isLearningMode)
      ensures defaults == SaveConfiguration(old(defaults), c)
    {
      currentConfiguration := c;
      defaults := SaveConfiguration(defaults, currentConfiguration);
    }

    /** `updateConfigurationForMode()`, the body of the `isLearningMode` observer. */
    method UpdateConfigurationForMode()
      modifies this
      ensures isLearningMode == old(isLearningMode)
      ensures currentConfiguration == ModeConfiguration(isLearningMode)
      ensures defaults == SaveConfiguration(old(defaults)[LearningModeKey := Flag(isLearningMode)], currentConfiguration)
    {
      defaults := defaults[LearningModeKey := Flag(isLearningMode)];
      if isLearningMode {
        SetCurrentConfiguration(LearningMode);
      } else {
        SetCurrentConfiguration(Default);
      }
    }

    /** `isLearningMode = learning` together with its `didSet`. */
    method SetLearningMode(learning: bool)
      modifies this
      ensures isLearningMode == learning
      ensures currentConfiguration == ModeConfiguration(learning)
      ensures defaults == SaveConfiguration(old(defaults)[LearningModeKey := Flag(learning)], ModeConfiguration(learning))
      ensures LoadConfiguration(defaults) == currentConfiguration
      ensures StoredFlag(defaults, LearningModeKey) == learning
    {
      isLearningMode := learning;
      UpdateConfigurationForMode();
    }

    /** `setQuickMode()`. It assigns the quick preset, but clearing the
      learning flag afterwards makes the observer assign the default preset,
      so the quick preset does not remain in effect. */
    method SetQuickMode()
      modifies this
      ensures !isLearningMode
      ensures currentConfiguration == Default
      ensures LoadConfiguration(defaults) == Default && !StoredFlag(defaults, LearningModeKey)
      ensures defaults == SaveConfiguration(old(defaults)[ConfigurationKey := ConfigData(Some(QuickMode))][LearningModeKey := Flag(false)], Default)
    {
      SetCurrentConfiguration(QuickMode);
      SetLearningMode(false);
    }

    /** `setCustomConfiguration(enabled:threshold:adaptive:maxDuration:)`. */
    method SetCustomConfiguration(enabled: bool, threshold: real, adaptive: bool, maxDuration: real)
      modifies this
      ensures currentConfiguration == CustomConfiguration(enabled, threshold, adaptive, maxDuration)
      ensures InRange(currentConfiguration)
      ensures isLearningMode == old(isLearningMode)
      ensures defaults == SaveConfiguration(old(defaults), currentConfiguration)
    {
      SetCurrentConfiguration(CustomConfiguration(enabled, threshold, adaptive, maxDuration));
    }

    /** `getEffectiveThreshold(for:language:)`: the current configuration's
        adaptive threshold for the text's length. */
    function EffectiveThreshold(text: string, language: string): (t: real)
      reads this
      ensures !currentConfiguration.adaptiveTimeout ==> t == currentConfiguration.threshold
      ensures currentConfiguration.adaptiveTimeout ==> t <= currentConfiguration.maxRecordingDuration
      ensures InRange(currentConfiguration) ==> currentConfiguration.threshold <= t
      ensures |text| <= 20 && LanguageBonus(language) == 0.0 && InRange(currentConfiguration) ==> t == currentConfiguration.threshold
    {
      AdaptiveThreshold(currentConfiguration, |text|, language)
    }
  }

  /** The clamp examples: a threshold of 20 s is stored as 10 s and a maximum
      duration of 5 s as 10 s. */
  lemma CustomClampExamples()
    ensures CustomConfiguration(true, 20.0, true, 60.0).threshold == 10.0
    ensures CustomConfiguration(true, 3.0, true, 5.0).maxRecordingDuration == 10.0
  {
  }
}
