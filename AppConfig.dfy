/**
 * Application configuration: the seven sections of a configuration, the
 * `new` constructors with the application's defaults, the derived `Default`
 * values (zero and empty fields), and validation of the speech-to-text model,
 * the language and the clipboard capacity.
 */
module AppConfig {
  import opened Common

  /** `DEFAULT_CLIPBOARD_CAPACITY`. */
  const DefaultClipboardCapacity: nat := 500
  /** `MAX_CLIPBOARD_HISTORY`. */
  const MaxClipboardHistory: nat := 10000
  /** `DEFAULT_SAMPLE_RATE`. */
  const DefaultSampleRate: nat := 16000
  /** `DEFAULT_VAD_SENSITIVITY`. */
  const DefaultVadSensitivity: real := 0.5
  /** `DEFAULT_VAD_TIMEOUT`, in milliseconds. */
  const DefaultVadTimeout: nat := 2000
  /** `DEFAULT_STT_MODEL`. */
  const DefaultSttModel: string := "base"
  /** `DEFAULT_HOTKEY` and `DEFAULT_HISTORY_HOTKEY`. */
  const DefaultHotkey: string := "Ctrl+Alt+S"
  const DefaultHistoryHotkey: string := "Ctrl+Alt+H"
  /** Ten megabytes, the largest clipboard item. */
  const DefaultMaxItemSize: nat := 10 * 1024 * 1024

  /** `SUPPORTED_STT_MODELS`. */
  const SupportedSttModels: seq<string> := ["tiny", "base", "small", "medium", "large"]

  /** `SUPPORTED_LANGUAGES` (ISO 639-1 codes). */
  const SupportedLanguages: seq<string> :=
    ["en", "es", "fr", "de", "it", "pt", "ru", "ja", "ko", "zh", "ar", "hi", "nl", "sv", "da", "no",
     "fi", "pl", "tr", "uk"]

  datatype AudioConfig = AudioConfig(
    sample_rate: nat, channels: nat, vad_sensitivity: real, vad_timeout: nat,
    noise_reduction: bool, device_name: string)

  datatype SttConfig = SttConfig(
    backend: string, model_size: string, language: string, enable_punctuation: bool,
    enable_capitalization: bool, api_key: string, api_endpoint: string)

  datatype ClipboardConfig = ClipboardConfig(
    max_history: nat, auto_save: bool, monitor_clipboard: bool, max_item_size: nat)

  datatype HotkeyConfig = HotkeyConfig(
    primary: string, history_palette: string, quick_access: seq<string>, enable_global: bool)

  /** `PasteMode`; its derived default is `Both`. */
  datatype PasteMode = ClipboardOnly | PasteOnly | Both

  /** `FallbackMethod`; its derived default is `Clipboard`. */
  datatype FallbackMethod = ClipboardFallback | Manual | ErrorFallback

  datatype PasteConfig = PasteConfig(
    mode: PasteMode, fallback: FallbackMethod, restore_clipboard: bool, delay: nat)

  datatype PrivacyConfig = PrivacyConfig(
    data_retention: string, auto_expiry: bool, sensitive_apps: seq<string>,
    encrypt_storage: bool, enable_analytics: bool)

  datatype UiConfig = UiConfig(
    show_tray: bool, start_minimized: bool, theme: string, enable_notifications: bool,
    notification_duration: nat)

  datatype Config = Config(
    audio: AudioConfig, stt: SttConfig, clipboard: ClipboardConfig, hotkeys: HotkeyConfig,
    paste: PasteConfig, privacy: PrivacyConfig, ui: UiConfig)

  /** `ConfigError::InvalidValue`, the only error validation produces. */
  datatype ConfigError = InvalidValue(message: string)

  /** The `new` constructors of the sections. */
  function NewAudioConfig(): AudioConfig
  {
    AudioConfig(DefaultSampleRate, 1, DefaultVadSensitivity, DefaultVadTimeout, true, "")
  }

  function NewSttConfig(): SttConfig
  {
    SttConfig("local", DefaultSttModel, "", true, true, "", "")
  }

  function NewClipboardConfig(): ClipboardConfig
  {
    ClipboardConfig(DefaultClipboardCapacity, true, true, DefaultMaxItemSize)
  }

  function NewHotkeyConfig(): HotkeyConfig
  {
    HotkeyConfig(DefaultHotkey, DefaultHistoryHotkey, ["Alt+1", "Alt+2", "Alt+3"], true)
  }

  function NewPasteConfig(): PasteConfig
  {
    PasteConfig(Both, ClipboardFallback, true, 100)
  }

  function NewPrivacyConfig(): PrivacyConfig
  {
    PrivacyConfig("30d", true, [], true, false)
  }

  function NewUiConfig(): UiConfig
  {
    UiConfig(true, false, "auto", true, 5)
  }

  /** `Config::new`, which is also `Config::default`. */
  function NewConfig(): (c: Config)
    ensures c.audio.sample_rate == 16000 && c.stt.model_size == "base"
    ensures c.clipboard.max_history == 500 && c.stt.language == ""
  {
    Config(NewAudioConfig(), NewSttConfig(), NewClipboardConfig(), NewHotkeyConfig(),
           NewPasteConfig(), NewPrivacyConfig(), NewUiConfig())
  }

  /**
   * The derived `Default` of the sections: zero numbers, false flags, empty
   * strings and lists, and the enums' marked defaults.
   */
  function DerivedSttConfig(): SttConfig
  {
    SttConfig("", "", "", false, false, "", "")
  }

  function DerivedConfig(): Config
  {
    Config(AudioConfig(0, 0, 0.0, 0, false, ""), DerivedSttConfig(),
           ClipboardConfig(0, false, false, 0), HotkeyConfig("", "", [], false),
           PasteConfig(Both, ClipboardFallback, false, 0), PrivacyConfig("", false, [], false, false),
           UiConfig(false, false, "", false, 0))
  }

  /** A language setting is acceptable when it is empty (detect) or supported. */
  predicate LanguageAcceptable(language: string)
  {
    language == "" || language in SupportedLanguages
  }

  /**
   * `Config::validate`: the model is checked first, then the language, then
   * the clipboard capacity; the first failing check names the bad value.
   */
  function Validate(c: Config): (r: Result<(), ConfigError>)
    ensures r.Ok? <==>
      c.stt.model_size in SupportedSttModels && LanguageAcceptable(c.stt.language)
      && c.clipboard.max_history <= MaxClipboardHistory
    ensures c.stt.model_size !in SupportedSttModels ==>
      r == Err(InvalidValue("Unsupported STT model: " + c.stt.model_size))
    ensures c.stt.model_size in SupportedSttModels && !LanguageAcceptable(c.stt.language) ==>
      r == Err(InvalidValue("Unsupported language: " + c.stt.language))
  {
    if c.stt.model_size !in SupportedSttModels then
      Err(InvalidValue("Unsupported STT model: " + c.stt.model_size))
    else if !LanguageAcceptable(c.stt.language) then
      Err(InvalidValue("Unsupported language: " + c.stt.language))
    else if c.clipboard.max_history > MaxClipboardHistory then
      Err(InvalidValue("Clipboard history capacity too large: " + NatToString(c.clipboard.max_history)))
    else
      Ok(())
  }

  /** The application defaults validate. */
  lemma NewConfigValid()
    ensures Validate(NewConfig()).Ok?
  {
  }

  /** Replacing only the model by one outside the supported list makes validation fail. */
  lemma InvalidModelRejected(c: Config, model: string)
    requires model !in SupportedSttModels
    ensures Validate(c.(stt := c.stt.(model_size := model))).Err?
  {
  }

  /**
   * The configuration test: from the defaults, the model "invalid" fails;
   * with the model restored, the language "invalid" fails.
   */
  lemma ValidationScenario()
    ensures Validate(NewConfig().(stt := NewConfig().stt.(model_size := "invalid"))).Err?
    ensures Validate(NewConfig().(stt := NewConfig().stt.(language := "invalid"))).Err?
  {
    assert "invalid" != "tiny" && "invalid" != "base" && "invalid" != "small";
    assert "invalid" != "medium" && "invalid" != "large";
    assert "invalid" !in SupportedSttModels;
    assert "invalid" !in SupportedLanguages by {
      forall i | 0 <= i < |SupportedLanguages| ensures SupportedLanguages[i] != "invalid" {
        assert |SupportedLanguages[i]| == 2;
      }
    }
  }

  /** The derived default of the speech-to-text section has an empty model, which validation rejects. */
  lemma DerivedConfigRejected()
    ensures DerivedConfig().stt.model_size == ""
    ensures Validate(DerivedConfig()) == Err(InvalidValue("Unsupported STT model: "))
  {
    assert "" !in SupportedSttModels;
    assert "Unsupported STT model: " + "" == "Unsupported STT model: ";
  }
}
