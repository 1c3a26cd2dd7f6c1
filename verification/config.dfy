/** Environment configuration (src/utils/config.ts): defaulting of the environment
    variables into the configuration record, its validation into warnings and
    errors, and the AI-availability check. */
module Config {
  import opened Util

  /** The environment variables read. A variable that is unset is None. The numeric
      ones are given as the value of `Number(...)` applied to the variable, with
      None standing for NaN (an unset or non-numeric variable). */
  datatype Env = Env(
    openaiApiKey: Option<string>,
    aiModel: Option<string>,
    aiTemperature: Option<real>,
    aiMaxTokens: Option<real>,
    appName: Option<string>,
    debugMode: Option<string>,
    enableAIFallback: Option<string>,
    isDevelopment: bool,
    isProduction: bool)

  datatype OpenAISettings = OpenAISettings(apiKey: string, model: string, temperature: real, maxTokens: real)

  datatype AppSettings = AppSettings(name: string, debugMode: bool, enableAIFallback: bool)

  datatype AppConfig = AppConfig(openai: OpenAISettings, app: AppSettings, isDevelopment: bool, isProduction: bool)

  const PlaceholderKey := "your_openai_api_key_here"
  const DefaultModel := "gpt-4"
  const DefaultTemperature := 0.7
  const DefaultMaxTokens := 2000.0
  const DefaultAppName := "MindCanvas MVP"
  const KnownModels: seq<string> := ["gpt-4", "gpt-3.5-turbo"]

  /** `s || fallback` for an optional string: unset and empty both fall back. */
  function StringOr(s: Option<string>, fallback: string): (r: string)
    ensures s.Some? && s.value != "" ==> r == s.value
    ensures s.None? || s.value == "" ==> r == fallback
  {
    if s.Some? && s.value != "" then s.value else fallback
  }

  /** `n || fallback` for a number: NaN and 0 both fall back. */
  function NumberOr(n: Option<real>, fallback: real): (r: real)
    ensures n.Some? && n.value != 0.0 ==> r == n.value
    ensures n.None? || n.value == 0.0 ==> r == fallback
  {
    if n.Some? && n.value != 0.0 then n.value else fallback
  }

  /** The configuration object built from the environment. */
  function FromEnv(env: Env): (r: AppConfig)
    ensures r.openai.apiKey == StringOr(env.openaiApiKey, "")
    ensures r.openai.model != "" && r.openai.model == StringOr(env.aiModel, "gpt-4")
    ensures r.openai.temperature != 0.0 && r.openai.temperature == NumberOr(env.aiTemperature, 0.7)
    ensures r.openai.maxTokens != 0.0 && r.openai.maxTokens == NumberOr(env.aiMaxTokens, 2000.0)
    ensures r.app.name == StringOr(env.appName, "MindCanvas MVP")
    ensures r.app.debugMode <==> env.debugMode == Some("true")
    ensures !r.app.enableAIFallback <==> env.enableAIFallback == Some("false")
    ensures r.isDevelopment == env.isDevelopment && r.isProduction == env.isProduction
  {
    AppConfig(
      OpenAISettings(StringOr(env.openaiApiKey, ""), StringOr(env.aiModel, DefaultModel),
                     NumberOr(env.aiTemperature, DefaultTemperature), NumberOr(env.aiMaxTokens, DefaultMaxTokens)),
      AppSettings(StringOr(env.appName, DefaultAppName), env.debugMode == Some("true"),
                  env.enableAIFallback != Some("false")),
      env.isDevelopment, env.isProduction)
  }

  datatype ConfigWarning =
    | MissingApiKey
    | UnknownModel(model: string)
    | TemperatureOutOfRange(temperature: real)

  datatype ConfigError = PlaceholderApiKey

  /** The text of each finding; the temperature's number formatting is not modelled,
      so only the fixed part of that message is given. */
  function WarningText(w: ConfigWarning): string {
    match w
    case MissingApiKey => "OpenAI API key not configured. AI features will be disabled."
    case UnknownModel(m) => "Unknown AI model: " + m + ". This may cause issues."
    case TemperatureOutOfRange(_) => "AI temperature should be between 0 and 2. Current: "
  }

  function ErrorText(e: ConfigError): string {
    match e
    case PlaceholderApiKey => "Please replace the placeholder OpenAI API key with your actual key."
  }

  datatype Validation = Validation(warnings: seq<ConfigWarning>, errors: seq<ConfigError>, isValid: bool)

  /** `validateConfig()`, without its debug logging. */
  function ValidateConfig(c: AppConfig): (r: Validation)
    ensures c.openai.apiKey == "" ==> |r.warnings| > 0 && r.warnings[0] == MissingApiKey
    ensures MissingApiKey in r.warnings <==> c.openai.apiKey == ""
    ensures r.errors == (if c.openai.apiKey == PlaceholderKey then [PlaceholderApiKey] else [])
    ensures UnknownModel(c.openai.model) in r.warnings <==> c.openai.model !in KnownModels
    ensures TemperatureOutOfRange(c.openai.temperature) in r.warnings <==>
              c.openai.temperature < 0.0 || c.openai.temperature > 2.0
    ensures |r.warnings| == (if c.openai.apiKey == "" then 1 else 0)
                           + (if c.openai.model !in KnownModels then 1 else 0)
                           + (if c.openai.temperature < 0.0 || c.openai.temperature > 2.0 then 1 else 0)
    ensures r.isValid <==> |r.errors| == 0
  {
    var key := c.openai.apiKey;
    var keyWarnings := if key == "" then [MissingApiKey] else [];
    var errors := if key != "" && key == PlaceholderKey then [PlaceholderApiKey] else [];
    var modelWarnings := if c.openai.model !in KnownModels then [UnknownModel(c.openai.model)] else [];
    var t := c.openai.temperature;
    var temperatureWarnings := if t < 0.0 || t > 2.0 then [TemperatureOutOfRange(t)] else [];
    var warnings := keyWarnings + modelWarnings + temperatureWarnings;
    Validation(warnings, errors, |errors| == 0)
  }

  /** Warnings never invalidate: the configuration is valid exactly when the key is
      not the placeholder. */
  lemma ValidIffNotPlaceholder(c: AppConfig)
    ensures ValidateConfig(c).isValid <==> c.openai.apiKey != PlaceholderKey
  {
  }

  /** `isAIAvailable()`: a key is set and is not the placeholder, that is, a valid
      configuration with a non-empty key. */
  function IsAIAvailable(c: AppConfig): (r: bool)
    ensures r <==> ValidateConfig(c).isValid && c.openai.apiKey != ""
  {
    c.openai.apiKey != "" && c.openai.apiKey != PlaceholderKey
  }

  /** AI availability implies a valid configuration without the missing-key warning;
      the converse fails only for the empty key. */
  lemma AvailableImpliesValid(c: AppConfig)
    ensures IsAIAvailable(c) ==> ValidateConfig(c).isValid && MissingApiKey !in ValidateConfig(c).warnings
    ensures ValidateConfig(c).isValid && !IsAIAvailable(c) ==> c.openai.apiKey == ""
  {
  }

  /** An empty environment yields a valid configuration whose only finding is the
      missing key, with the documented defaults. */
  lemma EmptyEnvironment(dev: bool, prod: bool)
    ensures var c := FromEnv(Env(None, None, None, None, None, None, None, dev, prod));
      && c.openai == OpenAISettings("", "gpt-4", 0.7, 2000.0)
      && c.app == AppSettings("MindCanvas MVP", false, true)
      && ValidateConfig(c) == Validation([MissingApiKey], [], true)
      && !IsAIAvailable(c)
  {
    var c := FromEnv(Env(None, None, None, None, None, None, None, dev, prod));
    assert c.openai.model in KnownModels;
  }

  /** An unset, non-numeric or zero temperature is replaced by 0.7, which draws no
      temperature warning. */
  lemma ZeroTemperatureFallsBack(env: Env)
    requires env.aiTemperature == Some(0.0) || env.aiTemperature.None?
    ensures FromEnv(env).openai.temperature == 0.7
    ensures TemperatureOutOfRange(0.7) !in ValidateConfig(FromEnv(env)).warnings
  {
  }
}
