/**
 * The application settings of src/podflix/env_settings.py: field defaults, the
 * allowed-value check, URL normalisation and the two validators that depend on
 * `enable_openai_api`.  Values arrive already converted to their field types;
 * reading the environment and the `.env` file is not part of this model.
 */
module EnvConfig {
  import opened Wrappers
  import opened Strings

  /** A validation failure of one field, as pydantic reports it. */
  datatype SettingsError =
    | Missing(field: string)
    | NotAllowed(field: string, value: string)
    | InvalidUrl(field: string, value: string)
    | OpenaiKeyMissing

  /** The values given for the fields; `None` means the variable is not set. */
  datatype RawSettings = RawSettings(
    chainlitAppType: Option<string>,
    chainlitUserName: Option<string>,
    chainlitUserPassword: Option<string>,
    embeddingHost: Option<string>,
    embeddingModelName: Option<string>,
    enableOpenaiApi: Option<bool>,
    enableSqliteDataLayer: Option<bool>,
    hfToken: Option<string>,
    langfuseHost: Option<string>,
    langfusePublicKey: Option<string>,
    langfuseSecretKey: Option<string>,
    libraryBasePath: Option<string>,
    modelApiBase: Option<string>,
    modelName: Option<string>,
    openaiApiKey: Option<string>,
    rerankModelName: Option<string>,
    timeoutLimit: Option<int>,
    whisperApiBase: Option<string>,
    whisperModelName: Option<string>)

  /** The validated settings, `EnvSettings`. */
  datatype Settings = Settings(
    chainlitAppType: string,
    chainlitUserName: string,
    chainlitUserPassword: string,
    embeddingHost: string,
    embeddingModelName: string,
    enableOpenaiApi: bool,
    enableSqliteDataLayer: bool,
    hfToken: Option<string>,
    langfuseHost: string,
    langfusePublicKey: string,
    langfuseSecretKey: string,
    libraryBasePath: string,
    modelApiBase: string,
    modelName: string,
    openaiApiKey: Option<string>,
    rerankModelName: string,
    timeoutLimit: int,
    whisperApiBase: string,
    whisperModelName: string)

  const AppTypes := ["base_chat", "mock", "audio"]
  const OpenaiApiBase := "https://api.openai.com"

  /** `allowed_values`: the value itself when it is one of `values`, a failed assertion otherwise. */
  function AllowedValues(field: string, v: string, values: seq<string>): Result<string, SettingsError> {
    if v in values then Success(v) else Failure(NotAllowed(field, v))
  }

  lemma AllowedValuesIff(field: string, v: string, values: seq<string>)
    ensures AllowedValues(field, v, values).Success? <==> v in values
    ensures AllowedValues(field, v, values).Success? ==> AllowedValues(field, v, values).value == v
  {
  }

  /** A field with no default: its value, or a missing-field error. */
  function Required<T>(field: string, v: Option<T>): Result<T, SettingsError> {
    match v
    case Some(x) => Success(x)
    case None => Failure(Missing(field))
  }

  /**
   * `CustomHttpUrlStr`: the URL validated and normalised by `parseUrl` (pydantic's
   * `AnyHttpUrl`, which is not part of this model), then `rstrip("/")`.
   */
  function HttpUrl(field: string, v: Option<string>, parseUrl: string -> Option<string>): Result<string, SettingsError> {
    var raw :- Required(field, v);
    match parseUrl(raw)
    case Some(url) => Success(RStripSet(url, {'/'}))
    case None => Failure(InvalidUrl(field, raw))
  }

  /** A URL setting is the normalised URL without its trailing slashes: it never ends in `/`. */
  lemma HttpUrlTrimmed(field: string, v: Option<string>, parseUrl: string -> Option<string>)
    requires HttpUrl(field, v, parseUrl).Success?
    ensures var url := parseUrl(v.value).value;
      var r := HttpUrl(field, v, parseUrl).value;
      |r| <= |url| && r == url[..|r|] && (forall k :: |r| <= k < |url| ==> url[k] == '/') && (r == "" || r[|r| - 1] != '/')
  {
    RStripSetSpec(parseUrl(v.value).value, {'/'});
  }

  /** `validate_openai_key`: a key is needed once the OpenAI API is enabled. */
  function ValidateOpenaiKey(enableOpenaiApi: bool, value: Option<string>): Result<Option<string>, SettingsError> {
    if enableOpenaiApi && value.None? then Failure(OpenaiKeyMissing) else Success(value)
  }

  /** `validate_model_api_base`: the OpenAI endpoint replaces the value once the OpenAI API is enabled. */
  function ValidateModelApiBase(enableOpenaiApi: bool, value: string): string {
    if enableOpenaiApi then OpenaiApiBase else value
  }

  lemma ValidateOpenaiKeyIff(enableOpenaiApi: bool, value: Option<string>)
    ensures ValidateOpenaiKey(enableOpenaiApi, value).Failure? <==> enableOpenaiApi && value.None?
    ensures ValidateOpenaiKey(enableOpenaiApi, value).Success? ==> ValidateOpenaiKey(enableOpenaiApi, value).value == value
  {
  }

  /** The errors of one field's validation. */
  function ErrorsOf<T>(r: Result<T, SettingsError>): seq<SettingsError> {
    if r.Failure? then [r.error] else []
  }

  /**
   * `EnvSettings()`: every field validated in declaration order, all failures
   * reported together.  `enable_openai_api` comes before `model_api_base` and
   * `openai_api_key`, so their validators see its value.
   */
  function BuildSettings(raw: RawSettings, parseUrl: string -> Option<string>): Result<Settings, seq<SettingsError>> {
    var appType := AllowedValues("chainlit_app_type", raw.chainlitAppType.GetOr("mock"), AppTypes);
    var embeddingHost := HttpUrl("embedding_host", raw.embeddingHost, parseUrl);
    var embeddingModelName := Required("embedding_model_name", raw.embeddingModelName);
    var enableOpenaiApi := raw.enableOpenaiApi.GetOr(false);
    var langfuseHost := HttpUrl("langfuse_host", raw.langfuseHost, parseUrl);
    var langfusePublicKey := Required("langfuse_public_key", raw.langfusePublicKey);
    var langfuseSecretKey := Required("langfuse_secret_key", raw.langfuseSecretKey);
    var libraryBasePath := Required("library_base_path", raw.libraryBasePath);
    var modelApiBase := HttpUrl("model_api_base", raw.modelApiBase, parseUrl);
    var modelName := Required("model_name", raw.modelName);
    var openaiApiKey := ValidateOpenaiKey(enableOpenaiApi, raw.openaiApiKey);
    var rerankModelName := Required("rerank_model_name", raw.rerankModelName);
    var whisperApiBase := HttpUrl("whisper_api_base", raw.whisperApiBase, parseUrl);
    var whisperModelName := Required("whisper_model_name", raw.whisperModelName);
    var errors := ErrorsOf(appType) + ErrorsOf(embeddingHost) + ErrorsOf(embeddingModelName)
      + ErrorsOf(langfuseHost) + ErrorsOf(langfusePublicKey) + ErrorsOf(langfuseSecretKey)
      + ErrorsOf(libraryBasePath) + ErrorsOf(modelApiBase) + ErrorsOf(modelName) + ErrorsOf(openaiApiKey)
      + ErrorsOf(rerankModelName) + ErrorsOf(whisperApiBase) + ErrorsOf(whisperModelName);
    if errors != [] then Failure(errors)
    else
      Success(Settings(
        appType.value,
        raw.chainlitUserName.GetOr("admin"),
        raw.chainlitUserPassword.GetOr("admin"),
        embeddingHost.value,
        embeddingModelName.value,
        enableOpenaiApi,
        raw.enableSqliteDataLayer.GetOr(false),
        raw.hfToken,
        langfuseHost.value,
        langfusePublicKey.value,
        langfuseSecretKey.value,
        libraryBasePath.value,
        ValidateModelApiBase(enableOpenaiApi, modelApiBase.value),
        modelName.value,
        openaiApiKey.value,
        rerankModelName.value,
        raw.timeoutLimit.GetOr(30),
        whisperApiBase.value,
        whisperModelName.value))
  }

  /** What every validated settings record satisfies. */
  predicate ValidSettings(s: Settings) {
    s.chainlitAppType in AppTypes
    && (s.enableOpenaiApi ==> s.openaiApiKey.Some? && s.modelApiBase == OpenaiApiBase)
    && EndsWithoutSlash(s.embeddingHost) && EndsWithoutSlash(s.langfuseHost)
    && EndsWithoutSlash(s.modelApiBase) && EndsWithoutSlash(s.whisperApiBase)
  }

  predicate EndsWithoutSlash(url: string) {
    url == "" || url[|url| - 1] != '/'
  }

  lemma UrlEndsWithoutSlash(field: string, v: Option<string>, parseUrl: string -> Option<string>)
    requires HttpUrl(field, v, parseUrl).Success?
    ensures EndsWithoutSlash(HttpUrl(field, v, parseUrl).value)
  {
    HttpUrlTrimmed(field, v, parseUrl);
  }

  /** Validated settings obey the allowed values, the OpenAI rules and the URL trimming. */
  lemma BuildSettingsValid(raw: RawSettings, parseUrl: string -> Option<string>)
    requires BuildSettings(raw, parseUrl).Success?
    ensures ValidSettings(BuildSettings(raw, parseUrl).value)
  {
    UrlEndsWithoutSlash("embedding_host", raw.embeddingHost, parseUrl);
    UrlEndsWithoutSlash("langfuse_host", raw.langfuseHost, parseUrl);
    UrlEndsWithoutSlash("model_api_base", raw.modelApiBase, parseUrl);
    UrlEndsWithoutSlash("whisper_api_base", raw.whisperApiBase, parseUrl);
  }

  /** Without the OpenAI API the model API base is the given URL, trimmed; with it, the OpenAI endpoint. */
  lemma BuildSettingsModelApiBase(raw: RawSettings, parseUrl: string -> Option<string>)
    requires BuildSettings(raw, parseUrl).Success?
    ensures var s := BuildSettings(raw, parseUrl).value;
      s.modelApiBase == if s.enableOpenaiApi then OpenaiApiBase else HttpUrl("model_api_base", raw.modelApiBase, parseUrl).value
  {
  }

  /** With the OpenAI API enabled and no key given, the settings are rejected, whatever else is given. */
  lemma BuildSettingsNeedsKey(raw: RawSettings, parseUrl: string -> Option<string>)
    requires raw.enableOpenaiApi == Some(true) && raw.openaiApiKey.None?
    ensures BuildSettings(raw, parseUrl).Failure? && OpenaiKeyMissing in BuildSettings(raw, parseUrl).error
  {
  }

  /** Unset fields with defaults take them: app type `mock`, user and password `admin`, both flags off, timeout 30. */
  lemma BuildSettingsDefaults(raw: RawSettings, parseUrl: string -> Option<string>)
    requires BuildSettings(raw, parseUrl).Success?
    ensures var s := BuildSettings(raw, parseUrl).value;
      (raw.chainlitAppType.None? ==> s.chainlitAppType == "mock")
      && (raw.chainlitUserName.None? ==> s.chainlitUserName == "admin")
      && (raw.chainlitUserPassword.None? ==> s.chainlitUserPassword == "admin")
      && (raw.enableOpenaiApi.None? ==> !s.enableOpenaiApi)
      && (raw.enableSqliteDataLayer.None? ==> !s.enableSqliteDataLayer)
      && (raw.timeoutLimit.None? ==> s.timeoutLimit == 30)
  {
  }

  /** An app type outside `base_chat`, `mock` and `audio` is rejected. */
  lemma BuildSettingsAppType(raw: RawSettings, parseUrl: string -> Option<string>)
    requires raw.chainlitAppType.Some? && raw.chainlitAppType.value !in AppTypes
    ensures BuildSettings(raw, parseUrl).Failure?
    ensures NotAllowed("chainlit_app_type", raw.chainlitAppType.value) in BuildSettings(raw, parseUrl).error
  {
  }
}
