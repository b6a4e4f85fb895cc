/**
 `Config`: settings read once from the environment, and the start-up check
 that the chosen language-model provider is usable.
 */
module Config {
  import opened Base

  /** The process environment, variable name to value. */
  type Env = map<string, string>

  datatype Settings = Settings(
    provider: string,
    googleApiKey: Option<string>,
    ollamaModel: string,
    ollamaBaseUrl: string,
    tracing: bool,
    tracingEndpoint: string,
    databaseFile: string)

  const DefaultProvider := "gemini"
  const DefaultDatabaseFile := "insights_cache.db"
  const MissingKeyMessage := "GOOGLE_API_KEY is required when using Gemini provider"

  /** `os.getenv(name, default)`. */
  function Getenv(env: Env, name: string, default: string): (r: string)
    ensures name in env ==> r == env[name]
    ensures name !in env ==> r == default
  {
    if name in env then env[name] else default
  }

  /** `os.getenv(name)` without a default: `None` when unset. */
  function GetenvOpt(env: Env, name: string): (r: Option<string>)
    ensures r.Some? <==> name in env
    ensures r.Some? ==> r.value == env[name]
  {
    if name in env then Some(env[name]) else None
  }

  /** The tracing flag: the variable, lower-cased, equals `"true"`. */
  function ParseFlag(value: string): (on: bool)
    ensures on <==> EqualsIgnoringCase(value, "true")
  {
    LowerEqualsIff(value, "true");
    Lower(value) == "true"
  }

  /** The class attributes of `Config`, evaluated from `env`. */
  function FromEnv(env: Env): (c: Settings)
    ensures c.provider == Getenv(env, "LLM_PROVIDER", DefaultProvider)
    ensures c.googleApiKey == GetenvOpt(env, "GOOGLE_API_KEY")
    ensures c.databaseFile == Getenv(env, "DATABASE_FILE", DefaultDatabaseFile)
    ensures c.tracing <==> EqualsIgnoringCase(Getenv(env, "LANGCHAIN_TRACING_V2", "false"), "true")
  {
    Settings(
      Getenv(env, "LLM_PROVIDER", DefaultProvider),
      GetenvOpt(env, "GOOGLE_API_KEY"),
      Getenv(env, "OLLAMA_MODEL", "qwen3:0.6b"),
      Getenv(env, "OLLAMA_BASE_URL", "http://localhost:11434"),
      ParseFlag(Getenv(env, "LANGCHAIN_TRACING_V2", "false")),
      Getenv(env, "LANGCHAIN_ENDPOINT", "https://api.smith.langchain.com"),
      Getenv(env, "DATABASE_FILE", DefaultDatabaseFile))
  }

  /** The message for a provider outside `gemini`/`ollama`; it names the provider. */
  function InvalidProviderMessage(provider: string): (m: string)
    ensures |m| == 22 + |provider| + 30
    ensures m[22..22 + |provider|] == provider
  {
    "Invalid LLM_PROVIDER: " + provider + ". Must be 'gemini' or 'ollama'"
  }

  /** Python truthiness of an optional string: present and non-empty. */
  predicate Truthy(v: Option<string>)
  {
    v.Some? && v.value != ""
  }

  /**
   `Config.validate`: `(True, None)` or `(False, message)`. The provider is
   checked first, so an unknown provider is reported even when the key is
   also missing; `ollama` never needs a key; `gemini` needs a non-empty one.
   */
  function Validate(c: Settings): (r: (bool, Option<string>))
    ensures r.0 <==> r.1 == None
    ensures r.0 <==> (c.provider == "ollama" || (c.provider == "gemini" && Truthy(c.googleApiKey)))
    ensures c.provider != "gemini" && c.provider != "ollama" ==> r.1 == Some(InvalidProviderMessage(c.provider))
    ensures c.provider == "gemini" && !Truthy(c.googleApiKey) ==> r.1 == Some(MissingKeyMessage)
  {
    if c.provider != "gemini" && c.provider != "ollama" then
      (false, Some(InvalidProviderMessage(c.provider)))
    else if c.provider == "gemini" && !Truthy(c.googleApiKey) then
      (false, Some(MissingKeyMessage))
    else
      (true, None)
  }

  /** With nothing set, the provider is Gemini, tracing is off and the store is the default file. */
  lemma EmptyEnvironmentDefaults()
    ensures FromEnv(map[]).provider == "gemini"
    ensures FromEnv(map[]).databaseFile == "insights_cache.db"
    ensures !FromEnv(map[]).tracing
    ensures Validate(FromEnv(map[])) == (false, Some(MissingKeyMessage))
  {
    assert !EqualsIgnoringCase("false", "true");
  }

  /** Whatever the key, the provider decides alone unless it is `gemini`. */
  lemma KeyMattersOnlyForGemini(c: Settings, key: Option<string>)
    requires c.provider != "gemini"
    ensures Validate(c) == Validate(c.(googleApiKey := key))
  {
  }
}
