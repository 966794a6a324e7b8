/** The configuration holder: three optional credentials read from the
    process environment, and the predicate that all three are set. */
module Configuration {
  import opened Wrappers

  /** The process environment, as `os.getenv` sees it. */
  type Environment = map<string, string>

  /** `os.getenv(name)`: the value, or `None` when the variable is unset. */
  function Getenv(env: Environment, name: string): (v: Option<string>)
    ensures v.Some? <==> name in env
    ensures v.Some? ==> v.value == env[name]
  {
    if name in env then Some(env[name]) else None
  }

  /** Python truthiness of an optional string: `None` and `""` are false. */
  predicate Truthy(v: Option<string>) {
    v.Some? && v.value != ""
  }

  /** Python's `a and b`: `a` when it is falsy, otherwise `b`. */
  function And(a: Option<string>, b: Option<string>): Option<string> {
    if Truthy(a) then b else a
  }

  class Config {
    var groqApiKey: Option<string>
    var qdrantUrl: Option<string>
    var qdrantApiKey: Option<string>

    /** `Config()`: every field defaults to `None`. */
    constructor ()
      ensures groqApiKey == None && qdrantUrl == None && qdrantApiKey == None
      ensures !IsConfigured()
    {
      groqApiKey := None;
      qdrantUrl := None;
      qdrantApiKey := None;
    }

    /** `load_from_env`: all three fields are overwritten from the environment. */
    method LoadFromEnv(env: Environment)
      modifies this
      ensures groqApiKey == Getenv(env, "GROQ_API_KEY")
      ensures qdrantUrl == Getenv(env, "QDRANT_URL")
      ensures qdrantApiKey == Getenv(env, "QDRANT_API_KEY")
    {
      groqApiKey := Getenv(env, "GROQ_API_KEY");
      qdrantUrl := Getenv(env, "QDRANT_URL");
      qdrantApiKey := Getenv(env, "QDRANT_API_KEY");
    }

    /** `is_configured`: `bool(groq_api_key and qdrant_url and qdrant_api_key)`.
        It only reads the fields, so a call changes nothing. */
    predicate IsConfigured()
      reads this
      ensures IsConfigured() <==>
        && groqApiKey.Some? && groqApiKey.value != ""
        && qdrantUrl.Some? && qdrantUrl.value != ""
        && qdrantApiKey.Some? && qdrantApiKey.value != ""
    {
      Truthy(And(And(groqApiKey, qdrantUrl), qdrantApiKey))
    }
  }

  /** The module-level `config = Config(); config.load_from_env()`. */
  method LoadConfig(env: Environment) returns (config: Config)
    ensures fresh(config)
    ensures config.groqApiKey == Getenv(env, "GROQ_API_KEY")
    ensures config.qdrantUrl == Getenv(env, "QDRANT_URL")
    ensures config.qdrantApiKey == Getenv(env, "QDRANT_API_KEY")
    ensures config.IsConfigured() <==>
      && "GROQ_API_KEY" in env && env["GROQ_API_KEY"] != ""
      && "QDRANT_URL" in env && env["QDRANT_URL"] != ""
      && "QDRANT_API_KEY" in env && env["QDRANT_API_KEY"] != ""
  {
    config := new Config();
    config.LoadFromEnv(env);
  }
}
