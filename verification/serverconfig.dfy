/** The collector's configuration (cmd/server/config.go): flag values merged with
    environment overrides. Flag and environment parsing themselves are inputs. */
module ServerConfig {
  import opened Wrappers

  datatype Config = Config(srvAddr: string, logLevel: string)

  const ZeroConfig := Config("", "")

  /** The `-a` and `-l` defaults. */
  const DefaultFlags := Config("localhost:8080", "info")

  /** `NewConfig`: a failed environment parse yields the zero Config and the error;
      otherwise a non-empty ADDRESS or LOG_LEVEL replaces the flag's value. */
  function NewConfig(flags: Config, env: Result<Config, string>): (r: (Config, Option<string>))
    ensures env.Failure? ==> r == (ZeroConfig, Some(env.error))
    ensures env.Success? ==> r.1.None?
    ensures env.Success? ==> r.0.srvAddr == if env.value.srvAddr != "" then env.value.srvAddr else flags.srvAddr
    ensures env.Success? ==> r.0.logLevel == if env.value.logLevel != "" then env.value.logLevel else flags.logLevel
  {
    match env
    case Failure(err) => (ZeroConfig, Some(err))
    case Success(envs) =>
      var cfg := flags;
      var cfg := if envs.srvAddr != "" then cfg.(srvAddr := envs.srvAddr) else cfg;
      var cfg := if envs.logLevel != "" then cfg.(logLevel := envs.logLevel) else cfg;
      (cfg, None)
  }

  /** An empty environment keeps the flags (the defaults, when no flag is given); a full
      one replaces them; and each field is overridden independently of the other. */
  lemma MergeProperties(flags: Config, env: Config, addr: string, level: string)
    ensures NewConfig(DefaultFlags, Success(ZeroConfig)) == (Config("localhost:8080", "info"), None)
    ensures NewConfig(flags, Success(ZeroConfig)) == (flags, None)
    ensures env.srvAddr != "" && env.logLevel != "" ==> NewConfig(flags, Success(env)) == (env, None)
    ensures NewConfig(flags, Success(env.(srvAddr := addr))).0.logLevel == NewConfig(flags, Success(env)).0.logLevel
    ensures NewConfig(flags, Success(env.(logLevel := level))).0.srvAddr == NewConfig(flags, Success(env)).0.srvAddr
  {
  }
}
