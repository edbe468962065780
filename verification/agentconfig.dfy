/** The agent's configuration (cmd/agent/config.go): flag values merged with
    environment overrides. Flag and environment parsing themselves are inputs. */
module AgentConfig {
  import opened Wrappers
  import opened GoTypes

  /** `time.Second`, in nanoseconds. */
  const Second: int64 := 1_000_000_000

  /** Intervals are `time.Duration`s: int64 nanoseconds. */
  datatype Config = Config(srvAddr: string, pollInterval: int64, reportInterval: int64)

  const ZeroConfig := Config("", 0, 0)

  /** Raw settings as parsed: the `-a`, `-r`, `-p` flags, or the ADDRESS,
      REPORT_INTERVAL and POLL_INTERVAL variables (Go `int`, 64 bits wide), with the
      intervals in seconds. */
  datatype RawSettings = RawSettings(srvAddr: string, reportSeconds: int64, pollSeconds: int64)

  const DefaultFlags := RawSettings("localhost:8080", 10, 2)

  /** `time.Duration(s) * time.Second`: exact while it fits, silently wrapped beyond. */
  function SecondsToDuration(s: int64): (d: int64)
    ensures (d as int - s as int * 1_000_000_000) % TwoTo64 == 0
    ensures -9_223_372_036 <= s <= 9_223_372_036 ==> d as int == s as int * 1_000_000_000
  {
    MulWrap(s, Second)
  }

  /** A huge interval can wrap to a zero duration, which the merge then treats as
      "not set". */
  lemma WrappedIntervalReadsAsUnset()
    ensures SecondsToDuration(0x80_0000_0000_0000) == 0
  {
    WrapUnique(0x80_0000_0000_0000 * 1_000_000_000, 0);
  }

  /** The configuration raw settings describe; flag and environment parsing both end
      with this conversion. */
  function ToConfig(f: RawSettings): (c: Config)
    ensures c.srvAddr == f.srvAddr
    ensures c.pollInterval == SecondsToDuration(f.pollSeconds)
    ensures c.reportInterval == SecondsToDuration(f.reportSeconds)
  {
    Config(f.srvAddr, SecondsToDuration(f.pollSeconds), SecondsToDuration(f.reportSeconds))
  }

  /** Without flags the agent reports every 10 s and polls every 2 s at localhost:8080. */
  lemma Defaults()
    ensures ToConfig(DefaultFlags) == Config("localhost:8080", 2_000_000_000, 10_000_000_000)
  {
  }

  /** `NewConfig`: a failed environment parse yields the zero Config and the error;
      otherwise each environment field that is set (non-empty address, non-zero
      duration) replaces the flag's. */
  function NewConfig(flags: Config, env: Result<Config, string>): (r: (Config, Option<string>))
    ensures env.Failure? ==> r == (ZeroConfig, Some(env.error))
    ensures env.Success? ==> r.1.None?
    ensures env.Success? ==> r.0.srvAddr == if env.value.srvAddr != "" then env.value.srvAddr else flags.srvAddr
    ensures env.Success? ==>
              r.0.reportInterval == if env.value.reportInterval != 0 then env.value.reportInterval else flags.reportInterval
    ensures env.Success? ==>
              r.0.pollInterval == if env.value.pollInterval != 0 then env.value.pollInterval else flags.pollInterval
  {
    match env
    case Failure(err) => (ZeroConfig, Some(err))
    case Success(envs) =>
      var cfg := flags;
      var cfg := if envs.srvAddr != "" then cfg.(srvAddr := envs.srvAddr) else cfg;
      var cfg := if envs.reportInterval != 0 then cfg.(reportInterval := envs.reportInterval) else cfg;
      var cfg := if envs.pollInterval != 0 then cfg.(pollInterval := envs.pollInterval) else cfg;
      (cfg, None)
  }

  /** An environment that sets nothing leaves the flags in force; one that sets
      everything replaces them entirely. */
  lemma MergeExtremes(flags: Config, env: Config)
    ensures NewConfig(flags, Success(ZeroConfig)) == (flags, None)
    ensures env.srvAddr != "" && env.pollInterval != 0 && env.reportInterval != 0 ==>
              NewConfig(flags, Success(env)) == (env, None)
  {
  }

  /** Each field's override is independent: changing one environment field changes
      at most the matching result field. */
  lemma OverridesIndependent(flags: Config, env: Config, addr: string, poll: int64, report: int64)
    ensures NewConfig(flags, Success(env.(srvAddr := addr))).0.(srvAddr := "")
            == NewConfig(flags, Success(env)).0.(srvAddr := "")
    ensures NewConfig(flags, Success(env.(pollInterval := poll))).0.(pollInterval := 0)
            == NewConfig(flags, Success(env)).0.(pollInterval := 0)
    ensures NewConfig(flags, Success(env.(reportInterval := report))).0.(reportInterval := 0)
            == NewConfig(flags, Success(env)).0.(reportInterval := 0)
  {
  }
}
