/**
 * Configuration resolution at the start of `main` (main.go:155-184): the
 * five environment variables, their defaults, and the two ways start-up
 * exits with status 1.
 */
module Config {
  import opened Wrappers

  /**
   * The environment as `main` reads it. `sinceDays` and `concurrencyNumber`
   * are what `strconv.Atoi` made of SINCE_DAYS and CONCURRENCY_NUMBER,
   * `None` when it reported an error (an unset variable is the empty
   * string, which does not parse).
   */
  datatype Env = Env(
    privateToken: string,
    sinceDays: Option<int>,
    patternToFind: string,
    concurrencyNumber: Option<int>,
    gitlabURL: string)

  /** The settings the rest of `main` runs with. */
  datatype Config = Config(
    privateToken: string,
    sinceDays: int,
    patternToFind: string,
    concurrency: int,
    gitlabURL: string)

  /** Either the process exits during start-up, or it goes on with a configuration. */
  datatype Startup = Exit(status: int) | Start(config: Config)

  const DefaultSinceDays := 360
  const DefaultConcurrency := 20
  const DefaultGitlabURL := "https://gitlab.com"

  /**
   * The straight-line defaulting of main.go:161-184. A SINCE_DAYS that did
   * not parse is first replaced by the default (main.go:165-168), but the
   * parse error is still set when main.go:171-174 tests it, so start-up
   * then exits.
   */
  function Resolve(env: Env): (r: Startup)
    ensures r.Exit? <==> env.privateToken == "" || env.sinceDays.None?
    ensures r.Exit? ==> r.status == 1
    ensures r.Start? ==>
      && r.config.privateToken == env.privateToken
      && r.config.patternToFind == env.patternToFind
    ensures r.Start? ==>
      && r.config.sinceDays > 0
      && (env.sinceDays.value > 0 ==> r.config.sinceDays == env.sinceDays.value)
      && (env.sinceDays.value <= 0 ==> r.config.sinceDays == DefaultSinceDays)
    ensures r.Start? ==>
      && (env.concurrencyNumber.Some? ==> r.config.concurrency == env.concurrencyNumber.value)
      && (env.concurrencyNumber.None? ==> r.config.concurrency == DefaultConcurrency)
    ensures r.Start? ==>
      && r.config.gitlabURL != ""
      && (env.gitlabURL != "" ==> r.config.gitlabURL == env.gitlabURL)
      && (env.gitlabURL == "" ==> r.config.gitlabURL == DefaultGitlabURL)
  {
    if env.privateToken == "" then Exit(1)
    else
      var sinceDays := if env.sinceDays.None? || env.sinceDays.value <= 0 then DefaultSinceDays else env.sinceDays.value;
      if env.sinceDays.None? then Exit(1)
      else
        var concurrency := if env.concurrencyNumber.None? then DefaultConcurrency else env.concurrencyNumber.value;
        var gitlabURL := if env.gitlabURL == "" then DefaultGitlabURL else env.gitlabURL;
        Start(Config(env.privateToken, sinceDays, env.patternToFind, concurrency, gitlabURL))
  }
}
