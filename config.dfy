/** The service configuration (`internal/config/config.go`): the parsed YAML
    document, the environment overrides, validation, defaulting and the
    derived getters. The environment is a map from variable names to values;
    reading and parsing the file is an oracle (`ConfigFile`). */
module Configuration {
  import opened Wrappers
  import opened Text
  import opened Errors
  import opened Durations

  datatype Repository = Repository(owner: string, repo: string)
  datatype Settings = Settings(checkIntervalMinutes: int)
  datatype GitHubConfig = GitHubConfig(token: string, timeout: int)
  datatype DiscordConfig = DiscordConfig(webhookUrl: string, enabled: bool)
  datatype SlackConfig = SlackConfig(webhookUrl: string, channel: string, enabled: bool)
  datatype Notifications = Notifications(discord: DiscordConfig, slack: SlackConfig)
  datatype ServerConfig = ServerConfig(port: int, readTimeout: int, writeTimeout: int, host: string)
  datatype StorageConfig = StorageConfig(kind: string, path: string)
  datatype LoggingConfig = LoggingConfig(level: string, format: string)

  datatype Config = Config(
    repositories: seq<Repository>,
    settings: Settings,
    github: GitHubConfig,
    notifications: Notifications,
    server: ServerConfig,
    storage: StorageConfig,
    logging: LoggingConfig)

  /** The process environment. */
  type Env = map<string, string>

  /** `os.Getenv`: "" for an unset variable. */
  function Getenv(env: Env, name: string): string {
    if name in env then env[name] else ""
  }

  // ---------------------------------------------------------------------
  // applyEnvOverrides

  /** The value a text field takes: the variable's when it is non-empty. */
  function TextFrom(env: Env, name: string, current: string): string {
    if Getenv(env, name) != "" then Getenv(env, name) else current
  }

  /** The value a flag takes: when the variable is set, whether it is exactly "true". */
  function FlagFrom(env: Env, name: string, current: bool): bool {
    if Getenv(env, name) != "" then Getenv(env, name) == "true" else current
  }

  /** The value a number takes: the variable's when it parses as an int. */
  function NumberFrom(env: Env, name: string, current: int): int {
    if Getenv(env, name) != "" && Atoi(Getenv(env, name)).Some? then Atoi(Getenv(env, name)).value
    else current
  }

  /** The overrides of the Discord section. */
  function DiscordFromEnv(d: DiscordConfig, env: Env): DiscordConfig {
    DiscordConfig(TextFrom(env, "DISCORD_WEBHOOK_URL", d.webhookUrl), FlagFrom(env, "DISCORD_ENABLED", d.enabled))
  }

  /** The overrides of the Slack section. */
  function SlackFromEnv(s: SlackConfig, env: Env): SlackConfig {
    SlackConfig(
      TextFrom(env, "SLACK_WEBHOOK_URL", s.webhookUrl),
      TextFrom(env, "SLACK_CHANNEL", s.channel),
      FlagFrom(env, "SLACK_ENABLED", s.enabled))
  }

  /** The overrides of the server section. */
  function ServerFromEnv(s: ServerConfig, env: Env): ServerConfig {
    s.(port := NumberFrom(env, "SERVER_PORT", s.port), host := TextFrom(env, "SERVER_HOST", s.host))
  }

  /** The overrides of the logging section. */
  function LoggingFromEnv(l: LoggingConfig, env: Env): LoggingConfig {
    LoggingConfig(TextFrom(env, "LOG_LEVEL", l.level), TextFrom(env, "LOG_FORMAT", l.format))
  }

  /** The configuration after the environment overrides: each of the twelve
      variables replaces its own field and nothing else. */
  function EnvOverridden(c: Config, env: Env): (r: Config)
    ensures r.repositories == c.repositories
    ensures r.github.timeout == c.github.timeout && r.storage.kind == c.storage.kind
  {
    c.(
      github := c.github.(token := TextFrom(env, "GITHUB_TOKEN", c.github.token)),
      notifications := Notifications(
        DiscordFromEnv(c.notifications.discord, env),
        SlackFromEnv(c.notifications.slack, env)),
      server := ServerFromEnv(c.server, env),
      storage := c.storage.(path := TextFrom(env, "STORAGE_PATH", c.storage.path)),
      logging := LoggingFromEnv(c.logging, env),
      settings := Settings(NumberFrom(env, "CHECK_INTERVAL_MINUTES", c.settings.checkIntervalMinutes)))
  }

  /** `applyEnvOverrides`, one variable at a time on a copy of the
      configuration, section by section in the order of the source. */
  method ApplyEnvOverrides(c: Config, env: Env) returns (r: Config)
    ensures r == EnvOverridden(c, env)
  {
    r := c;
    var token := Getenv(env, "GITHUB_TOKEN");
    if token != "" {
      r := r.(github := r.github.(token := token));
    }
    var discord := OverrideDiscord(r.notifications.discord, env);
    var slack := OverrideSlack(r.notifications.slack, env);
    r := r.(notifications := Notifications(discord, slack));
    var server := OverrideServer(r.server, env);
    r := r.(server := server);
    var path := Getenv(env, "STORAGE_PATH");
    if path != "" {
      r := r.(storage := r.storage.(path := path));
    }
    var logging := OverrideLogging(r.logging, env);
    r := r.(logging := logging);
    var interval := Getenv(env, "CHECK_INTERVAL_MINUTES");
    if interval != "" {
      var i := Atoi(interval);
      if i.Some? {
        r := r.(settings := r.settings.(checkIntervalMinutes := i.value));
      }
    }
  }

  method OverrideDiscord(d: DiscordConfig, env: Env) returns (r: DiscordConfig)
    ensures r == DiscordFromEnv(d, env)
  {
    r := d;
    var url := Getenv(env, "DISCORD_WEBHOOK_URL");
    if url != "" {
      r := r.(webhookUrl := url);
    }
    var enabled := Getenv(env, "DISCORD_ENABLED");
    if enabled != "" {
      r := r.(enabled := enabled == "true");
    }
  }

  method OverrideSlack(s: SlackConfig, env: Env) returns (r: SlackConfig)
    ensures r == SlackFromEnv(s, env)
  {
    r := s;
    var url := Getenv(env, "SLACK_WEBHOOK_URL");
    if url != "" {
      r := r.(webhookUrl := url);
    }
    var channel := Getenv(env, "SLACK_CHANNEL");
    if channel != "" {
      r := r.(channel := channel);
    }
    var enabled := Getenv(env, "SLACK_ENABLED");
    if enabled != "" {
      r := r.(enabled := enabled == "true");
    }
  }

  method OverrideServer(s: ServerConfig, env: Env) returns (r: ServerConfig)
    ensures r == ServerFromEnv(s, env)
  {
    r := s;
    var port := Getenv(env, "SERVER_PORT");
    if port != "" {
      var p := Atoi(port);
      if p.Some? {
        r := r.(port := p.value);
      }
    }
    var host := Getenv(env, "SERVER_HOST");
    if host != "" {
      r := r.(host := host);
    }
  }

  method OverrideLogging(l: LoggingConfig, env: Env) returns (r: LoggingConfig)
    ensures r == LoggingFromEnv(l, env)
  {
    r := l;
    var level := Getenv(env, "LOG_LEVEL");
    if level != "" {
      r := r.(level := level);
    }
    var format := Getenv(env, "LOG_FORMAT");
    if format != "" {
      r := r.(format := format);
    }
  }

  /** The override rules, for every variable: a variable counts only when it
      is non-empty, a flag becomes true exactly for "true", a number applies
      only when it parses, and the fields without a variable are never touched. */
  lemma EnvOverrideRules(c: Config, env: Env)
    ensures var r := EnvOverridden(c, env);
      && (Getenv(env, "GITHUB_TOKEN") == "" ==> r.github.token == c.github.token)
      && (Getenv(env, "GITHUB_TOKEN") != "" ==> r.github.token == env["GITHUB_TOKEN"])
      && (Getenv(env, "DISCORD_ENABLED") == "" ==> r.notifications.discord.enabled == c.notifications.discord.enabled)
      && (Getenv(env, "DISCORD_ENABLED") != "" ==> (r.notifications.discord.enabled <==> env["DISCORD_ENABLED"] == "true"))
      && (Getenv(env, "DISCORD_WEBHOOK_URL") == "" ==> r.notifications.discord.webhookUrl == c.notifications.discord.webhookUrl)
      && (Getenv(env, "DISCORD_WEBHOOK_URL") != "" ==> r.notifications.discord.webhookUrl == env["DISCORD_WEBHOOK_URL"])
      && (Getenv(env, "SLACK_WEBHOOK_URL") == "" ==> r.notifications.slack.webhookUrl == c.notifications.slack.webhookUrl)
      && (Getenv(env, "SLACK_WEBHOOK_URL") != "" ==> r.notifications.slack.webhookUrl == env["SLACK_WEBHOOK_URL"])
      && (Getenv(env, "SLACK_CHANNEL") == "" ==> r.notifications.slack.channel == c.notifications.slack.channel)
      && (Getenv(env, "SLACK_CHANNEL") != "" ==> r.notifications.slack.channel == env["SLACK_CHANNEL"])
      && (Getenv(env, "SLACK_ENABLED") == "" ==> r.notifications.slack.enabled == c.notifications.slack.enabled)
      && (Getenv(env, "SLACK_ENABLED") != "" ==> (r.notifications.slack.enabled <==> env["SLACK_ENABLED"] == "true"))
      && (Atoi(Getenv(env, "SERVER_PORT")).None? ==> r.server.port == c.server.port)
      && (Atoi(Getenv(env, "SERVER_PORT")).Some? ==> r.server.port == Atoi(env["SERVER_PORT"]).value)
      && (Atoi(Getenv(env, "CHECK_INTERVAL_MINUTES")).None? ==>
            r.settings.checkIntervalMinutes == c.settings.checkIntervalMinutes)
      && (Atoi(Getenv(env, "CHECK_INTERVAL_MINUTES")).Some? ==>
            r.settings.checkIntervalMinutes == Atoi(env["CHECK_INTERVAL_MINUTES"]).value)
      && (Getenv(env, "SERVER_HOST") == "" ==> r.server.host == c.server.host)
      && (Getenv(env, "SERVER_HOST") != "" ==> r.server.host == env["SERVER_HOST"])
      && (Getenv(env, "STORAGE_PATH") == "" ==> r.storage.path == c.storage.path)
      && (Getenv(env, "STORAGE_PATH") != "" ==> r.storage.path == env["STORAGE_PATH"])
      && (Getenv(env, "LOG_LEVEL") == "" ==> r.logging.level == c.logging.level)
      && (Getenv(env, "LOG_LEVEL") != "" ==> r.logging.level == env["LOG_LEVEL"])
      && (Getenv(env, "LOG_FORMAT") == "" ==> r.logging.format == c.logging.format)
      && (Getenv(env, "LOG_FORMAT") != "" ==> r.logging.format == env["LOG_FORMAT"])
      && r.repositories == c.repositories
      && r.github.timeout == c.github.timeout
      && r.server.readTimeout == c.server.readTimeout
      && r.server.writeTimeout == c.server.writeTimeout
      && r.storage.kind == c.storage.kind
  {
  }

  /** Applying the overrides a second time changes nothing more. */
  lemma EnvOverridesIdempotent(c: Config, env: Env)
    ensures EnvOverridden(EnvOverridden(c, env), env) == EnvOverridden(c, env)
  {
  }

  /** An environment that sets none of the variables leaves the configuration as parsed. */
  lemma EmptyEnvironmentKeepsConfig(c: Config, env: Env)
    requires forall name :: name in env ==> env[name] == ""
    ensures EnvOverridden(c, env) == c
  {
    assert Getenv(env, "DISCORD_ENABLED") == "" && Getenv(env, "SLACK_ENABLED") == "";
    assert Getenv(env, "SERVER_PORT") == "" && Getenv(env, "CHECK_INTERVAL_MINUTES") == "";
  }

  // ---------------------------------------------------------------------
  // validate

  const LogLevels: set<string> := {"debug", "info", "warn", "error"}
  const LogFormats: set<string> := {"json", "text"}

  /** The error for the repository at `index` whose `which` part ("owner" or "repo") is empty. */
  function RepositoryError(index: int, which: string): Error {
    Plain("repository[" + IntToString(index) + "]: " + which + " is required")
  }

  /** The first repository problem at or after `from`, in list order. */
  function RepositoryProblem(repos: seq<Repository>, from: nat): Option<Error>
    requires from <= |repos|
    decreases |repos| - from
  {
    if from == |repos| then None
    else if repos[from].owner == "" then Some(RepositoryError(from, "owner"))
    else if repos[from].repo == "" then Some(RepositoryError(from, "repo"))
    else RepositoryProblem(repos, from + 1)
  }

  /** The error `validate` returns, in the order of its checks, or None. */
  function Problem(c: Config): Option<Error> {
    if |c.repositories| == 0 then Some(Plain("at least one repository must be configured"))
    else if RepositoryProblem(c.repositories, 0).Some? then RepositoryProblem(c.repositories, 0)
    else SettingsProblem(c)
  }

  /** The checks of `validate` after the repositories: webhook URLs, then
      the logging level and format. */
  function SettingsProblem(c: Config): Option<Error> {
    if c.notifications.discord.enabled && c.notifications.discord.webhookUrl == "" then
      Some(Plain("discord webhook URL is required when discord notifications are enabled"))
    else if c.notifications.slack.enabled && c.notifications.slack.webhookUrl == "" then
      Some(Plain("slack webhook URL is required when slack notifications are enabled"))
    else if c.logging.level != "" && c.logging.level !in LogLevels then
      Some(Plain("invalid log level: " + c.logging.level))
    else if c.logging.format != "" && c.logging.format !in LogFormats then
      Some(Plain("invalid log format: " + c.logging.format))
    else None
  }

  /** What a valid configuration is, stated independently of the order of
      the checks. */
  predicate WellFormed(c: Config) {
    && |c.repositories| > 0
    && (forall i :: 0 <= i < |c.repositories| ==>
          c.repositories[i].owner != "" && c.repositories[i].repo != "")
    && (c.notifications.discord.enabled ==> c.notifications.discord.webhookUrl != "")
    && (c.notifications.slack.enabled ==> c.notifications.slack.webhookUrl != "")
    && (c.logging.level == "" || c.logging.level in LogLevels)
    && (c.logging.format == "" || c.logging.format in LogFormats)
  }

  /** `validate`: the loop over the repositories stops at the first one
      missing its owner or its name. */
  method Validate(c: Config) returns (err: Option<Error>)
    ensures err == Problem(c)
  {
    if |c.repositories| == 0 {
      return Some(Plain("at least one repository must be configured"));
    }
    var i := 0;
    while i < |c.repositories|
      invariant 0 <= i <= |c.repositories|
      invariant RepositoryProblem(c.repositories, 0) == RepositoryProblem(c.repositories, i)
    {
      var repo := c.repositories[i];
      if repo.owner == "" {
        return Some(RepositoryError(i, "owner"));
      }
      if repo.repo == "" {
        return Some(RepositoryError(i, "repo"));
      }
      i := i + 1;
    }
    assert Problem(c) == SettingsProblem(c);
    if c.notifications.discord.enabled && c.notifications.discord.webhookUrl == "" {
      return Some(Plain("discord webhook URL is required when discord notifications are enabled"));
    }
    if c.notifications.slack.enabled && c.notifications.slack.webhookUrl == "" {
      return Some(Plain("slack webhook URL is required when slack notifications are enabled"));
    }
    if c.logging.level != "" && c.logging.level !in LogLevels {
      return Some(Plain("invalid log level: " + c.logging.level));
    }
    if c.logging.format != "" && c.logging.format !in LogFormats {
      return Some(Plain("invalid log format: " + c.logging.format));
    }
    return None;
  }

  /** No repository problem from `from` on exactly when every repository from
      there has an owner and a name. */
  lemma {:induction false} RepositoryProblemNoneIff(repos: seq<Repository>, from: nat)
    requires from <= |repos|
    ensures RepositoryProblem(repos, from).None? <==>
      forall i :: from <= i < |repos| ==> repos[i].owner != "" && repos[i].repo != ""
    decreases |repos| - from
  {
    if from < |repos| {
      RepositoryProblemNoneIff(repos, from + 1);
    }
  }

  /** A repository problem names the first offending index, and the owner
      before the name. */
  lemma {:induction false} RepositoryProblemIsFirst(repos: seq<Repository>, from: nat)
    requires from <= |repos|
    requires RepositoryProblem(repos, from).Some?
    ensures exists k :: (IsFirstRepositoryProblem(repos, from, k)
      && RepositoryProblem(repos, from).value ==
           RepositoryError(k, if repos[k].owner == "" then "owner" else "repo"))
    decreases |repos| - from
  {
    if repos[from].owner != "" && repos[from].repo != "" {
      RepositoryProblemIsFirst(repos, from + 1);
      var k :| IsFirstRepositoryProblem(repos, from + 1, k)
        && RepositoryProblem(repos, from + 1).value ==
             RepositoryError(k, if repos[k].owner == "" then "owner" else "repo");
      assert IsFirstRepositoryProblem(repos, from, k);
    } else {
      assert IsFirstRepositoryProblem(repos, from, from);
    }
  }

  /** `k` is the first repository from `from` on that lacks an owner or a name. */
  predicate IsFirstRepositoryProblem(repos: seq<Repository>, from: nat, k: int) {
    && from <= k < |repos| && (repos[k].owner == "" || repos[k].repo == "")
    && (forall j :: from <= j < k ==> repos[j].owner != "" && repos[j].repo != "")
  }

  /** `validate` accepts exactly the well-formed configurations. */
  lemma ValidateAcceptsWellFormed(c: Config)
    ensures Problem(c).None? <==> WellFormed(c)
  {
    RepositoryProblemNoneIff(c.repositories, 0);
  }

  // ---------------------------------------------------------------------
  // setDefaults

  const DefaultCheckIntervalMinutes: int := 60
  const DefaultGitHubTimeoutSeconds: int := 30
  const DefaultPort: int := 8080
  const DefaultHost: string := "localhost"
  const DefaultServerTimeoutSeconds: int := 30
  const DefaultStorageKind: string := "file"
  const DefaultStoragePath: string := "./data"
  const DefaultLogLevel: string := "info"
  const DefaultLogFormat: string := "text"

  function OrInt(v: int, d: int): int {
    if v == 0 then d else v
  }

  function OrText(v: string, d: string): string {
    if v == "" then d else v
  }

  /** The server section with its defaults. */
  function ServerWithDefaults(s: ServerConfig): ServerConfig {
    ServerConfig(
      OrInt(s.port, DefaultPort),
      OrInt(s.readTimeout, DefaultServerTimeoutSeconds),
      OrInt(s.writeTimeout, DefaultServerTimeoutSeconds),
      OrText(s.host, DefaultHost))
  }

  /** The configuration with every zero or empty defaulted field filled in. */
  function WithDefaults(c: Config): (r: Config)
    ensures r.repositories == c.repositories && r.notifications == c.notifications && r.github.token == c.github.token
    ensures r.settings.checkIntervalMinutes != 0 && r.github.timeout != 0
    ensures r.storage.kind != "" && r.storage.path != "" && r.logging.level != "" && r.logging.format != ""
    ensures r.server.port != 0 && r.server.readTimeout != 0 && r.server.writeTimeout != 0 && r.server.host != ""
  {
    c.(
      settings := Settings(OrInt(c.settings.checkIntervalMinutes, DefaultCheckIntervalMinutes)),
      github := c.github.(timeout := OrInt(c.github.timeout, DefaultGitHubTimeoutSeconds)),
      server := ServerWithDefaults(c.server),
      storage := StorageConfig(OrText(c.storage.kind, DefaultStorageKind), OrText(c.storage.path, DefaultStoragePath)),
      logging := LoggingConfig(OrText(c.logging.level, DefaultLogLevel), OrText(c.logging.format, DefaultLogFormat)))
  }

  /** `setDefaults`, one field at a time on a copy of the configuration. */
  method SetDefaults(c: Config) returns (r: Config)
    ensures r == WithDefaults(c)
  {
    r := c;
    if r.settings.checkIntervalMinutes == 0 {
      r := r.(settings := r.settings.(checkIntervalMinutes := DefaultCheckIntervalMinutes));
    }
    if r.github.timeout == 0 {
      r := r.(github := r.github.(timeout := DefaultGitHubTimeoutSeconds));
    }
    var server := DefaultServer(r.server);
    r := r.(server := server);
    var storage := r.storage;
    if storage.kind == "" {
      storage := storage.(kind := DefaultStorageKind);
    }
    if storage.path == "" {
      storage := storage.(path := DefaultStoragePath);
    }
    r := r.(storage := storage);
    var logging := r.logging;
    if logging.level == "" {
      logging := logging.(level := DefaultLogLevel);
    }
    if logging.format == "" {
      logging := logging.(format := DefaultLogFormat);
    }
    r := r.(logging := logging);
  }

  method DefaultServer(s: ServerConfig) returns (r: ServerConfig)
    ensures r == ServerWithDefaults(s)
  {
    r := s;
    if r.port == 0 {
      r := r.(port := DefaultPort);
    }
    if r.host == "" {
      r := r.(host := DefaultHost);
    }
    if r.readTimeout == 0 {
      r := r.(readTimeout := DefaultServerTimeoutSeconds);
    }
    if r.writeTimeout == 0 {
      r := r.(writeTimeout := DefaultServerTimeoutSeconds);
    }
  }

  /** Defaulting fills exactly the zero fields and leaves every other field,
      and every field without a default, as it was. */
  lemma DefaultsFillOnlyZeroFields(c: Config)
    ensures var r := WithDefaults(c);
      && (c.settings.checkIntervalMinutes == 0 ==> r.settings.checkIntervalMinutes == 60)
      && (c.settings.checkIntervalMinutes != 0 ==> r.settings.checkIntervalMinutes == c.settings.checkIntervalMinutes)
      && (c.github.timeout == 0 ==> r.github.timeout == 30)
      && (c.github.timeout != 0 ==> r.github.timeout == c.github.timeout)
      && (c.server.port == 0 ==> r.server.port == 8080)
      && (c.server.port != 0 ==> r.server.port == c.server.port)
      && (c.server.host == "" ==> r.server.host == "localhost")
      && (c.server.host != "" ==> r.server.host == c.server.host)
      && (c.server.readTimeout == 0 ==> r.server.readTimeout == 30)
      && (c.server.readTimeout != 0 ==> r.server.readTimeout == c.server.readTimeout)
      && (c.server.writeTimeout == 0 ==> r.server.writeTimeout == 30)
      && (c.server.writeTimeout != 0 ==> r.server.writeTimeout == c.server.writeTimeout)
      && (c.storage.kind == "" ==> r.storage.kind == "file")
      && (c.storage.kind != "" ==> r.storage.kind == c.storage.kind)
      && (c.storage.path == "" ==> r.storage.path == "./data")
      && (c.storage.path != "" ==> r.storage.path == c.storage.path)
      && (c.logging.level == "" ==> r.logging.level == "info")
      && (c.logging.level != "" ==> r.logging.level == c.logging.level)
      && (c.logging.format == "" ==> r.logging.format == "text")
      && (c.logging.format != "" ==> r.logging.format == c.logging.format)
      && r.repositories == c.repositories
      && r.notifications == c.notifications
      && r.github.token == c.github.token
  {
  }

  /** Defaulting twice is defaulting once. */
  lemma DefaultsIdempotent(c: Config)
    ensures WithDefaults(WithDefaults(c)) == WithDefaults(c)
  {
  }

  /** Defaulting keeps a valid configuration valid (the default log level and
      format are among the accepted ones). */
  lemma DefaultsKeepWellFormed(c: Config)
    requires WellFormed(c)
    ensures WellFormed(WithDefaults(c))
  {
  }

  // ---------------------------------------------------------------------
  // Load

  /** What reading and decoding the configuration file gives. */
  datatype ConfigFile =
    | ReadFailed(readError: Error)
    | ParseFailed(parseError: Error)
    | Parsed(parsed: Config)

  /** The result of `Load`: overrides, then validation, then defaults. */
  function Loaded(file: ConfigFile, env: Env): (r: Result<Config, Error>)
    ensures r.Success? ==> file.Parsed?
    ensures r.Failure? ==> r.error.Wrapped?
  {
    match file
    case ReadFailed(e) => Failure(Wrapped("failed to read config file", e))
    case ParseFailed(e) => Failure(Wrapped("failed to parse config file", e))
    case Parsed(c) =>
      var o := EnvOverridden(c, env);
      if Problem(o).Some? then Failure(Wrapped("invalid configuration", Problem(o).value))
      else Success(WithDefaults(o))
  }

  /** `Load`, step by step. */
  method Load(file: ConfigFile, env: Env) returns (r: Result<Config, Error>)
    ensures r == Loaded(file, env)
  {
    match file
    case ReadFailed(e) =>
      return Failure(Wrapped("failed to read config file", e));
    case ParseFailed(e) =>
      return Failure(Wrapped("failed to parse config file", e));
    case Parsed(c) =>
      var cfg := ApplyEnvOverrides(c, env);
      var err := Validate(cfg);
      if err.Some? {
        return Failure(Wrapped("invalid configuration", err.value));
      }
      cfg := SetDefaults(cfg);
      return Success(cfg);
  }

  /** A loaded configuration is valid and fully defaulted; validation judged
      the overridden values, and a variable such as LOG_LEVEL can make a
      valid file invalid. */
  lemma LoadedIsValidAndDefaulted(file: ConfigFile, env: Env)
    ensures Loaded(file, env).Success? ==>
      && WellFormed(Loaded(file, env).value)
      && WithDefaults(Loaded(file, env).value) == Loaded(file, env).value
      && Loaded(file, env).value.settings.checkIntervalMinutes != 0
    ensures file.Parsed? ==>
      (Loaded(file, env).Success? <==> WellFormed(EnvOverridden(file.parsed, env)))
  {
    if file.Parsed? {
      var o := EnvOverridden(file.parsed, env);
      ValidateAcceptsWellFormed(o);
      if Problem(o).None? {
        DefaultsKeepWellFormed(o);
      }
    }
  }

  /** Nothing in `validate` or `setDefaults` looks at a negative interval:
      a valid file naming one loads, and its check interval is negative
      (`time.NewTicker` in the service's `Start` panics on such a value). */
  lemma LoadAdmitsNegativeInterval(c: Config)
    requires WellFormed(c)
    requires -153_722_867 <= c.settings.checkIntervalMinutes < 0
    ensures Loaded(Parsed(c), map[]).Success?
    ensures CheckInterval(Loaded(Parsed(c), map[]).value) < 0
  {
    EmptyEnvironmentKeepsConfig(c, map[]);
    LoadedIsValidAndDefaulted(Parsed(c), map[]);
  }

  // ---------------------------------------------------------------------
  // Getters

  /** `GetCheckInterval`: the interval in minutes as a `time.Duration`. */
  function CheckInterval(c: Config): (d: int)
    ensures MinInt64 <= d <= MaxInt64
  {
    Times(c.settings.checkIntervalMinutes, Minute)
  }

  /** `GetGitHubTimeout`: the timeout in seconds as a `time.Duration`. */
  function GitHubTimeout(c: Config): (d: int)
    ensures MinInt64 <= d <= MaxInt64
  {
    Times(c.github.timeout, Second)
  }

  /** For any interval that fits, the duration is exactly that many minutes;
      a defaulted zero interval is one hour. */
  lemma CheckIntervalInMinutes(c: Config)
    ensures 0 <= c.settings.checkIntervalMinutes <= 153_722_867 ==>
      CheckInterval(c) == c.settings.checkIntervalMinutes * Minute
    ensures c.settings.checkIntervalMinutes == 0 ==> CheckInterval(WithDefaults(c)) == 60 * Minute
  {
  }

  /** For any timeout that fits, the duration is exactly that many seconds;
      a defaulted zero timeout is 30 seconds. */
  lemma GitHubTimeoutInSeconds(c: Config)
    ensures 0 <= c.github.timeout <= 9_223_372_036 ==> GitHubTimeout(c) == c.github.timeout * Second
    ensures c.github.timeout == 0 ==> GitHubTimeout(WithDefaults(c)) == 30 * Second
  {
  }

  /** The `slog` levels. */
  const LevelDebug: int := -4
  const LevelInfo: int := 0
  const LevelWarn: int := 4
  const LevelError: int := 8

  /** The name of each of the four levels. */
  function LevelName(level: int): string {
    if level == LevelDebug then "debug"
    else if level == LevelWarn then "warn"
    else if level == LevelError then "error"
    else "info"
  }

  /** `GetLogLevel`. */
  function LogLevel(c: Config): (level: int)
    ensures level in {LevelDebug, LevelInfo, LevelWarn, LevelError}
  {
    match c.logging.level
    case "debug" => LevelDebug
    case "info" => LevelInfo
    case "warn" => LevelWarn
    case "error" => LevelError
    case _ => LevelInfo
  }

  /** Each of the four names maps to the level of that name, and any other
      text maps to Info. */
  lemma LogLevelNames(c: Config)
    ensures c.logging.level in LogLevels ==> LevelName(LogLevel(c)) == c.logging.level
    ensures c.logging.level !in LogLevels ==> LogLevel(c) == LevelInfo
  {
  }
}
