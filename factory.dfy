/** The notifier factory of package `notify`: which notifiers a configuration
    enables, how each is decorated, and how a single notifier is made from a
    provider name. */
module Factory {
  import opened Wrappers
  import opened Errors
  import opened Durations
  import opened Configuration
  import opened Notify
  import GitHub

  datatype NotifierConfig = NotifierConfig(maxRetries: int, retryBackoff: int, rateLimitWindow: int, timeout: int)

  /** `DefaultNotifierConfig`: 3 retries 2 s apart (growing linearly), one
      notification per minute per provider, and a 30 s HTTP timeout. */
  function DefaultNotifierConfig(): (cfg: NotifierConfig)
    ensures cfg.maxRetries == 3 && cfg.retryBackoff == 2 * Second
    ensures cfg.rateLimitWindow == Minute && cfg.timeout == 30 * Second
  {
    NotifierConfig(3, Second * 2, Minute * 1, Second * 30)
  }

  /** The decoration every created notifier gets: retry outermost, then the
      rate limiter, then the base notifier. */
  function Decorated(base: Base, cfg: NotifierConfig): Notifier {
    Retryable(cfg.maxRetries, cfg.retryBackoff, RateLimited(cfg.rateLimitWindow, Basic(base)))
  }

  lemma DecoratedKeepsBase(base: Base, cfg: NotifierConfig)
    ensures Innermost(Decorated(base, cfg)) == base
  {
    assert Innermost(RateLimited(cfg.rateLimitWindow, Basic(base))) == base;
  }

  predicate IsDecorated(n: Notifier, cfg: NotifierConfig) {
    && n.Retryable? && n.maxRetries == cfg.maxRetries && n.backoff == cfg.retryBackoff
    && n.inner.RateLimited? && n.inner.window == cfg.rateLimitWindow
    && n.inner.inner.Basic?
  }

  function ProviderNames(ns: seq<Notifier>): seq<string> {
    seq(|ns|, i requires 0 <= i < |ns| => ProviderName(ns[i]))
  }

  /** The notifiers a configuration enables. */
  function EnabledNotifiers(c: Config, cfg: NotifierConfig): seq<Notifier> {
    (if c.notifications.discord.enabled
     then [Decorated(DiscordNotifier(c.notifications.discord.webhookUrl, cfg.timeout), cfg)] else [])
    + (if c.notifications.slack.enabled
       then [Decorated(SlackNotifier(c.notifications.slack.webhookUrl, c.notifications.slack.channel, cfg.timeout), cfg)]
       else [])
  }

  /** `CreateNotifiersWithConfig`: Discord first if enabled, then Slack if
      enabled; it never fails. */
  method CreateNotifiersWithConfig(c: Config, cfg: NotifierConfig) returns (notifiers: seq<Notifier>, err: Option<Error>)
    ensures err.None? && notifiers == EnabledNotifiers(c, cfg)
    ensures forall i :: 0 <= i < |notifiers| ==> IsDecorated(notifiers[i], cfg)
    ensures ProviderNames(notifiers)
         == (if c.notifications.discord.enabled then [ProviderDiscord] else [])
          + (if c.notifications.slack.enabled then [ProviderSlack] else [])
    ensures c.notifications.discord.enabled ==>
      Innermost(notifiers[0]) == DiscordNotifier(c.notifications.discord.webhookUrl, cfg.timeout)
    ensures c.notifications.slack.enabled ==>
      Innermost(notifiers[|notifiers| - 1])
        == SlackNotifier(c.notifications.slack.webhookUrl, c.notifications.slack.channel, cfg.timeout)
  {
    var discord := DiscordNotifier(c.notifications.discord.webhookUrl, cfg.timeout);
    var slack := SlackNotifier(c.notifications.slack.webhookUrl, c.notifications.slack.channel, cfg.timeout);
    notifiers := [];
    if c.notifications.discord.enabled {
      notifiers := notifiers + [Decorated(discord, cfg)];
    }
    if c.notifications.slack.enabled {
      notifiers := notifiers + [Decorated(slack, cfg)];
    }
    DecoratedKeepsBase(discord, cfg);
    DecoratedKeepsBase(slack, cfg);
    err := None;
  }

  /** The Slack channel of the variadic `options`: the first, or none. */
  function ChannelOption(options: seq<string>): string {
    if |options| > 0 then options[0] else ""
  }

  function Unsupported(notifierType: string): Error {
    Plain("unsupported notifier type: " + notifierType)
  }

  /** `CreateNotifierWithConfig`: a decorated notifier for "discord" or
      "slack", an error for any other type. */
  function CreateNotifierWithConfig(notifierType: string, webhookUrl: string, cfg: NotifierConfig,
                                    options: seq<string>): (r: Result<Notifier, Error>)
    ensures r.Success? <==> notifierType == ProviderDiscord || notifierType == ProviderSlack
    ensures r.Failure? ==> r.error == Unsupported(notifierType)
    ensures r.Success? ==>
      && IsDecorated(r.value, cfg)
      && ProviderName(r.value) == notifierType
      && Innermost(r.value).webhookUrl == webhookUrl
      && Innermost(r.value).timeout == cfg.timeout
      && (notifierType == ProviderSlack ==> Innermost(r.value).channel == ChannelOption(options))
  {
    var base :=
      if notifierType == ProviderDiscord then Success(DiscordNotifier(webhookUrl, cfg.timeout))
      else if notifierType == ProviderSlack then Success(SlackNotifier(webhookUrl, ChannelOption(options), cfg.timeout))
      else Failure(Unsupported(notifierType));
    match base
    case Success(b) => DecoratedKeepsBase(b, cfg); Success(Decorated(b, cfg))
    case Failure(e) => Failure(e)
  }

  /** The HTTP timeout of `NewDiscordNotifier` and `NewSlackNotifier`. */
  const BasicTimeout: int := 30 * Second

  /** `CreateBasicNotifier`: an undecorated notifier for "discord" or
      "slack", an error for any other type. */
  function CreateBasicNotifier(notifierType: string, webhookUrl: string, options: seq<string>): (r: Result<Notifier, Error>)
    ensures r.Success? <==> notifierType == ProviderDiscord || notifierType == ProviderSlack
    ensures r.Failure? ==> r.error == Unsupported(notifierType)
    ensures r.Success? ==>
      && r.value.Basic?
      && ProviderName(r.value) == notifierType
      && r.value.base.webhookUrl == webhookUrl && r.value.base.timeout == BasicTimeout
      && (notifierType == ProviderSlack ==> r.value.base.channel == ChannelOption(options))
  {
    if notifierType == ProviderDiscord then Success(Basic(DiscordNotifier(webhookUrl, 30 * Second)))
    else if notifierType == ProviderSlack then
      Success(Basic(SlackNotifier(webhookUrl, ChannelOption(options), 30 * Second)))
    else Failure(Unsupported(notifierType))
  }

  /** The number of notifiers created is the number of enabled providers,
      so none when neither is enabled. */
  lemma CreatedOnePerEnabledProvider(c: Config, cfg: NotifierConfig, notifiers: seq<Notifier>)
    requires ProviderNames(notifiers)
          == (if c.notifications.discord.enabled then [ProviderDiscord] else [])
           + (if c.notifications.slack.enabled then [ProviderSlack] else [])
    ensures |notifiers| == (if c.notifications.discord.enabled then 1 else 0)
                         + (if c.notifications.slack.enabled then 1 else 0)
    ensures !c.notifications.discord.enabled && !c.notifications.slack.enabled ==> notifiers == []
  {
    assert |ProviderNames(notifiers)| == |notifiers|;
  }

  /** With the default configuration a notification that keeps failing is
      tried four times, waiting 2 s, 4 s and 6 s in between. */
  lemma DefaultRetrySchedule(tries: seq<GitHub.Attempt<()>>)
    requires |tries| > 3
    requires forall k :: 0 <= k <= 3 ==>
      tries[k].outcome.Failure? && !tries[k].cancelledAfter && (k < 3 ==> !tries[k].cancelledInBackoff)
    ensures var cfg := DefaultNotifierConfig();
      var run := GitHub.Retry(tries, cfg.maxRetries, cfg.retryBackoff, false);
      && run.attempts == 4
      && run.waits == [2 * Second, 4 * Second, 6 * Second]
      && ErrorOf(run.outcome) == Some(tries[3].outcome.error)
  {
    RetryableNotifierExhausted(tries, 3, 2 * Second);
    var waits := GitHub.Retry(tries, 3, 2 * Second, false).waits;
    assert waits[0] == Times(1, 2 * Second);
    assert waits[1] == Times(2, 2 * Second);
    assert waits[2] == Times(3, 2 * Second);
  }
}
