/** The notifier decorators of package `notify`: the rate limiter and the
    rate-limited notifier around a base (Discord or Slack) notifier, and the
    retry loop of the retryable notifier. The clock is an integer count of
    nanoseconds since the Unix epoch; every reading of `time.Now` is a
    parameter, and so is the outcome of every call into the wrapped notifier. */
module Notify {
  import opened Wrappers
  import opened Text
  import opened Errors
  import opened Durations
  import GitHub

  const ProviderDiscord: string := "discord"
  const ProviderSlack: string := "slack"

  /** A base notifier: its webhook, for Slack its channel, and the timeout of
      its HTTP client. */
  datatype Base =
    | DiscordNotifier(webhookUrl: string, timeout: int)
    | SlackNotifier(webhookUrl: string, channel: string, timeout: int)

  /** A notifier as the factory assembles it: a base notifier, or one of the
      two decorators around another notifier. A `RateLimited` notifier owns a
      fresh `RateLimiter` with the given window. */
  datatype Notifier =
    | Basic(base: Base)
    | RateLimited(window: int, inner: Notifier)
    | Retryable(maxRetries: int, backoff: int, inner: Notifier)

  function BaseProvider(b: Base): string {
    match b
    case DiscordNotifier(_, _) => ProviderDiscord
    case SlackNotifier(_, _, _) => ProviderSlack
  }

  /** The base notifier at the centre of the decorators. */
  function Innermost(n: Notifier): Base {
    match n
    case Basic(b) => b
    case RateLimited(_, inner) => Innermost(inner)
    case Retryable(_, _, inner) => Innermost(inner)
  }

  /** `GetProviderName`: both decorators pass the name of the notifier they
      wrap through, so every notifier answers with its base provider's name. */
  function ProviderName(n: Notifier): (r: string)
    ensures r == BaseProvider(Innermost(n))
    ensures r == ProviderDiscord || r == ProviderSlack
  {
    match n
    case Basic(b) => BaseProvider(b)
    case RateLimited(_, inner) => ProviderName(inner)
    case Retryable(_, _, inner) => ProviderName(inner)
  }

  /** The page of a repository and of a user on GitHub, which both
      providers link to. */
  function RepoUrl(owner: string, repo: string): string {
    "https://github.com/" + owner + "/" + repo
  }

  function ProfileUrl(login: string): string {
    "https://github.com/" + login
  }

  /** Both message builders list at most this many stargazers one by one. */
  const MaxStargazers: nat := 10

  /** The rows of the first `k` stargazers, one `row` each, in order. */
  function ListedRows<F>(stargazers: seq<GitHub.Stargazer>, row: GitHub.Stargazer -> F, k: nat): (rows: seq<F>)
    requires k <= |stargazers|
    ensures |rows| == k
  {
    seq(k, j requires 0 <= j < k => row(stargazers[j]))
  }

  /** The listing both builders put in their message: a row for each of the
      first ten stargazers and, when there are more, the `overflow` row. */
  function Listing<F>(stargazers: seq<GitHub.Stargazer>, row: GitHub.Stargazer -> F, overflow: F): seq<F> {
    ListedRows(stargazers, row, Min(|stargazers|, MaxStargazers))
      + (if |stargazers| > MaxStargazers then [overflow] else [])
  }

  /** The listing's first min(n, 10) rows are the stargazers' own rows, in
      order, and the overflow row comes last exactly when n > 10. */
  lemma ListingShape<F>(stargazers: seq<GitHub.Stargazer>, row: GitHub.Stargazer -> F, overflow: F)
    ensures var ls := Listing(stargazers, row, overflow); var n := |stargazers|;
      && |ls| == Min(n, MaxStargazers) + (if n > MaxStargazers then 1 else 0)
      && (forall i :: 0 <= i < Min(n, MaxStargazers) ==> ls[i] == row(stargazers[i]))
      && (n > MaxStargazers ==> ls[|ls| - 1] == overflow)
  {
  }

  /** The outcome of the webhook POST of a base notifier: the request could not be built, it
      could not be sent, or the server answered with a status and a body. */
  datatype Delivery =
    | RequestFailed(cause: Error)
    | SendFailed(cause: Error)
    | Responded(status: int, body: string)

  predicate IsSuccessStatus(status: int) {
    200 <= status < 300
  }

  // ---------------------------------------------------------------------------
  // The rate limiter

  /** Go's zero `time.Time`, midnight UTC on 1 January of the year 1. */
  const ZeroTime: int := -62_135_596_800 * Second

  /** `t.Sub(u)`. */
  function Sub(t: int, u: int): int {
    Saturate64(t - u)
  }

  /** The test of `Allow`: at least `interval` has elapsed since `last`. */
  predicate Allowed(last: int, interval: int, now: int) {
    Sub(now, last) >= interval
  }

  /** What `Wait` returns and the `lastNotification` it leaves. */
  datatype WaitResult = WaitResult(err: Option<Error>, last: int)

  /** `Wait` called at `now`: if the next allowed moment `last + interval`
      is still ahead, either the context is cancelled first, or the timer
      fires and the clock then reads `resumedAt`. */
  function Waited(last: int, interval: int, now: int, cancelled: bool, resumedAt: int): WaitResult {
    if now < last + interval then
      if cancelled then WaitResult(Some(Canceled), last) else WaitResult(None, resumedAt)
    else
      WaitResult(None, now)
  }

  class RateLimiter {
    var lastNotification: int
    const interval: int

    /** `NewRateLimiter`: the last notification is the zero time. */
    constructor(interval: int)
      ensures this.interval == interval
      ensures lastNotification == ZeroTime
    {
      this.interval := interval;
      lastNotification := ZeroTime;
    }

    /** `Allow` at `now`: records `now` exactly when it lets the caller through. */
    method Allow(now: int) returns (ok: bool)
      modifies this
      ensures ok <==> Allowed(old(lastNotification), interval, now)
      ensures lastNotification == (if ok then now else old(lastNotification))
    {
      ok := Sub(now, lastNotification) >= interval;
      if ok {
        lastNotification := now;
      }
    }

    /** `Wait` at `now`. */
    method Wait(now: int, cancelled: bool, resumedAt: int) returns (err: Option<Error>)
      modifies this
      ensures WaitResult(err, lastNotification)
           == Waited(old(lastNotification), interval, now, cancelled, resumedAt)
    {
      var nextAllowed := lastNotification + interval;
      if now < nextAllowed {
        if cancelled {
          return Some(Canceled);
        }
        lastNotification := resumedAt;
        return None;
      }
      lastNotification := now;
      err := None;
    }
  }

  /** A fresh limiter lets the first notification through at any instant
      after 1970, whatever its (`int64`) interval. */
  lemma FreshLimiterAllows(interval: int, now: int)
    requires interval <= MaxInt64
    requires now >= 0
    ensures Allowed(ZeroTime, interval, now)
    ensures !(now < ZeroTime + interval)
  {
    assert now - ZeroTime > MaxInt64;
  }

  /** `Allow`'s test is exactly "at least `interval` has elapsed", for every
      interval but the smallest `int64`. */
  lemma AllowedIffElapsed(last: int, interval: int, now: int)
    requires MinInt64 < interval <= MaxInt64
    ensures Allowed(last, interval, now) <==> now - last >= interval
  {
  }

  /** `Wait` either fails with the cancellation and keeps the last
      notification, or succeeds and records an instant at least `interval`
      after it, provided the timer does not fire early. */
  lemma WaitKeepsSpacing(last: int, interval: int, now: int, cancelled: bool, resumedAt: int)
    requires resumedAt >= last + interval
    ensures var w := Waited(last, interval, now, cancelled, resumedAt);
      && (w.err.Some? ==> w.err == Some(Canceled) && w.last == last && now < last + interval)
      && (w.err.None? ==> w.last >= last + interval && (w.last == now || w.last == resumedAt))
  {
  }

  /** One `NotifyNewStars` of the rate-limited notifier: whether the wrapped
      notifier is called, the error the limiter returns, and the last
      notification left behind. `allowAt` and `waitAt` are the clock readings
      of `Allow` and of `Wait`. */
  datatype LimitedStep = LimitedStep(delegated: bool, err: Option<Error>, last: int)

  function Limited(last: int, interval: int, allowAt: int, waitAt: int, cancelled: bool, resumedAt: int): LimitedStep {
    if Allowed(last, interval, allowAt) then LimitedStep(true, None, allowAt)
    else
      var w := Waited(last, interval, waitAt, cancelled, resumedAt);
      LimitedStep(w.err.None?, w.err, w.last)
  }

  /** With a clock that runs forward and a timer that does not fire early,
      every delegated notification is recorded at least `interval` after the
      previous one, and a refused one changes nothing and returns the
      cancellation. */
  lemma LimitedNotificationsAreSpaced(last: int, interval: int, allowAt: int, waitAt: int,
                                      cancelled: bool, resumedAt: int)
    requires MinInt64 < interval <= MaxInt64
    requires allowAt <= waitAt
    requires resumedAt >= last + interval
    ensures var s := Limited(last, interval, allowAt, waitAt, cancelled, resumedAt);
      && (s.delegated ==> s.last >= last + interval && s.err.None?)
      && (!s.delegated ==> s.last == last && s.err == Some(Canceled))
      && (s.delegated <==> allowAt - last >= interval || waitAt >= last + interval || !cancelled)
  {
    AllowedIffElapsed(last, interval, allowAt);
    WaitKeepsSpacing(last, interval, waitAt, cancelled, resumedAt);
  }

  class RateLimitedNotifier {
    const inner: Notifier
    const limiter: RateLimiter

    /** `NewRateLimitedNotifier`. */
    constructor(inner: Notifier, interval: int)
      ensures this.inner == inner
      ensures fresh(limiter)
      ensures limiter.interval == interval && limiter.lastNotification == ZeroTime
    {
      this.inner := inner;
      limiter := new RateLimiter(interval);
    }

    /** `NotifyNewStars`: consult `Allow`, and on a refusal `Wait`; the wrapped
        notifier (whose result is `innerResult`) is called once, unless `Wait`
        failed, in which case its error is returned. */
    method NotifyNewStars(allowAt: int, waitAt: int, cancelled: bool, resumedAt: int, innerResult: Option<Error>)
      returns (err: Option<Error>, delegated: bool)
      modifies limiter
      ensures var s := Limited(old(limiter.lastNotification), limiter.interval, allowAt, waitAt, cancelled, resumedAt);
        && delegated == s.delegated
        && limiter.lastNotification == s.last
        && err == (if delegated then innerResult else s.err)
    {
      var ok := limiter.Allow(allowAt);
      if !ok {
        var waitErr := limiter.Wait(waitAt, cancelled, resumedAt);
        if waitErr.Some? {
          return waitErr, false;
        }
      }
      return innerResult, true;
    }

    /** `TestConnection` is not rate limited: it returns the wrapped
        notifier's result and leaves the limiter alone. */
    method TestConnection(innerResult: Option<Error>) returns (err: Option<Error>)
      ensures err == innerResult
    {
      err := innerResult;
    }

    /** `GetProviderName` passes through. */
    function GetProviderName(): (r: string)
      ensures r == BaseProvider(Innermost(inner))
    {
      ProviderName(inner)
    }
  }

  // ---------------------------------------------------------------------------
  // The retryable notifier

  /** The Go error a retry run ends with: nil after a success, and nil also
      when the loop never ran. */
  function ErrorOf(o: GitHub.Outcome<()>): Option<Error> {
    match o
    case Got(_) => None
    case Failed(e) => Some(e)
    case NoAttempt => None
  }

  /** The loop shared by `RetryableNotifier.NotifyNewStars` and
      `RetryableNotifier.TestConnection`: up to `maxRetries + 1` calls of the
      wrapped notifier (attempt k's result and the cancellations seen around
      it are `tries[k]`), with the wait `backoff*(k+1)` between attempts k+1
      and k+2 and no rate-limit exemption. */
  method WithRetry(tries: seq<GitHub.Attempt<()>>, maxRetries: int, backoff: int)
    returns (err: Option<Error>, made: nat, waits: seq<int>)
    requires maxRetries < |tries|
    ensures var run := GitHub.Retry(tries, maxRetries, backoff, false);
      err == ErrorOf(run.outcome) && made == run.attempts && waits == run.waits
  {
    var lastErr: Option<Error> := None;
    waits := [];
    var i := 0;
    while i <= maxRetries
      invariant i <= maxRetries + 1 || i == 0
      invariant GitHub.Retry(tries, maxRetries, backoff, false)
             == GitHub.After(i, waits, GitHub.RetryFrom(tries, i, maxRetries, backoff, false, lastErr))
    {
      var attempt := tries[i];
      if attempt.outcome.Success? {
        return None, i + 1, waits;
      }
      lastErr := Some(attempt.outcome.error);
      if attempt.cancelledAfter {
        return Some(Canceled), i + 1, waits;
      }
      if i < maxRetries {
        waits := waits + [Times(i + 1, backoff)];
        if attempt.cancelledInBackoff {
          return Some(Canceled), i + 1, waits;
        }
      }
      i := i + 1;
    }
    err := lastErr;
    made := i;
  }

  /** The promises of the retryable notifier: no attempt and no error when
      `maxRetries` is negative; otherwise between 1 and `maxRetries + 1`
      attempts, and success as soon as one attempt succeeds. The
      cancellation and the exhaustion cases follow. */
  lemma RetryableNotifierResult(tries: seq<GitHub.Attempt<()>>, maxRetries: int, backoff: int)
    requires maxRetries < |tries|
    ensures var run := GitHub.Retry(tries, maxRetries, backoff, false);
      && (maxRetries < 0 ==> ErrorOf(run.outcome) == None && run.attempts == 0)
      && (maxRetries >= 0 ==> 1 <= run.attempts <= maxRetries + 1)
      && (maxRetries >= 0 && tries[0].outcome.Success? ==> ErrorOf(run.outcome) == None && run.attempts == 1)
      && (ErrorOf(run.outcome).None? && maxRetries >= 0 ==> tries[run.attempts - 1].outcome.Success?)
  {
    var run := GitHub.Retry(tries, maxRetries, backoff, false);
    GitHub.RetryBounds(tries, 0, maxRetries, backoff, false, None);
    GitHub.RetryContinuesOnlyPastFailures(tries, 0, maxRetries, backoff, false, None);
    if maxRetries >= 0 {
      GitHub.RetryNeverEmpty(tries, 0, maxRetries, backoff, false, None);
    }
  }

  /** A context found done after a failed attempt, or during the backoff
      that follows it, ends the loop with the context's error and no further
      attempt. */
  lemma RetryableNotifierCancelled(tries: seq<GitHub.Attempt<()>>, maxRetries: int, backoff: int, k: nat)
    requires k <= maxRetries < |tries|
    requires forall j :: 0 <= j < k ==>
      tries[j].outcome.Failure? && !tries[j].cancelledAfter && !tries[j].cancelledInBackoff
    requires tries[k].outcome.Failure?
    requires tries[k].cancelledAfter || (k < maxRetries && tries[k].cancelledInBackoff)
    ensures var run := GitHub.Retry(tries, maxRetries, backoff, false);
      ErrorOf(run.outcome) == Some(Canceled) && run.attempts == k + 1
  {
    GitHub.RetryCancelled(tries, 0, maxRetries, backoff, false, None, k);
  }

  /** After `maxRetries + 1` failures with no cancellation, the last error
      is returned. */
  lemma RetryableNotifierExhausted(tries: seq<GitHub.Attempt<()>>, maxRetries: int, backoff: int)
    requires 0 <= maxRetries < |tries|
    requires forall k :: 0 <= k <= maxRetries ==>
      && tries[k].outcome.Failure? && !tries[k].cancelledAfter
      && (k < maxRetries ==> !tries[k].cancelledInBackoff)
    ensures var run := GitHub.Retry(tries, maxRetries, backoff, false);
      && ErrorOf(run.outcome) == Some(tries[maxRetries].outcome.error)
      && run.attempts == maxRetries + 1
      && run.waits == seq(maxRetries, k requires 0 <= k < maxRetries => Times(k + 1, backoff))
  {
    GitHub.RetryExhausted(tries, 0, maxRetries, backoff, false, None);
    GitHub.RetryBounds(tries, 0, maxRetries, backoff, false, None);
    var run := GitHub.Retry(tries, maxRetries, backoff, false);
    RetryExhaustedWaits(tries, 0, maxRetries, backoff, None);
  }

  lemma {:induction false} RetryExhaustedWaits(tries: seq<GitHub.Attempt<()>>, i: nat, maxRetries: int, backoff: int,
                                               lastErr: Option<Error>)
    requires i <= maxRetries < |tries|
    requires forall k :: i <= k <= maxRetries ==>
      && tries[k].outcome.Failure? && !tries[k].cancelledAfter
      && (k < maxRetries ==> !tries[k].cancelledInBackoff)
    ensures |GitHub.RetryFrom(tries, i, maxRetries, backoff, false, lastErr).waits| == maxRetries - i
    decreases maxRetries - i
  {
    if i < maxRetries {
      RetryExhaustedWaits(tries, i + 1, maxRetries, backoff, Some(tries[i].outcome.error));
    }
  }
}
