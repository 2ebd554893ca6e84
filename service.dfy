/** The orchestrator of package `service`: the check of one repository
    (fetch, diff, notify, save), the check cycle over all repositories, the
    reaction to a configuration reload, the startup sequence with its
    connection probes, the interval updates of the monitoring loop, and
    `Stop`. The GitHub fetch, the notifiers' answers and the storage's file
    system outcomes are parameters; the store is the `FileStorage` model. */
module Service {
  import opened Wrappers
  import opened Text
  import opened Errors
  import opened Durations
  import opened Configuration
  import opened Notify
  import GitHub
  import Storage
  import Factory
  import Reloader

  /** `github.NewRetryableClient(client, maxRetries, backoff)`. */
  datatype RetryableClient = RetryableClient(client: GitHub.Client, maxRetries: int, backoff: int)

  /** The GitHub client the service builds for a configuration: its token
      and timeout, the default base URL and user agent, 3 retries 2 s apart. */
  function ClientFor(c: Config): (r: RetryableClient)
    ensures r.client.token == c.github.token
    ensures GitHubTimeout(c) != 0 ==> r.client.timeout == GitHubTimeout(c)
    ensures r.client.baseUrl == GitHub.DefaultBaseUrl && r.client.userAgent == GitHub.DefaultUserAgent
    ensures r.maxRetries == 3 && r.backoff == 2 * Second
  {
    RetryableClient(GitHub.NewClientWithConfig(GitHub.ClientConfig(c.github.token, "", GitHubTimeout(c), "")),
                    3, Second * 2)
  }

  /** The notifiers the service builds for a configuration
      (`CreateNotifiersWithLogger`, with the default notifier settings). */
  function NotifiersFor(c: Config): seq<Notifier> {
    Factory.EnabledNotifiers(c, Factory.DefaultNotifierConfig())
  }

  // ---------------------------------------------------------------------------
  // checkRepository

  /** One call of a notifier's `NotifyNewStars`. */
  datatype NotifyCall = NotifyCall(notifier: Notifier, owner: string, repo: string, stargazers: seq<GitHub.Stargazer>)

  /** What one repository check meets: the result of `GetStargazersWithRetry`,
      the context's state at the two checks inside `GetNewStargazers`, what
      each notifier returns, and the context, clock and file system outcomes
      of `Save`. */
  datatype CheckInputs = CheckInputs(
    fetched: Result<seq<GitHub.Stargazer>, Error>,
    cancelledAtLoad: bool, cancelledAfterLoad: bool,
    notifyResults: seq<Option<Error>>,
    cancelledAtSave: bool, now: int, writeError: Option<Error>, renameError: Option<Error>)

  /** The store afterwards, the error returned, the notifier calls made, and
      the providers whose notification failed (logged and counted only). */
  datatype CheckStep = CheckStep(disk: Storage.Disk, err: Option<Error>, calls: seq<NotifyCall>, failures: seq<string>)

  /** One call per notifier, in list order, all with the same list. */
  function NotifyAll(notifiers: seq<Notifier>, owner: string, repo: string, stargazers: seq<GitHub.Stargazer>): (calls: seq<NotifyCall>)
    ensures |calls| == |notifiers|
  {
    seq(|notifiers|, i requires 0 <= i < |notifiers| => NotifyCall(notifiers[i], owner, repo, stargazers))
  }

  /** The providers whose result was an error, in list order. */
  function FailedProviders(notifiers: seq<Notifier>, results: seq<Option<Error>>): (names: seq<string>)
    requires |results| == |notifiers|
    ensures |names| <= |notifiers|
  {
    if notifiers == [] then []
    else
      var n := |notifiers| - 1;
      FailedProviders(notifiers[..n], results[..n]) + (if results[n].Some? then [ProviderName(notifiers[n])] else [])
  }

  /** `checkRepository` on a store holding `disk`. */
  function Checked(disk: Storage.Disk, dataDir: string, notifiers: seq<Notifier>, owner: string, repo: string,
                   input: CheckInputs): CheckStep
    requires |input.notifyResults| == |notifiers|
  {
    match input.fetched
    case Failure(e) => CheckStep(disk, Some(ServiceError("github", "failed to fetch stargazers", Some(e))), [], [])
    case Success(stargazers) =>
      match Storage.NewStargazersOn(disk, dataDir, input.cancelledAtLoad, input.cancelledAfterLoad, owner, repo, stargazers)
      case Failure(e) => CheckStep(disk, Some(ServiceError("storage", "failed to get new stargazers", Some(e))), [], [])
      case Success(newOnes) =>
        var notified := |newOnes| > 0;
        var saved := Storage.SaveOn(disk, dataDir, input.cancelledAtSave, owner, repo, stargazers, input.now,
                                    input.writeError, input.renameError);
        CheckStep(saved.disk,
                  if saved.err.Some? then Some(ServiceError("storage", "failed to save stargazers data", saved.err)) else None,
                  if notified then NotifyAll(notifiers, owner, repo, newOnes) else [],
                  if notified then FailedProviders(notifiers, input.notifyResults) else [])
  }

  /** A failed fetch returns an error and calls, diffs and saves nothing. */
  lemma FetchFailureTouchesNothing(disk: Storage.Disk, dataDir: string, notifiers: seq<Notifier>,
                                   owner: string, repo: string, input: CheckInputs)
    requires |input.notifyResults| == |notifiers|
    requires input.fetched.Failure?
    ensures var step := Checked(disk, dataDir, notifiers, owner, repo, input);
      && step.disk == disk && step.calls == [] && step.err.Some?
      && step.err.value == ServiceError("github", "failed to fetch stargazers", Some(input.fetched.error))
  {
  }

  /** A failed diff returns an error and notifies and saves nothing. */
  lemma DiffFailureTouchesNothing(disk: Storage.Disk, dataDir: string, notifiers: seq<Notifier>,
                                  owner: string, repo: string, input: CheckInputs)
    requires |input.notifyResults| == |notifiers|
    requires input.fetched.Success?
    requires Storage.NewStargazersOn(disk, dataDir, input.cancelledAtLoad, input.cancelledAfterLoad, owner, repo,
                                     input.fetched.value).Failure?
    ensures var step := Checked(disk, dataDir, notifiers, owner, repo, input);
      && step.disk == disk && step.calls == [] && step.err.Some? && step.err.value.ServiceError?
      && step.err.value.component == "storage"
  {
  }

  /** Once fetch and diff succeed: every notifier is called once, in order,
      with the new stargazers when there are any, and none is called
      otherwise, whatever the notifiers answer; then the full fetched list
      (not only the new part) is saved, and a successful save means `Load`
      returns that list. */
  lemma CheckNotifiesThenSavesAll(disk: Storage.Disk, dataDir: string, notifiers: seq<Notifier>,
                                  owner: string, repo: string, input: CheckInputs)
    requires |input.notifyResults| == |notifiers|
    requires input.fetched.Success?
    requires Storage.NewStargazersOn(disk, dataDir, input.cancelledAtLoad, input.cancelledAfterLoad, owner, repo,
                                     input.fetched.value).Success?
    ensures var newOnes := Storage.NewStargazersOn(disk, dataDir, input.cancelledAtLoad, input.cancelledAfterLoad,
                                                   owner, repo, input.fetched.value).value;
      var step := Checked(disk, dataDir, notifiers, owner, repo, input);
      var saved := Storage.SaveOn(disk, dataDir, input.cancelledAtSave, owner, repo, input.fetched.value, input.now,
                                  input.writeError, input.renameError);
      && (newOnes != [] ==>
            && |step.calls| == |notifiers|
            && forall i :: 0 <= i < |notifiers| ==> step.calls[i] == NotifyCall(notifiers[i], owner, repo, newOnes))
      && (newOnes == [] ==> step.calls == [])
      && step.disk == saved.disk
      && (step.err.None? <==> saved.err.None?)
      && (step.err.None? ==>
            Storage.LoadUnsafe(step.disk, dataDir, owner, repo).Success? &&
            Storage.LoadUnsafe(step.disk, dataDir, owner, repo).value.stargazers == input.fetched.value)
  {
    var saved := Storage.SaveOn(disk, dataDir, input.cancelledAtSave, owner, repo, input.fetched.value, input.now,
                                input.writeError, input.renameError);
    if saved.err.None? {
      Storage.SaveThenLoad(disk, dataDir, owner, repo, input.fetched.value, input.now, input.renameError);
    }
  }

  // ---------------------------------------------------------------------------
  // runCheck

  /** The store afterwards, one error (or none) per repository in
      configuration order, and all notifier calls in order. */
  datatype CycleStep = CycleStep(disk: Storage.Disk, errs: seq<Option<Error>>, calls: seq<NotifyCall>)

  predicate InputsFit(repos: seq<Repository>, inputs: seq<CheckInputs>, notifiers: seq<Notifier>) {
    && |inputs| == |repos|
    && forall k :: 0 <= k < |inputs| ==> |inputs[k].notifyResults| == |notifiers|
  }

  /** `runCheck`: every repository checked in turn on the store the previous
      checks left, whatever they returned. */
  function Cycle(disk: Storage.Disk, dataDir: string, notifiers: seq<Notifier>,
                 repos: seq<Repository>, inputs: seq<CheckInputs>): (r: CycleStep)
    requires InputsFit(repos, inputs, notifiers)
    ensures |r.errs| == |repos|
  {
    if repos == [] then CycleStep(disk, [], [])
    else
      var n := |repos| - 1;
      var before := Cycle(disk, dataDir, notifiers, repos[..n], inputs[..n]);
      var step := Checked(before.disk, dataDir, notifiers, repos[n].owner, repos[n].repo, inputs[n]);
      CycleStep(step.disk, before.errs + [step.err], before.calls + step.calls)
  }

  lemma InputsFitPrefix(repos: seq<Repository>, inputs: seq<CheckInputs>, notifiers: seq<Notifier>, m: nat)
    requires InputsFit(repos, inputs, notifiers)
    requires m <= |repos|
    ensures InputsFit(repos[..m], inputs[..m], notifiers)
  {
  }

  /** Dropping the last repository drops the last error and nothing else. */
  lemma CycleExtends(disk: Storage.Disk, dataDir: string, notifiers: seq<Notifier>,
                     repos: seq<Repository>, inputs: seq<CheckInputs>)
    requires InputsFit(repos, inputs, notifiers)
    requires repos != []
    ensures InputsFit(repos[..|repos| - 1], inputs[..|repos| - 1], notifiers)
    ensures Cycle(disk, dataDir, notifiers, repos, inputs).errs[..|repos| - 1]
         == Cycle(disk, dataDir, notifiers, repos[..|repos| - 1], inputs[..|repos| - 1]).errs
  {
    InputsFitPrefix(repos, inputs, notifiers, |repos| - 1);
  }

  /** The errors of the first m repositories do not depend on the later ones. */
  lemma {:induction false} CyclePrefix(disk: Storage.Disk, dataDir: string, notifiers: seq<Notifier>,
                                       repos: seq<Repository>, inputs: seq<CheckInputs>, m: nat)
    requires InputsFit(repos, inputs, notifiers)
    requires m <= |repos|
    ensures InputsFit(repos[..m], inputs[..m], notifiers)
    ensures Cycle(disk, dataDir, notifiers, repos[..m], inputs[..m]).errs
         == Cycle(disk, dataDir, notifiers, repos, inputs).errs[..m]
    decreases |repos|
  {
    if m < |repos| {
      var n := |repos| - 1;
      var rs, ins := repos[..n], inputs[..n];
      CycleExtends(disk, dataDir, notifiers, repos, inputs);
      CyclePrefix(disk, dataDir, notifiers, rs, ins, m);
      assert rs[..m] == repos[..m] && ins[..m] == inputs[..m];
      var whole := Cycle(disk, dataDir, notifiers, repos, inputs).errs;
      assert whole[..m] == whole[..n][..m];
    } else {
      assert repos[..m] == repos && inputs[..m] == inputs;
    }
  }


  /** A failing repository does not stop the cycle: the k-th error is the
      check of the k-th repository on the store the first k checks left. */
  lemma CycleChecksEachInTurn(disk: Storage.Disk, dataDir: string, notifiers: seq<Notifier>,
                              repos: seq<Repository>, inputs: seq<CheckInputs>, k: nat)
    requires InputsFit(repos, inputs, notifiers)
    requires k < |repos|
    ensures InputsFit(repos[..k], inputs[..k], notifiers)
    ensures var before := Cycle(disk, dataDir, notifiers, repos[..k], inputs[..k]);
      Cycle(disk, dataDir, notifiers, repos, inputs).errs[k]
        == Checked(before.disk, dataDir, notifiers, repos[k].owner, repos[k].repo, inputs[k]).err
  {
    InputsFitPrefix(repos, inputs, notifiers, k);
    CyclePrefix(disk, dataDir, notifiers, repos, inputs, k + 1);
    var rs, ins := repos[..k + 1], inputs[..k + 1];
    assert rs[..k] == repos[..k];
    assert ins[..k] == inputs[..k];
    assert rs[k] == repos[k] && ins[k] == inputs[k];
    assert Cycle(disk, dataDir, notifiers, rs, ins).errs[k] == Cycle(disk, dataDir, notifiers, repos, inputs).errs[k];
  }

  // ---------------------------------------------------------------------------
  // checkRateLimits

  /** The threshold below which the remaining rate limit is reported. */
  const LowRateLimit: int := 10

  /** `checkRateLimits` (whose error `Start` and `runCheck` only log). */
  function CheckRateLimits(r: Result<GitHub.RateLimit, Error>): (err: Option<Error>)
    ensures err.None? <==> r.Success? && r.value.remaining >= LowRateLimit
    ensures err.Some? ==> err.value.ServiceError? && err.value.component == "github"
  {
    match r
    case Failure(e) => Some(ServiceError("github", "failed to check rate limits", Some(e)))
    case Success(limit) =>
      if limit.remaining < 10 then
        Some(ServiceError("github", "low API rate limit remaining: " + IntToString(limit.remaining), None))
      else None
  }

  // ---------------------------------------------------------------------------
  // Start: the startup sequence

  /** A probe result list read as an outcome function. */
  function Outcomes(results: seq<Option<Error>>): nat -> Option<Error> {
    (k: nat) => if k < |results| then results[k] else None
  }

  /** How the startup sequence ends: the error, how many notifiers were
      probed, and the `running` flag. */
  datatype Startup = Startup(err: Option<Error>, probed: nat, running: bool)

  /** The steps of `Start` before the monitoring loop: start the reloader,
      initialize the store, start the metrics server, then probe each
      notifier with `TestConnection` in order, stopping at the first failure;
      only then is the service marked running. */
  function Started(wasRunning: bool, notifiers: seq<Notifier>, reloaderError: Option<Error>,
                   storageError: Option<Error>, metricsError: Option<Error>,
                   probeResults: seq<Option<Error>>): (s: Startup)
    requires |probeResults| == |notifiers|
    ensures s.probed <= |notifiers|
    ensures s.err.None? ==> s.running && s.probed == |notifiers|
    ensures s.err.Some? ==> s.running == wasRunning && s.err.value.ServiceError?
  {
    if reloaderError.Some? then
      Startup(Some(ServiceError("config-reloader", "failed to start config reloader", reloaderError)), 0, wasRunning)
    else if storageError.Some? then
      Startup(Some(ServiceError("storage", "failed to initialize storage", storageError)), 0, wasRunning)
    else if metricsError.Some? then
      Startup(Some(ServiceError("metrics", "failed to start metrics server", metricsError)), 0, wasRunning)
    else
      var k := Reloader.FirstFailure(Outcomes(probeResults), 0, |notifiers|);
      if k < |notifiers| then
        Startup(Some(ServiceError("notification", "failed to test " + ProviderName(notifiers[k]) + " connection",
                                  probeResults[k])), k + 1, wasRunning)
      else Startup(None, |notifiers|, true)
  }

  /** A failed probe of any notifier aborts the start, after probing the
      notifiers before it (which all succeeded); the service runs only when
      every step and every probe succeeded. */
  lemma StartAbortsOnFailedProbe(wasRunning: bool, notifiers: seq<Notifier>, probeResults: seq<Option<Error>>, j: nat)
    requires |probeResults| == |notifiers|
    requires j < |notifiers| && probeResults[j].Some?
    ensures var s := Started(wasRunning, notifiers, None, None, None, probeResults);
      && s.err.Some? && s.running == wasRunning
      && 1 <= s.probed <= j + 1
      && (forall i :: 0 <= i < s.probed - 1 ==> probeResults[i].None?)
      && probeResults[s.probed - 1].Some?
  {
    var k := Reloader.FirstFailure(Outcomes(probeResults), 0, |notifiers|);
    assert Outcomes(probeResults)(j).Some?;
    forall i | 0 <= i < k ensures probeResults[i].None? {
      assert Outcomes(probeResults)(i).None?;
    }
  }

  lemma StartRunsIffEverythingSucceeds(wasRunning: bool, notifiers: seq<Notifier>, reloaderError: Option<Error>,
                                       storageError: Option<Error>, metricsError: Option<Error>,
                                       probeResults: seq<Option<Error>>)
    requires |probeResults| == |notifiers|
    ensures var s := Started(wasRunning, notifiers, reloaderError, storageError, metricsError, probeResults);
      && (s.err.None? <==>
            && reloaderError.None? && storageError.None? && metricsError.None?
            && forall i :: 0 <= i < |probeResults| ==> probeResults[i].None?)
      && (s.err.None? ==> s.running && s.probed == |notifiers|)
      && (s.err.Some? ==> s.running == wasRunning)
  {
    var s := Started(wasRunning, notifiers, reloaderError, storageError, metricsError, probeResults);
    if reloaderError.None? && storageError.None? && metricsError.None? {
      var k := Reloader.FirstFailure(Outcomes(probeResults), 0, |notifiers|);
      if k == |notifiers| {
        forall i | 0 <= i < |probeResults| ensures probeResults[i].None? {
          assert Outcomes(probeResults)(i).None?;
        }
      } else {
        assert Outcomes(probeResults)(k).Some?;
      }
    }
  }

  // ---------------------------------------------------------------------------
  // The monitoring loop of Start

  /** What the monitoring loop selects: the context ends, the ticker fires
      (a check cycle), the reload handler's signal arrives (the loop then
      reads the current configuration's interval), or the uptime ticker fires. */
  datatype LoopEvent = ContextDone | TickerFired | TickerUpdate(newInterval: int) | UptimeTick

  /** The check cycles run, the ticker resets made (each to its new
      interval), and the interval the ticker ends with. */
  datatype Monitoring = Monitoring(cycles: nat, resets: seq<int>, current: int)

  function MonitorFrom(events: seq<LoopEvent>, current: int): (m: Monitoring)
    ensures m.cycles + |m.resets| <= |events|
    ensures m.resets == [] ==> m.current == current
  {
    if events == [] then Monitoring(0, [], current)
    else
      match events[0]
      case ContextDone => Monitoring(0, [], current)
      case TickerFired =>
        var rest := MonitorFrom(events[1..], current);
        Monitoring(rest.cycles + 1, rest.resets, rest.current)
      case TickerUpdate(n) =>
        if n != current then
          var rest := MonitorFrom(events[1..], n);
          Monitoring(rest.cycles, [n] + rest.resets, rest.current)
        else MonitorFrom(events[1..], current)
      case UptimeTick => MonitorFrom(events[1..], current)
  }

  /** Each reset differs from the interval before it, and the ticker ends
      with the last interval it was reset to. */
  predicate ResetsOnChange(initial: int, m: Monitoring) {
    && (forall k :: 0 <= k < |m.resets| ==> m.resets[k] != Previous(initial, m.resets, k))
    && m.current == (if m.resets == [] then initial else m.resets[|m.resets| - 1])
  }

  /** The interval the ticker runs with before the k-th reset. */
  function Previous(initial: int, resets: seq<int>, k: nat): int
    requires k < |resets|
  {
    if k == 0 then initial else resets[k - 1]
  }

  /** The ticker is reset only to an interval that differs from the one it
      runs with, and ends with the last interval it was reset to. */
  lemma {:induction false} ResetsOnlyOnChange(events: seq<LoopEvent>, current: int)
    ensures ResetsOnChange(current, MonitorFrom(events, current))
  {
    if events != [] {
      match events[0]
      case ContextDone =>
      case TickerFired => ResetsOnlyOnChange(events[1..], current);
      case UptimeTick => ResetsOnlyOnChange(events[1..], current);
      case TickerUpdate(n) =>
        if n != current {
          ResetsOnlyOnChange(events[1..], n);
          var rest := MonitorFrom(events[1..], n);
          var m := MonitorFrom(events, current);
          assert m.resets == [n] + rest.resets;
          forall k | 0 <= k < |m.resets|
            ensures m.resets[k] != Previous(current, m.resets, k)
          {
            if k > 0 {
              assert m.resets[k] == rest.resets[k - 1];
              assert Previous(current, m.resets, k) == Previous(n, rest.resets, k - 1);
            }
          }
        } else {
          ResetsOnlyOnChange(events[1..], current);
        }
    }
  }

  /** A signal carrying the interval already in use changes nothing. */
  lemma SameIntervalSignalIgnored(events: seq<LoopEvent>, current: int)
    ensures MonitorFrom([TickerUpdate(current)] + events, current) == MonitorFrom(events, current)
  {
    assert ([TickerUpdate(current)] + events)[1..] == events;
  }

  /** The run so far placed before the rest of the run. */
  function Then(cycles: nat, resets: seq<int>, rest: Monitoring): Monitoring {
    Monitoring(cycles + rest.cycles, resets + rest.resets, rest.current)
  }

  /** The select loop of `Start`, over the events it receives. The loop is
      reached only with a positive interval: `time.NewTicker` panics on any
      other. */
  method MonitorLoop(events: seq<LoopEvent>, initial: int) returns (cycles: nat, resets: seq<int>, current: int)
    requires initial > 0
    ensures Monitoring(cycles, resets, current) == MonitorFrom(events, initial)
  {
    cycles, resets, current := 0, [], initial;
    var i := 0;
    while i < |events|
      invariant i <= |events|
      invariant MonitorFrom(events, initial) == Then(cycles, resets, MonitorFrom(events[i..], current))
    {
      assert events[i..][1..] == events[i + 1..];
      match events[i] {
        case ContextDone =>
          return;
        case TickerFired =>
          cycles := cycles + 1;
        case TickerUpdate(n) =>
          if n != current {
            resets := resets + [n];
            current := n;
          }
        case UptimeTick =>
      }
      i := i + 1;
    }
  }

  // ---------------------------------------------------------------------------
  // The service object

  class Service {
    const store: Storage.FileStorage
    var github: RetryableClient
    var notifiers: seq<Notifier>
    var running: bool

    /** `NewWithDependencies`, not yet started. */
    constructor (store: Storage.FileStorage, github: RetryableClient, notifiers: seq<Notifier>)
      ensures this.store == store && this.github == github && this.notifiers == notifiers
      ensures !running
    {
      this.store := store;
      this.github := github;
      this.notifiers := notifiers;
      running := false;
    }

    /** `checkRepository`. */
    method CheckRepository(owner: string, repo: string, input: CheckInputs)
      returns (err: Option<Error>, calls: seq<NotifyCall>, failures: seq<string>)
      requires |input.notifyResults| == |notifiers|
      modifies store
      ensures CheckStep(store.files, err, calls, failures)
           == Checked(old(store.files), store.dataDir, notifiers, owner, repo, input)
    {
      if input.fetched.Failure? {
        return Some(ServiceError("github", "failed to fetch stargazers", Some(input.fetched.error))), [], [];
      }
      var stargazers := input.fetched.value;
      var diff := store.GetNewStargazers(input.cancelledAtLoad, input.cancelledAfterLoad, owner, repo, stargazers);
      if diff.Failure? {
        return Some(ServiceError("storage", "failed to get new stargazers", Some(diff.error))), [], [];
      }
      var newOnes := diff.value;
      calls, failures := [], [];
      if |newOnes| > 0 {
        var i := 0;
        while i < |notifiers|
          invariant i <= |notifiers|
          invariant calls == NotifyAll(notifiers[..i], owner, repo, newOnes)
          invariant failures == FailedProviders(notifiers[..i], input.notifyResults[..i])
          invariant store.files == old(store.files)
        {
          assert notifiers[..i + 1][..i] == notifiers[..i];
          assert input.notifyResults[..i + 1][..i] == input.notifyResults[..i];
          calls := calls + [NotifyCall(notifiers[i], owner, repo, newOnes)];
          if input.notifyResults[i].Some? {
            failures := failures + [ProviderName(notifiers[i])];
          }
          i := i + 1;
        }
        assert notifiers[..i] == notifiers;
        assert input.notifyResults[..i] == input.notifyResults;
      }
      var saveErr := store.Save(input.cancelledAtSave, owner, repo, stargazers, input.now, input.writeError, input.renameError);
      if saveErr.Some? {
        return Some(ServiceError("storage", "failed to save stargazers data", saveErr)), calls, failures;
      }
      err := None;
    }

    /** `runCheck` over the repositories of the current configuration,
        followed by the rate limit check on `rateLimit`, the answer of
        `GetRateLimitWithRetry`. The errors are only logged. */
    method RunCheck(repos: seq<Repository>, inputs: seq<CheckInputs>, rateLimit: Result<GitHub.RateLimit, Error>)
      returns (errs: seq<Option<Error>>, calls: seq<NotifyCall>, rateLimitErr: Option<Error>)
      requires InputsFit(repos, inputs, notifiers)
      modifies store
      ensures CycleStep(store.files, errs, calls) == Cycle(old(store.files), store.dataDir, notifiers, repos, inputs)
      ensures rateLimitErr == CheckRateLimits(rateLimit)
    {
      errs, calls := [], [];
      var i := 0;
      while i < |repos|
        invariant i <= |repos|
        invariant InputsFit(repos[..i], inputs[..i], notifiers)
        invariant CycleStep(store.files, errs, calls) == Cycle(old(store.files), store.dataDir, notifiers, repos[..i], inputs[..i])
      {
        assert repos[..i + 1][..i] == repos[..i];
        assert inputs[..i + 1][..i] == inputs[..i];
        var err, repoCalls, _ := CheckRepository(repos[i].owner, repos[i].repo, inputs[i]);
        errs := errs + [err];
        calls := calls + repoCalls;
        i := i + 1;
      }
      assert repos[..i] == repos;
      assert inputs[..i] == inputs;
      rateLimitErr := CheckRateLimits(rateLimit);
    }

    /** `handleConfigReload`, the service's reload callback. `loopReady` says
        whether the monitoring loop is waiting in its `select`: the send on
        the unbuffered `tickerUpdate` channel is non-blocking, so the signal
        is delivered only then and dropped otherwise. The new notifiers' test
        connections are only logged; `tested` lists them. */
    method HandleConfigReload(oldConfig: Config, newConfig: Config, loopReady: bool)
      returns (err: Option<Error>, tested: seq<Notifier>, signalled: bool)
      modifies this
      ensures err.None?
      ensures github == (if oldConfig.github.token != newConfig.github.token
                            || GitHubTimeout(oldConfig) != GitHubTimeout(newConfig)
                         then ClientFor(newConfig) else old(github))
      ensures notifiers == (if !Reloader.EqualNotifications(oldConfig.notifications, newConfig.notifications)
                            then NotifiersFor(newConfig) else old(notifiers))
      ensures tested == (if !Reloader.EqualNotifications(oldConfig.notifications, newConfig.notifications)
                         then notifiers else [])
      ensures signalled <==> CheckInterval(oldConfig) != CheckInterval(newConfig) && loopReady
      ensures running == old(running)
    {
      if oldConfig.github.token != newConfig.github.token || GitHubTimeout(oldConfig) != GitHubTimeout(newConfig) {
        github := ClientFor(newConfig);
      }
      tested := [];
      if !Reloader.EqualNotifications(oldConfig.notifications, newConfig.notifications) {
        var created, createErr := Factory.CreateNotifiersWithConfig(newConfig, Factory.DefaultNotifierConfig());
        notifiers := if createErr.None? then created else [];
        var i := 0;
        while i < |notifiers|
          invariant i <= |notifiers|
          invariant tested == notifiers[..i]
        {
          tested := tested + [notifiers[i]];
          i := i + 1;
        }
        assert notifiers[..i] == notifiers;
      }
      signalled := CheckInterval(oldConfig) != CheckInterval(newConfig) && loopReady;
      err := None;
    }

    /** `Start` up to the monitoring loop. */
    method Start(reloaderError: Option<Error>, storageError: Option<Error>, metricsError: Option<Error>,
                 probeResults: seq<Option<Error>>)
      returns (err: Option<Error>, probed: nat)
      requires |probeResults| == |notifiers|
      modifies this
      ensures github == old(github) && notifiers == old(notifiers)
      ensures Startup(err, probed, running)
           == Started(old(running), notifiers, reloaderError, storageError, metricsError, probeResults)
    {
      if reloaderError.Some? {
        return Some(ServiceError("config-reloader", "failed to start config reloader", reloaderError)), 0;
      }
      if storageError.Some? {
        return Some(ServiceError("storage", "failed to initialize storage", storageError)), 0;
      }
      if metricsError.Some? {
        return Some(ServiceError("metrics", "failed to start metrics server", metricsError)), 0;
      }
      ghost var outcome := Outcomes(probeResults);
      var i := 0;
      while i < |notifiers|
        invariant i <= |notifiers|
        invariant Reloader.FirstFailure(outcome, 0, |notifiers|) == Reloader.FirstFailure(outcome, i, |notifiers|)
        invariant running == old(running)
      {
        if probeResults[i].Some? {
          assert outcome(i).Some?;
          return Some(ServiceError("notification", "failed to test " + ProviderName(notifiers[i]) + " connection",
                                   probeResults[i])), i + 1;
        }
        assert outcome(i).None?;
        i := i + 1;
      }
      running := true;
      err, probed := None, |notifiers|;
    }

    /** `Stop`: a no-op unless running; otherwise it clears `running` (and
        cancels the context, closes `tickerUpdate`, stops the reloader,
        shuts the metrics server down and closes the store). */
    method Stop() returns (stopped: bool)
      modifies this
      ensures stopped == old(running)
      ensures !running
      ensures github == old(github) && notifiers == old(notifiers)
    {
      if !running {
        return false;
      }
      running := false;
      stopped := true;
    }
  }

  /** The service's reload callback never fails, so with it as the only
      callback a valid configuration with changes is always adopted. */
  lemma ServiceCallbackNeverBlocksReload(current: Config, callback: Reloader.Callback, loaded: Result<Config, Error>)
    ensures var step := Reloader.HandleChange(current, [callback], loaded, _ => None);
      step.status.Reloaded? <==>
        loaded.Success? && Reloader.ValidateForReload(loaded.value).None? && Reloader.Changes(current, loaded.value) != []
  {
    Reloader.HandleChangeCharacterized(current, [callback], loaded, _ => None);
  }
}
