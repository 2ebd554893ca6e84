/** The configuration hot-reloader (`internal/config/reloader.go`): the
    reloader object with its current configuration, its callbacks and its
    running flag; the reload step (load, validate, diff, callbacks in order,
    swap only when every callback succeeded); the change tags; and the
    debounce of the watch loop as a machine over a sequence of events. */
module Reloader {
  import opened Wrappers
  import opened Text
  import opened Errors
  import opened Durations
  import opened Configuration

  // ---------------------------------------------------------------------
  // validateConfig

  /** The reloader's own check of a freshly loaded configuration. */
  function ValidateForReload(c: Config): (err: Option<Error>)
    ensures err.None? <==>
      |c.repositories| > 0 && c.github.token != "" && CheckInterval(c) >= Minute
  {
    if |c.repositories| == 0 then Some(Plain("no repositories configured"))
    else if c.github.token == "" then Some(Plain("github token is required"))
    else if CheckInterval(c) < Minute then Some(Plain("check interval must be at least 1 minute"))
    else None
  }

  /** The reloader's check is stricter than `validate`: a configuration with
      no token loads but is never reloaded into. */
  lemma ReloadValidationRequiresToken()
    ensures var c := Config(
        [Repository("o", "r")], Settings(60), GitHubConfig("", 30),
        Notifications(DiscordConfig("", false), SlackConfig("", "", false)),
        ServerConfig(8080, 30, 30, "localhost"), Configuration.StorageConfig("file", "./data"),
        LoggingConfig("info", "text"));
      Problem(c).None? && ValidateForReload(c) == Some(Plain("github token is required"))
  {
    var c := Config(
        [Repository("o", "r")], Settings(60), GitHubConfig("", 30),
        Notifications(DiscordConfig("", false), SlackConfig("", "", false)),
        ServerConfig(8080, 30, 30, "localhost"), Configuration.StorageConfig("file", "./data"),
        LoggingConfig("info", "text"));
    ValidateAcceptsWellFormed(c);
  }

  /** For intervals that fit in a duration, the minimum is exactly one minute. */
  lemma ReloadIntervalAtLeastOneMinute(c: Config)
    requires |c.repositories| > 0 && c.github.token != ""
    requires 0 <= c.settings.checkIntervalMinutes <= 153_722_867
    ensures ValidateForReload(c).None? <==> c.settings.checkIntervalMinutes >= 1
  {
    CheckIntervalInMinutes(c);
  }

  // ---------------------------------------------------------------------
  // equalRepositories, equalNotifications, detectChanges

  /** `equalRepositories`: the index loop with its early exits. */
  method EqualRepositories(a: seq<Repository>, b: seq<Repository>) returns (equal: bool)
    ensures equal <==> (|a| == |b| &&
      forall i :: 0 <= i < |a| ==> a[i].owner == b[i].owner && a[i].repo == b[i].repo)
    ensures equal <==> a == b
  {
    if |a| != |b| {
      return false;
    }
    var i := 0;
    while i < |a|
      invariant 0 <= i <= |a|
      invariant forall k :: 0 <= k < i ==> a[k] == b[k]
    {
      if a[i].owner != b[i].owner || a[i].repo != b[i].repo {
        return false;
      }
      i := i + 1;
    }
    assert a == b;
    return true;
  }

  /** `equalNotifications`: the five fields compared one by one. They are all
      the notification settings there are, so the comparison is equality. */
  predicate EqualNotifications(a: Notifications, b: Notifications): (same: bool)
    ensures same <==> a == b
  {
    && a.discord.enabled == b.discord.enabled
    && a.discord.webhookUrl == b.discord.webhookUrl
    && a.slack.enabled == b.slack.enabled
    && a.slack.webhookUrl == b.slack.webhookUrl
    && a.slack.channel == b.slack.channel
  }

  /** The change tags `detectChanges` reports. */
  datatype Tag =
    | RepositoriesChanged
    | CheckIntervalChanged
    | GitHubTokenChanged
    | GitHubTimeoutChanged
    | NotificationsChanged
    | LogLevelChanged

  /** The text of each tag, as it appears in the log. */
  function TagName(t: Tag): string {
    match t
    case RepositoriesChanged => "repositories"
    case CheckIntervalChanged => "check_interval"
    case GitHubTokenChanged => "github_token"
    case GitHubTimeoutChanged => "github_timeout"
    case NotificationsChanged => "notifications"
    case LogLevelChanged => "log_level"
  }

  /** The position of each tag in the order `detectChanges` tests them. */
  function Rank(t: Tag): nat {
    match t
    case RepositoriesChanged => 0
    case CheckIntervalChanged => 1
    case GitHubTokenChanged => 2
    case GitHubTimeoutChanged => 3
    case NotificationsChanged => 4
    case LogLevelChanged => 5
  }

  /** Every tag, in test order. */
  const AllTags: seq<Tag> := [
    RepositoriesChanged, CheckIntervalChanged, GitHubTokenChanged,
    GitHubTimeoutChanged, NotificationsChanged, LogLevelChanged]

  /** Whether the facet that `tag` names differs between the two configurations. */
  predicate Differs(tag: Tag, o: Config, n: Config) {
    match tag
    case RepositoriesChanged => o.repositories != n.repositories
    case CheckIntervalChanged => CheckInterval(o) != CheckInterval(n)
    case GitHubTokenChanged => o.github.token != n.github.token
    case GitHubTimeoutChanged => GitHubTimeout(o) != GitHubTimeout(n)
    case NotificationsChanged => !EqualNotifications(o.notifications, n.notifications)
    case LogLevelChanged => LogLevel(o) != LogLevel(n)
  }

  /** The tags of `tags` whose facet differs, in the order of `tags`. */
  function Selected(tags: seq<Tag>, o: Config, n: Config): seq<Tag> {
    if tags == [] then []
    else Selected(tags[..|tags| - 1], o, n) + Pick(tags[|tags| - 1], o, n)
  }

  /** The change set `detectChanges` reports. */
  function Changes(o: Config, n: Config): seq<Tag> {
    Selected(AllTags, o, n)
  }

  /** `detectChanges`: six tests, each appending its tag when its facet differs. */
  method DetectChanges(o: Config, n: Config) returns (changes: seq<Tag>)
    ensures changes == Changes(o, n)
  {
    var t := AllTags;
    SelectedStep(t[..1], [], o, n);
    SelectedStep(t[..2], t[..1], o, n);
    SelectedStep(t[..3], t[..2], o, n);
    SelectedStep(t[..4], t[..3], o, n);
    SelectedStep(t[..5], t[..4], o, n);
    SelectedStep(t, t[..5], o, n);
    changes := [];
    var sameRepositories := EqualRepositories(o.repositories, n.repositories);
    if !sameRepositories {
      changes := changes + [RepositoriesChanged];
    }
    assert changes == Selected(t[..1], o, n);
    if CheckInterval(o) != CheckInterval(n) {
      changes := changes + [CheckIntervalChanged];
    }
    assert changes == Selected(t[..2], o, n);
    if o.github.token != n.github.token {
      changes := changes + [GitHubTokenChanged];
    }
    assert changes == Selected(t[..3], o, n);
    if GitHubTimeout(o) != GitHubTimeout(n) {
      changes := changes + [GitHubTimeoutChanged];
    }
    assert changes == Selected(t[..4], o, n);
    if !EqualNotifications(o.notifications, n.notifications) {
      changes := changes + [NotificationsChanged];
    }
    assert changes == Selected(t[..5], o, n);
    if LogLevel(o) != LogLevel(n) {
      changes := changes + [LogLevelChanged];
    }
  }

  lemma SelectedStep(tags: seq<Tag>, init: seq<Tag>, o: Config, n: Config)
    requires tags != [] && tags[..|tags| - 1] == init
    ensures Selected(tags, o, n) == Selected(init, o, n) + Pick(tags[|tags| - 1], o, n)
  {
  }

  /** The one-tag list of `tag` when its facet differs. */
  function Pick(tag: Tag, o: Config, n: Config): seq<Tag> {
    if Differs(tag, o, n) then [tag] else []
  }

  /** Strictly increasing in test order. */
  predicate InTestOrder(tags: seq<Tag>) {
    forall i, j :: 0 <= i < j < |tags| ==> Rank(tags[i]) < Rank(tags[j])
  }

  /** A tag is selected exactly when it is among the tags and its facet
      differs, and the selection keeps the test order. */
  lemma {:induction false} SelectedProperties(tags: seq<Tag>, o: Config, n: Config)
    ensures forall t :: t in Selected(tags, o, n) <==> t in tags && Differs(t, o, n)
    ensures InTestOrder(tags) ==> InTestOrder(Selected(tags, o, n))
  {
    SelectedMembers(tags, o, n);
    if InTestOrder(tags) {
      SelectedOrder(tags, o, n);
    }
  }

  lemma {:induction false} SelectedMembers(tags: seq<Tag>, o: Config, n: Config)
    ensures forall t :: t in Selected(tags, o, n) <==> t in tags && Differs(t, o, n)
    decreases |tags|
  {
    if tags != [] {
      var init := tags[..|tags| - 1];
      SelectedMembers(init, o, n);
      assert tags == init + [tags[|tags| - 1]];
    }
  }

  lemma {:induction false} SelectedOrder(tags: seq<Tag>, o: Config, n: Config)
    requires InTestOrder(tags)
    ensures InTestOrder(Selected(tags, o, n))
    decreases |tags|
  {
    if tags != [] {
      var init := tags[..|tags| - 1];
      var last := tags[|tags| - 1];
      SelectedMembers(init, o, n);
      assert InTestOrder(init);
      SelectedOrder(init, o, n);
      var front := Selected(init, o, n);
      assert forall t :: t in front ==> Rank(t) < Rank(last) by {
        forall t | t in front ensures Rank(t) < Rank(last) {
          var j :| 0 <= j < |init| && init[j] == t;
          assert tags[j] == t;
        }
      }
      var r := Selected(tags, o, n);
      if Differs(last, o, n) {
        assert r == front + [last];
        forall i, j | 0 <= i < j < |r| ensures Rank(r[i]) < Rank(r[j]) {
          if j < |front| {
            assert r[i] == front[i] && r[j] == front[j];
          } else {
            assert r[i] == front[i] && r[i] in front;
          }
        }
      }
    }
  }

  /** Each tag appears exactly when its facet differs, the tags come in the
      fixed order repositories, check_interval, github_token, github_timeout,
      notifications, log_level, and comparing a configuration with itself
      reports nothing. */
  lemma ChangesCharacterized(o: Config, n: Config)
    ensures forall t :: t in Changes(o, n) <==> Differs(t, o, n)
    ensures RepositoriesChanged in Changes(o, n) <==> o.repositories != n.repositories
    ensures NotificationsChanged in Changes(o, n) <==> o.notifications != n.notifications
    ensures InTestOrder(Changes(o, n))
    ensures Changes(o, o) == []
  {
    SelectedProperties(AllTags, o, n);
    SelectedProperties(AllTags, o, o);
    forall t: Tag ensures t in AllTags {
      assert AllTags[Rank(t)] == t;
    }
    assert InTestOrder(AllTags);
    NothingDiffersFromItself(AllTags, o);
  }

  lemma {:induction false} NothingDiffersFromItself(tags: seq<Tag>, c: Config)
    ensures Selected(tags, c, c) == []
    decreases |tags|
  {
    if tags != [] {
      NothingDiffersFromItself(tags[..|tags| - 1], c);
    }
  }

  // ---------------------------------------------------------------------
  // handleConfigChange

  /** A registered reload callback, known by its name. */
  datatype Callback = Callback(name: string)

  /** One invocation of a callback with the old and the new configuration. */
  datatype Call = Call(callback: Callback, oldConfig: Config, newConfig: Config)

  /** How one reload attempt ended; the source only logs this. */
  datatype ReloadStatus =
    | LoadFailed(loadError: Error)
    | Invalid(validationError: Error)
    | NoChanges
    | CallbackFailed(index: nat, callbackError: Error)
    | Reloaded

  /** What one reload attempt does: the callbacks it calls, how it ends, and
      the configuration the reloader holds afterwards. */
  datatype ReloadStep = ReloadStep(calls: seq<Call>, status: ReloadStatus, config: Config)

  /** The index of the first failing outcome in `from..n`, or `n` when all succeed. */
  function FirstFailure(outcome: nat -> Option<Error>, from: nat, n: nat): (k: nat)
    requires from <= n
    ensures from <= k <= n
    ensures forall j :: from <= j < k ==> outcome(j).None?
    ensures k < n ==> outcome(k).Some?
    decreases n - from
  {
    if from == n then n
    else if outcome(from).Some? then from
    else FirstFailure(outcome, from + 1, n)
  }

  /** The calls of the first `count` callbacks, in registration order. */
  function CallsOf(callbacks: seq<Callback>, count: nat, o: Config, n: Config): (calls: seq<Call>)
    requires count <= |callbacks|
  {
    seq(count, i requires 0 <= i < count => Call(callbacks[i], o, n))
  }

  /** The reload step. `outcome(i)` is what the i-th callback returns on this reload. */
  function HandleChange(current: Config, callbacks: seq<Callback>, loaded: Result<Config, Error>,
                        outcome: nat -> Option<Error>): (step: ReloadStep)
    ensures step.status.Reloaded? ==> loaded.Success? && step.config == loaded.value
    ensures !step.status.Reloaded? ==> step.config == current
    ensures |step.calls| <= |callbacks|
  {
    if loaded.Failure? then ReloadStep([], LoadFailed(loaded.error), current)
    else
      var n := loaded.value;
      if ValidateForReload(n).Some? then ReloadStep([], Invalid(ValidateForReload(n).value), current)
      else if Changes(current, n) == [] then ReloadStep([], NoChanges, current)
      else
        var k := FirstFailure(outcome, 0, |callbacks|);
        if k < |callbacks| then ReloadStep(CallsOf(callbacks, k + 1, current, n), CallbackFailed(k, outcome(k).value), current)
        else ReloadStep(CallsOf(callbacks, k, current, n), Reloaded, n)
  }

  /** A load or validation failure and an empty change set call no callback
      and keep the configuration. Otherwise the callbacks are called in
      registration order with (old, new) up to and including the first that
      fails; the configuration becomes the new one exactly when every
      callback succeeded. */
  lemma HandleChangeCharacterized(current: Config, callbacks: seq<Callback>,
                                  loaded: Result<Config, Error>, outcome: nat -> Option<Error>)
    ensures var step := HandleChange(current, callbacks, loaded, outcome);
      && (step.status.Reloaded? ==> step.config == loaded.value)
      && (!step.status.Reloaded? ==> step.config == current)
      && (step.status.Reloaded? <==>
            && loaded.Success? && ValidateForReload(loaded.value).None?
            && Changes(current, loaded.value) != []
            && forall i :: 0 <= i < |callbacks| ==> outcome(i).None?)
      && (step.status.LoadFailed? || step.status.Invalid? || step.status.NoChanges? ==> step.calls == [])
      && (loaded.Success? && step.calls != [] ==>
            |step.calls| <= |callbacks| &&
            forall i :: 0 <= i < |step.calls| ==>
              step.calls[i] == Call(callbacks[i], current, loaded.value))
      && (step.status.CallbackFailed? ==>
            && step.status.index < |callbacks|
            && |step.calls| == step.status.index + 1
            && outcome(step.status.index) == Some(step.status.callbackError)
            && forall j :: 0 <= j < step.status.index ==> outcome(j).None?)
      && (step.status.Reloaded? ==> |step.calls| == |callbacks|)
  {
  }

  // ---------------------------------------------------------------------
  // The debounce of watchLoop

  /** The operations fsnotify reports. */
  datatype Op = Create | Write | Remove | Rename | Chmod

  /** What the watch loop receives: a file event, a watcher error, the
      debounce timer firing, or the end (context done or a channel closed). */
  datatype WatchEvent =
    | FileEvent(name: string, ops: set<Op>)
    | WatcherFailure
    | TimerFired
    | Stopped

  /** `isConfigFile`: the event names a file with the same base name as the
      configuration file. */
  predicate IsConfigFile(configPath: string, eventPath: string): (r: bool)
    ensures eventPath == configPath ==> r
  {
    BaseName(eventPath) == BaseName(configPath)
  }

  /** A file of the same name in any directory counts as the configuration file. */
  lemma SameNameIsConfigFile(configDir: string, eventDir: string, name: string)
    requires name != [] && '/' !in name
    ensures IsConfigFile(configDir + "/" + name, eventDir + "/" + name)
    ensures IsConfigFile(configDir + "/" + name, configDir + "/" + name)
  {
    BaseNameOfJoin(configDir, name);
    BaseNameOfJoin(eventDir, name);
  }

  /** The events that re-arm the debounce timer: a write to, or the creation
      of, the configuration file. */
  predicate Arms(configPath: string, e: WatchEvent) {
    e.FileEvent? && IsConfigFile(configPath, e.name) && (Write in e.ops || Create in e.ops)
  }

  /** What an event means to the debounce: re-arm the timer, fire it, end
      the loop, or nothing. */
  datatype Signal = Arm | Fire | End | Ignore

  function Classify(configPath: string, e: WatchEvent): (s: Signal)
    ensures s == Arm <==> Arms(configPath, e)
    ensures s == Fire <==> e == TimerFired
    ensures s == End <==> e == Stopped
  {
    match e
    case Stopped => End
    case TimerFired => Fire
    case WatcherFailure => Ignore
    case FileEvent(name, ops) =>
      if IsConfigFile(configPath, name) && (Write in ops || Create in ops) then Arm else Ignore
  }

  function Signals(events: seq<WatchEvent>, configPath: string): (signals: seq<Signal>)
    ensures |signals| == |events|
    ensures forall i :: 0 <= i < |events| ==> signals[i] == Classify(configPath, events[i])
  {
    seq(|events|, i requires 0 <= i < |events| => Classify(configPath, events[i]))
  }

  /** The positions (numbered from `offset`) at which a reload happens, given
      whether the timer is armed at the start: a firing reloads when the timer
      is armed and disarms it, an arming event arms it, the loop ends at `End`. */
  function ReloadPoints(signals: seq<Signal>, armed: bool, offset: nat): seq<nat>
    decreases |signals|
  {
    if signals == [] || signals[0] == End then []
    else if signals[0] == Fire then
      (if armed then [offset] else []) + ReloadPoints(signals[1..], false, offset + 1)
    else ReloadPoints(signals[1..], armed || signals[0] == Arm, offset + 1)
  }

  /** The signal at absolute position `p`, counting from `offset`, is `s`. */
  predicate SignalAt(signals: seq<Signal>, offset: nat, p: int, s: Signal) {
    offset <= p < offset + |signals| && signals[p - offset] == s
  }

  lemma SignalsInTail(signals: seq<Signal>, offset: nat)
    requires signals != []
    ensures forall p, s :: SignalAt(signals[1..], offset + 1, p, s) ==> SignalAt(signals, offset, p, s) && p > offset
  {
    forall p, s | SignalAt(signals[1..], offset + 1, p, s) ensures SignalAt(signals, offset, p, s) {
      assert signals[1..][p - (offset + 1)] == signals[p - offset];
    }
  }

  /** Every reload point is a timer firing, and the points increase. */
  lemma {:induction false} ReloadPointsAreFirings(signals: seq<Signal>, armed: bool, offset: nat)
    ensures forall k :: 0 <= k < |ReloadPoints(signals, armed, offset)| ==>
      SignalAt(signals, offset, ReloadPoints(signals, armed, offset)[k], Fire)
    ensures forall k :: 0 < k < |ReloadPoints(signals, armed, offset)| ==>
      ReloadPoints(signals, armed, offset)[k - 1] < ReloadPoints(signals, armed, offset)[k]
    decreases |signals|
  {
    if signals != [] && signals[0] != End {
      var next := if signals[0] == Fire then false else armed || signals[0] == Arm;
      ReloadPointsAreFirings(signals[1..], next, offset + 1);
      var rest := ReloadPoints(signals[1..], next, offset + 1);
      var rs := ReloadPoints(signals, armed, offset);
      SignalsInTail(signals, offset);
      if signals[0] == Fire && armed {
        assert rs == [offset] + rest;
        assert SignalAt(signals, offset, offset, Fire);
        assert forall k :: 0 < k < |rs| ==> rs[k] == rest[k - 1];
      } else {
        assert rs == rest;
        forall k | 0 <= k < |rs| ensures SignalAt(signals, offset, rs[k], Fire) {
          assert SignalAt(signals[1..], offset + 1, rest[k], Fire);
        }
      }
    }
  }

  /** Between each two reload points `rs` there is an arming event. */
  predicate ArmedBeforeEach(signals: seq<Signal>, offset: nat, rs: seq<nat>) {
    forall k :: 0 < k < |rs| ==> ArmedIn(signals, offset, rs[k - 1], rs[k])
  }

  /** There is an arming event strictly between positions `lo` and `hi`. */
  predicate ArmedIn(signals: seq<Signal>, offset: nat, lo: int, hi: int) {
    exists j :: lo < j < hi && SignalAt(signals, offset, j, Arm)
  }

  /** From an unarmed start, the first reload comes after an arming event. */
  lemma {:induction false} ArmedBeforeFirstReload(signals: seq<Signal>, offset: nat)
    ensures |ReloadPoints(signals, false, offset)| > 0 ==>
      exists j :: offset <= j < ReloadPoints(signals, false, offset)[0] && SignalAt(signals, offset, j, Arm)
    decreases |signals|
  {
    if signals != [] && signals[0] != End {
      var rs := ReloadPoints(signals, false, offset);
      if signals[0] == Arm {
        ReloadPointsAreFirings(signals[1..], true, offset + 1);
        if |rs| > 0 {
          assert rs[0] == ReloadPoints(signals[1..], true, offset + 1)[0];
          assert SignalAt(signals, offset, offset, Arm);
        }
      } else {
        ArmedBeforeFirstReload(signals[1..], offset + 1);
        var rest := ReloadPoints(signals[1..], false, offset + 1);
        assert rs == rest;
        if |rs| > 0 {
          var j :| offset + 1 <= j < rest[0] && SignalAt(signals[1..], offset + 1, j, Arm);
          assert signals[1..][j - (offset + 1)] == signals[j - offset];
          assert SignalAt(signals, offset, j, Arm);
        }
      }
    }
  }

  /** Each reload after the first comes after an arming event that follows
      the previous reload. */
  lemma {:induction false} ArmedBetweenReloads(signals: seq<Signal>, armed: bool, offset: nat)
    ensures ArmedBeforeEach(signals, offset, ReloadPoints(signals, armed, offset))
    decreases |signals|
  {
    if signals != [] && signals[0] != End {
      var next := if signals[0] == Fire then false else armed || signals[0] == Arm;
      ArmedBetweenReloads(signals[1..], next, offset + 1);
      var rest := ReloadPoints(signals[1..], next, offset + 1);
      var rs := ReloadPoints(signals, armed, offset);
      SignalsInTail(signals, offset);
      if signals[0] == Fire && armed {
        assert rs == [offset] + rest;
        ArmedBeforeFirstReload(signals[1..], offset + 1);
        forall k | 0 < k < |rs|
          ensures ArmedIn(signals, offset, rs[k - 1], rs[k])
        {
          if k > 1 {
            assert rs[k - 1] == rest[k - 2] && rs[k] == rest[k - 1];
            assert ArmedIn(signals[1..], offset + 1, rest[k - 2], rest[k - 1]);
            var j :| rest[k - 2] < j < rest[k - 1] && SignalAt(signals[1..], offset + 1, j, Arm);
            assert SignalAt(signals, offset, j, Arm);
          } else {
            assert rs[1] == rest[0];
            var j :| offset + 1 <= j < rest[0] && SignalAt(signals[1..], offset + 1, j, Arm);
            assert SignalAt(signals, offset, j, Arm);
          }
        }
      } else {
        assert rs == rest;
        forall k | 0 < k < |rs|
          ensures ArmedIn(signals, offset, rs[k - 1], rs[k])
        {
          assert ArmedIn(signals[1..], offset + 1, rest[k - 1], rest[k]);
          var j :| rest[k - 1] < j < rest[k] && SignalAt(signals[1..], offset + 1, j, Arm);
          assert SignalAt(signals, offset, j, Arm);
        }
        assert ArmedBeforeEach(signals, offset, rs);
      }
    }
  }

  /** Without an arming event there is no reload from an unarmed start. */
  lemma {:induction false} NoArmingNoReload(signals: seq<Signal>, offset: nat)
    requires forall i :: 0 <= i < |signals| ==> signals[i] != Arm
    ensures ReloadPoints(signals, false, offset) == []
    decreases |signals|
  {
    if signals != [] {
      NoArmingNoReload(signals[1..], offset + 1);
    }
  }

  /** Any burst of arming events followed by one firing gives exactly one reload. */
  lemma {:induction false} BurstReloadsOnce(burst: nat, offset: nat)
    ensures ReloadPoints(seq(burst, i => Arm) + [Fire], false, offset) == (if burst == 0 then [] else [offset + burst])
    ensures burst > 0 ==> ReloadPoints(seq(burst, i => Arm) + [Fire], true, offset) == [offset + burst]
    decreases burst
  {
    var s := seq(burst, i => Arm) + [Fire];
    if burst > 0 {
      assert s[1..] == seq(burst - 1, i => Arm) + [Fire];
      BurstReloadsOnce(burst - 1, offset + 1);
    } else {
      assert s[1..] == [];
    }
  }

  // ---------------------------------------------------------------------
  // The reloader object

  class Reloader {
    const configPath: string
    var config: Config
    var callbacks: seq<Callback>
    var running: bool

    /** `NewReloader` after the initial configuration has loaded. */
    constructor (configPath: string, initial: Config)
      ensures this.configPath == configPath && config == initial
      ensures callbacks == [] && !running
    {
      this.configPath := configPath;
      config := initial;
      callbacks := [];
      running := false;
    }

    /** `GetConfig`: the configuration currently in force. */
    function GetConfig(): (c: Config)
      reads this
      ensures c == config
    {
      config
    }

    /** `AddCallback`: registration order is call order. */
    method AddCallback(callback: Callback)
      modifies this
      ensures callbacks == old(callbacks) + [callback]
      ensures config == old(config) && running == old(running)
    {
      callbacks := callbacks + [callback];
    }

    /** `Start`: refused while running; a failure to watch the file (given
        as `watchError`) leaves the reloader stopped. */
    method Start(watchError: Option<Error>) returns (err: Option<Error>)
      modifies this
      ensures old(running) ==> err == Some(Plain("reloader is already running")) && running
      ensures !old(running) && watchError.Some? ==>
        err == Some(Wrapped("failed to watch config file", watchError.value)) && !running
      ensures !old(running) && watchError.None? ==> err.None? && running
      ensures config == old(config) && callbacks == old(callbacks)
    {
      if running {
        return Some(Plain("reloader is already running"));
      }
      if watchError.Some? {
        return Some(Wrapped("failed to watch config file", watchError.value));
      }
      running := true;
      return None;
    }

    /** `Stop`: nothing happens when not running; otherwise the flag is cleared. */
    method Stop()
      modifies this
      ensures !running
      ensures config == old(config) && callbacks == old(callbacks)
    {
      if !running {
        return;
      }
      running := false;
    }

    /** `handleConfigChange`: `file`, `env` are what `Load` reads, and
        `outcome(i)` is what the i-th callback returns this time. */
    method HandleConfigChange(file: ConfigFile, env: Env, outcome: nat -> Option<Error>)
      returns (calls: seq<Call>, status: ReloadStatus)
      modifies this
      ensures ReloadStep(calls, status, config) == HandleChange(old(config), callbacks, Loaded(file, env), outcome)
      ensures callbacks == old(callbacks) && running == old(running)
    {
      var loaded := Configuration.Load(file, env);
      calls, status := ApplyLoaded(loaded, outcome);
    }

    /** The part of `handleConfigChange` after `Load`. */
    method ApplyLoaded(loaded: Result<Config, Error>, outcome: nat -> Option<Error>)
      returns (calls: seq<Call>, status: ReloadStatus)
      modifies this
      ensures ReloadStep(calls, status, config) == HandleChange(old(config), callbacks, loaded, outcome)
      ensures callbacks == old(callbacks) && running == old(running)
    {
      calls := [];
      if loaded.Failure? {
        return [], LoadFailed(loaded.error);
      }
      var newConfig := loaded.value;
      var invalid := ValidateForReload(newConfig);
      if invalid.Some? {
        return [], Invalid(invalid.value);
      }
      var oldConfig := config;
      var registered := callbacks;
      var changes := DetectChanges(oldConfig, newConfig);
      if |changes| == 0 {
        return [], NoChanges;
      }
      var i := 0;
      while i < |registered|
        invariant 0 <= i <= |registered|
        invariant forall j :: 0 <= j < i ==> outcome(j).None?
        invariant calls == CallsOf(registered, i, oldConfig, newConfig)
        invariant config == oldConfig && callbacks == registered
      {
        var result := outcome(i);
        calls := calls + [Call(registered[i], oldConfig, newConfig)];
        if result.Some? {
          assert FirstFailure(outcome, 0, |registered|) == i by {
            FirstFailureAt(outcome, 0, |registered|, i);
          }
          return calls, CallbackFailed(i, result.value);
        }
        i := i + 1;
      }
      FirstFailureNone(outcome, 0, |registered|);
      config := newConfig;
      return calls, Reloaded;
    }

    /** The debounce loop: the positions of `events` at which
        `handleConfigChange` runs. */
    method WatchLoop(events: seq<WatchEvent>) returns (reloads: seq<nat>)
      ensures reloads == ReloadPoints(Signals(events, configPath), false, 0)
    {
      ghost var signals := Signals(events, configPath);
      reloads := [];
      var armed := false;
      var i := 0;
      while i < |events|
        invariant 0 <= i <= |events|
        invariant ReloadPoints(signals, false, 0) == reloads + ReloadPoints(signals[i..], armed, i)
      {
        assert signals[i..][1..] == signals[i + 1..];
        assert signals[i..][0] == Classify(configPath, events[i]);
        match events[i] {
          case Stopped =>
            return;
          case TimerFired =>
            if armed {
              reloads := reloads + [i];
            }
            armed := false;
          case WatcherFailure =>
          case FileEvent(name, ops) =>
            if IsConfigFile(configPath, name) && (Write in ops || Create in ops) {
              armed := true;
            }
        }
        i := i + 1;
      }
    }
  }

  lemma {:induction false} FirstFailureAt(outcome: nat -> Option<Error>, from: nat, n: nat, i: nat)
    requires from <= i < n
    requires forall j :: from <= j < i ==> outcome(j).None?
    requires outcome(i).Some?
    ensures FirstFailure(outcome, from, n) == i
    decreases i - from
  {
    if from < i {
      FirstFailureAt(outcome, from + 1, n, i);
    }
  }

  lemma {:induction false} FirstFailureNone(outcome: nat -> Option<Error>, from: nat, n: nat)
    requires from <= n
    requires forall j :: from <= j < n ==> outcome(j).None?
    ensures FirstFailure(outcome, from, n) == n
    decreases n - from
  {
    if from < n {
      FirstFailureNone(outcome, from + 1, n);
    }
  }
}
