# github-stars-notify, modelled in Dafny

This project models the decision logic of github-stars-notify. This Go service polls the GitHub API for the stargazers of configured repositories, keeps the last list it saw per repository on disk, and posts a message to Discord and/or Slack webhooks when new stargazers appear. It reloads its YAML configuration when the file changes.

The model covers these pieces:

- `internal/storage/storage.go`: the per-repository store.
- `internal/config`: configuration loading, validation and defaulting, environment overrides, and the hot reloader (change detection, callbacks, debounce).
- `internal/github/client.go`: Link-header pagination, retry wrappers and client defaults.
- `internal/notify`: the rate-limit and retry decorators, the notifier factory, and the Discord and Slack message builders and status rules.
- `internal/errors/errors.go`: the error taxonomy.
- `internal/service/service.go`: the orchestrator that ties these together.

Everything the Go code obtains from the outside becomes an explicit parameter of the model:

- HTTP answers and JSON bodies.
- The file system: the disk is a map from file name to entry.
- The clock: an integer of nanoseconds.
- The context's cancellation: a boolean at each point where the code looks at it.
- The environment: a map.
- fsnotify events: a sequence.

Go's `time.Duration` arithmetic is modelled with its 64-bit wrap-around (`Durations.Wrap64`), and `time.Time.Sub` with its saturation (`Durations.Saturate64`).

The files are:

| file | module |
|---|---|
| wrappers.dfy | `Option`, `Result` |
| text.dfy | `strconv.Itoa`/`Atoi`, `strings.Split`/`Join`/`Trim`/`Contains`, `filepath.Base`/`Join`/`Clean` |
| durations.dfy | int64 `time.Duration` arithmetic |
| errors.dfy | `internal/errors` |
| github.dfy | `internal/github` |
| storage.dfy | `internal/storage` |
| config.dfy | `internal/config/config.go` |
| reloader.dfy | `internal/config/reloader.go` |
| notifier.dfy | `internal/notify/notifier.go`, and the stargazer listing both message builders share |
| discord.dfy, slack.dfy | the two webhook notifiers |
| factory.dfy | `internal/notify/factory.go` |
| service.dfy | `internal/service/service.go` |

How imperative code is modelled:

- **Functions and methods.** Where the Go code works step by step, the model is a method with a loop or a class with the updated fields. Examples are the retry loops, `createMessage`, `validate`, `detectChanges`, `equalRepositories`, `FileStorage`, `Reloader`, `RateLimiter` and `Service`. Each method is proved equal to a specification function, and the properties are proved about those functions as lemmas.
- **Retry loops.** All four retry loops are one function, `GitHub.Retry`: the two wrappers of the GitHub client and the two of `RetryableNotifier`. It takes a flag for the early exit on a rate-limited error, which only `GetStargazersWithRetry` has.
- **`Service`.** `Service` holds the store, the client, the notifiers and `running`. Its methods are proved against `Checked`, `Cycle`, `Started` and `MonitorFrom`.

## Model

| member | source | states |
|---|---|---|
| Durations.Wrap64 | internal/config/config.go:243-245 | the result is the int64 value of the product, congruent to it modulo 2^64 and equal to it when it is in range |
| Durations.Saturate64 | internal/notify/notifier.go:186 | the difference of two times is clamped to the int64 range and is exact inside it |
| Errors.Unwrap | internal/errors/errors.go:32-34 | the cause is strictly smaller than the error, so every unwrap chain ends |
| Errors.Message | internal/errors/errors.go:25-145 | the `Error()` text of each type; only a plain error can have an empty text, and a `%w` wrap begins with its prefix and ": " |
| Errors.Is | internal/errors/errors.go:36-38 | only the six typed errors have an `Is` that can match; which sentinel each matches is stated by `IsMatchesExactlyOwnSentinel` |
| Errors.IsRateLimited | internal/errors/errors.go:64-66 | a rate-limited error is a GitHub API error, so it matches the API sentinel |
| Errors.RateLimitSeenOnlyUnwrapped | internal/github/client.go:280-283 | the type assertion sees a 403 or 429 API error only unwrapped: a `%w` wrap of it is not rate-limited, although `errors.Is` still finds the API sentinel through the wrap |
| Errors.UnwrapReturnsCause | internal/errors/errors.go:158-212 | `Unwrap` returns exactly the cause the error was constructed with, the inner error of a `%w` wrap, and nothing for the other errors |
| Errors.IsMatchesExactlyOwnSentinel | internal/errors/errors.go:36-38 | each typed error's `Is` matches exactly its own sentinel, and the untyped errors match none |
| Errors.WrappingPreservesMatch | internal/errors/errors.go:32-38 | when an error wraps a cause that matches a sentinel under `errors.Is`, the wrapping error matches it too |
| Errors.GitHubMessageShowsCodeIffPositive | internal/errors/errors.go:48-53 | the GitHub API error text shows the bracketed status code exactly when the code is positive |
| Errors.FieldClauseIffField | internal/errors/errors.go:25-30 | configuration and validation error texts name the field exactly when it is non-empty |
| Errors.LocationClauseIffPresent | internal/errors/errors.go:76-81 | storage errors name the path, and service errors the component, exactly when it is non-empty |
| GitHub.NewClientWithConfig | internal/github/client.go:69-88 | the token is kept; base URL, timeout and user agent are kept when set and never left empty or zero |
| GitHub.DefaultClient | internal/github/client.go:70-78 | an empty configuration yields https://api.github.com, a 30 s timeout and the github-stars-notify/1.0 agent |
| GitHub.ReconfigureIsIdentity | internal/github/client.go:69-88 | defaulting is idempotent: a client rebuilt from its own settings is the same client |
| GitHub.LeadingDigits | internal/github/client.go:238-239 | the result is the longest run of digits at the start of the input |
| GitHub.FindPageDigits | internal/github/client.go:238-239 | a match of `page=(\d+)` is a non-empty run of digits |
| GitHub.ParseNextPage | internal/github/client.go:219-249 | the page number is between 0 and the int64 maximum |
| GitHub.ScanLinks | internal/github/client.go:225-248 | the scan over the comma-separated links gives a page in the int64 range |
| GitHub.ScanLinksFirstNamed | internal/github/client.go:226-243 | the first link that names a page decides the result, whatever follows it |
| GitHub.ScanLinksNoneNamed | internal/github/client.go:226-248 | when no link names a page the result is 0 |
| GitHub.NoHeaderNoNextPage | internal/github/client.go:220-222 | an empty Link header gives page 0 |
| GitHub.NoNextLinkNoNextPage | internal/github/client.go:225-248 | links of which none contains `rel="next"` give page 0 |
| GitHub.NextLinkFirst | internal/github/client.go:225-243 | a well-formed `rel="next"` link that starts the header gives its URL's page number, whatever links follow it |
| GitHub.NextLinkAfterOthers | internal/github/client.go:225-243 | a well-formed next link after links that do not mention `rel="next"` (prev, first) gives its URL's page, with or without links after it |
| GitHub.NextLinkWithExtraParameter | internal/github/client.go:227-230 | a next link with a third `;` parameter does not split into two parts and is skipped, so on its own it gives 0 |
| GitHub.ScanNextLinkFirst | internal/github/client.go:226-243 | a well-formed next link as the first segment decides the result |
| GitHub.PageParameterFirst | internal/github/client.go:238-242 | a URL whose query starts with `page=N` gives N |
| GitHub.PerPageParameterFirst | internal/github/client.go:238-242 | a URL with `per_page=M` before `page=N` gives M, because the unanchored pattern matches inside `per_page` first |
| GitHub.PageFromResponse | internal/github/client.go:118-168 | a page read without a Link header has no next page |
| GitHub.EndlessLinksNeverSettle | internal/github/client.go:95-112 | responses that name a next page forever, uncancelled, never stop the loop |
| GitHub.PerPageLinkRepeatsPage | internal/github/client.go:238-242 | a next link written `?per_page=100&page=N` names page 100 whatever N is |
| GitHub.StopAt | internal/github/client.go:95-112 | the loop stops at the first response that fails, has no next page or finds the context cancelled |
| GitHub.Fetch | internal/github/client.go:91-115 | the result of the pagination loop over the responses; what it returns is stated by `FetchCharacterized` |
| GitHub.FetchCharacterized | internal/github/client.go:91-115 | success exactly when the last page read has no next page, with the concatenation of the pages in request order; a page error is returned with nothing of the earlier pages; a cancellation gives the context error |
| GitHub.GetStargazers | internal/github/client.go:91-115 | the loop returns `Fetch` of the responses and requests page 1 first, then each page the previous response named |
| GitHub.RetryFrom | internal/github/client.go:271-301 | the retry loop from one iteration on: success returns at once, a rate-limited error (when exempt) or a cancellation ends it, otherwise a wait and the next attempt; its bounds are stated by `RetryBounds` |
| GitHub.Retry | internal/github/client.go:268-301 | the whole retry loop, from the first attempt with no earlier error; its properties are stated by `RetryBounds` and the other `Retry` lemmas |
| GitHub.RetryBounds | internal/github/client.go:271-298 | at most `maxRetries+1` attempts, none when `maxRetries<0`; the k-th wait is `backoff*(k+1)`, and there is no wait after the last attempt |
| GitHub.RetryRunsIffRetriesNonNegative | internal/github/client.go:271 | no attempt is made exactly when `maxRetries` is negative |
| GitHub.RetryNeverEmpty | internal/github/client.go:271-301 | with attempts left the loop ends in a success or an error |
| GitHub.RetryContinuesOnlyPastFailures | internal/github/client.go:272-298 | every attempt before the last failed, was not cancelled and was not rate-limited; a success is the last attempt's own result |
| GitHub.RetryExhausted | internal/github/client.go:277-301 | when every attempt fails uncancelled, the result is the last attempt's error after exactly `maxRetries+1` attempts |
| GitHub.RetryCancelled | internal/github/client.go:285-297 | an attempt that fails and finds the context done, after attempts that failed and went on, ends the loop with the context error and no further attempt |
| GitHub.RateLimitedNotRetried | internal/github/client.go:280-283 | a rate-limited first error of the stargazer fetch is returned after one attempt with no wait |
| GitHub.FetchOutcomes | internal/github/client.go:272 | one retry attempt per call of `GetStargazers` |
| GitHub.GetStargazersWithRetry | internal/github/client.go:268-302 | the loop equals `Retry` with the rate-limit exemption over the pagination results |
| GitHub.GetRateLimitWithRetry | internal/github/client.go:305-333 | the loop equals `Retry` without the rate-limit exemption |
| Storage.DataDirFor | internal/storage/storage.go:53-61 | an empty data directory becomes ./data, any other is kept |
| Storage.Filename | internal/storage/storage.go:228-230 | `filepath.Join` of the data directory and `<owner>_<repo>.json`, cleaned; its shape is stated by `FilenameEndsInRecordName`, `DefaultDirFilename` and `FilenameInjective` |
| Storage.FilenameEndsInRecordName | internal/storage/storage.go:228-230 | for owner and repo without `/` the last path element is `<owner>_<repo>.json`, whatever the data directory |
| Storage.DefaultDirFilename | internal/storage/storage.go:228-230 | under the default directory ./data the file is data/<owner>_<repo>.json: the leading ./ is cleaned away |
| Storage.LoadUnsafe | internal/storage/storage.go:233-259 | a missing file loads as the empty record; an unreadable or malformed one is a "load" storage error on the cleaned file name |
| Storage.LoadOn | internal/storage/storage.go:81-115 | a cancelled context gives the context error, otherwise `loadUnsafe` |
| Storage.SaveOn | internal/storage/storage.go:118-176 | a save succeeds exactly when it is not cancelled, the existing record loads and both the write and the rename succeed; its other errors are "save" storage errors; a successful save leaves the file in place |
| Storage.OneLevelHistory | internal/storage/storage.go:136-152 | a saved record keeps exactly one level of history, and keeps it exactly when the old list was non-empty, with the old list and its check time |
| Storage.SaveThenLoad | internal/storage/storage.go:118-176 | after a successful save, `Load` returns the new record built from the stored one |
| Storage.SaveTouchesOnlyItsFiles | internal/storage/storage.go:161-173 | a save changes no file but the repository's file and its temporary file |
| Storage.FailedSaveKeepsOldFile | internal/storage/storage.go:125-134 | a cancelled save or one whose load fails writes nothing; a failed rename removes the temporary file and leaves the old file in place |
| Storage.TwoSaves | internal/storage/storage.go:137-152 | after two saves the first list is the single history level when it was non-empty, and there is no history otherwise |
| Storage.IdsOfMembers | internal/storage/storage.go:196-199 | the set of IDs holds exactly the IDs of the stored stargazers |
| Storage.FilterNewMembers | internal/storage/storage.go:202-207 | a stargazer is kept exactly when it is observed and its ID is unknown |
| Storage.FilterNewAppend | internal/storage/storage.go:203-207 | filtering distributes over concatenation, so the observed order is kept |
| Storage.FilterNewNoneKnown | internal/storage/storage.go:203-207 | with no known ID, the observed list is returned unchanged |
| Storage.NewStargazersOn | internal/storage/storage.go:179-210 | a load cancelled at once fails; every failure is the context error or the load error wrapped with "failed to load repo data" |
| Storage.NewStargazersCharacterized | internal/storage/storage.go:179-210 | an empty stored list makes everything new; otherwise exactly the observed stargazers whose ID is not stored are new |
| Storage.NewAfterSave | internal/storage/storage.go:179-210 | after saving a list, that same list has no new stargazers, and a later one has exactly those whose ID was not saved |
| Storage.GetLastCheckTime | internal/storage/storage.go:213-219 | a never-saved repository has the zero check time |
| Storage.NewStorageFromConfig | internal/storage/storage.go:268-276 | types "file" and "" are accepted and any other is rejected with the "unsupported storage type" error |
| Storage.FilenameInjective | internal/storage/storage.go:228-230 | owners without `_`, and owners and repos without `/`, give distinct repositories distinct files |
| Storage.FilenameCollision | internal/storage/storage.go:228-230 | a/b_c and a_b/c share one file, so an `_` in the owner can make two repositories collide |
| Storage.FilenameTraversalCollision | internal/storage/storage.go:228-230 | cleaning lets owner a/../x and owner x share one file for the same repo, so a `/` in the owner can make two repositories collide |
| Storage.FileStorage.constructor | internal/storage/storage.go:53-61 | `NewFileStorage` over a disk, with the defaulted data directory |
| Storage.FileStorage.Load | internal/storage/storage.go:81-115 | a never-saved repository loads as the empty record |
| Storage.FileStorage.Save | internal/storage/storage.go:118-176 | the new disk and the error are those of `SaveOn` on the old disk |
| Storage.FileStorage.GetNewStargazers | internal/storage/storage.go:179-210 | the result is `NewStargazersOn` of the stored disk, and nothing changes |
| Configuration.ApplyEnvOverrides | internal/config/config.go:106-160 | the loop of overrides yields `EnvOverridden`, one variable and one field at a time |
| Configuration.OverrideDiscord | internal/config/config.go:112-118 | the Discord overrides |
| Configuration.OverrideSlack | internal/config/config.go:120-129 | the Slack overrides |
| Configuration.OverrideServer | internal/config/config.go:131-139 | the server overrides, the port only when it parses |
| Configuration.OverrideLogging | internal/config/config.go:146-152 | the logging overrides |
| Configuration.EnvOverridden | internal/config/config.go:106-160 | no variable touches the repositories, the GitHub timeout or the storage type; the per-variable rules are `EnvOverrideRules` |
| Configuration.EnvOverrideRules | internal/config/config.go:106-160 | for each of the twelve variables: it overrides its field only when non-empty (and then with its value), an `_ENABLED` variable sets true exactly for "true", and numbers apply only when they parse; the fields without a variable are untouched |
| Configuration.EnvOverridesIdempotent | internal/config/config.go:106-160 | applying the overrides twice equals applying them once |
| Configuration.EmptyEnvironmentKeepsConfig | internal/config/config.go:106-160 | with every variable empty the configuration is unchanged |
| Configuration.Validate | internal/config/config.go:163-206 | the loop returns the first problem in the order of the checks |
| Configuration.Problem | internal/config/config.go:163-206 | the first problem `validate` finds, in the order of its checks; which configurations have none is stated by `ValidateAcceptsWellFormed` |
| Configuration.RepositoryProblemNoneIff | internal/config/config.go:168-175 | no repository problem exactly when every entry has an owner and a repo |
| Configuration.RepositoryProblemIsFirst | internal/config/config.go:168-175 | a reported problem names the first bad entry's index and its missing field, owner before repo |
| Configuration.ValidateAcceptsWellFormed | internal/config/config.go:163-206 | `validate` accepts exactly the configurations with repositories, complete entries, webhook URLs for enabled providers, and a known or empty log level and format |
| Configuration.SetDefaults | internal/config/config.go:209-240 | the field-by-field defaulting yields `WithDefaults` |
| Configuration.DefaultServer | internal/config/config.go:216-227 | the server section defaults |
| Configuration.WithDefaults | internal/config/config.go:209-240 | the repositories, notifications and token are kept, and no defaulted field (interval, timeouts, port, host, storage, logging) is left zero or empty |
| Configuration.DefaultsFillOnlyZeroFields | internal/config/config.go:209-240 | every zero or empty defaulted field gets its default (60 min, 30 s, 8080, localhost, 30 s read and write, "file", "./data", "info", "text"), set fields are kept, and the other sections are untouched |
| Configuration.DefaultsIdempotent | internal/config/config.go:209-240 | defaulting twice equals defaulting once |
| Configuration.DefaultsKeepWellFormed | internal/config/config.go:209-240 | defaulting a valid configuration keeps it valid |
| Configuration.Load | internal/config/config.go:81-103 | read, parse, override, validate, then default, with each failure wrapped by its step's message |
| Configuration.Loaded | internal/config/config.go:81-103 | only a parsed file can load, and every failure is wrapped with its step's message |
| Configuration.LoadedIsValidAndDefaulted | internal/config/config.go:92-100 | a loaded configuration is valid and fully defaulted; a parsed file loads exactly when its overridden form is valid, so overrides are validated and defaults are not |
| Configuration.LoadAdmitsNegativeInterval | internal/config/config.go:92-100 | a valid file with a negative `check_interval_minutes` loads, and its check interval is negative: neither `validate` nor `setDefaults` rejects it |
| Configuration.CheckInterval | internal/config/config.go:243-245 | the interval is a `time.Duration` in the int64 range |
| Configuration.GitHubTimeout | internal/config/config.go:248-250 | the timeout is a `time.Duration` in the int64 range |
| Configuration.CheckIntervalInMinutes | internal/config/config.go:243-245 | the interval is the minutes times one minute, and 60 minutes once a zero value is defaulted |
| Configuration.GitHubTimeoutInSeconds | internal/config/config.go:248-250 | the timeout is the seconds times one second, and 30 s once a zero value is defaulted |
| Configuration.LogLevel | internal/config/config.go:258-271 | the level is one of the four slog levels |
| Configuration.LogLevelNames | internal/config/config.go:258-271 | each of the four names gives its own level, and anything else gives Info |
| Reloader.ValidateForReload | internal/config/reloader.go:222-237 | a configuration is accepted exactly when it has repositories, a token and an interval of at least one minute |
| Reloader.ReloadValidationRequiresToken | internal/config/reloader.go:228-230 | a configuration that `validate` accepts can still be refused on reload for its missing token |
| Reloader.ReloadIntervalAtLeastOneMinute | internal/config/reloader.go:232-234 | for intervals without overflow, reload accepts exactly one minute or more |
| Reloader.EqualRepositories | internal/config/reloader.go:277-289 | the loop's answer is true exactly when the lists have equal length and pairwise equal owner and repo, that is, when they are equal |
| Reloader.EqualNotifications | internal/config/reloader.go:292-298 | the five-field comparison is true exactly when the notification settings are equal, since they have no other field |
| Reloader.DetectChanges | internal/config/reloader.go:240-274 | the six appends yield `Changes` |
| Reloader.Changes | internal/config/reloader.go:240-274 | the tags of the six facets that differ, in test order; stated by `ChangesCharacterized` |
| Reloader.SelectedProperties | internal/config/reloader.go:240-274 | a tag is reported exactly when its facet differs, and in test order |
| Reloader.ChangesCharacterized | internal/config/reloader.go:240-274 | each tag appears exactly when its facet differs; tags come in the fixed order; a configuration has no changes against itself |
| Reloader.FirstFailure | internal/config/reloader.go:203-209 | the index of the first failing callback: everything before it succeeded |
| Reloader.HandleChange | internal/config/reloader.go:164-219 | the configuration changes only on a successful reload, and then to the loaded one; no more callbacks are called than are registered |
| Reloader.HandleChangeCharacterized | internal/config/reloader.go:164-219 | the configuration is swapped exactly when it loads, is valid, has changes and every callback succeeds; the callbacks run in order with (old, new) and stop at the first failure; no callback runs on a load, validation or no-change exit |
| Reloader.SameNameIsConfigFile | internal/config/reloader.go:154-161 | a file of the configuration file's base name in any directory counts as the configuration file |
| Reloader.IsConfigFile | internal/config/reloader.go:154-161 | the configuration file's own path always counts as the configuration file |
| Reloader.Classify | internal/config/reloader.go:129-148 | only Write or Create events on the configuration file re-arm the timer |
| Reloader.Signals | internal/config/reloader.go:119-150 | each event is read by `Classify` |
| Reloader.ReloadPointsAreFirings | internal/config/reloader.go:147-148 | every reload happens at a timer firing, in increasing order |
| Reloader.ArmedBeforeFirstReload | internal/config/reloader.go:130-148 | the first reload follows an arming event |
| Reloader.ArmedBetweenReloads | internal/config/reloader.go:134-148 | between two reloads there is an arming event |
| Reloader.NoArmingNoReload | internal/config/reloader.go:130-148 | without an arming event there is no reload |
| Reloader.BurstReloadsOnce | internal/config/reloader.go:137-138 | a burst of writes followed by one firing reloads once |
| Reloader.Reloader.constructor | internal/config/reloader.go:31-51 | a new reloader holds the initial configuration, has no callbacks and is not running |
| Reloader.Reloader.GetConfig | internal/config/reloader.go:54-58 | the configuration currently in force |
| Reloader.Reloader.AddCallback | internal/config/reloader.go:61-65 | the callback is appended and nothing else changes |
| Reloader.Reloader.Start | internal/config/reloader.go:68-92 | a running reloader errors; a failed watch errors and does not run; otherwise it runs |
| Reloader.Reloader.Stop | internal/config/reloader.go:95-110 | afterwards the reloader is not running |
| Reloader.Reloader.HandleConfigChange | internal/config/reloader.go:164-219 | the calls, status and new configuration are those of `HandleChange` |
| Reloader.Reloader.ApplyLoaded | internal/config/reloader.go:174-219 | whatever `Load` returned, the calls, status and new configuration are those of `HandleChange`, and the callbacks and running flag are unchanged |
| Reloader.Reloader.WatchLoop | internal/config/reloader.go:113-151 | the reloads happen at the points of the debounce machine over the events |
| Notify.ProviderName | internal/notify/notifier.go:147-149 | every notifier answers with its base provider's name, "discord" or "slack" |
| Notify.RateLimiter.constructor | internal/notify/notifier.go:177-181 | a new limiter's last notification is the zero time |
| Notify.RateLimiter.Allow | internal/notify/notifier.go:184-191 | true and records now exactly when the interval has elapsed; otherwise false and nothing changes |
| Notify.RateLimiter.Wait | internal/notify/notifier.go:194-211 | the result and new state are those of `Waited`: the post-wait time, the cancellation with no change, or `now` at once |
| Notify.Waited | internal/notify/notifier.go:194-211 | the result of `Wait`: at once when the interval has passed, else the cancellation with nothing recorded, or the time the timer fired; its spacing is stated by `WaitKeepsSpacing` |
| Notify.FreshLimiterAllows | internal/notify/notifier.go:177-191 | on a fresh limiter the first `Allow` succeeds and `Wait` does not block |
| Notify.AllowedIffElapsed | internal/notify/notifier.go:186 | for representable intervals `Allow`'s test is "now minus last is at least the interval" |
| Notify.WaitKeepsSpacing | internal/notify/notifier.go:194-211 | a successful wait records a time at least one interval after the last one; a failed one changes nothing |
| Notify.LimitedNotificationsAreSpaced | internal/notify/notifier.go:230-244 | a delegated notification is recorded at least one interval after the previous one; a refused one returns the cancellation and changes nothing |
| Notify.RateLimitedNotifier.constructor | internal/notify/notifier.go:221-227 | the notifier wraps the given one with a fresh limiter |
| Notify.RateLimitedNotifier.NotifyNewStars | internal/notify/notifier.go:230-244 | the inner notifier is called at most once, exactly when `Allow` or `Wait` let it through, and its answer is returned |
| Notify.RateLimitedNotifier.TestConnection | internal/notify/notifier.go:247-249 | the inner result passes through untouched |
| Notify.RateLimitedNotifier.GetProviderName | internal/notify/notifier.go:252-254 | the inner notifier's provider passes through |
| Notify.WithRetry | internal/notify/notifier.go:42-98 | the retry loop of `NotifyNewStars` and `TestConnection` equals `Retry` without the exemption |
| Notify.RetryableNotifierResult | internal/notify/notifier.go:46-97 | 1 to `maxRetries+1` attempts; nil on a first success; a nil result comes from a successful last attempt |
| Notify.RetryableNotifierExhausted | internal/notify/notifier.go:75-97 | when every attempt fails, the last error comes after `maxRetries+1` attempts with waits `backoff*1 .. backoff*maxRetries` |
| Notify.RetryExhaustedWaits | internal/notify/notifier.go:75-88 | there is one wait between each two attempts and none after the last |
| Notify.RetryableNotifierCancelled | internal/notify/notifier.go:67-87 | a context found done after a failed attempt, or during the backoff after it, ends the loop with the context error after that attempt |
| Factory.DefaultNotifierConfig | internal/notify/factory.go:20-27 | 3 retries, 2 s backoff, a 1 minute window and a 30 s timeout |
| Factory.DecoratedKeepsBase | internal/notify/factory.go:47-53 | decoration keeps the base notifier at the centre |
| Factory.CreateNotifiersWithConfig | internal/notify/factory.go:40-70 | never fails; one notifier per enabled provider, Discord before Slack, each retry(rateLimit(base)) with the configured settings |
| Factory.CreateNotifierWithConfig | internal/notify/factory.go:78-101 | "discord" and "slack" give a decorated notifier of that provider, with the Slack channel from the first option; any other type is rejected |
| Factory.CreateBasicNotifier | internal/notify/factory.go:104-117 | "discord" and "slack" give an undecorated notifier with a 30 s timeout; any other type is rejected |
| Factory.CreatedOnePerEnabledProvider | internal/notify/factory.go:44-69 | as many notifiers as enabled providers, and none when neither is enabled |
| Factory.DefaultRetrySchedule | internal/notify/factory.go:20-27 | with the defaults a notification that keeps failing is tried four times, 2 s, 4 s and 6 s apart |
| DiscordWebhook.CreateMessage | internal/notify/discord.go:99-142 | the loop with its early exit builds `MessageFor`: one embed whose fields are the first ten stargazers and an overflow field |
| DiscordWebhook.MessageFor | internal/notify/discord.go:99-142 | the message `createMessage` builds, without its timestamp: one embed with the description, the green colour, the fields and the footer; its fields are stated by `FieldsShape` |
| DiscordWebhook.FieldsShape | internal/notify/discord.go:120-137 | min(n,10) inline fields, in order, each naming a login and linking its profile, plus, exactly when n>10, one "And more..." field for the n-10 others |
| DiscordWebhook.OverflowAccountsForAll | internal/notify/discord.go:122-128 | the listed fields and the number in the overflow field add up to n |
| DiscordWebhook.DescriptionStatesCount | internal/notify/discord.go:103-107 | the description states the number, saying "star" in the singular exactly when there is one |
| DiscordWebhook.SendResult | internal/notify/discord.go:145-176 | success exactly for a 2xx answer; otherwise a Discord notification error, without a cause for a rejected status |
| DiscordWebhook.NotifyNewStars | internal/notify/discord.go:89-96 | an empty list sends nothing and succeeds; otherwise one message is sent and the status decides |
| DiscordWebhook.TestConnection | internal/notify/discord.go:179-185 | a fixed content message, with the status rule |
| SlackWebhook.CreateMessage | internal/notify/slack.go:87-140 | the loop builds `MessageFor`, setting the channel only when one is configured |
| SlackWebhook.MessageFor | internal/notify/slack.go:87-140 | the message `createMessage` builds, without its timestamp; its shape is stated by `MessageShape` |
| SlackWebhook.MessageShape | internal/notify/slack.go:87-140 | one attachment, the fixed username and star icon, a channel exactly when configured, a title link to the repository, min(n,10) short profile fields in order, and an overflow field for n-10 exactly when n>10 |
| SlackWebhook.HeadlineWording | internal/notify/slack.go:88-97 | title and text state the number, in the singular exactly when there is one |
| SlackWebhook.SendResult | internal/notify/slack.go:143-169 | success exactly for a 2xx answer; otherwise a Slack notification error |
| SlackWebhook.NotifyNewStars | internal/notify/slack.go:77-84 | an empty list sends nothing and succeeds; otherwise one message is sent and the status decides |
| SlackWebhook.TestConnection | internal/notify/slack.go:172-184 | the robot-icon test message names a channel exactly when one is configured |
| Service.ClientFor | internal/service/service.go:583-591 | the rebuilt client has the new token and timeout, the default URL and agent, 3 retries and a 2 s backoff |
| Service.Checked | internal/service/service.go:437-505 | the steps of `checkRepository` on a store: fetch, diff, notify every notifier, save; its properties are stated by `FetchFailureTouchesNothing`, `DiffFailureTouchesNothing` and `CheckNotifiesThenSavesAll` |
| Service.NotifyAll | internal/service/service.go:470-490 | one call per notifier |
| Service.FailedProviders | internal/service/service.go:473-478 | at most one failure per notifier |
| Service.FetchFailureTouchesNothing | internal/service/service.go:444-449 | a failed fetch returns the "github" service error with no diff, notification or save |
| Service.DiffFailureTouchesNothing | internal/service/service.go:461-465 | a failed diff returns a "storage" service error with no notification or save |
| Service.CheckNotifiesThenSavesAll | internal/service/service.go:467-498 | with new stargazers every notifier is called once, in order, with them, whatever each answers; with none no notifier is called; then the full fetched list is saved and load returns it |
| Service.Cycle | internal/service/service.go:412-426 | one result per repository |
| Service.CyclePrefix | internal/service/service.go:412-426 | the results for the first repositories do not depend on the later ones |
| Service.CycleChecksEachInTurn | internal/service/service.go:412-426 | the k-th result is the check of the k-th repository on the store the earlier checks left, so a failure does not stop the cycle |
| Service.CheckRateLimits | internal/service/service.go:508-532 | no error exactly when the probe succeeds with at least 10 requests left; otherwise a "github" service error |
| Service.StartAbortsOnFailedProbe | internal/service/service.go:267-280 | a failed probe of any notifier aborts the start after probing the ones before it, and they all succeeded |
| Service.StartRunsIffEverythingSucceeds | internal/service/service.go:248-287 | the service ends up running exactly when the reloader, storage, metrics server and every probe succeed |
| Service.Started | internal/service/service.go:248-287 | at most every notifier is probed; success leaves the service running with every notifier probed; a failure is a service error and leaves the running flag as it was |
| Service.ResetsOnlyOnChange | internal/service/service.go:309-323 | every ticker reset differs from the interval before it, and the ticker ends with the last reset |
| Service.SameIntervalSignalIgnored | internal/service/service.go:312-318 | a signal carrying the current interval changes nothing |
| Service.MonitorFrom | internal/service/service.go:295-327 | the loop runs at most one check or reset per event, and without a reset the ticker keeps its interval |
| Service.MonitorLoop | internal/service/service.go:295-327 | the select loop's checks, resets and interval are those of `MonitorFrom` |
| Service.Service.constructor | internal/service/service.go:104-127 | a new service holds its collaborators and is not running |
| Service.Service.CheckRepository | internal/service/service.go:437-505 | the error, the notifier calls, the failures and the new store are those of `Checked` |
| Service.Service.RunCheck | internal/service/service.go:404-434 | the results and the store are those of `Cycle`, and the rate-limit check follows |
| Service.Service.HandleConfigReload | internal/service/service.go:561-642 | always nil; rebuilds the client exactly when the token or timeout differ and the notifiers exactly when the notification settings differ and calls `TestConnection` on each new one; signals the ticker exactly when the interval differs and the loop is ready |
| Service.Service.Start | internal/service/service.go:241-287 | the error, probes and running flag are those of `Started` |
| Service.Service.Stop | internal/service/service.go:331-365 | reports whether the service was running, and afterwards it is not |
| Service.ServiceCallbackNeverBlocksReload | internal/service/service.go:641 | the service's callback always succeeds, so a valid changed configuration is always adopted |

## Left out

- HTTP, JSON and YAML: `getStargazersPage`, `GetRateLimit` and the request and marshalling part of `sendMessage` are not modelled. Their outcomes are parameters: `PageResponse`, `Attempt`, `Delivery` and `ConfigFile`. Marshal failures are not distinguished.
- The file system: not modelled beyond a map from file names to good, unreadable or malformed entries. `Initialize`, `Close` and the directory creation are left out; only their errors reach `Start`, as parameters.
- Concurrency is not modelled: goroutines, fsnotify, `time.Timer`/`Ticker`, `select` and the mutexes. The debounce and the monitoring loop are sequential machines over event sequences.
- Unsynchronised writes: the reload goroutine writes `github` and `notifiers` while `runCheck` reads them. This is not modelled.
- Send after `Stop`: `Stop` closes `tickerUpdate`, and a reload after that would panic on the send. This is not modelled.
- Clocks: `time.Now` is a parameter, and message timestamps are left out (discord.go:113, slack.go:105).
- Context errors: cancellation is one error, `Canceled`. `DeadlineExceeded` is not distinguished.
- Metrics and logging: `internal/metrics` and `internal/logger` are not part of this model. The notifier results in `checkRepository` only feed them, so the model just lists the calls and the failed providers.
- `main.go`, `New`'s file-based wiring, `NewForTest`, `GetStatus`, `GetServerAddress` and `startMetricsServer` are not part of this model.
- `isConfigFile`: only the base-name rule is modelled. The `filepath.Abs` comparison depends on the working directory.
- `ValidationError`'s `Value` field is not modelled: it carries an arbitrary value that no error text shows.
- Decorator interaction: each decorated notifier's retries pass through its rate limiter. `RetryableNotifier` is proved over the inner notifier's results, and `RateLimitedNotifier` over one call; the combination is not composed.
- Service.Service.Start: the model stops at the monitoring loop. That loop is `MonitorLoop`, whose ticker signal reads the interval of the reloader's configuration at the time it is received. The reloader runs its callbacks (internal/config/reloader.go:202-208) before it installs the new configuration (internal/config/reloader.go:211-213), so a signal received in between reads the old interval and is ignored (`SameIntervalSignalIgnored`); the new interval then takes effect only at a later reload. The model does not interleave the two goroutines, so it does not decide which read happens.
- Service.Started: the metrics-server failure is a free parameter, but it cannot happen: `startMetricsServer` fails only on an empty address (internal/service/service.go:371-373), and the address is always "host:port", never empty.
- Service.Service.HandleConfigReload: the "continue without notifiers" branch for a failed notifier creation is modelled but cannot be taken, because `CreateNotifiersWithConfig` never fails.
- GitHub.ParseNextPage: its own ensures only bounds the page. Which page it returns is stated link by link by `ScanLinksFirstNamed` and `ScanLinksNoneNamed`, and for the usual header shapes by the lemmas next to them. No lemma describes how an arbitrary header splits into links.
- GitHub.GetStargazers: requires `Settles`, so a server that names a next page in every response is left out. Go's loop would request pages without end (`EndlessLinksNeverSettle`). A next link written `?per_page=100&page=N` is such a server: Go asks for page 100 again and again and skips the pages before it (`PerPageLinkRepeatsPage`).
- Service.MonitorLoop: requires a positive interval. Go's `time.NewTicker` panics on one that is zero or negative, and `Load` admits a negative `check_interval_minutes` (`LoadAdmitsNegativeInterval`). The panic is not modelled.
- DiscordWebhook.SendResult: quotes the first 512 characters of the body. Go makes a single `Read` of up to 512 bytes, which may return fewer bytes or cut a multi-byte UTF-8 character.
- Storage.Filename: `filepath.Clean` is modelled for `/`-separated paths only; Windows volume names and separators are not.
