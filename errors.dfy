/** The error taxonomy of the service: one constructor per error type of the Go
    package `errors`, plus the cancellation error of a context and plain
    `errors.New`/`fmt.Errorf` errors. A constructor's `cause` is the `Err` field
    that `Unwrap` returns. */
module Errors {
  import opened Wrappers
  import opened Text

  /** The sentinel values `ErrConfiguration`, `ErrGitHubAPI`, ... */
  datatype Sentinel =
    | ErrConfiguration
    | ErrGitHubAPI
    | ErrStorage
    | ErrNotification
    | ErrService
    | ErrValidation

  datatype Error =
    | ConfigurationError(field: string, message: string, cause: Option<Error>)
    | GitHubAPIError(endpoint: string, statusCode: int, message: string, cause: Option<Error>)
    | StorageError(operation: string, path: string, message: string, cause: Option<Error>)
    | NotificationError(provider: string, message: string, cause: Option<Error>)
    | ServiceError(component: string, message: string, cause: Option<Error>)
    | ValidationError(field: string, message: string, cause: Option<Error>)
      /** `context.Canceled`, what `ctx.Err()` returns once the context is done. */
    | Canceled
      /** `errors.New(text)` or `fmt.Errorf` without `%w`. */
    | Plain(text: string)
      /** `fmt.Errorf(prefix + ": %w", inner)`. */
    | Wrapped(prefix: string, inner: Error)

  /** `Error()` of each error type. Only a plain error can have an empty text,
      and a `%w` wrap starts with its own prefix. */
  function Message(e: Error): (text: string)
    ensures !e.Plain? ==> text != []
    ensures e.Wrapped? ==> HasPrefix(text, e.prefix + ": ")
  {
    match e
    case ConfigurationError(field, message, _) =>
      if field != "" then "configuration error in field '" + field + "': " + message
      else "configuration error: " + message
    case GitHubAPIError(endpoint, code, message, _) =>
      if code > 0 then "github api error [" + IntToString(code) + "] on " + endpoint + ": " + message
      else "github api error on " + endpoint + ": " + message
    case StorageError(operation, path, message, _) =>
      if path != "" then "storage error during " + operation + " on " + path + ": " + message
      else "storage error during " + operation + ": " + message
    case NotificationError(provider, message, _) =>
      "notification error (" + provider + "): " + message
    case ServiceError(component, message, _) =>
      if component != "" then "service error in " + component + ": " + message
      else "service error: " + message
    case ValidationError(field, message, _) =>
      if field != "" then "validation error for field '" + field + "': " + message
      else "validation error: " + message
    case Canceled => "context canceled"
    case Plain(text) => text
    case Wrapped(prefix, inner) => prefix + ": " + Message(inner)
  }

  /** `Unwrap()`: the wrapped cause, which is always a smaller error, so every
      unwrap chain is finite. */
  function Unwrap(e: Error): (r: Option<Error>)
    ensures r.Some? ==> r.value < e
  {
    match e
    case ConfigurationError(_, _, cause) => cause
    case GitHubAPIError(_, _, _, cause) => cause
    case StorageError(_, _, _, cause) => cause
    case NotificationError(_, _, cause) => cause
    case ServiceError(_, _, cause) => cause
    case ValidationError(_, _, cause) => cause
    case Canceled => None
    case Plain(_) => None
    case Wrapped(_, inner) => Some(inner)
  }

  /** The `Is(target)` method of each error type: it matches its own sentinel
      only; the other errors have no such method. */
  predicate Is(e: Error, target: Sentinel): (r: bool)
    ensures r ==> !(e.Canceled? || e.Plain? || e.Wrapped?)
  {
    match e
    case ConfigurationError(_, _, _) => target == ErrConfiguration
    case GitHubAPIError(_, _, _, _) => target == ErrGitHubAPI
    case StorageError(_, _, _, _) => target == ErrStorage
    case NotificationError(_, _, _) => target == ErrNotification
    case ServiceError(_, _, _) => target == ErrService
    case ValidationError(_, _, _) => target == ErrValidation
    case _ => false
  }

  /** `errors.Is(e, target)` for a sentinel target: `Is` on `e` and on every
      error down its unwrap chain. */
  predicate MatchesSentinel(e: Error, target: Sentinel)
    decreases e
  {
    Is(e, target) || (Unwrap(e).Some? && MatchesSentinel(Unwrap(e).value, target))
  }

  /** `IsRateLimited` behind the type assertion `err.(*errors.GitHubAPIError)`:
      only a GitHub API error itself (not one wrapped inside another error)
      with status 403 or 429. */
  predicate IsRateLimited(e: Error): (r: bool)
    ensures r ==> Is(e, ErrGitHubAPI)
  {
    e.GitHubAPIError? && (e.statusCode == 403 || e.statusCode == 429)
  }

  /** The rate-limit test sees a 403 or 429 API error only unwrapped: once
      wrapped by `fmt.Errorf("...: %w", ...)` it is no longer rate-limited,
      although `errors.Is` still finds the API sentinel through the wrap. */
  lemma RateLimitSeenOnlyUnwrapped(prefix: string, e: Error)
    requires IsRateLimited(e)
    ensures e.statusCode == 403 || e.statusCode == 429
    ensures !IsRateLimited(Wrapped(prefix, e))
    ensures MatchesSentinel(Wrapped(prefix, e), ErrGitHubAPI)
  {
  }

  /** The six typed errors match exactly one sentinel each; the others match none. */
  lemma IsMatchesExactlyOwnSentinel(e: Error, t1: Sentinel, t2: Sentinel)
    ensures Is(e, t1) && Is(e, t2) ==> t1 == t2
    ensures (e.Canceled? || e.Plain? || e.Wrapped?) ==> !Is(e, t1)
    ensures e.ServiceError? ==> (Is(e, t1) <==> t1 == ErrService)
    ensures e.GitHubAPIError? ==> (Is(e, t1) <==> t1 == ErrGitHubAPI)
    ensures e.ConfigurationError? ==> (Is(e, t1) <==> t1 == ErrConfiguration)
    ensures e.StorageError? ==> (Is(e, t1) <==> t1 == ErrStorage)
    ensures e.NotificationError? ==> (Is(e, t1) <==> t1 == ErrNotification)
    ensures e.ValidationError? ==> (Is(e, t1) <==> t1 == ErrValidation)
  {
  }

  /** Wrapping keeps every sentinel the wrapped error matched, and a typed
      error matches both its own sentinel and its cause's. */
  lemma {:induction false} WrappingPreservesMatch(e: Error, outer: Error, target: Sentinel)
    requires Unwrap(outer) == Some(e)
    requires MatchesSentinel(e, target)
    ensures MatchesSentinel(outer, target)
  {
  }

  /** A letter of the bracketed form "[<code>]" appears at position 17 of a
      GitHub API error's text exactly when its status code is positive. */
  lemma GitHubMessageShowsCodeIffPositive(e: Error)
    requires e.GitHubAPIError?
    ensures var m := Message(e); |m| > 17 && (m[17] == '[' <==> e.statusCode > 0)
  {
  }

  /** The field clause appears in configuration and validation errors exactly
      when the field is non-empty. */
  lemma FieldClauseIffField(e: Error)
    requires e.ConfigurationError? || e.ValidationError?
    ensures e.ConfigurationError? ==>
      (HasPrefix(Message(e), "configuration error in field '") <==> e.field != "")
    ensures e.ValidationError? ==>
      (HasPrefix(Message(e), "validation error for field '") <==> e.field != "")
  {
    var m := Message(e);
    if e.ConfigurationError? && e.field == "" {
      assert m[19] == ':';
    }
    if e.ValidationError? && e.field == "" {
      assert m[16] == ':';
    }
  }

  /** Storage errors name the path ("on <path>") exactly when it is non-empty,
      service errors the component ("in <component>") exactly when it is non-empty. */
  lemma LocationClauseIffPresent(e: Error)
    requires e.StorageError? || e.ServiceError?
    ensures e.StorageError? ==>
      (HasPrefix(Message(e), "storage error during " + e.operation + " on ") <==> e.path != "")
    ensures e.ServiceError? ==>
      (HasPrefix(Message(e), "service error in ") <==> e.component != "")
  {
    var m := Message(e);
    if e.StorageError? && e.path == "" {
      assert m[21 + |e.operation|] == ':';
    }
    if e.ServiceError? && e.component == "" {
      assert m[13] == ':';
    }
  }

  /** `Unwrap` returns the cause the error was made with (`Err`, nil being
      none) and the inner error of a `%w` wrap; the other errors have none. */
  lemma UnwrapReturnsCause(e: Error)
    ensures (e.ConfigurationError? || e.GitHubAPIError? || e.StorageError? || e.NotificationError?
             || e.ServiceError? || e.ValidationError?) ==> Unwrap(e) == e.cause
    ensures e.Wrapped? ==> Unwrap(e) == Some(e.inner)
    ensures (e.Canceled? || e.Plain?) ==> Unwrap(e).None?
  {
  }
}
