/** The wrappers of utils/decorators.py, with logging and timing removed:
    what each does with the wrapped call's return value or exception.

    The wrapped call is an oracle. `log_function_call`, `log_api_call`
    and `handle_errors` see one call's outcome; `retry_on_failure` calls
    repeatedly, and `call(k)` is the outcome of its `k`-th call (counting
    from 0), since the wrapped function may behave differently each
    time. */
module Decorators {
  import opened Wrappers
  import opened ErrorHandler

  /** What one call of a Python function does: return a value or raise. */
  datatype CallOutcome<+T> = Returned(value: T) | Raised(exc: Exc)

  /** `exceptions_to_catch` / `exceptions_to_retry` left at their default
      `(Exception,)`: every modelled exception matches. */
  predicate AnyException(e: Exc)
  {
    true
  }

  /** `log_function_call`: the result is returned and the exception is
      re-raised, both unchanged. */
  function LogFunctionCall<T>(o: CallOutcome<T>): (r: CallOutcome<T>)
    ensures r.Returned? <==> o.Returned?
    ensures o.Returned? ==> r.value == o.value
    ensures o.Raised? ==> r.exc == o.exc
  {
    o
  }

  /** The `APIError` that `log_api_call` raises in place of any other
      exception: no status code and no details. */
  function UnexpectedApiError(service: string, e: Exc): (r: Exc)
    ensures IsAPIError(r) && r.err.kind.service == service && r.err.kind.statusCode == None
    ensures r.err.details == map[]
    ensures r.err.message == "Unexpected error: " + Str(e)
  {
    AppErr(NewAPIError(service, "Unexpected error: " + Str(e), None, None))
  }

  /** `log_api_call(service)`: a result passes through, an `APIError`
      (of any subclass) is re-raised as it is, and every other exception
      is translated. */
  function LogApiCall<T>(service: string, o: CallOutcome<T>): (r: CallOutcome<T>)
    ensures r.Returned? <==> o.Returned?
    ensures o.Returned? ==> r == o
    ensures r.Raised? ==> IsAPIError(r.exc)
    ensures o.Raised? && IsAPIError(o.exc) ==> r == o
    ensures o.Raised? && !IsAPIError(o.exc) ==> r == Raised(UnexpectedApiError(service, o.exc))
  {
    match o
    case Returned(_) => o
    case Raised(e) => if IsAPIError(e) then o else Raised(UnexpectedApiError(service, e))
  }

  /** Wrapping twice in `log_api_call` for the same service is the same
      as wrapping once: the outer wrapper only ever sees API errors. */
  lemma LogApiCallIdempotent<T>(service: string, o: CallOutcome<T>)
    ensures LogApiCall(service, LogApiCall(service, o)) == LogApiCall(service, o)
  {
  }

  /** `handle_errors(default_return, exceptions_to_catch)`: a caught
      exception becomes `default_return`; one outside `catches` escapes. */
  function HandleErrors<T>(defaultReturn: T, catches: Exc -> bool, o: CallOutcome<T>): (r: CallOutcome<T>)
    ensures r.Raised? <==> o.Raised? && !catches(o.exc)
    ensures r.Raised? ==> r == o
    ensures o.Returned? ==> r == o
    ensures o.Raised? && catches(o.exc) ==> r == Returned(defaultReturn)
  {
    match o
    case Returned(_) => o
    case Raised(e) => if catches(e) then Returned(defaultReturn) else o
  }

  /** With the default `(Exception,)` nothing escapes `handle_errors`. */
  lemma HandleErrorsDefaultNeverRaises<T>(defaultReturn: T, o: CallOutcome<T>)
    ensures HandleErrors(defaultReturn, AnyException, o).Returned?
  {
  }

  /** `retry_on_failure(max_retries, delay, backoff_factor,
      exceptions_to_retry)` applied to a function and called once.

      `r` is what the wrapper returns or raises; a returned `None`
      stands for the `None` the wrapper falls off with when its loop
      never runs. `calls` counts the calls of the wrapped function and
      `sleeps` lists, for every `time.sleep`, the exponent `attempt` of
      its `delay * backoff_factor ** attempt`. */
  method RetryOnFailure<T>(maxRetries: int, retryable: Exc -> bool, call: nat -> CallOutcome<T>)
    returns (r: CallOutcome<Option<T>>, calls: nat, sleeps: seq<nat>)
    // A negative max_retries: the function is never called.
    ensures maxRetries < 0 ==> calls == 0 && r == Returned(None)
    // Otherwise it is called at least once and at most max_retries + 1 times.
    ensures maxRetries >= 0 ==> 1 <= calls <= maxRetries + 1
    // Every call but the last failed with a retryable exception.
    ensures forall k :: 0 <= k < calls - 1 ==> call(k).Raised? && retryable(call(k).exc)
    // The first success is returned.
    ensures calls > 0 && call(calls - 1).Returned? ==> r == Returned(Some(call(calls - 1).value))
    // The last failure is re-raised unchanged ...
    ensures calls > 0 && call(calls - 1).Raised? ==> r == Raised(call(calls - 1).exc)
    // ... and a retryable one only once every attempt is spent.
    ensures calls > 0 && call(calls - 1).Raised? && retryable(call(calls - 1).exc) ==> calls == maxRetries + 1
    // One sleep after every failed call except the last, growing exponent.
    ensures |sleeps| == (if calls == 0 then 0 else calls - 1)
    ensures forall i :: 0 <= i < |sleeps| ==> sleeps[i] == i
  {
    r, calls, sleeps := Returned(None), 0, [];
    var attempt := 0;
    while attempt < maxRetries + 1
      invariant 0 <= attempt && (maxRetries >= 0 ==> attempt <= maxRetries)
      invariant calls == attempt && |sleeps| == attempt
      invariant forall i :: 0 <= i < |sleeps| ==> sleeps[i] == i
      invariant forall k :: 0 <= k < attempt ==> call(k).Raised? && retryable(call(k).exc)
      invariant maxRetries >= 0 || attempt == 0
    {
      var o := call(attempt);
      calls := calls + 1;
      match o {
        case Returned(v) =>
          return Returned(Some(v)), calls, sleeps;
        case Raised(e) =>
          if !retryable(e) || attempt == maxRetries {
            return Raised(e), calls, sleeps;
          }
      }
      sleeps := sleeps + [attempt];
      attempt := attempt + 1;
    }
  }
}
