/**
 * The HTTP client's error handling (src/api/apiClient.ts): the classification
 * of a transport failure into one of seven codes, and `withRetry`, the counted
 * retry loop with exponential backoff.
 *
 * The request itself is not modelled: a call to `apiCall` is an oracle
 * `call: nat -> Attempt<T>` giving the outcome of the k-th invocation, and the
 * sleep between attempts is recorded as the list of computed wait times.
 */
module ApiClient {
  import opened Wrappers
  import opened Text

  const API_BASE_URL: string := "https://pokeapi.co/api/v2"

  /** What axios reports about a failed request: its `code` and, when the server answered, the status. */
  datatype TransportError = TransportError(code: Option<string>, status: Option<int>)

  /** The closed set of error codes. */
  datatype ErrorCode =
    | TimeoutError | NetworkError | NotFound | RateLimit | ServerError | HttpError | UnknownError

  /** The domain error every failed request is turned into (`originalError` is not modelled). */
  datatype ApiError = ApiError(message: string, code: ErrorCode, retryable: bool)

  /** The codes that are worth another attempt: everything but a missing resource and a generic HTTP error. */
  predicate IsRetryableCode(c: ErrorCode) {
    !(c == NotFound || c == HttpError)
  }

  const TIMEOUT_MESSAGE: string := "La solicitud tardó demasiado tiempo. Verifica tu conexión a internet."
  const NETWORK_MESSAGE: string := "Error de conexión. Verifica tu conexión a internet."
  const NOT_FOUND_MESSAGE: string := "El recurso solicitado no fue encontrado."
  const RATE_LIMIT_MESSAGE: string := "Demasiadas solicitudes. Intenta de nuevo en unos momentos."
  const SERVER_MESSAGE: string := "Error del servidor. Intenta de nuevo más tarde."
  const UNKNOWN_MESSAGE: string := "Error inesperado. Intenta de nuevo."

  function HttpErrorMessage(status: int): string {
    "Error del servidor (" + IntToString(status) + "). Intenta de nuevo."
  }

  predicate IsServerStatus(status: int) {
    status == 500 || status == 502 || status == 503 || status == 504
  }

  /**
   * `transformError`. The checks run in a fixed order: the timeout code, then
   * the network code, then the response status, and only when there is no
   * response at all the error is unknown.
   */
  function TransformError(e: TransportError): (r: ApiError)
    ensures r.retryable == IsRetryableCode(r.code)
    ensures r.code == TimeoutError <==> e.code == Some("ECONNABORTED")
    ensures r.code == NetworkError <==> e.code == Some("ERR_NETWORK")
    ensures r.code == NotFound
            <==> e.code != Some("ECONNABORTED") && e.code != Some("ERR_NETWORK") && e.status == Some(404)
    ensures r.code == RateLimit
            <==> e.code != Some("ECONNABORTED") && e.code != Some("ERR_NETWORK") && e.status == Some(429)
    ensures r.code == ServerError
            <==> e.code != Some("ECONNABORTED") && e.code != Some("ERR_NETWORK")
                 && e.status.Some? && IsServerStatus(e.status.value)
    ensures r.code == UnknownError
            <==> e.code != Some("ECONNABORTED") && e.code != Some("ERR_NETWORK") && e.status.None?
    ensures r.code == HttpError ==> e.status.Some? && Contains(r.message, IntToString(e.status.value))
  {
    if e.code == Some("ECONNABORTED") then
      ApiError(TIMEOUT_MESSAGE, TimeoutError, true)
    else if e.code == Some("ERR_NETWORK") then
      ApiError(NETWORK_MESSAGE, NetworkError, true)
    else if e.status.Some? then
      var status := e.status.value;
      if status == 404 then ApiError(NOT_FOUND_MESSAGE, NotFound, false)
      else if status == 429 then ApiError(RATE_LIMIT_MESSAGE, RateLimit, true)
      else if IsServerStatus(status) then ApiError(SERVER_MESSAGE, ServerError, true)
      else
        var m := HttpErrorMessage(status);
        HttpErrorMessageContainsStatus(status);
        ApiError(m, HttpError, false)
    else
      ApiError(UNKNOWN_MESSAGE, UnknownError, true)
  }

  lemma HttpErrorMessageContainsStatus(status: int)
    ensures Contains(HttpErrorMessage(status), IntToString(status))
  {
    var prefix := "Error del servidor (";
    var m := HttpErrorMessage(status);
    assert OccursAt(m, IntToString(status), |prefix|) by {
      assert m[|prefix|..|prefix| + |IntToString(status)|] == IntToString(status);
    }
    ContainsIff(m, IntToString(status));
  }

  /** Each code comes with one fixed message, except the generic HTTP error which names the status. */
  lemma {:induction false} MessageDeterminedByCode(e1: TransportError, e2: TransportError)
    requires TransformError(e1).code == TransformError(e2).code
    requires TransformError(e1).code == HttpError ==> e1.status == e2.status
    ensures TransformError(e1) == TransformError(e2)
  {}

  /* ---------------------------------------------------------- withRetry */

  function Pow2(k: nat): (r: nat)
    ensures r >= 1
  {
    if k == 0 then 1 else 2 * Pow2(k - 1)
  }

  /** The outcome of one invocation of `apiCall`. */
  datatype Attempt<T> = Success(value: T) | Failure(error: ApiError)

  /**
   * How `withRetry` ends: the value it returns, or what it throws. It throws
   * `undefined` (here `None`) when `maxRetries` lets no attempt run.
   */
  datatype RetryResult<T> = Returned(value: T) | Threw(error: Option<ApiError>)

  /** A run of `withRetry`: how it ended, how many times `apiCall` ran, and the waits in between. */
  datatype RetryRun<T> = RetryRun(result: RetryResult<T>, calls: nat, waits: seq<int>)

  /** The wait after failed attempt `attempt` (counted from 1): `delay * 2^(attempt - 1)`. */
  function BackoffDelay(delay: int, attempt: nat): int
    requires attempt >= 1
  {
    delay * Pow2(attempt - 1)
  }

  /** What `withRetry` does from attempt number `attempt` on. */
  function RetryFrom<T>(call: nat -> Attempt<T>, maxRetries: int, delay: int, attempt: nat): RetryRun<T>
    requires attempt >= 1
    decreases if attempt <= maxRetries then maxRetries - attempt else 0
  {
    if attempt > maxRetries then RetryRun(Threw(None), 0, [])
    else match call(attempt)
      case Success(v) => RetryRun(Returned(v), 1, [])
      case Failure(e) =>
        if !e.retryable || attempt == maxRetries then RetryRun(Threw(Some(e)), 1, [])
        else
          var rest := RetryFrom(call, maxRetries, delay, attempt + 1);
          RetryRun(rest.result, rest.calls + 1, [BackoffDelay(delay, attempt)] + rest.waits)
  }

  /** The specification of `withRetry(apiCall, maxRetries, delay)`. */
  function RetrySpec<T>(call: nat -> Attempt<T>, maxRetries: int, delay: int): RetryRun<T> {
    RetryFrom(call, maxRetries, delay, 1)
  }

  /** A run of the remaining attempts, preceded by `calls` attempts that waited `waits`. */
  function After<T>(calls: nat, waits: seq<int>, rest: RetryRun<T>): RetryRun<T> {
    RetryRun(rest.result, calls + rest.calls, waits + rest.waits)
  }

  /** `withRetry`, with its early returns and throws. */
  method WithRetry<T>(call: nat -> Attempt<T>, maxRetries: int, delay: int)
    returns (result: RetryResult<T>, calls: nat, waits: seq<int>)
    ensures RetryRun(result, calls, waits) == RetrySpec(call, maxRetries, delay)
  {
    var lastError: Option<ApiError> := None;
    calls, waits := 0, [];
    var attempt := 1;
    while attempt <= maxRetries
      invariant 1 <= attempt && calls == attempt - 1
      invariant lastError.None? || attempt <= maxRetries
      invariant After(calls, waits, RetryFrom(call, maxRetries, delay, attempt))
                == RetrySpec(call, maxRetries, delay)
      decreases maxRetries - attempt
    {
      var outcome := call(attempt);
      calls := calls + 1;
      match outcome {
        case Success(v) =>
          result := Returned(v);
          return;
        case Failure(e) =>
          lastError := Some(e);
          if !e.retryable {
            result := Threw(lastError);
            return;
          }
          if attempt == maxRetries {
            result := Threw(lastError);
            return;
          }
          var waitTime := BackoffDelay(delay, attempt);
          waits := waits + [waitTime];
      }
      RetryStep(call, maxRetries, delay, attempt, calls - 1, waits[..|waits| - 1]);
      assert waits == waits[..|waits| - 1] + [BackoffDelay(delay, attempt)];
      attempt := attempt + 1;
    }
    result := Threw(lastError);
  }

  /** A retryable failure before the last attempt: one more call and one more wait, then the rest. */
  lemma RetryStep<T>(call: nat -> Attempt<T>, maxRetries: int, delay: int, attempt: nat, calls: nat, waits: seq<int>)
    requires 1 <= attempt < maxRetries
    requires call(attempt).Failure? && call(attempt).error.retryable
    ensures After(calls + 1, waits + [BackoffDelay(delay, attempt)], RetryFrom(call, maxRetries, delay, attempt + 1))
            == After(calls, waits, RetryFrom(call, maxRetries, delay, attempt))
  {
    var rest := RetryFrom(call, maxRetries, delay, attempt + 1);
    assert waits + [BackoffDelay(delay, attempt)] + rest.waits == waits + ([BackoffDelay(delay, attempt)] + rest.waits);
  }

  /* ------------------------------------------------- what a run promises */

  /** `apiCall` runs at most `maxRetries` times, and not at all when `maxRetries < 1`. */
  lemma {:induction false} RetryCallsBound<T>(call: nat -> Attempt<T>, maxRetries: int, delay: int, attempt: nat)
    requires 1 <= attempt
    ensures attempt <= maxRetries ==> 1 <= RetryFrom(call, maxRetries, delay, attempt).calls <= maxRetries - attempt + 1
    ensures attempt > maxRetries ==> RetryFrom(call, maxRetries, delay, attempt) == RetryRun(Threw(None), 0, [])
    decreases if attempt <= maxRetries then maxRetries - attempt else 0
  {
    if attempt <= maxRetries && call(attempt).Failure? && call(attempt).error.retryable && attempt < maxRetries {
      RetryCallsBound(call, maxRetries, delay, attempt + 1);
    }
  }

  /**
   * The run stops at the first success, or at the first error that is not
   * retryable, or at attempt `maxRetries`: every attempt before the last one
   * failed with a retryable error, and the last one's outcome is what the run
   * returns or throws.
   */
  lemma {:induction false} RetryStopsAtFirstDecisiveAttempt<T>(
    call: nat -> Attempt<T>, maxRetries: int, delay: int, attempt: nat)
    requires 1 <= attempt <= maxRetries
    ensures var run := RetryFrom(call, maxRetries, delay, attempt);
      var last := attempt + run.calls - 1;
      && attempt <= last <= maxRetries
      && (forall k :: attempt <= k < last ==> call(k).Failure? && call(k).error.retryable)
      && (run.result.Returned? <==> call(last).Success?)
      && (run.result.Returned? ==> run.result.value == call(last).value)
      && (run.result.Threw? ==> run.result.error == Some(call(last).error))
      && (run.result.Threw? && last < maxRetries ==> !call(last).error.retryable)
    decreases maxRetries - attempt
  {
    if call(attempt).Failure? && call(attempt).error.retryable && attempt < maxRetries {
      RetryStopsAtFirstDecisiveAttempt(call, maxRetries, delay, attempt + 1);
    }
  }

  /** The wait after failed attempt k is `delay * 2^(k-1)`: the waits double, one fewer than the calls. */
  lemma {:induction false} RetryWaitsDouble<T>(call: nat -> Attempt<T>, maxRetries: int, delay: int, attempt: nat)
    requires 1 <= attempt <= maxRetries
    ensures var run := RetryFrom(call, maxRetries, delay, attempt);
      && |run.waits| == run.calls - 1
      && (forall k :: 0 <= k < |run.waits| ==> run.waits[k] == delay * Pow2(attempt - 1 + k))
      && (forall k :: 0 <= k < |run.waits| - 1 ==> run.waits[k + 1] == 2 * run.waits[k])
    decreases maxRetries - attempt
  {
    var run := RetryFrom(call, maxRetries, delay, attempt);
    if call(attempt).Failure? && call(attempt).error.retryable && attempt < maxRetries {
      RetryWaitsDouble(call, maxRetries, delay, attempt + 1);
      var rest := RetryFrom(call, maxRetries, delay, attempt + 1);
      RetryCallsBound(call, maxRetries, delay, attempt + 1);
      assert run.waits == [delay * Pow2(attempt - 1)] + rest.waits;
      forall k | 0 <= k < |run.waits| - 1 ensures run.waits[k + 1] == 2 * run.waits[k] {
        assert run.waits[k] == delay * Pow2(attempt - 1 + k);
        assert run.waits[k + 1] == delay * Pow2(attempt + k);
      }
    }
  }

  /** A non-retryable error (a missing resource, say) surfaces after exactly one attempt. */
  lemma NonRetryableSurfacesAtOnce<T>(call: nat -> Attempt<T>, maxRetries: int, delay: int)
    requires maxRetries >= 1 && call(1).Failure? && !call(1).error.retryable
    ensures RetrySpec(call, maxRetries, delay) == RetryRun(Threw(Some(call(1).error)), 1, [])
  {}

  /** An error that stays retryable (a timeout, say) is tried exactly `maxRetries` times before it surfaces. */
  lemma {:induction false} RetryableExhaustsAttempts<T>(
    call: nat -> Attempt<T>, maxRetries: int, delay: int, attempt: nat)
    requires 1 <= attempt <= maxRetries
    requires forall k :: 1 <= k <= maxRetries ==> call(k).Failure? && call(k).error.retryable
    ensures RetryFrom(call, maxRetries, delay, attempt).calls == maxRetries - attempt + 1
    ensures RetryFrom(call, maxRetries, delay, attempt).result == Threw(Some(call(maxRetries).error))
    decreases maxRetries - attempt
  {
    if attempt < maxRetries {
      RetryableExhaustsAttempts(call, maxRetries, delay, attempt + 1);
    }
  }

  /* ------------------------------------------------------------ defaults */

  /** `withRetry`'s default `maxRetries`, which every request of the API layer relies on. */
  const DEFAULT_MAX_RETRIES: int := 3

  /** `withRetry`'s default `delay` in milliseconds. */
  const DEFAULT_DELAY: int := 1000

  /**
   * With the default arguments, an error that stays retryable is tried three
   * times and surfaces as the third attempt's error, after waits of 1000 and
   * 2000 milliseconds.
   */
  lemma DefaultRetryableRun<T>(call: nat -> Attempt<T>)
    requires forall k :: 1 <= k <= DEFAULT_MAX_RETRIES ==> call(k).Failure? && call(k).error.retryable
    ensures RetrySpec(call, DEFAULT_MAX_RETRIES, DEFAULT_DELAY)
            == RetryRun(Threw(Some(call(DEFAULT_MAX_RETRIES).error)), 3, [1000, 2000])
  {
    var run := RetrySpec(call, DEFAULT_MAX_RETRIES, DEFAULT_DELAY);
    RetryableExhaustsAttempts(call, DEFAULT_MAX_RETRIES, DEFAULT_DELAY, 1);
    RetryWaitsDouble(call, DEFAULT_MAX_RETRIES, DEFAULT_DELAY, 1);
    assert |run.waits| == 2;
    assert run.waits[0] == DEFAULT_DELAY * Pow2(0);
    assert run.waits[1] == DEFAULT_DELAY * Pow2(1);
  }

  /** With the default arguments, a success on any attempt is returned after at most three calls. */
  lemma DefaultRetryCallsAtMostThree<T>(call: nat -> Attempt<T>)
    ensures 1 <= RetrySpec(call, DEFAULT_MAX_RETRIES, DEFAULT_DELAY).calls <= 3
  {
    RetryCallsBound(call, DEFAULT_MAX_RETRIES, DEFAULT_DELAY, 1);
  }
}
