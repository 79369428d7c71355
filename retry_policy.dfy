/**
 * BackoffExponentialRetryPolicy and the `while (policy.shouldRetry())` loop
 * that every remote call of the connector is wrapped in.
 *
 * A remote call is not executed: it is an oracle (`Remote`) that lists the
 * exceptions the service throws on successive attempts and the value it
 * finally returns. Sleeping is recorded, not performed: the policy keeps a
 * ghost log of every delay it asked Thread.sleep for.
 */
module RetryPolicy {
  import opened Wrappers
  import opened Documents

  const REQUEST_RATE_TOO_LARGE := 429
  const DEFAULT_RETRY_IN_SECONDS := 3
  const RETRY_ADDITIVE_MULTIPLIER := 500

  /** The scripted behaviour of one remote call: throw `faults` in order, then return `value`. */
  datatype Remote<T> = Remote(faults: seq<Error>, value: T)

  /** CheckIfRetryNeeded looks through one IllegalStateException to its cause (None: a null cause). */
  function Unwrapped(e: Error): Option<Error>
  {
    if e.IllegalState? then e.cause else Some(e)
  }

  /** The server's retry-after hint when the (unwrapped) error is a 429 DocumentClientException. */
  function ThrottleHint(e: Error): (hint: Option<nat>)
    ensures e.DocumentClientError? ==> (hint.Some? <==> e.statusCode == REQUEST_RATE_TOO_LARGE)
    ensures hint.Some? ==> Unwrapped(e).Some? && Unwrapped(e).value.DocumentClientError? && hint.value == Unwrapped(e).value.retryAfterMs
    ensures e.IllegalState? && e.cause.Some? && e.cause.value.DocumentClientError? ==>
              (hint.Some? <==> e.cause.value.statusCode == REQUEST_RATE_TOO_LARGE)
    ensures e.IllegalState? && (e.cause.None? || e.cause.value.IllegalState?) ==> hint.None?
    ensures !e.DocumentClientError? && !e.IllegalState? ==> hint.None?
  {
    match Unwrapped(e)
    case Some(DocumentClientError(status, after)) =>
      if status == REQUEST_RATE_TOO_LARGE then Some(after) else None
    case _ => None
  }

  predicate IsRetriable(e: Error) {
    ThrottleHint(e).Some?
  }

  /**
   * The delay after a throttled attempt: the server hint plus 500 ms per
   * earlier retry, replaced by three seconds when that sum is zero.
   */
  function DelayFor(attempt: nat, hint: nat): (d: nat)
    ensures d > 0
    ensures d >= hint + attempt * 500
    ensures hint + attempt * 500 > 0 ==> d == hint + attempt * 500
    ensures hint + attempt * 500 == 0 ==> d == 3000
  {
    var computed := hint + attempt * 500;
    if computed == 0 then DEFAULT_RETRY_IN_SECONDS * 1000 else computed
  }

  class BackoffExponentialRetryPolicy {
    var currentAttemptCount: nat
    var retryAfterInMilliseconds: nat
    /** Every duration passed to Thread.sleep, oldest first. */
    ghost var sleeps: seq<nat>

    constructor()
      ensures currentAttemptCount == 0 && retryAfterInMilliseconds == 0 && sleeps == []
    {
      currentAttemptCount := 0;
      retryAfterInMilliseconds := 0;
      sleeps := [];
    }

    method GetCurrentAttempt() returns (n: nat)
      ensures n == currentAttemptCount
    {
      n := currentAttemptCount;
    }

    /** The policy never gives up on its own. */
    method ShouldRetry() returns (again: bool)
      ensures again
    {
      again := true;
    }

    /**
     * errorOccured: a retriable error counts one more attempt and sleeps for
     * the new delay; any other error is rethrown wrapped in an
     * IllegalStateException, after resetting the delay, without sleeping.
     */
    method ErrorOccured(e: Error) returns (r: Outcome<Error>)
      modifies this
      ensures r == if IsRetriable(e) then Pass else Fail(IllegalState(Some(e)))
      ensures IsRetriable(e) ==>
        && currentAttemptCount == old(currentAttemptCount) + 1
        && retryAfterInMilliseconds == DelayFor(old(currentAttemptCount), ThrottleHint(e).value)
        && sleeps == old(sleeps) + [retryAfterInMilliseconds]
      ensures !IsRetriable(e) ==>
        currentAttemptCount == old(currentAttemptCount) && retryAfterInMilliseconds == 0 && sleeps == old(sleeps)
    {
      var retriable := IsExceptionRetriable(e);
      if !retriable {
        return Fail(IllegalState(Some(e)));
      }
      WaitUntilNextTry();
      r := Pass;
    }

    method WaitUntilNextTry()
      modifies this`sleeps
      ensures sleeps == old(sleeps) + [retryAfterInMilliseconds]
    {
      sleeps := sleeps + [retryAfterInMilliseconds];
    }

    method IsExceptionRetriable(e: Error) returns (retriable: bool)
      modifies this`currentAttemptCount, this`retryAfterInMilliseconds
      ensures retriable == IsRetriable(e)
      ensures currentAttemptCount == old(currentAttemptCount) + (if retriable then 1 else 0)
      ensures retryAfterInMilliseconds ==
        if retriable then DelayFor(old(currentAttemptCount), ThrottleHint(e).value) else 0
    {
      retryAfterInMilliseconds := 0;
      retriable := CheckIfRetryNeeded(e);
      if retriable {
        currentAttemptCount := currentAttemptCount + 1;
      }
    }

    method CheckIfRetryNeeded(e: Error) returns (retriable: bool)
      modifies this`retryAfterInMilliseconds
      ensures retriable == IsRetriable(e)
      ensures retryAfterInMilliseconds ==
        if retriable then DelayFor(currentAttemptCount, ThrottleHint(e).value) else 0
    {
      retryAfterInMilliseconds := 0;
      var exception := e;
      if exception.IllegalState? {
        match exception.cause
        case None => return false;
        case Some(c) => exception := c;
      }
      if exception.DocumentClientError? && exception.statusCode == REQUEST_RATE_TOO_LARGE {
        retryAfterInMilliseconds := exception.retryAfterMs + currentAttemptCount * 500;
        if retryAfterInMilliseconds == 0 {
          retryAfterInMilliseconds := DEFAULT_RETRY_IN_SECONDS * 1000;
        }
        return true;
      }
      return false;
    }
  }

  /**
   * What a retry loop does with a run of faults: the delays it sleeps and the
   * exception that finally escapes, if any. `catchAll` is false for
   * createDocument, whose loop catches DocumentClientException only and lets
   * every other exception through untouched; the other call sites catch
   * every Exception.
   */
  datatype Retried = Retried(delays: seq<nat>, escaped: Option<Error>)

  function Caught(e: Error, catchAll: bool): bool {
    catchAll || e.DocumentClientError?
  }

  function RetryFaults(faults: seq<Error>, attempt: nat, catchAll: bool): (r: Retried)
    decreases |faults|
  {
    if |faults| == 0 then Retried([], None)
    else
      var e := faults[0];
      if !Caught(e, catchAll) then Retried([], Some(e))
      else if !IsRetriable(e) then Retried([], Some(IllegalState(Some(e))))
      else
        var rest := RetryFaults(faults[1..], attempt + 1, catchAll);
        Retried([DelayFor(attempt, ThrottleHint(e).value)] + rest.delays, rest.escaped)
  }

  /** The outcome of a whole retried call. */
  function RetryResult<T>(call: Remote<T>, catchAll: bool): Result<T, Error> {
    match RetryFaults(call.faults, 0, catchAll).escaped
    case None => Ok(call.value)
    case Some(e) => Err(e)
  }

  /** The first fault decides: it escapes, or it is slept on and the rest are retried. */
  lemma RetryFaultsHead(faults: seq<Error>, attempt: nat, catchAll: bool)
    requires |faults| > 0
    ensures var e := faults[0];
            var r := RetryFaults(faults, attempt, catchAll);
            && (!Caught(e, catchAll) ==> r == Retried([], Some(e)))
            && (Caught(e, catchAll) && !IsRetriable(e) ==> r == Retried([], Some(IllegalState(Some(e)))))
            && (Caught(e, catchAll) && IsRetriable(e) ==>
                  var rest := RetryFaults(faults[1..], attempt + 1, catchAll);
                  r == Retried([DelayFor(attempt, ThrottleHint(e).value)] + rest.delays, rest.escaped))
  {
  }

  /**
   * The state of a retry loop that has slept `sleeps` and is about to make
   * attempt `i`: the delays still to come and the exception that will
   * escape are those of the remaining faults.
   */
  ghost predicate RetryInvariant(faults: seq<Error>, catchAll: bool, i: nat, sleeps: seq<nat>) {
    && i <= |faults|
    && RetryFaults(faults, 0, catchAll).delays == sleeps + RetryFaults(faults[i..], i, catchAll).delays
    && RetryFaults(faults, 0, catchAll).escaped == RetryFaults(faults[i..], i, catchAll).escaped
  }

  lemma RetryStep(faults: seq<Error>, catchAll: bool, i: nat, sleeps: seq<nat>)
    requires RetryInvariant(faults, catchAll, i, sleeps) && i < |faults|
    requires Caught(faults[i], catchAll) && IsRetriable(faults[i])
    ensures RetryInvariant(faults, catchAll, i + 1, sleeps + [DelayFor(i, ThrottleHint(faults[i]).value)])
  {
    RetryFaultsHead(faults[i..], i, catchAll);
    assert faults[i..][0] == faults[i];
    assert faults[i..][1..] == faults[i + 1..];
    var rest := RetryFaults(faults[i + 1..], i + 1, catchAll);
    assert sleeps + ([DelayFor(i, ThrottleHint(faults[i]).value)] + rest.delays)
        == (sleeps + [DelayFor(i, ThrottleHint(faults[i]).value)]) + rest.delays;
  }

  lemma RetryEscape(faults: seq<Error>, catchAll: bool, i: nat, sleeps: seq<nat>)
    requires RetryInvariant(faults, catchAll, i, sleeps) && i < |faults|
    requires !(Caught(faults[i], catchAll) && IsRetriable(faults[i]))
    ensures RetryFaults(faults, 0, catchAll).delays == sleeps
    ensures RetryFaults(faults, 0, catchAll).escaped ==
              Some(if Caught(faults[i], catchAll) then IllegalState(Some(faults[i])) else faults[i])
  {
    RetryFaultsHead(faults[i..], i, catchAll);
    assert faults[i..][0] == faults[i];
  }

  lemma RetryDone(faults: seq<Error>, catchAll: bool, sleeps: seq<nat>)
    requires RetryInvariant(faults, catchAll, |faults|, sleeps)
    ensures RetryFaults(faults, 0, catchAll).delays == sleeps
    ensures RetryFaults(faults, 0, catchAll).escaped.None?
  {
    assert faults[|faults|..] == [];
  }

  /**
   * `policy = new BackoffExponentialRetryPolicy(); while (policy.shouldRetry())
   * { try { return call(); } catch (e) { policy.errorOccured(e); } }`.
   * `delays` is the policy's sleep log when the loop is left.
   */
  method Retry<T>(call: Remote<T>, catchAll: bool) returns (r: Result<T, Error>, ghost delays: seq<nat>)
    ensures r == RetryResult(call, catchAll)
    ensures delays == RetryFaults(call.faults, 0, catchAll).delays
  {
    var policy := new BackoffExponentialRetryPolicy();
    var i := 0;
    assert call.faults[0..] == call.faults;
    var again := policy.ShouldRetry();
    while again
      invariant policy.currentAttemptCount == i
      invariant RetryInvariant(call.faults, catchAll, i, policy.sleeps)
      decreases |call.faults| - i
    {
      if i == |call.faults| {
        RetryDone(call.faults, catchAll, policy.sleeps);
        return Ok(call.value), policy.sleeps;
      }
      var e := call.faults[i];
      if !Caught(e, catchAll) {
        RetryEscape(call.faults, catchAll, i, policy.sleeps);
        return Err(e), policy.sleeps;
      }
      ghost var slept := policy.sleeps;
      if !IsRetriable(e) {
        RetryEscape(call.faults, catchAll, i, slept);
      } else {
        RetryStep(call.faults, catchAll, i, slept);
      }
      var outcome := policy.ErrorOccured(e);
      if outcome.Fail? {
        return Err(outcome.error), policy.sleeps;
      }
      i := i + 1;
      again := policy.ShouldRetry();
    }
    assert false;
  }

  /** A retried call succeeds exactly when every fault before the value is caught and retriable. */
  lemma {:induction false} RetrySucceedsIff(faults: seq<Error>, attempt: nat, catchAll: bool)
    ensures RetryFaults(faults, attempt, catchAll).escaped.None? <==>
            forall k | 0 <= k < |faults| :: Caught(faults[k], catchAll) && IsRetriable(faults[k])
    decreases |faults|
  {
    if |faults| > 0 {
      RetrySucceedsIff(faults[1..], attempt + 1, catchAll);
      assert forall k | 1 <= k < |faults| :: faults[k] == faults[1..][k - 1];
    }
  }

  /** The first fault that is not absorbed is what escapes, and it escapes after one sleep per earlier fault. */
  lemma {:induction false} RetryEscapes(faults: seq<Error>, attempt: nat, catchAll: bool, j: nat)
    requires j < |faults|
    requires forall k | 0 <= k < j :: Caught(faults[k], catchAll) && IsRetriable(faults[k])
    requires !(Caught(faults[j], catchAll) && IsRetriable(faults[j]))
    ensures |RetryFaults(faults, attempt, catchAll).delays| == j
    ensures RetryFaults(faults, attempt, catchAll).escaped ==
            Some(if Caught(faults[j], catchAll) then IllegalState(Some(faults[j])) else faults[j])
    decreases j
  {
    if j > 0 {
      RetryEscapes(faults[1..], attempt + 1, catchAll, j - 1);
    }
  }

  /**
   * Delay k of a run of throttled faults is DelayFor(attempt + k, hint k):
   * the attempt counter seen by fault k is the number of retries before it.
   */
  lemma {:induction false} RetryDelays(faults: seq<Error>, attempt: nat, catchAll: bool)
    requires forall k | 0 <= k < |faults| :: Caught(faults[k], catchAll) && IsRetriable(faults[k])
    ensures |RetryFaults(faults, attempt, catchAll).delays| == |faults|
    ensures forall k | 0 <= k < |faults| && IsRetriable(faults[k]) ::
              RetryFaults(faults, attempt, catchAll).delays[k] == DelayFor(attempt + k, ThrottleHint(faults[k]).value)
    decreases |faults|
  {
    if |faults| > 0 {
      RetryDelays(faults[1..], attempt + 1, catchAll);
      var d := RetryFaults(faults, attempt, catchAll).delays;
      assert forall k | 1 <= k < |faults| :: d[k] == RetryFaults(faults[1..], attempt + 1, catchAll).delays[k - 1];
    }
  }

  /** With a constant non-zero hint, each delay is 500 ms longer than the one before it. */
  lemma ConstantHintBackoff(faults: seq<Error>, catchAll: bool, hint: nat)
    requires hint > 0
    requires forall k | 0 <= k < |faults| :: Caught(faults[k], catchAll) && ThrottleHint(faults[k]) == Some(hint)
    ensures var d := RetryFaults(faults, 0, catchAll).delays;
            && |d| == |faults|
            && (|d| > 0 ==> d[0] == hint)
            && forall k | 0 <= k < |d| - 1 :: d[k + 1] == d[k] + RETRY_ADDITIVE_MULTIPLIER
  {
    RetryDelays(faults, 0, catchAll);
  }

  /**
   * The three-second fallback applies to the sum, not to the hint: with a
   * zero hint the first delay is 3000 ms and the second only 500 ms.
   */
  lemma ZeroHintDelaysDrop()
    ensures var throttled := DocumentClientError(REQUEST_RATE_TOO_LARGE, 0);
            RetryFaults([throttled, throttled], 0, true) == Retried([3000, 500], None)
  {
    var throttled := DocumentClientError(REQUEST_RATE_TOO_LARGE, 0);
    assert [throttled, throttled][1..] == [throttled];
    assert RetryFaults([throttled], 1, true) == Retried([500], None);
  }
}
