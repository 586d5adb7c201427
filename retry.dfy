/**
 * The rate-limit retry wrapper around the language model (`RetryLLM._retry_invoke`).
 *
 * The model itself is an oracle: `answers(k)` is what the k-th call (counting from 0)
 * returns or raises. The loop makes at most `max_retries` guarded calls, sleeping
 * 15, 30, 45, ... seconds after each rate-limited failure, and then one final
 * unguarded call whose result or exception is passed through.
 */
module Retry {
  import opened Text

  /** What one call to the underlying model does: return content or raise an error. */
  datatype CallResult = Returned(content: string) | Raised(error: string)

  /** `max_retries` defaults to 3 (graph.py:34). */
  const DefaultMaxRetries: int := 3

  /** An error is a rate-limit signal when its text mentions "429" or "RESOURCE_EXHAUSTED". */
  predicate IsRateLimit(e: string) {
    Contains(e, "429") || Contains(e, "RESOURCE_EXHAUSTED")
  }

  /** A call outcome after which the loop sleeps and tries again. */
  predicate Retryable(c: CallResult) {
    c.Raised? && IsRateLimit(c.error)
  }

  /** `range(max_retries)` is empty when `max_retries` is negative. */
  function GuardedCalls(maxRetries: int): nat {
    if maxRetries < 0 then 0 else maxRetries
  }

  /** The outcome of one `_retry_invoke`: what it surfaces, how many calls it made, and its sleeps. */
  datatype RetryRun = RetryRun(result: CallResult, calls: nat, waits: seq<nat>)

  /** The wait before retry `attempt + 1`. */
  function WaitFor(attempt: nat): nat {
    15 * (attempt + 1)
  }

  /** The loop from guarded attempt `attempt` on (waits are those taken from `attempt` on). */
  function RetryFrom(answers: nat -> CallResult, limit: nat, attempt: nat): RetryRun
    requires attempt <= limit
    decreases limit - attempt
  {
    if attempt == limit then
      RetryRun(answers(limit), limit + 1, [])
    else if Retryable(answers(attempt)) then
      var rest := RetryFrom(answers, limit, attempt + 1);
      rest.(waits := [WaitFor(attempt)] + rest.waits)
    else
      RetryRun(answers(attempt), attempt + 1, [])
  }

  /** The whole `_retry_invoke` call. */
  function RetryInvokeSpec(maxRetries: int, answers: nat -> CallResult): RetryRun {
    RetryFrom(answers, GuardedCalls(maxRetries), 0)
  }

  /**
   * `_retry_invoke`: the counted loop with early return, fail-fast re-raise and the final
   * unguarded call. `waits` records the sleeps, in order.
   */
  method RetryInvoke(maxRetries: int, answers: nat -> CallResult)
    returns (result: CallResult, calls: nat, waits: seq<nat>)
    ensures RetryRun(result, calls, waits) == RetryInvokeSpec(maxRetries, answers)
  {
    var limit := if maxRetries < 0 then 0 else maxRetries;
    var attempt := 0;
    waits := [];
    while attempt < limit
      invariant attempt <= limit
      invariant RetryInvokeSpec(maxRetries, answers)
        == var rest := RetryFrom(answers, limit, attempt); rest.(waits := waits + rest.waits)
    {
      var outcome := answers(attempt);
      match outcome {
        case Returned(_) =>
          return outcome, attempt + 1, waits;
        case Raised(e) =>
          if IsRateLimit(e) {
            ghost var rest := RetryFrom(answers, limit, attempt + 1);
            assert RetryFrom(answers, limit, attempt) == rest.(waits := [WaitFor(attempt)] + rest.waits);
            assert waits + ([WaitFor(attempt)] + rest.waits) == (waits + [WaitFor(attempt)]) + rest.waits;
            waits := waits + [WaitFor(attempt)];
            attempt := attempt + 1;
          } else {
            return outcome, attempt + 1, waits;
          }
      }
    }
    result := answers(limit);
    calls := limit + 1;
  }

  // ---------------------------------------------------------------------------
  // Properties of the retry loop

  /**
   * Complete description of a run started at `attempt`: the surfaced outcome is the answer
   * to the last call; every earlier call was rate-limited; the last call is either the
   * final unguarded one or an outcome that ends the loop; and one wait of 15*(k+1) seconds
   * separates call k from call k+1.
   */
  lemma {:induction false} RetryFromShape(answers: nat -> CallResult, limit: nat, attempt: nat)
    requires attempt <= limit
    ensures var r := RetryFrom(answers, limit, attempt);
      && attempt + 1 <= r.calls <= limit + 1
      && r.result == answers(r.calls - 1)
      && (forall k :: attempt <= k < r.calls - 1 ==> Retryable(answers(k)))
      && (r.calls - 1 < limit ==> !Retryable(answers(r.calls - 1)))
      && |r.waits| == r.calls - 1 - attempt
      && (forall k :: 0 <= k < |r.waits| ==> r.waits[k] == WaitFor(attempt + k))
    decreases limit - attempt
  {
    if attempt < limit && Retryable(answers(attempt)) {
      RetryFromShape(answers, limit, attempt + 1);
    }
  }

  /**
   * The model is called at least once and at most `max_retries + 1` times, and
   * every call but the last met a rate limit.
   */
  lemma CallBound(maxRetries: int, answers: nat -> CallResult)
    ensures var r := RetryInvokeSpec(maxRetries, answers);
      && 1 <= r.calls <= GuardedCalls(maxRetries) + 1
      && r.result == answers(r.calls - 1)
      && (forall k :: 0 <= k < r.calls - 1 ==> Retryable(answers(k)))
  {
    RetryFromShape(answers, GuardedCalls(maxRetries), 0);
  }

  /** The wait before retry k+1 is 15*(k+1) seconds, and there is one wait per extra call. */
  lemma WaitSchedule(maxRetries: int, answers: nat -> CallResult)
    ensures var r := RetryInvokeSpec(maxRetries, answers);
      && |r.waits| == r.calls - 1
      && forall k :: 0 <= k < |r.waits| ==> r.waits[k] == 15 * (k + 1)
  {
    RetryFromShape(answers, GuardedCalls(maxRetries), 0);
  }

  /** With the default `max_retries = 3` the waits are a prefix of 15, 30, 45. */
  lemma DefaultWaits(answers: nat -> CallResult)
    ensures var r := RetryInvokeSpec(DefaultMaxRetries, answers);
      r.calls <= 4 && r.waits == [15, 30, 45][..|r.waits|]
  {
    RetryFromShape(answers, 3, 0);
  }

  /**
   * Fail fast: when the first non-rate-limited outcome among the guarded calls is an
   * error, that error is re-raised at once and no further call is made.
   */
  lemma FailFast(maxRetries: int, answers: nat -> CallResult, k: nat)
    requires k < GuardedCalls(maxRetries)
    requires forall j :: 0 <= j < k ==> Retryable(answers(j))
    requires answers(k).Raised? && !IsRateLimit(answers(k).error)
    ensures RetryInvokeSpec(maxRetries, answers) == RetryRun(answers(k), k + 1, seq(k, j requires 0 <= j < k => WaitFor(j)))
  {
    var r := RetryInvokeSpec(maxRetries, answers);
    RetryFromShape(answers, GuardedCalls(maxRetries), 0);
    assert r.calls == k + 1;
  }

  /** The first successful guarded call is returned as it is. */
  lemma FirstSuccessReturned(maxRetries: int, answers: nat -> CallResult, k: nat)
    requires k < GuardedCalls(maxRetries)
    requires forall j :: 0 <= j < k ==> Retryable(answers(j))
    requires answers(k).Returned?
    ensures RetryInvokeSpec(maxRetries, answers).result == answers(k)
    ensures RetryInvokeSpec(maxRetries, answers).calls == k + 1
  {
    var r := RetryInvokeSpec(maxRetries, answers);
    RetryFromShape(answers, GuardedCalls(maxRetries), 0);
  }

  /**
   * When every guarded call is rate-limited, one last unguarded call is made and its
   * outcome, success or exception (a rate limit included), is surfaced.
   */
  lemma ExhaustedPassesThrough(maxRetries: int, answers: nat -> CallResult)
    requires forall j :: 0 <= j < GuardedCalls(maxRetries) ==> Retryable(answers(j))
    ensures RetryInvokeSpec(maxRetries, answers).calls == GuardedCalls(maxRetries) + 1
    ensures RetryInvokeSpec(maxRetries, answers).result == answers(GuardedCalls(maxRetries))
  {
    var r := RetryInvokeSpec(maxRetries, answers);
    RetryFromShape(answers, GuardedCalls(maxRetries), 0);
  }
}
