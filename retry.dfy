/**
 * `call_api_with_retry`: up to three calls to the remote service, with
 * exponential backoff between them. The remote service is an oracle: its
 * answer to the n-th attempt made during a task is `api(n)`. Sleeping is
 * recorded as the list of delays, in seconds.
 */
module RetryPolicy {
  import opened Wrappers

  const MaxRetries: nat := 3
  const RetryBaseDelay: nat := 2

  /** One call of the remote service: it raised, or it answered. */
  datatype Attempt<T> = Failure(error: string) | Success(value: T)

  function Pow2(k: nat): (r: nat)
    ensures r >= 1
  {
    if k == 0 then 1 else 2 * Pow2(k - 1)
  }

  /** The sleep after failed attempt `k` (zero-based): `RETRY_BASE_DELAY * 2 ** k`. */
  function Delay(k: nat): nat {
    RetryBaseDelay * Pow2(k)
  }

  /** The sleeps after the first `n` failed attempts. */
  function Backoff(n: nat): (r: seq<nat>)
    ensures |r| == n && forall k | 0 <= k < n :: r[k] == Delay(k)
  {
    seq(n, k requires 0 <= k => Delay(k))
  }

  /** What a retried call gave: the answer (None when it re-raised), the attempts made, the sleeps. */
  datatype Retried<T> = Retried(answer: Option<T>, attempts: nat, delays: seq<nat>)

  /**
   * The retry loop from attempt `k` on, for a call whose first attempt is
   * attempt number `cursor` of the remote service: the first success is
   * returned at once, each failure but the last is followed by a sleep, and
   * the last failure re-raises.
   */
  function RetryFrom<T>(api: nat -> Attempt<T>, cursor: nat, k: nat): Retried<T>
    requires k < MaxRetries
    decreases MaxRetries - k
  {
    match api(cursor + k)
    case Success(v) => Retried(Some(v), k + 1, [])
    case Failure(_) =>
      if k < MaxRetries - 1 then
        var rest := RetryFrom(api, cursor, k + 1);
        rest.(delays := [Delay(k)] + rest.delays)
      else Retried(None, k + 1, [])
  }

  lemma {:induction false} RetryFromFacts<T>(api: nat -> Attempt<T>, cursor: nat, k: nat)
    requires k < MaxRetries
    ensures var r := RetryFrom(api, cursor, k);
      k < r.attempts <= MaxRetries &&
      (forall n | cursor + k <= n < cursor + r.attempts - 1 :: api(n).Failure?) &&
      (r.answer.Some? ==> api(cursor + r.attempts - 1).Success? && r.answer.value == api(cursor + r.attempts - 1).value) &&
      (r.answer.None? ==> r.attempts == MaxRetries && api(cursor + MaxRetries - 1).Failure?) &&
      |r.delays| == r.attempts - 1 - k &&
      (forall j | 0 <= j < |r.delays| :: r.delays[j] == Delay(k + j))
    decreases MaxRetries - k
  {
    if api(cursor + k).Failure? && k < MaxRetries - 1 {
      RetryFromFacts(api, cursor, k + 1);
    }
  }

  /** The outcome of the remaining attempts after the sleeps already taken. */
  function AfterSleeps<T>(taken: seq<nat>, rest: Retried<T>): Retried<T> {
    rest.(delays := taken + rest.delays)
  }

  lemma SleepsAccumulate<T>(a: seq<nat>, b: seq<nat>, rest: Retried<T>)
    ensures AfterSleeps(a, AfterSleeps(b, rest)) == AfterSleeps(a + b, rest)
  {
    assert a + (b + rest.delays) == (a + b) + rest.delays;
  }

  function Retry<T>(api: nat -> Attempt<T>, cursor: nat): Retried<T> {
    RetryFrom(api, cursor, 0)
  }

  /**
   * At most three attempts; all but the last failed; a success is the
   * answer of the last attempt; the call re-raises only after three
   * failures; and the sleeps are 2, 4, ... seconds, one per failure that is
   * not the last attempt.
   */
  lemma RetryCharacterized<T>(api: nat -> Attempt<T>, cursor: nat)
    ensures var r := Retry(api, cursor);
      1 <= r.attempts <= MaxRetries &&
      (forall n | cursor <= n < cursor + r.attempts - 1 :: api(n).Failure?) &&
      (r.answer.Some? <==> api(cursor + r.attempts - 1).Success?) &&
      (r.answer.Some? ==> r.answer.value == api(cursor + r.attempts - 1).value) &&
      (r.answer.None? <==> forall n | cursor <= n < cursor + MaxRetries :: api(n).Failure?) &&
      r.delays == Backoff(r.attempts - 1)
  {
    var r := Retry(api, cursor);
    RetryFromFacts(api, cursor, 0);
    assert r.delays == Backoff(r.attempts - 1);
    if r.answer.Some? {
      assert !api(cursor + r.attempts - 1).Failure?;
    }
  }

  /** Three failures: sleeps of 2 and 4 seconds, then the error is re-raised. */
  lemma ThreeFailures<T>(api: nat -> Attempt<T>, cursor: nat)
    requires api(cursor).Failure? && api(cursor + 1).Failure? && api(cursor + 2).Failure?
    ensures Retry(api, cursor) == Retried(None, 3, [2, 4])
  {
    var r := Retry(api, cursor);
    RetryCharacterized(api, cursor);
    assert r.answer.None?;
    assert Pow2(1) == 2;
  }

  /** `call_api_with_retry`. */
  method CallApiWithRetry<T>(api: nat -> Attempt<T>, cursor: nat)
    returns (answer: Option<T>, attempts: nat, delays: seq<nat>)
    ensures Retried(answer, attempts, delays) == Retry(api, cursor)
  {
    delays := [];
    var attempt := 0;
    while attempt < MaxRetries
      invariant attempt <= MaxRetries
      invariant attempt < MaxRetries ==> Retry(api, cursor) == AfterSleeps(delays, RetryFrom(api, cursor, attempt))
      invariant attempt == MaxRetries ==> Retry(api, cursor) == Retried(None, MaxRetries, delays)
    {
      var outcome := api(cursor + attempt);
      if outcome.Success? {
        answer, attempts := Some(outcome.value), attempt + 1;
        return;
      }
      if attempt < MaxRetries - 1 {
        SleepsAccumulate(delays, [Delay(attempt)], RetryFrom(api, cursor, attempt + 1));
        delays := delays + [Delay(attempt)];
      }
      attempt := attempt + 1;
    }
    // The last failure re-raises; there is no sleep after it.
    answer, attempts := None, MaxRetries;
  }
}
