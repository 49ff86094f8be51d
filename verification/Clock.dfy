/**
 Instants and durations are integers of nanoseconds, as Go's time.Time and time.Duration count
 them; columns hold whole Unix seconds. Both roundings and the retry backoff live here.
 */
module Clock {

  const SECOND := 1_000_000_000
  const MINUTE := 60 * SECOND
  const HOUR := 60 * MINUTE

  /** time.Time.Unix: whole seconds, rounded down. */
  function Unix(instant: int): int {
    instant / SECOND
  }

  /** unixCeil: whole seconds, rounded up. */
  function UnixCeil(instant: int): int {
    Unix(instant) + if instant % SECOND != 0 then 1 else 0
  }

  /** The first whole second that does not lie before the instant. */
  ghost predicate IsFirstSecond(second: int, instant: int) {
    (second - 1) * SECOND < instant <= second * SECOND
  }

  lemma UnixCeilIsFirstSecond(instant: int)
    ensures IsFirstSecond(UnixCeil(instant), instant)
  {
    assert instant == SECOND * (instant / SECOND) + instant % SECOND;
  }

  /** A deadline rounded up and compared with a clock rounded down is never met early, and is met
      at the latest one second after it passed. */
  lemma DeadlineNeverEarly(deadline: int, now: int)
    ensures UnixCeil(deadline) <= Unix(now) ==> deadline <= now
    ensures deadline + SECOND <= now ==> UnixCeil(deadline) <= Unix(now)
  {
    assert deadline == SECOND * (deadline / SECOND) + deadline % SECOND;
    assert now == SECOND * (now / SECOND) + now % SECOND;
  }

  lemma UnixMonotone(a: int, b: int)
    requires a <= b
    ensures Unix(a) <= Unix(b) && UnixCeil(a) <= UnixCeil(b)
    ensures Unix(a) <= UnixCeil(a)
  {
    assert a == SECOND * (a / SECOND) + a % SECOND;
    assert b == SECOND * (b / SECOND) + b % SECOND;
  }

  /** Adding a whole number of seconds commutes with rounding down. */
  lemma UnixAddSeconds(instant: int, seconds: int)
    ensures Unix(instant + seconds * SECOND) == Unix(instant) + seconds
  {
    assert instant == SECOND * (instant / SECOND) + instant % SECOND;
  }

  // ---------- retryDelay ----------

  function Pow2(n: nat): (r: nat)
    ensures r >= 1
  {
    if n == 0 then 1 else 2 * Pow2(n - 1)
  }

  lemma {:induction false} Pow2Grows(m: nat, n: nat)
    requires m <= n
    ensures Pow2(m) <= Pow2(n)
    decreases n
  {
    if m < n {
      Pow2Grows(m, n - 1);
    }
  }

  /** The backoff in whole minutes: min(2^(attempt-1), 60), and one minute for the attempt 0 that a
      freshly reserved package carries. */
  function BackoffMinutes(attempt: int): (minutes: int)
    ensures 1 <= minutes <= 60
  {
    if attempt <= 1 then 1 else if Pow2(attempt - 1) < 60 then Pow2(attempt - 1) else 60
  }

  function Backoff(attempt: int): int {
    BackoffMinutes(attempt) * MINUTE
  }

  /** The second of a retry after the given attempt failed at this instant: min(2^(attempt-1), 60) minutes
      later, and a minute later for attempt 0. */
  ghost predicate IsRetrySecond(second: int, instant: int, attempt: nat) {
    && (attempt <= 6 ==> second == Unix(instant) + 60 * (if attempt == 0 then 1 else Pow2(attempt - 1)))
    && (attempt > 6 ==> second == Unix(instant) + 3600)
  }

  lemma BackoffIsRetrySecond(instant: int, attempt: nat)
    ensures IsRetrySecond(Unix(instant + Backoff(attempt)), instant, attempt)
  {
    UnixAddSeconds(instant, 60 * BackoffMinutes(attempt));
    assert Pow2(6) == 64 && Pow2(5) == 32 && Pow2(4) == 16;
    assert Pow2(3) == 8 && Pow2(2) == 4 && Pow2(1) == 2;
    if attempt > 6 {
      Pow2Grows(6, attempt - 1);
    }
  }

  /** The doubling loop computes the closed form: it stops on the first power past the cap. */
  method RetryDelay(attempt: int) returns (delay: int)
    ensures delay == Backoff(attempt)
    ensures MINUTE <= delay <= HOUR
  {
    delay := MINUTE;
    var i := 1;
    while i < attempt && delay < HOUR
      invariant 1 <= i && (i <= attempt || i == 1)
      invariant delay == Pow2(i - 1) * MINUTE
      decreases attempt - i
    {
      delay := delay * 2;
      i := i + 1;
    }
    if i < attempt {
      Pow2Grows(i - 1, attempt - 1);
    }
    if delay > HOUR {
      return HOUR;
    }
  }

  /** The waits after the first `failures` failed attempts, added up in minutes. */
  function CumulativeMinutes(failures: nat): (r: nat) {
    if failures == 0 then 0 else CumulativeMinutes(failures - 1) + BackoffMinutes(failures)
  }

  /** 63 minutes after six failures, then one more hour each. */
  lemma {:induction false} CumulativeClosedForm(failures: nat)
    ensures failures <= 6 ==> CumulativeMinutes(failures) == Pow2(failures) - 1
    ensures failures >= 6 ==> CumulativeMinutes(failures) == 63 + 60 * (failures - 6)
  {
    if failures > 0 {
      CumulativeClosedForm(failures - 1);
      if failures > 6 {
        Pow2Grows(6, failures - 1);
      }
    }
    assert Pow2(6) == 64 && Pow2(5) == 32 && Pow2(4) == 16;
    assert Pow2(3) == 8 && Pow2(2) == 4 && Pow2(1) == 2;
  }
}
