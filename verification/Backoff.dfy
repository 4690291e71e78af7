/** internal/history/retry.go: capped exponential backoff with jitter, over reals. */
module Backoff {
  import opened Types

  datatype RetryPolicy = RetryPolicy(maxAttempts: int, initialInterval: int, coefficient: real, maxInterval: int)

  const DEFAULT_RETRY_POLICY: RetryPolicy := RetryPolicy(3, SECOND, 2.0, 60 * SECOND)

  /** math.Pow for integer exponents and a base that is not zero. */
  function Pow(base: real, n: int): real
    requires base != 0.0
    decreases if n < 0 then 1 - n else n
  {
    if n == 0 then 1.0
    else if n > 0 then base * Pow(base, n - 1)
    else Pow(base, n + 1) / base
  }

  function Capped(policy: RetryPolicy, attempt: int): real
    requires policy.coefficient != 0.0
  {
    var backoff := policy.initialInterval as real * Pow(policy.coefficient, attempt - 1);
    if backoff > policy.maxInterval as real then policy.maxInterval as real else backoff
  }

  /** time.Duration(x) drops the fraction, rounding toward zero. */
  function Truncate(x: real): int {
    if x >= 0.0 then x.Floor else -((-x).Floor)
  }

  function Jittered(backoff: real, jitter: real): real {
    backoff * (0.5 + jitter * 0.5)
  }

  /** netxtRetryDelay; jitter is the draw of rand.Float64, in [0, 1). */
  function RetryDelay(policy: RetryPolicy, attempt: int, jitter: real): int
    requires policy.coefficient != 0.0
  {
    Truncate(Jittered(Capped(policy, attempt), jitter))
  }

  predicate Sensible(policy: RetryPolicy) {
    policy.initialInterval >= 0 && policy.maxInterval >= 0 && policy.coefficient > 0.0
  }

  lemma {:induction false} PowPositive(base: real, n: int)
    requires base > 0.0
    ensures Pow(base, n) > 0.0
    decreases if n < 0 then 1 - n else n
  {
    if n > 0 {
      PowPositive(base, n - 1);
    } else if n < 0 {
      PowPositive(base, n + 1);
    }
  }

  lemma CappedBounds(policy: RetryPolicy, attempt: int)
    requires Sensible(policy)
    ensures 0.0 <= Capped(policy, attempt) <= policy.maxInterval as real
  {
    PowPositive(policy.coefficient, attempt - 1);
    ProductNonNegative(policy.initialInterval as real, Pow(policy.coefficient, attempt - 1));
  }

  lemma ProductNonNegative(x: real, y: real)
    requires x >= 0.0 && y >= 0.0
    ensures x * y >= 0.0
  {
  }

  /** Half the capped backoff at least, less what truncation takes, and never more than the capped backoff. */
  lemma DelayBounds(policy: RetryPolicy, attempt: int, jitter: real)
    requires Sensible(policy) && 0.0 <= jitter < 1.0
    ensures var c, d := Capped(policy, attempt), RetryDelay(policy, attempt, jitter);
      && 0 <= d <= policy.maxInterval
      && c / 2.0 - 1.0 < d as real <= c
  {
    var c := Capped(policy, attempt);
    CappedBounds(policy, attempt);
    ProductNonNegative(c, jitter);
    ProductNonNegative(c, 1.0 - jitter);
    assert Jittered(c, jitter) == c / 2.0 + (c * jitter) / 2.0;
  }

  /** With the default policy: half a second to one second after the first attempt, twice that after the second. */
  lemma DefaultDelays(attempt: int, jitter: real)
    requires 1 <= attempt <= 2 && 0.0 <= jitter < 1.0
    ensures attempt * 500_000_000 <= RetryDelay(DEFAULT_RETRY_POLICY, attempt, jitter) < attempt * 1_000_000_000
    ensures DEFAULT_RETRY_POLICY.maxAttempts == 3
  {
    assert Pow(2.0, 0) == 1.0 && Pow(2.0, 1) == 2.0;
    var c := Capped(DEFAULT_RETRY_POLICY, attempt);
    assert c == attempt as real * 1_000_000_000.0;
    JitteredRange(c, jitter);
  }

  /** Below the cap, the next backoff is twice this one. */
  lemma CappedDoubles(policy: RetryPolicy, attempt: int)
    requires Sensible(policy) && policy.coefficient == 2.0 && attempt >= 1
    requires policy.initialInterval as real * Pow(2.0, attempt) <= policy.maxInterval as real
    ensures Capped(policy, attempt + 1) == 2.0 * Capped(policy, attempt)
  {
    var x, p := policy.initialInterval as real, Pow(2.0, attempt - 1);
    assert Pow(2.0, attempt) == 2.0 * p;
    hide Pow;
    PowPositive(2.0, attempt - 1);
    ProductNonNegative(x, p);
    assert x * (2.0 * p) == 2.0 * (x * p);
  }

  /** With coefficient 2 no draw can make a delay longer than the next one's, until the cap is reached. */
  lemma DelaysIncrease(policy: RetryPolicy, attempt: int, j: real, k: real)
    requires Sensible(policy) && policy.coefficient == 2.0 && attempt >= 1
    requires 0.0 <= j < 1.0 && 0.0 <= k < 1.0
    requires policy.initialInterval as real * Pow(2.0, attempt) <= policy.maxInterval as real
    ensures RetryDelay(policy, attempt, j) <= RetryDelay(policy, attempt + 1, k)
  {
    CappedBounds(policy, attempt);
    CappedDoubles(policy, attempt);
    hide Pow, Capped, RetryDelay, NeverShrinks;
    assert HalfOfNext(policy, attempt);
    WhenDelaysNeverShrink(policy, attempt);
    DelaysOf(policy, attempt, j, k);
  }

  lemma DelaysOf(policy: RetryPolicy, attempt: int, j: real, k: real)
    requires policy.coefficient != 0.0 && NeverShrinks(policy, attempt) && 0.0 <= j < 1.0 && 0.0 <= k < 1.0
    ensures RetryDelay(policy, attempt, j) <= RetryDelay(policy, attempt + 1, k)
  {
    hide RetryDelay;
    assert InOrder(policy, attempt, j, k);
  }

  predicate InOrder(policy: RetryPolicy, attempt: int, j: real, k: real)
    requires policy.coefficient != 0.0
  {
    0.0 <= j < 1.0 && 0.0 <= k < 1.0 ==> RetryDelay(policy, attempt, j) <= RetryDelay(policy, attempt + 1, k)
  }

  /** Whatever is drawn, the delay after this attempt is no longer than the one after the next. */
  ghost predicate NeverShrinks(policy: RetryPolicy, attempt: int)
    requires policy.coefficient != 0.0
  {
    forall j, k :: InOrder(policy, attempt, j, k)
  }

  /** This attempt's capped backoff is at most half the next one's, but for the nanosecond that truncation takes. */
  predicate HalfOfNext(policy: RetryPolicy, attempt: int)
    requires policy.coefficient != 0.0
  {
    Capped(policy, attempt) <= (Capped(policy, attempt + 1) / 2.0).Floor as real + 1.0
  }

  lemma ScaledDown(c: real, q: real)
    requires c >= 0.0 && 0.5 <= q < 1.0
    ensures c / 2.0 <= c * q
    ensures if c > 0.0 then c * q < c else c * q == 0.0
  {
    ProductNonNegative(c, q - 0.5);
    assert c * (q - 0.5) == c * q - c / 2.0;
    if c > 0.0 {
      assert c * (1.0 - q) > 0.0;
      assert c * (1.0 - q) == c - c * q;
    }
  }

  /** The draw takes off at most half, and something unless there is nothing. */
  lemma JitteredRange(c: real, j: real)
    requires c >= 0.0 && 0.0 <= j < 1.0
    ensures c / 2.0 <= Jittered(c, j)
    ensures if c > 0.0 then Jittered(c, j) < c else Jittered(c, j) == 0.0
  {
    ScaledDown(c, 0.5 + j * 0.5);
  }

  lemma DrawsInOrder(c: real, c': real, j: real, k: real)
    requires c >= 0.0 && c' >= 0.0 && c <= (c' / 2.0).Floor as real + 1.0
    requires 0.0 <= j < 1.0 && 0.0 <= k < 1.0
    ensures Truncate(Jittered(c, j)) <= Truncate(Jittered(c', k))
  {
    hide Jittered;
    JitteredRange(c, j);
    JitteredRange(c', k);
    assert Jittered(c', k).Floor >= (c' / 2.0).Floor;
  }

  /** Otherwise a draw near one, followed by a zero, gives a longer delay first. */
  lemma DrawsOutOfOrder(c: real, c': real) returns (j: real)
    requires c >= 0.0 && c' >= 0.0 && c > (c' / 2.0).Floor as real + 1.0
    ensures 0.0 <= j < 1.0 && Truncate(Jittered(c, j)) > Truncate(Jittered(c', 0.0))
  {
    var m := (c' / 2.0).Floor + 1;
    assert Jittered(c', 0.0) == c' / 2.0;
    j := DrawReaching(m as real, c);
    hide Jittered;
    assert Jittered(c, j).Floor >= m;
  }

  /** Any value below c is reached by some draw. */
  lemma DrawReaching(m: real, c: real) returns (j: real)
    requires 0.0 < m < c
    ensures 0.0 <= j < 1.0 && Jittered(c, j) >= m
  {
    var q := m / c;
    assert q * c == m;
    if q >= 1.0 {
      ProductNonNegative(q - 1.0, c);
      assert false;
    }
    j := if q <= 0.5 then 0.0 else 2.0 * q - 1.0;
    ProductNonNegative(0.5 + j * 0.5 - q, c);
  }

  /** Exactly when no draws can make a delay longer than the next one. */
  lemma WhenDelaysNeverShrink(policy: RetryPolicy, attempt: int)
    requires Sensible(policy)
    ensures NeverShrinks(policy, attempt) <==> HalfOfNext(policy, attempt)
  {
    var c, c' := Capped(policy, attempt), Capped(policy, attempt + 1);
    CappedBounds(policy, attempt);
    CappedBounds(policy, attempt + 1);
    hide Capped, Truncate, Jittered;
    if HalfOfNext(policy, attempt) {
      forall j, k ensures InOrder(policy, attempt, j, k) {
        if 0.0 <= j < 1.0 && 0.0 <= k < 1.0 {
          DrawsInOrder(c, c', j, k);
        }
      }
    } else {
      var j := DrawsOutOfOrder(c, c');
      assert !InOrder(policy, attempt, j, 0.0);
    }
  }

  /** A delay is asked for only after attempts below the last, so these are the pairs of delays a policy ever uses. */
  ghost predicate DelaysInOrder(policy: RetryPolicy)
    requires policy.coefficient != 0.0
  {
    forall attempt: int :: 1 <= attempt && attempt + 1 < policy.maxAttempts ==> NeverShrinks(policy, attempt)
  }

  function Attempts(n: int): RetryPolicy { DEFAULT_RETRY_POLICY.(maxAttempts := n) }

  /** Among policies with the default intervals, exactly those of up to seven attempts, the default one of three
      included, use no delay that can be longer than the next. */
  lemma UpToSevenAttempts(n: int)
    ensures DelaysInOrder(Attempts(n)) <==> n <= 7
    ensures Attempts(DEFAULT_RETRY_POLICY.maxAttempts) == DEFAULT_RETRY_POLICY
  {
    hide NeverShrinks;
    if n <= 7 {
      forall attempt: int | 1 <= attempt && attempt + 1 < n ensures NeverShrinks(Attempts(n), attempt) {
        BelowTheCap(n, attempt);
        WhenDelaysNeverShrink(Attempts(n), attempt);
      }
    } else {
      DelaysMayShrinkAtTheCap(n);
      assert 1 <= 6 && 6 + 1 < n;
    }
  }

  lemma BelowTheCap(n: int, attempt: int)
    requires 1 <= attempt <= 5
    ensures HalfOfNext(Attempts(n), attempt)
  {
    assert Pow(2.0, 0) == 1.0 && Pow(2.0, 1) == 2.0 && Pow(2.0, 2) == 4.0;
    assert Pow(2.0, 3) == 8.0 && Pow(2.0, 4) == 16.0;
    assert Pow(2.0, 5) == 32.0;
    hide Pow;
  }

  /** With eight attempts or more, the delay after the sixth can be longer than the one after the seventh. */
  lemma DelaysMayShrinkAtTheCap(n: int)
    requires n >= 8
    ensures RetryDelay(Attempts(n), 6, 0.9) == 30_400_000_000
    ensures RetryDelay(Attempts(n), 7, 0.0) == 30_000_000_000
    ensures !NeverShrinks(Attempts(n), 6)
  {
    assert Pow(2.0, 2) == 4.0;
    assert Pow(2.0, 4) == 16.0;
    assert Pow(2.0, 5) == 32.0 && Pow(2.0, 6) == 64.0;
    hide Pow;
    assert Capped(Attempts(n), 6) == 32_000_000_000.0;
    assert Capped(Attempts(n), 7) == 60_000_000_000.0;
    assert !InOrder(Attempts(n), 6, 0.9, 0.0);
  }
}
