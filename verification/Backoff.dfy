/** Retry delays: the doubling loop on 64-bit durations and its closed form (internal/engine/reducer.go). */
module Backoff {
  import opened Prelude
  import opened Workflow
  import opened Reducer

  const MAX_INT64 := 0x7FFF_FFFF_FFFF_FFFF
  const HALF_RANGE := 0x4000_0000_0000_0000

  function Pow2(n: nat): (p: nat)
    ensures p >= 1
  {
    if n == 0 then 1 else 2 * Pow2(n - 1)
  }

  function Min(a: int, b: int): int {
    if a <= b then a else b
  }

  /** The loop as it stands in the source. */
  method ComputeBackoff(policy: RetryPolicy, attempt: int) returns (backoff: int)
    ensures backoff == BackoffForAttempt(policy, attempt)
  {
    var normalized := policy.Normalize();
    backoff := normalized.initialBackoff;
    var i := 1;
    while i < attempt
      invariant 1 <= i && (i <= attempt || i == 1)
      invariant BackoffForAttempt(policy, attempt) == BackoffFrom(normalized.maxBackoff, backoff, i, attempt)
    {
      backoff := Wrap64(backoff * 2);
      if backoff >= normalized.maxBackoff {
        return normalized.maxBackoff;
      }
      i := i + 1;
    }
  }

  /** What the loop is for: the initial delay, doubled with every attempt, up to the maximum. */
  function Doubling(policy: RetryPolicy, attempt: int): int
    requires attempt >= 1
  {
    Min(policy.maxBackoff, policy.initialBackoff * Pow2(attempt - 1))
  }

  lemma WrapIsIdentity(x: int)
    requires 0 <= x <= MAX_INT64
    ensures Wrap64(x) == x
  {
  }

  lemma WrapTurnsNegative(x: int)
    requires MAX_INT64 < x <= 2 * MAX_INT64
    ensures Wrap64(x) < 0
  {
  }

  lemma DoublePow(x: int, n: nat)
    ensures x * Pow2(n + 1) == 2 * x * Pow2(n)
  {
  }

  lemma PowAtLeastOne(x: int, n: nat)
    requires x > 0
    ensures x * Pow2(n) >= x
  {
  }

  /** No delay that the loop goes on to double is as large as half the 64-bit range. */
  ghost predicate Fits(initial: int, maximum: int) {
    && initial < HALF_RANGE
    && forall k: nat {:trigger Pow2(k)} :: initial * Pow2(k) < maximum ==> initial * Pow2(k) < HALF_RANGE
  }

  lemma {:induction false} DoublesUp(maximum: int, backoff: int, i: int, attempt: int)
    requires 0 < backoff <= maximum <= MAX_INT64 && i <= attempt && Fits(backoff, maximum)
    ensures BackoffFrom(maximum, backoff, i, attempt) == Min(maximum, backoff * Pow2(attempt - i))
    decreases attempt - i
  {
    if i < attempt {
      DoublePow(backoff, attempt - i - 1);
      WrapIsIdentity(backoff * 2);
      if backoff * 2 < maximum {
        assert backoff * 2 < HALF_RANGE by {
          DoublePow(backoff, 0);
          assert backoff * Pow2(1) == backoff * 2;
        }
        forall k: nat {:trigger Pow2(k)}
            ensures 2 * backoff * Pow2(k) < maximum ==> 2 * backoff * Pow2(k) < HALF_RANGE {
          DoublePow(backoff, k);
        }
        DoublesUp(maximum, backoff * 2, i + 1, attempt);
      } else {
        PowAtLeastOne(2 * backoff, attempt - i - 1);
      }
    }
  }

  /** Delays that can be doubled while they are below the maximum are. */
  lemma {:induction false} ReachesDoubled(maximum: int, backoff: int, i: int, k: nat, attempt: int)
    requires 0 < backoff && maximum <= MAX_INT64 && i + k <= attempt
    requires k > 0 ==> backoff < HALF_RANGE && backoff * Pow2(k) < maximum && backoff * Pow2(k - 1) < HALF_RANGE
    ensures BackoffFrom(maximum, backoff, i, attempt) == BackoffFrom(maximum, backoff * Pow2(k), i + k, attempt)
    decreases k
  {
    if k == 0 {
      assert backoff * Pow2(0) == backoff;
    } else {
      DoublePow(backoff, k - 1);
      WrapIsIdentity(backoff * 2);
      PowAtLeastOne(2 * backoff, k - 1);
      if k > 1 {
        DoublePow(backoff, k - 2);
        PowAtLeastOne(2 * backoff, k - 2);
      }
      ReachesDoubled(maximum, backoff * 2, i + 1, k - 1, attempt);
    }
  }

  /** A delay of half the range is doubled into a negative one. */
  lemma OverflowIsNegative(maximum: int, backoff: int, i: int)
    requires HALF_RANGE <= backoff <= maximum <= MAX_INT64
    ensures BackoffFrom(maximum, backoff, i, i + 1) < 0
  {
    WrapTurnsNegative(backoff * 2);
    assert BackoffFrom(maximum, Wrap64(backoff * 2), i + 1, i + 1) == Wrap64(backoff * 2);
  }

  /** The first delay of half the range or more, below the maximum. */
  lemma FirstTooLarge(initial: int, maximum: int, k: nat) returns (first: nat)
    requires 0 < initial && HALF_RANGE <= initial * Pow2(k) < maximum
    ensures first <= k && HALF_RANGE <= initial * Pow2(first) < maximum
    ensures first > 0 ==> initial * Pow2(first - 1) < HALF_RANGE && initial < HALF_RANGE
  {
    if k == 0 || initial * Pow2(k - 1) < HALF_RANGE {
      first := k;
      if k > 0 { PowAtLeastOne(initial, k - 1); }
    } else {
      DoublePow(initial, k - 1);
      PowAtLeastOne(initial, k - 1);
      first := FirstTooLarge(initial, maximum, k - 1);
    }
  }

  predicate InRange(policy: RetryPolicy) {
    policy == policy.Normalize() && policy.initialBackoff <= policy.maxBackoff <= MAX_INT64
  }

  /** The delay is the initial one doubled up to the maximum, for every attempt, exactly when doubling stays in the
      64-bit range. */
  lemma DoublesExactly(policy: RetryPolicy)
    requires InRange(policy)
    ensures Fits(policy.initialBackoff, policy.maxBackoff)
            <==> forall attempt: int {:trigger BackoffForAttempt(policy, attempt)} :: attempt >= 1 ==>
                   BackoffForAttempt(policy, attempt) == Doubling(policy, attempt)
  {
    var initial, maximum := policy.initialBackoff, policy.maxBackoff;
    if Fits(initial, maximum) {
      forall attempt: int | attempt >= 1 ensures BackoffForAttempt(policy, attempt) == Doubling(policy, attempt) {
        DoublesUp(maximum, initial, 1, attempt);
      }
    } else {
      var attempt := OverflowingAttempt(policy);
      PowAtLeastOne(initial, attempt - 1);
      assert Doubling(policy, attempt) > 0;
    }
  }

  /** Otherwise some attempt gets a negative delay, and so is due before it failed. */
  lemma OverflowingAttempt(policy: RetryPolicy) returns (attempt: int)
    requires InRange(policy) && !Fits(policy.initialBackoff, policy.maxBackoff)
    ensures attempt >= 1 && BackoffForAttempt(policy, attempt) < 0
  {
    var initial, maximum := policy.initialBackoff, policy.maxBackoff;
    if initial >= HALF_RANGE {
      attempt := 2;
      OverflowIsNegative(maximum, initial, 1);
    } else {
      var k: nat :| initial * Pow2(k) < maximum && initial * Pow2(k) >= HALF_RANGE;
      var first := FirstTooLarge(initial, maximum, k);
      attempt := first + 2;
      ReachesDoubled(maximum, initial, 1, first, attempt);
      OverflowIsNegative(maximum, initial * Pow2(first), 1 + first);
    }
  }

  /** Maxima below half the range are always safe. */
  lemma SmallMaximumFits(policy: RetryPolicy)
    requires InRange(policy) && policy.maxBackoff < HALF_RANGE
    ensures Fits(policy.initialBackoff, policy.maxBackoff)
  {
  }

  /** The delays grow with the attempts and never exceed the maximum. */
  lemma BackoffIsMonotone(policy: RetryPolicy, attempt: int, later: int)
    requires InRange(policy) && Fits(policy.initialBackoff, policy.maxBackoff) && 1 <= attempt <= later
    ensures 0 < BackoffForAttempt(policy, attempt) <= BackoffForAttempt(policy, later) <= policy.maxBackoff
  {
    DoublesUp(policy.maxBackoff, policy.initialBackoff, 1, attempt);
    DoublesUp(policy.maxBackoff, policy.initialBackoff, 1, later);
    PowAtLeastOne(policy.initialBackoff, attempt - 1);
    PowGrows(policy.initialBackoff, attempt - 1, later - 1);
  }

  lemma {:induction false} PowGrows(x: int, m: nat, n: nat)
    requires x > 0 && m <= n
    ensures x * Pow2(m) <= x * Pow2(n)
  {
    if m < n {
      PowGrows(x, m, n - 1);
      DoublePow(x, n - 1);
      PowAtLeastOne(x, n - 1);
    }
  }

  /** Normalizing gives a maximum below the initial delay exactly when a long initial delay comes with no usable
      maximum. */
  lemma NormalizedOrder(policy: RetryPolicy)
    ensures policy.Normalize().initialBackoff > policy.Normalize().maxBackoff
            <==> policy.initialBackoff > 5 * SECOND && policy.maxBackoff < policy.initialBackoff
    ensures policy.Normalize().Normalize() == policy.Normalize()
  {
  }

  /** In that case the first retry waits longer than the maximum, and every later one waits just the maximum if and
      only if the initial delay is below half the 64-bit range; otherwise already the second delay is negative. */
  lemma LongInitialDelay(policy: RetryPolicy)
    requires policy.initialBackoff > 5 * SECOND && policy.maxBackoff < policy.initialBackoff <= MAX_INT64
    ensures BackoffForAttempt(policy, 1) == policy.initialBackoff > policy.Normalize().maxBackoff == 5 * SECOND
    ensures policy.initialBackoff < HALF_RANGE
            <==> forall attempt: int {:trigger BackoffForAttempt(policy, attempt)} :: attempt >= 2 ==>
                   BackoffForAttempt(policy, attempt) == 5 * SECOND
    ensures policy.initialBackoff >= HALF_RANGE ==>
              BackoffForAttempt(policy, 2) == 2 * policy.initialBackoff - 0x1_0000_0000_0000_0000 < 0
  {
    if policy.initialBackoff < HALF_RANGE {
      WrapIsIdentity(policy.initialBackoff * 2);
    } else {
      WrapTurnsNegative(policy.initialBackoff * 2);
      OverflowIsNegativeFrom(policy.initialBackoff);
      assert BackoffForAttempt(policy, 2) < 0;
    }
  }

  lemma OverflowIsNegativeFrom(backoff: int)
    requires HALF_RANGE <= backoff <= MAX_INT64
    ensures BackoffFrom(5 * SECOND, backoff, 1, 2) == 2 * backoff - 0x1_0000_0000_0000_0000 < 0
  {
    assert BackoffFrom(5 * SECOND, Wrap64(backoff * 2), 2, 2) == Wrap64(backoff * 2);
  }
}
