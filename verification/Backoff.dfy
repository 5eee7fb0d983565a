/**
 The retry delay of the webhook dispatcher: a 64-bit shift, a saturating multiply and a clamp. In
 the release build that ships, a shift count is taken modulo 64.
 */
module Backoff {
  const BASE_SECS := 10
  const CAP_SECS := 3600
  const U64_MAX := 0xFFFF_FFFF_FFFF_FFFF

  function Pow2(n: nat): (p: nat)
    ensures p >= 1
  {
    if n == 0 then 1 else 2 * Pow2(n - 1)
  }

  /** `1u64 << n` in a release build. */
  function ShiftOne(n: nat): nat { Pow2(n % 64) }

  function SaturatingMul(x: nat, y: nat): nat { if x * y > U64_MAX then U64_MAX else x * y }

  /** The largest delay that may be drawn after attempt number `attempts`. */
  function Ceiling(attempts: int): nat {
    var exp := SaturatingMul(BASE_SECS, ShiftOne((if attempts > 1 then attempts else 1) - 1));
    var capped := if exp < CAP_SECS then exp else CAP_SECS;
    if capped > 1 then capped else 1
  }

  /** What it is meant to be: ten seconds, doubling with each attempt, up to an hour. */
  function Doubling(n: nat): nat
    requires n >= 1
  {
    if 10 * Pow2(n - 1) < 3600 then 10 * Pow2(n - 1) else 3600
  }

  lemma {:induction false} Pow2Grows(n: nat, m: nat)
    requires n <= m
    ensures Pow2(n) <= Pow2(m)
  {
    if n < m {
      Pow2Grows(n, m - 1);
    }
  }

  lemma SmallPowers()
    ensures Pow2(8) == 256 && Pow2(9) == 512
  {
    assert Pow2(4) == 16;
  }

  lemma CeilingByExponent(n: nat)
    requires n >= 1
    ensures var k := (n - 1) % 64;
      Ceiling(n) == if k <= 8 then BASE_SECS * Pow2(k) else CAP_SECS
  {
    var k := (n - 1) % 64;
    SmallPowers();
    if k <= 8 {
      Pow2Grows(k, 8);
    } else {
      Pow2Grows(9, k);
    }
  }

  lemma DoublingByExponent(n: nat)
    requires n >= 1
    ensures Doubling(n) == if n <= 9 then 10 * Pow2(n - 1) else 3600
  {
    SmallPowers();
    if n <= 9 {
      Pow2Grows(n - 1, 8);
    } else {
      Pow2Grows(9, n - 1);
    }
  }

  /** The shift, multiply and clamp give the capped doubling exactly until the shift wraps into its low range. */
  lemma BackoffIsCappedDoubling(n: nat)
    requires n >= 1
    ensures Ceiling(n) == Doubling(n) <==> n <= 64 || (n - 1) % 64 >= 9
  {
    CeilingByExponent(n);
    DoublingByExponent(n);
    SmallPowers();
    if n <= 64 {
      assert (n - 1) % 64 == n - 1;
    } else if (n - 1) % 64 <= 8 {
      Pow2Grows((n - 1) % 64, 8);
    }
  }

  /** The first wrapped attempt: after the 65th the delay falls back from an hour to ten seconds. */
  lemma BackoffWraps()
    ensures Ceiling(64) == 3600 && Ceiling(65) == 10 && Doubling(65) == 3600
  {
    CeilingByExponent(64);
    CeilingByExponent(65);
    DoublingByExponent(65);
  }

  lemma CeilingUpTo64(n: nat)
    requires 1 <= n <= 64
    ensures Ceiling(n) == if n <= 9 then BASE_SECS * Pow2(n - 1) else CAP_SECS
  {
    CeilingByExponent(n);
    assert (n - 1) % 64 == n - 1;
  }

  lemma BackoffNeverShrinks(n: nat, m: nat)
    requires 1 <= n <= m <= 64
    ensures Ceiling(n) <= Ceiling(m)
  {
    CeilingUpTo64(n);
    CeilingUpTo64(m);
    SmallPowers();
    Pow2Grows(n - 1, m - 1);
    if n <= 9 {
      Pow2Grows(n - 1, 8);
    }
  }

  /** The longest that the first `n` delays can take together. */
  function WorstTotal(n: nat): nat {
    if n == 0 then 0 else WorstTotal(n - 1) + Ceiling(n)
  }

  function Budget(n: nat): nat {
    if n <= 9 then 10 * (Pow2(n) - 1) else 5110 + 3600 * (n - 9)
  }

  lemma BudgetGrows(n: nat)
    requires 1 <= n <= 64
    ensures Budget(n - 1) + Ceiling(n) == Budget(n)
  {
    CeilingUpTo64(n);
    SmallPowers();
  }

  /** Ten times (2^n - 1) seconds up to nine delays, and an hour for each one beyond. */
  lemma {:induction false} RetryBudget(n: nat)
    requires n <= 64
    ensures WorstTotal(n) == Budget(n)
  {
    if n > 0 {
      RetryBudget(n - 1);
      BudgetGrows(n);
    }
  }
}
