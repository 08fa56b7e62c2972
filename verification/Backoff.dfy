/** The reconnect delay: the loop of ConnectionManager::attemptReconnects and its closed form. */
module Backoff {
  import opened Wire

  const U32_END := 0x1_0000_0000
  const U64_END := 0x1_0000_0000_0000_0000
  const ATTEMPT_MAX := 0xFFFF_FFFF

  type U32 = n: int | 0 <= n < 0x1_0000_0000

  function Pow2(n: nat): (p: nat)
    ensures p > 0
  {
    if n == 0 then 1 else 2 * Pow2(n - 1)
  }

  /** The delay after the failure of retry number `attempt`, counted from 0: the first is not capped. */
  function Delay(base: U32, max: U32, attempt: nat): nat {
    if attempt == 0 then base else Min(base * Pow2(attempt), max)
  }

  /** Once doubling has reached the cap it stays there. */
  lemma {:induction false} StaysCapped(base: U32, max: U32, i: nat, n: nat)
    requires i <= n && base * Pow2(i) >= max
    ensures base * Pow2(n) >= max
  {
    if i < n {
      StaysCapped(base, max, i, n - 1);
      assert base * Pow2(n) == 2 * (base * Pow2(n - 1));
    }
  }

  /** The loop, in 64-bit arithmetic that wraps around: it never does, and it finds the closed form. */
  method BackoffDelay(base: U32, max: U32, attempt: U32) returns (delay: nat)
    ensures delay == Delay(base, max, attempt)
    ensures delay < U32_END
  {
    delay := base;
    var i := 0;
    while i < attempt
      invariant 0 <= i <= attempt
      invariant delay == base * Pow2(i)
      invariant i > 0 ==> delay < max
      invariant delay < U32_END
    {
      assert delay * 2 < 0x2_0000_0000;   // so the 64-bit product is exact
      delay := delay * 2 % U64_END;
      assert delay == base * Pow2(i + 1);
      if delay >= max {
        StaysCapped(base, max, i + 1, attempt);
        return max;
      }
      i := i + 1;
    }
  }

  /** The attempt counter, which saturates. */
  function NextAttempt(attempt: U32): U32 {
    if attempt == ATTEMPT_MAX then attempt else attempt + 1
  }

  lemma {:induction false} Pow2Monotone(i: nat, n: nat)
    requires i <= n
    ensures Pow2(i) <= Pow2(n)
  {
    if i < n {
      Pow2Monotone(i, n - 1);
    }
  }

  /** From retry 32 on the delay no longer depends on the retry number, so the saturation of the
      counter cannot be seen in it. */
  lemma SaturationUnseen(base: U32, max: U32, attempt: nat)
    requires attempt >= 32
    ensures Delay(base, max, attempt) == if base == 0 then 0 else max
  {
    if base > 0 {
      assert Pow2(32) == U32_END by {
        assert Pow2(8) == 256;
        assert Pow2(16) == 0x1_0000;
        assert Pow2(24) == 0x100_0000;
      }
      Pow2Monotone(32, attempt);
      assert base * Pow2(attempt) >= Pow2(attempt) >= max;
    }
  }

  lemma DelayStep(base: U32, max: U32, a: nat, b: nat)
    requires base <= max && a <= b
    ensures Delay(base, max, a) <= Delay(base, max, b)
  {
    Pow2Monotone(a, b);
    Times(base, Pow2(a), Pow2(b));
    Times(base, 1, Pow2(b));
  }

  lemma Times(k: nat, x: nat, y: nat)
    requires x <= y
    ensures k * x <= k * y
  {
  }

  /** Delays never decrease exactly when the cap is not below the base. */
  lemma DelaysGrow(base: U32, max: U32)
    ensures base <= max <==> forall a: nat, b: nat | a <= b :: Delay(base, max, a) <= Delay(base, max, b)
  {
    if base <= max {
      forall a: nat, b: nat | a <= b ensures Delay(base, max, a) <= Delay(base, max, b) {
        DelayStep(base, max, a, b);
      }
    } else {
      assert Delay(base, max, 0) > Delay(base, max, 1);
    }
  }

  /** The time between losing a connection and retry number k, at the least. */
  function WaitBefore(base: U32, max: U32, k: nat): nat {
    if k == 0 then base else WaitBefore(base, max, k - 1) + Delay(base, max, k - 1)
  }

  /** While the cap is not reached that time doubles with every retry. */
  lemma {:induction false} WaitDoubles(base: U32, max: U32, k: nat)
    requires k <= 1 || base * Pow2(k - 1) <= max
    ensures WaitBefore(base, max, k) == base * Pow2(k)
  {
    if k >= 1 {
      if k >= 2 {
        NextDouble(base, k - 1);
      }
      WaitDoubles(base, max, k - 1);
      NextDouble(base, k);
    }
  }

  lemma NextDouble(base: U32, k: nat)
    requires k >= 1
    ensures base * Pow2(k) == 2 * (base * Pow2(k - 1))
    ensures k == 1 ==> base * Pow2(k) == 2 * base
  {
  }

  lemma CappedDelay(base: U32, max: U32, k: nat, a: nat)
    requires 1 <= k <= a && base * Pow2(k) >= max
    ensures Delay(base, max, a) == max
  {
    StaysCapped(base, max, k, a);
  }

  /** Afterwards it grows by `max` with every retry. */
  lemma {:induction false} WaitAtCap(base: U32, max: U32, k: nat, n: nat)
    requires k >= 1 && base * Pow2(k) >= max
    ensures WaitBefore(base, max, k + n) == WaitBefore(base, max, k) + n * max
  {
    if n > 0 {
      WaitAtCap(base, max, k, n - 1);
      CappedDelay(base, max, k, k + n - 1);
      OneMoreTime(n, max);
    }
  }

  lemma OneMoreTime(n: int, x: int)
    ensures n * x == (n - 1) * x + x
  {
  }
}
