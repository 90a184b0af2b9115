/** The retry delay `30 << (attempt - 1)` in 64-bit arithmetic. */
module Backoff {
  import opened Prelude
  import opened JobRows

  function Pow2(k: nat): (p: nat)
    ensures p >= 1
  {
    if k == 0 then 1 else 2 * Pow2(k - 1)
  }

  lemma {:induction false} Pow2Grows(a: nat, b: nat)
    requires a <= b
    ensures Pow2(a) <= Pow2(b)
  {
    if a < b { Pow2Grows(a, b - 1); }
  }

  lemma {:induction false} Pow2Sum(a: nat, b: nat)
    ensures Pow2(a + b) == Pow2(a) * Pow2(b)
  {
    if b > 0 { Pow2Sum(a, b - 1); }
  }

  lemma Pow2Of2()
    ensures Pow2(2) == 4
  {
  }

  lemma Pow2Of58()
    ensures Pow2(58) == 0x400_0000_0000_0000
  {
    hide Pow2;
    Pow2Of2();
    Pow2Sum(2, 2);
    Pow2Sum(4, 4);
    Pow2Sum(8, 8);
    Pow2Sum(16, 16);
    Pow2Sum(32, 16);
    Pow2Sum(48, 8);
    Pow2Sum(56, 2);
  }

  lemma {:induction false} ExactShift(k: nat)
    requires k <= 58
    ensures Shl64(BACKOFF_SECONDS, k) == 30 * Pow2(k)
  {
    if k > 0 {
      ExactShift(k - 1);
      Pow2Grows(k, 58);
      Pow2Of58();
    }
  }

  function Overflowed(k: nat): int
    requires k >= 59
  {
    if k == 59 then -0x1000_0000_0000_0000
    else if k == 60 then -0x2000_0000_0000_0000
    else if k == 61 then -0x4000_0000_0000_0000
    else if k == 62 then -0x8000_0000_0000_0000
    else 0
  }

  lemma OverflowedStep(k: nat)
    requires k >= 60
    ensures Double64(Overflowed(k - 1)) == Overflowed(k)
  {
  }

  lemma FirstOverflow(k: nat)
    requires k == 59
    ensures Shl64(BACKOFF_SECONDS, k) == -0x1000_0000_0000_0000
  {
    var x := 0x400_0000_0000_0000;
    assert Double64(30 * x) == -0x1000_0000_0000_0000;
    ExactShift(k - 1);
    Pow2Of58();
    assert Shl64(BACKOFF_SECONDS, k - 1) == 30 * x;
  }

  lemma {:induction false} OverflowedShift(k: nat)
    requires k >= 59
    ensures Shl64(BACKOFF_SECONDS, k) == Overflowed(k)
  {
    if k == 59 {
      FirstOverflow(k);
    } else {
      OverflowedShift(k - 1);
      OverflowedStep(k);
    }
  }

  /** Up to 58 places the shift is exact; after that it has overflowed. */
  lemma ShiftValue(k: nat)
    ensures k <= 58 ==> Shl64(BACKOFF_SECONDS, k) == 30 * Pow2(k)
    ensures k >= 59 ==> Shl64(BACKOFF_SECONDS, k) <= 0
  {
    if k <= 58 { ExactShift(k); } else { OverflowedShift(k); }
  }

  /** The documented 30 to 300 seconds hold exactly up to the 59th attempt; the
      code itself never sets max_attempts above 15. */
  lemma DelayInRange(attempt: nat)
    ensures 30 <= RetryDelay(attempt) <= 300 <==> attempt <= 59
  {
    if attempt > 1 { ShiftValue(attempt - 1); }
  }

  lemma DelayGrows(a: nat, b: nat)
    requires a <= b <= 59
    ensures RetryDelay(a) <= RetryDelay(b)
  {
    if a > 1 {
      ShiftValue(a - 1);
      ShiftValue(b - 1);
      Pow2Grows(a - 1, b - 1);
    } else {
      DelayInRange(b);
    }
  }

  /** No earlier attempt waited longer, exactly up to the 59th attempt. */
  lemma DelayNeverShrinks(b: nat)
    ensures (forall a: nat :: a <= b ==> RetryDelay(a) <= RetryDelay(b)) <==> b <= 59
  {
    if b <= 59 {
      forall a: nat | a <= b ensures RetryDelay(a) <= RetryDelay(b) { DelayGrows(a, b); }
    } else {
      ShiftValue(b - 1);
      assert RetryDelay(0) == BACKOFF_SECONDS;
    }
  }

  /** A job the reaper puts back waits 30 to 300 seconds, and no less than after any
      earlier attempt, if and only if it is on its 59th attempt at most: always,
      under a budget of up to 60 attempts. */
  lemma RequeueDelay(j: Job, now: Time)
    requires Reapable(j, now) && Verdict(j).None?
    ensures Reaped(j, now).state == Pending && Reaped(j, now).retryAt.Some?
    ensures now + 30 <= Reaped(j, now).retryAt.value <= now + 300 <==> j.attempt <= 59
    ensures (forall a: nat :: a <= j.attempt ==> now + RetryDelay(a) <= Reaped(j, now).retryAt.value)
        <==> j.attempt <= 59
    ensures EffectiveMax(j) <= 60 ==> j.attempt <= 59
  {
    DelayInRange(j.attempt);
    DelayNeverShrinks(j.attempt);
    if j.attempt > 59 {
      ShiftValue(j.attempt - 1);
      assert RetryDelay(0) == BACKOFF_SECONDS;
    }
  }
}
