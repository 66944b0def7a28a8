/** How long a failed message waits before it is published again. */
module Backoff {
  function Pow2(n: nat): (r: nat)
    ensures r >= 1
  {
    if n == 0 then 1 else 2 * Pow2(n - 1)
  }

  /** Doubles overflow to infinity from here on. */
  const MAX_EXPONENT: nat := 1024

  function Finite(n: nat): bool {
    n < Pow2(MAX_EXPONENT)
  }

  function Min(a: int, b: int): int {
    if a < b then a else b
  }

  function ComputeBackoffMs(attempt: int, baseMs: int, maxMs: int): int {
    if baseMs <= 0 then 0
    else if maxMs < baseMs then maxMs
    else if attempt < 1 then baseMs
    else if attempt - 1 >= MAX_EXPONENT then maxMs
    else if !Finite(baseMs * Pow2(attempt - 1)) then maxMs
    else Min(baseMs * Pow2(attempt - 1), maxMs)
  }

  lemma {:induction false} Pow2Monotone(m: nat, n: nat)
    requires m <= n
    ensures Pow2(m) <= Pow2(n)
  {
    if m < n {
      Pow2Monotone(m, n - 1);
    }
  }

  lemma {:induction false} ScaleMonotone(k: nat, a: nat, b: nat)
    requires a <= b
    ensures k * a <= k * b
  {
  }

  /** The overflow guards are invisible: for any cap a double can hold, the delay is the capped power of two. */
  lemma {:induction false} BackoffIsCappedDoubling(attempt: int, baseMs: int, maxMs: int)
    requires 0 < baseMs <= maxMs && Finite(maxMs) && attempt >= 1
    ensures ComputeBackoffMs(attempt, baseMs, maxMs) == Min(baseMs * Pow2(attempt - 1), maxMs)
  {
    if attempt - 1 >= MAX_EXPONENT {
      Pow2Monotone(MAX_EXPONENT, attempt - 1);
      ScaleMonotone(Pow2(attempt - 1), 1, baseMs);
    }
  }

  /** Delays never shrink from one attempt to the next. */
  lemma {:induction false} BackoffMonotone(a: int, b: int, baseMs: int, maxMs: int)
    requires a <= b && (maxMs >= 0 ==> Finite(maxMs))
    ensures ComputeBackoffMs(a, baseMs, maxMs) <= ComputeBackoffMs(b, baseMs, maxMs)
  {
    if 0 < baseMs <= maxMs && b >= 1 {
      BackoffIsCappedDoubling(b, baseMs, maxMs);
      if a >= 1 {
        BackoffIsCappedDoubling(a, baseMs, maxMs);
        Pow2Monotone(a - 1, b - 1);
        ScaleMonotone(baseMs, Pow2(a - 1), Pow2(b - 1));
      } else {
        ScaleMonotone(baseMs, 1, Pow2(b - 1));
      }
    }
  }

  /** The cap holds exactly unless backoff is switched off by a base that is not positive while the cap is
      negative. */
  lemma {:induction false} BackoffCapped(attempt: int, baseMs: int, maxMs: int)
    ensures ComputeBackoffMs(attempt, baseMs, maxMs) <= maxMs <==> baseMs > 0 || maxMs >= 0
  {
  }
}
