/** Exponential backoff, in nanoseconds, with the source's machine arithmetic written out. */
module Retry {
  import opened Domain

  /** `maxAttempts` and `base` are the clamped values `new` stores. */
  datatype RetryPolicy = RetryPolicy(base: nat, max: nat, maxAttempts: nat)

  const U128_MAX: nat := 0xFFFF_FFFF_FFFF_FFFF_FFFF_FFFF_FFFF_FFFF

  function NewPolicy(base: nat, max: nat, maxAttempts: nat): (p: RetryPolicy)
    ensures p.maxAttempts >= 1 && p.base >= NANOS_PER_MILLI
  {
    RetryPolicy(Max(base, NANOS_PER_MILLI), max, Max(maxAttempts, 1))
  }

  function Pow2(n: nat): nat {
    if n == 0 then 1 else 2 * Pow2(n - 1)
  }

  function Pow256(n: nat): nat {
    if n == 0 then 1 else 256 * Pow256(n - 1)
  }

  /** Little-endian bytes of `x`, lowest first. */
  function ToLeBytes(x: nat, n: nat): (bytes: seq<nat>)
    ensures |bytes| == n
  {
    if n == 0 then [] else [x % 256] + ToLeBytes(x / 256, n - 1)
  }

  function FromLeBytes(bytes: seq<nat>): nat {
    if bytes == [] then 0 else bytes[0] + 256 * FromLeBytes(bytes[1..])
  }

  /** `u64::from_le_bytes` of the low half of a 128-bit value. */
  function LowHalf(x: nat): nat { FromLeBytes(ToLeBytes(x, 16)[..8]) }

  function Factor(attempt: nat): nat { Min(if attempt == 0 then 0 else attempt - 1, 31) }

  /** `1_u64 << factor`; the factor is at most 31, so no bit is lost. */
  function Multiplier(attempt: nat): nat { Pow2(Factor(attempt)) }

  function Clamp(x: nat, cap: nat): nat { if x <= cap then x else cap }

  function Times(x: nat, k: nat): nat { x * k }

  /** `RetryPolicy::backoff_after`: clamp, saturating 128-bit multiply, clamp, truncate through bytes. */
  function BackoffAfter(p: RetryPolicy, attempt: nat): nat {
    var raw := Clamp(Times(Clamp(p.base, U64_MAX), Multiplier(attempt)), U128_MAX);
    Clamp(LowHalf(Clamp(raw, U64_MAX)), p.max)
  }

  /** What the delay is meant to be. */
  function Backoff(p: RetryPolicy, attempt: nat): int {
    Min(p.max, Min(p.base * Pow2(Factor(attempt)), U64_MAX))
  }

  lemma {:induction false} LowBytesRoundTrip(x: nat, n: nat, m: nat)
    requires m <= n && x < Pow256(m)
    ensures FromLeBytes(ToLeBytes(x, n)[..m]) == x
  {
    if m > 0 {
      var bytes := ToLeBytes(x, n);
      LowBytesRoundTrip(x / 256, n - 1, m - 1);
      assert bytes[..m][1..] == ToLeBytes(x / 256, n - 1)[..m - 1];
    }
  }

  lemma {:induction false} PowGrows(m: nat, n: nat)
    requires m <= n
    ensures 1 <= Pow2(m) <= Pow2(n)
  {
    if n > 0 {
      PowGrows(Min(m, n - 1), n - 1);
    }
  }

  lemma SmallPowers()
    ensures Pow2(31) == 0x8000_0000
    ensures Pow256(8) == U64_MAX + 1
  {
    assert Pow2(8) == 256;
    assert Pow2(16) == 65536 by { assert Pow2(12) == 4096; }
    assert Pow2(24) == 0x100_0000 by { assert Pow2(20) == 0x10_0000; }
    assert Pow2(31) == 0x8000_0000 by { assert Pow2(28) == 0x1000_0000; }
    assert Pow256(8) == U64_MAX + 1 by { assert Pow256(4) == 0x1_0000_0000; }
  }

  lemma MultiplyGrows(a: nat, b: nat, c: nat, d: nat)
    requires a <= b && c <= d
    ensures a * c <= b * d
  {
  }

  /** Clamping the base first does not change the clamped product. */
  lemma ClampCommutes(base: nat, k: nat)
    requires k >= 1
    ensures Clamp(Times(Clamp(base, U64_MAX), k), U64_MAX) == Min(base * k, U64_MAX)
  {
  }

  lemma LowHalfOfSmall(x: nat)
    requires x <= U64_MAX
    ensures LowHalf(x) == x
  {
    SmallPowers();
    LowBytesRoundTrip(x, 16, 8);
  }

  lemma MultiplierIsPower(attempt: nat)
    ensures 1 <= Multiplier(attempt) == Pow2(Factor(attempt)) <= 0x8000_0000
  {
    SmallPowers();
    PowGrows(Factor(attempt), 31);
  }

  /** The 128-bit multiplication never saturates. */
  lemma ProductFits(base: nat, k: nat)
    requires base <= U64_MAX && k <= 0x8000_0000
    ensures Times(base, k) <= U128_MAX
  {
    MultiplyGrows(base, U64_MAX, k, 0x8000_0000);
  }

  lemma ClampedProduct(base: nat, k: nat)
    requires 1 <= k <= 0x8000_0000
    ensures LowHalf(Clamp(Clamp(Times(Clamp(base, U64_MAX), k), U128_MAX), U64_MAX)) == Min(base * k, U64_MAX)
  {
    var product := Times(Clamp(base, U64_MAX), k);
    ProductFits(Clamp(base, U64_MAX), k);
    ClampCommutes(base, k);
    LowHalfOfSmall(Clamp(product, U64_MAX));
  }

  /** The machine arithmetic computes the intended delay for every policy and attempt. */
  lemma BackoffRefines(p: RetryPolicy, attempt: nat)
    ensures BackoffAfter(p, attempt) == Backoff(p, attempt)
  {
    MultiplierIsPower(attempt);
    ClampedProduct(p.base, Multiplier(attempt));
  }

  lemma BackoffCapped(p: RetryPolicy, attempt: nat)
    ensures BackoffAfter(p, attempt) <= p.max
  {
    BackoffRefines(p, attempt);
  }

  /** Later attempts never wait less, and no wait exceeds the cap. */
  lemma BackoffMonotone(p: RetryPolicy, i: nat, j: nat)
    requires i <= j
    ensures BackoffAfter(p, i) <= BackoffAfter(p, j) <= p.max
  {
    BackoffRefines(p, i);
    BackoffRefines(p, j);
    PowGrows(Factor(i), Factor(j));
    MultiplyGrows(p.base, p.base, Pow2(Factor(i)), Pow2(Factor(j)));
  }

  function Sum(delays: seq<nat>): nat {
    if delays == [] then 0 else Sum(delays[..|delays| - 1]) + delays[|delays| - 1]
  }

  predicate Capped(delays: seq<nat>, cap: nat) {
    forall i :: 0 <= i < |delays| ==> delays[i] <= cap
  }

  lemma {:induction false} SumBounded(delays: seq<nat>, n: nat, cap: nat)
    requires |delays| <= n && Capped(delays, cap)
    ensures Sum(delays) <= n * cap
  {
    if delays != [] {
      SumBounded(delays[..|delays| - 1], n - 1, cap);
      assert n * cap == (n - 1) * cap + cap;
    }
  }

  /** The k-th sleep is the policy's delay after attempt k. */
  predicate BacksOff(slept: seq<nat>, p: RetryPolicy) {
    forall k :: 1 <= k <= |slept| ==> slept[k - 1] == BackoffAfter(p, k)
  }

  lemma BacksOffAgain(slept: seq<nat>, p: RetryPolicy)
    requires BacksOff(slept, p)
    ensures BacksOff(slept + [BackoffAfter(p, |slept| + 1)], p)
  {
  }

  lemma SleepsAreCapped(slept: seq<nat>, p: RetryPolicy)
    requires BacksOff(slept, p)
    ensures Capped(slept, p.max)
  {
    forall i | 0 <= i < |slept| ensures slept[i] <= p.max {
      assert slept[i] == BackoffAfter(p, i + 1);
      BackoffCapped(p, i + 1);
    }
  }

  /** A run that backs off before each retry sleeps at most `(maxAttempts - 1) * max` in total. */
  lemma TotalSleepBounded(p: RetryPolicy, slept: seq<nat>)
    requires |slept| < p.maxAttempts && BacksOff(slept, p)
    ensures Sum(slept) <= (p.maxAttempts - 1) * p.max
  {
    SleepsAreCapped(slept, p);
    SumBounded(slept, p.maxAttempts - 1, p.max);
  }
}
