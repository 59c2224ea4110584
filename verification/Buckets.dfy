/** The geometric padding buckets of attachments, read over exact reals. */
module Buckets {
  import opened Powers

  const MIN_BUCKET: nat := 541
  const GROWTH: real := 1.05

  function Power(k: nat): (p: real)
    ensures p >= 1.0
  {
    if k == 0 then 1.0 else GROWTH * Power(k - 1)
  }

  /** A power of 1.05 is one of 21 over one of 20. */
  lemma {:induction false} PowerIsFraction(k: nat)
    ensures Power(k) * Pow(20, k) as real == Pow(21, k) as real
  {
    if k > 0 {
      PowerIsFraction(k - 1);
      var p, d := Power(k - 1), Pow(20, k - 1) as real;
      assert Power(k) * Pow(20, k) as real == (1.05 * p) * (20.0 * d) == 21.0 * (p * d);
    }
  }

  lemma {:induction false} PowerGrowsLinearly(k: nat)
    ensures Power(k) >= 1.0 + k as real / 20.0
  {
    if k > 0 {
      PowerGrowsLinearly(k - 1);
    }
  }

  lemma {:induction false} PowerMonotone(j: nat, k: nat)
    requires j <= k
    ensures Power(j) <= Power(k)
    decreases k
  {
    if j < k {
      PowerMonotone(j, k - 1);
    }
  }

  /** The least exponent from `k` on whose power reaches `n`. */
  function ExponentFrom(n: nat, k: nat): (e: nat)
    ensures e >= k && Power(e) >= n as real
    ensures e > k ==> Power(e - 1) < n as real
    decreases 20 * n - k
  {
    PowerGrowsLinearly(k);
    if Power(k) >= n as real then k else ExponentFrom(n, k + 1)
  }

  /** The ceiling of the logarithm of n to base 1.05. */
  function Exponent(n: nat): nat {
    ExponentFrom(n, 0)
  }

  lemma ExponentIsLeast(n: nat, k: nat)
    ensures Exponent(n) <= k <==> Power(k) >= n as real
  {
    if Exponent(n) <= k {
      PowerMonotone(Exponent(n), k);
    } else {
      PowerMonotone(k, Exponent(n) - 1);
    }
  }

  function Bucket(n: nat): nat {
    Power(Exponent(n)).Floor
  }

  function PaddedSize(n: nat): nat {
    if n <= MIN_BUCKET then MIN_BUCKET
    else if Bucket(n) < n then n else Bucket(n)
  }

  /** The final clamp of the source is never taken, and a bucket wastes at most five percent. */
  lemma BucketBounds(n: nat)
    requires n > 541
    ensures n <= Bucket(n) && PaddedSize(n) == Bucket(n)
    ensures exists e: nat :: e > 0 && Power(e - 1) < n as real <= Power(e) && PaddedSize(n) == Power(e).Floor
    ensures PaddedSize(n) as real <= 1.05 * n as real
  {
  }

  lemma PaddedSizeBounds(n: nat)
    ensures n <= PaddedSize(n) && 541 <= PaddedSize(n)
    ensures n <= 541 ==> PaddedSize(n) == 541
    ensures n > 541 ==> PaddedSize(n) as real <= 1.05 * n as real
  {
    if n > MIN_BUCKET {
      BucketBounds(n);
    }
  }

  lemma PaddedSizeMonotone(m: nat, n: nat)
    requires m <= n
    ensures PaddedSize(m) <= PaddedSize(n)
  {
    if m > MIN_BUCKET {
      BucketBounds(m);
      BucketBounds(n);
      ExponentIsLeast(m, Exponent(n));
      PowerMonotone(Exponent(m), Exponent(n));
    } else {
      PaddedSizeBounds(n);
    }
  }

  lemma PaddedSizeIdempotent(n: nat)
    ensures PaddedSize(PaddedSize(n)) == PaddedSize(n)
  {
    if n > MIN_BUCKET {
      BucketBounds(n);
      var b := Bucket(n);
      BucketBounds(b);
      ExponentIsLeast(b, Exponent(n));
      ExponentIsLeast(n, Exponent(b));
      assert Exponent(b) == Exponent(n);
    }
  }

  /** Two sizes share a bucket exactly when no power of 1.05 separates them. */
  lemma SameBucket(m: nat, n: nat)
    requires 541 < m <= n
    ensures Exponent(m) == Exponent(n) ==> PaddedSize(m) == PaddedSize(n)
    ensures Exponent(m) == Exponent(n) <==> n <= Bucket(m)
  {
    BucketBounds(m);
    ExponentIsLeast(n, Exponent(m));
    ExponentIsLeast(m, Exponent(n));
  }
}
