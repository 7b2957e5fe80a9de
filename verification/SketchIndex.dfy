/**
 The bucket layout of a `DDSketch` over every u64 (`DDSketch::new`): `index_of`, the number of
 buckets, and the value estimated for a bucket. Logarithms are exact reals.
 */
module SketchIndex {
  import opened RealPow

  const U64_MAX: nat := 0xFFFF_FFFF_FFFF_FFFF

  predicate IsAlpha(alpha: real) {
    0.0 < alpha < 1.0
  }

  function Gamma(alpha: real): real
    requires IsAlpha(alpha)
  {
    (1.0 + alpha) / (1.0 - alpha)
  }

  /** `g` is the ratio between the largest and the smallest value of a log bucket. */
  predicate Ratio(alpha: real, g: real) {
    IsAlpha(alpha) && g > 1.0 && g * (1.0 - alpha) == 1.0 + alpha && (0.5 * (g + 1.0)) * (1.0 - alpha) == 1.0
  }

  lemma GammaIsRatio(alpha: real)
    requires IsAlpha(alpha)
    ensures Ratio(alpha, Gamma(alpha))
    ensures Gamma(alpha) < 2.0 <==> 3.0 * alpha < 1.0
  {
    var g, d := Gamma(alpha), 1.0 - alpha;
    assert g * d == 1.0 + alpha;
    assert (g - 1.0) * d == g * d - d;
    assert (2.0 - g) * d == 2.0 * d - g * d;
    assert (0.5 * (g + 1.0)) * d == 0.5 * (g * d + d);
    Sign(g - 1.0, d);
    Sign(2.0 - g, d);
  }

  lemma Sign(c: real, d: real)
    requires d > 0.0
    ensures c * d > 0.0 <==> c > 0.0
  {
  }

  lemma StrictProduct(a: real, b: real)
    requires a > 0.0 && b > 0.0
    ensures a * b > 0.0
  {
  }

  /** Number of exact buckets: the rounded-up index at which log buckets reach width one. */
  function LinearBuckets(g: real): nat
    requires g > 1.0
  {
    CeilLog(g, 1.0 / (g - 1.0))
  }

  function Cutoff(g: real): nat
    requires g > 1.0
  {
    LinearBuckets(g) + 1
  }

  function NumBuckets(g: real): nat
    requires g > 1.0
  {
    var logLimit := CeilLog(g, U64_MAX as real);
    var rest := CeilLog(g, (U64_MAX as real) / (g - 1.0));
    (if logLimit <= LinearBuckets(g) then logLimit + 2 else LinearBuckets(g) + rest + 2) - 1
  }

  function IndexOf(g: real, value: nat): nat
    requires g > 1.0
  {
    if value < Cutoff(g) then value else CeilLog(g, value as real) + 1
  }

  lemma Reciprocal(g: real)
    requires g > 1.0
    ensures (1.0 / (g - 1.0)) * (g - 1.0) == 1.0
    ensures 1.0 / (g - 1.0) > 1.0 <==> g < 2.0
  {
    var d, r := g - 1.0, 1.0 / (g - 1.0);
    assert r * d == 1.0;
    assert (r - 1.0) * d == r * d - d;
    if r > 1.0 {
      StrictProduct(r - 1.0, d);
    } else {
      Product(1.0 - r, d);
      assert (1.0 - r) * d == -((r - 1.0) * d);
    }
  }

  /** Up to the cutoff a power stays below its exponent plus one, so log buckets are narrower than one. */
  lemma PowBelowCutoff(g: real, n: nat)
    requires g > 1.0 && 1 <= n <= LinearBuckets(g)
    ensures Pow(g, n) < n as real + 1.0
  {
    Reciprocal(g);
    PowBelow(g, 1.0 / (g - 1.0), n);
  }

  lemma PowBelow(g: real, r: real, n: nat)
    requires g > 1.0 && r * (g - 1.0) == 1.0 && 1 <= n <= CeilLog(g, r)
    ensures Pow(g, n) < n as real + 1.0
  {
    hide Pow, CeilLog;
    PowGrowth(g, n);
    PowMonotone(g, n - 1, CeilLog(g, r) - 1);
    BelowStep(g - 1.0, r, Pow(g, n - 1), n as real, Pow(g, n));
  }

  lemma BelowStep(d: real, r: real, p: real, n: real, q: real)
    requires d > 0.0 && r * d == 1.0 && p < r && n > 0.0 && q - 1.0 <= n * (d * p)
    ensures q < n + 1.0
  {
    StrictProduct(d, r - p);
    assert d * (r - p) == r * d - d * p;
    StrictProduct(n, 1.0 - d * p);
    assert n * (1.0 - d * p) == n - n * (d * p);
  }

  /** Every log bucket lies above every exact bucket. */
  lemma LogAboveLinear(g: real, value: nat)
    requires g > 1.0 && value >= Cutoff(g)
    ensures IndexOf(g, value) > LinearBuckets(g)
  {
    var c := LinearBuckets(g);
    if c > 0 {
      PowBelowCutoff(g, c);
      CeilLogIs(g, value as real, c);
    }
  }

  /** `index_of` is monotone, also across the change from exact to log buckets. */
  lemma IndexMonotone(g: real, v: nat, w: nat)
    requires g > 1.0 && v <= w
    ensures IndexOf(g, v) <= IndexOf(g, w)
  {
    if v < Cutoff(g) <= w {
      LogAboveLinear(g, w);
    } else if Cutoff(g) <= v {
      CeilLogMonotone(g, v as real, w as real);
    }
  }

  /** If all log buckets would be below the cutoff then every u64 has an exact bucket. */
  lemma TinyAlpha(g: real)
    requires g > 1.0 && CeilLog(g, U64_MAX as real) <= LinearBuckets(g)
    ensures U64_MAX <= CeilLog(g, U64_MAX as real)
  {
    var n := CeilLog(g, U64_MAX as real);
    assert Pow(g, 0) == 1.0;
    assert n >= 1;
    PowBelowCutoff(g, n);
  }

  lemma ScaledLimit(g: real)
    requires g > 1.0
    ensures g < 2.0 ==> (U64_MAX as real) / (g - 1.0) >= U64_MAX as real
    ensures g >= 2.0 ==> (U64_MAX as real) / (g - 1.0) <= U64_MAX as real
  {
    var m, d := U64_MAX as real, g - 1.0;
    var q := m / d;
    assert q * d == m;
    assert (q - m) * d == m * (1.0 - d);
    if g < 2.0 {
      Product(m, 1.0 - d);
      Factor(q - m, d);
    } else {
      Product(m, d - 1.0);
      assert (m - q) * d == m * (d - 1.0);
      Factor(m - q, d);
    }
  }

  lemma LinearBucketsPositive(g: real)
    requires g > 1.0
    ensures LinearBuckets(g) > 0 <==> g < 2.0
  {
    Reciprocal(g);
    CeilLogIs(g, 1.0 / (g - 1.0), 0);
  }

  lemma IndexInRange(g: real, value: nat)
    requires 1.0 < g < 2.0 && value <= U64_MAX
    ensures IndexOf(g, value) < NumBuckets(g)
  {
    LinearBucketsPositive(g);
    if CeilLog(g, U64_MAX as real) <= LinearBuckets(g) {
      TinyAlpha(g);
    } else {
      ScaledLimit(g);
      CeilLogMonotone(g, U64_MAX as real, (U64_MAX as real) / (g - 1.0));
      if value >= Cutoff(g) {
        CeilLogMonotone(g, value as real, U64_MAX as real);
      }
    }
  }

  /** Two values of one log bucket are at most a factor of gamma apart. */
  lemma SameLogBucket(g: real, v: nat, w: nat)
    requires g > 1.0 && Cutoff(g) <= v <= w && IndexOf(g, w) == IndexOf(g, v)
    ensures w as real <= g * v as real
  {
    hide Pow, CeilLog;
    var i := CeilLog(g, v as real);
    if i > 0 {
      StepBelow(g, i, v as real);
    } else {
      StartBelow(g, v as real);
    }
  }

  /** With two exact buckets or more next to log buckets, no u64 reaches the last bucket. */
  lemma LastBucketUnused(g: real, value: nat)
    requires 1.0 < g < 2.0 && LinearBuckets(g) >= 2 && CeilLog(g, U64_MAX as real) > LinearBuckets(g)
    requires Cutoff(g) <= value <= U64_MAX
    ensures IndexOf(g, value) < NumBuckets(g) - 1
  {
    ScaledLimit(g);
    CeilLogMonotone(g, U64_MAX as real, (U64_MAX as real) / (g - 1.0));
    CeilLogMonotone(g, value as real, U64_MAX as real);
  }

  /**
   The sketch has a bucket for every u64 exactly when alpha < 1/3. From 1/3 on there is no exact
   region to pay for the extra bucket of zero, and the largest samples index past the end, although
   the documentation only excludes alphas outside (0, 1).
   */
  lemma EveryValueHasABucketIff(alpha: real)
    requires IsAlpha(alpha)
    ensures Gamma(alpha) > 1.0
    ensures (forall v: nat | v <= U64_MAX :: IndexOf(Gamma(alpha), v) < NumBuckets(Gamma(alpha)))
            <==> 3.0 * alpha < 1.0
  {
    GammaIsRatio(alpha);
    var g := Gamma(alpha);
    if g < 2.0 {
      forall v: nat | v <= U64_MAX
        ensures IndexOf(g, v) < NumBuckets(g)
      {
        IndexInRange(g, v);
      }
    } else {
      LinearBucketsPositive(g);
      ScaledLimit(g);
      CeilLogIs(g, U64_MAX as real, 0);
      CeilLogMonotone(g, (U64_MAX as real) / (g - 1.0), U64_MAX as real);
      assert IndexOf(g, U64_MAX) >= NumBuckets(g);
    }
  }

  // ------------------------------------------------------------------ the estimate of a bucket

  /** The value reported for exponent `i`, before rounding. */
  function Estimate(g: real, i: nat): real
    requires g > 1.0
  {
    IPow(g, i) / (0.5 * (g + 1.0))
  }

  predicate Within(alpha: real, x: real, e: real) {
    x - alpha * x <= e <= x + alpha * x
  }

  lemma EstimateIs(alpha: real, g: real, i: nat)
    requires Ratio(alpha, g)
    ensures Estimate(g, i) == (1.0 - alpha) * Pow(g, i)
  {
    hide Pow, IPow;
    IPowIsPow(g, i);
    DivideScale(Pow(g, i), 0.5 * (g + 1.0), 1.0 - alpha);
  }

  lemma DivideScale(p: real, h: real, d: real)
    requires h > 0.0 && h * d == 1.0
    ensures p / h == d * p
  {
    var e := p / h;
    assert p == e * h;
    assert d * (e * h) == e * (h * d);
  }

  lemma ScaleOrder(d: real, a: real, b: real)
    requires d > 0.0
    ensures d * a <= d * b <==> a <= b
  {
    assert d * (b - a) == d * b - d * a;
    if a <= b {
      Product(d, b - a);
    } else {
      StrictProduct(d, a - b);
      assert d * (a - b) == -(d * (b - a));
    }
  }

  /** The estimate for exponent i is within alpha of x exactly when x <= gamma^i <= gamma * x. */
  lemma EstimateWithinIff(alpha: real, g: real, i: nat, x: real)
    requires Ratio(alpha, g)
    ensures Within(alpha, x, Estimate(g, i)) <==> x <= Pow(g, i) <= g * x
  {
    hide Pow, Estimate;
    EstimateIs(alpha, g, i);
    WithinBounds(alpha, g, Pow(g, i), x);
  }

  lemma WithinBounds(alpha: real, g: real, p: real, x: real)
    requires IsAlpha(alpha) && g * (1.0 - alpha) == 1.0 + alpha
    ensures Within(alpha, x, (1.0 - alpha) * p) <==> x <= p <= g * x
  {
    var d := 1.0 - alpha;
    ScaleOrder(d, x, p);
    ScaleOrder(d, p, g * x);
    assert d * (g * x) == (g * d) * x;
    assert (1.0 + alpha) * x == x + alpha * x;
    assert d * x == x - alpha * x;
  }

  /** Log buckets meet the documented precision. */
  lemma LogBucketWithin(alpha: real, g: real, x: real)
    requires Ratio(alpha, g) && x >= 1.0
    ensures Within(alpha, x, Estimate(g, CeilLog(g, x)))
  {
    hide Pow, CeilLog, Estimate;
    var i := CeilLog(g, x);
    EstimateWithinIff(alpha, g, i, x);
    if i > 0 {
      StepBelow(g, i, x);
    } else {
      StartBelow(g, x);
    }
  }

  /**
   Exact buckets do not: `quantile` sends their index through the same power. For a sample below the
   cutoff the estimate is within alpha exactly when the sample is positive and gamma^x has already
   reached x.
   */
  lemma LinearBucketWithinIff(alpha: real, g: real, x: nat)
    requires Ratio(alpha, g) && x < Cutoff(g)
    ensures Within(alpha, x as real, Estimate(g, x)) <==> x > 0 && x as real <= Pow(g, x)
  {
    hide Pow, Estimate, LinearBuckets;
    EstimateWithinIff(alpha, g, x, x as real);
    PowZero(g);
    if x > 0 {
      if x > 1 { PowBelowCutoff(g, x - 1); }
      StepBelow(g, x, x as real);
    }
  }

  lemma PowZero(g: real)
    ensures Pow(g, 0) == 1.0
  {
  }

  lemma StepBelow(g: real, i: nat, x: real)
    requires g > 1.0 && i >= 1 && Pow(g, i - 1) <= x
    ensures Pow(g, i) <= g * x
  {
    ScaleOrder(g, Pow(g, i - 1), x);
  }

  lemma StartBelow(g: real, x: real)
    requires g > 1.0 && x >= 1.0
    ensures Pow(g, 0) <= g * x
  {
    Times(x, g);
  }
}
