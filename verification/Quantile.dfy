/** What `quantile` of `ddsketch.rs` returns for the samples of a sketch, and how accurate it is. */
module SketchQuantile {
  import opened Wrappers
  import opened RealPow
  import opened SketchIndex
  import opened SketchSpec

  /** `round() as u64` of a non-negative value: half away from zero, capped by the cast. */
  function RoundU64(e: real): (r: nat)
    requires e >= 0.0
    ensures if e < U64_MAX as real + 0.5 then e - 0.5 < r as real <= e + 0.5 else r == U64_MAX
  {
    var r := (e + 0.5).Floor;
    if r > U64_MAX then U64_MAX else r
  }

  /** `.min(max).max(min)`. */
  function Clamp(v: nat, min: nat, max: nat): (r: nat)
    ensures min <= v <= max ==> r == v
    ensures min <= max && v < min ==> r == min
    ensures min <= max < v ==> r == max
    ensures min > max ==> r == min
  {
    var m := if v > max then max else v;
    if m < min then min else m
  }

  lemma EstimatePositive(g: real, i: nat)
    requires g > 1.0
    ensures Estimate(g, i) >= 0.0
  {
    IPowIsPow(g, i);
    PowAtLeastOne(g, i);
  }

  function Report(g: real, min: nat, max: nat, i: nat): nat
    requires g > 1.0
  {
    EstimatePositive(g, i);
    Clamp(RoundU64(Estimate(g, i)), min, max)
  }

  /** What `quantile` returns for a bucket found by the scan. */
  function Answer(g: real, s: Sketch, index: Option<nat>): nat
    requires g > 1.0
  {
    match index
    case None => s.max
    case Some(i) =>
      if i < Cutoff(g) then Report(g, s.min, s.max, i)
      else if i == |s.buckets| - 1 then s.max
      else Report(g, s.min, s.max, i - 1)
  }

  /** `(q * count as f64) as u64`. */
  function RankOf(count: nat, q: real): (r: nat)
    requires 0.0 <= q < 1.0
    ensures count > 0 ==> r < count
    ensures r as real <= q * count as real < r as real + 1.0
  {
    RankFits(q, count);
    (q * count as real).Floor
  }

  lemma RankFits(q: real, count: nat)
    requires 0.0 <= q < 1.0
    ensures 0 <= (q * count as real).Floor <= count
    ensures count > 0 ==> (q * count as real).Floor < count
  {
    Product(q, count as real);
    Product(1.0 - q, count as real);
    if count > 0 {
      StrictProduct(1.0 - q, count as real);
    }
    assert (1.0 - q) * count as real == count as real - q * count as real;
  }

  function Quantile(g: real, s: Sketch, q: real): nat
    requires g > 1.0
  {
    if q < 0.0 then s.min
    else if q >= 1.0 then s.max
    else Answer(g, s, FirstAbove(s.buckets, RankOf(s.count, q), 0, 0))
  }

  /** The last bucket, if `x` has a log bucket at all; `quantile` answers with the maximum for it. */
  predicate InLastBucket(g: real, x: nat)
    requires g > 1.0
  {
    x >= Cutoff(g) && IndexOf(g, x) == NumBuckets(g) - 1
  }

  /** The power of gamma that `quantile` goes by for a sample `x`. */
  function Exponent(g: real, x: nat): nat
    requires g > 1.0
  {
    if x < Cutoff(g) then x else CeilLog(g, x as real)
  }

  /** What is reported for a sample `x`, rounded, before clamping. */
  function Reported(g: real, x: nat): (r: nat)
    requires g > 1.0
    ensures r <= U64_MAX
  {
    EstimatePositive(g, Exponent(g, x));
    RoundU64(Estimate(g, Exponent(g, x)))
  }

  /** In terms of powers: gamma to that exponent, times 1 - alpha, to the nearest integer. */
  lemma ReportedIs(alpha: real, g: real, x: nat)
    requires Ratio(alpha, g)
    ensures x >= Cutoff(g) ==>
              Pow(g, Exponent(g, x)) >= x as real && (Exponent(g, x) > 0 ==> Pow(g, Exponent(g, x) - 1) < x as real)
    ensures var e := (1.0 - alpha) * Pow(g, Exponent(g, x));
            if e < U64_MAX as real + 0.5 then e - 0.5 < Reported(g, x) as real <= e + 0.5 else Reported(g, x) == U64_MAX
  {
    hide Pow, IPow;
    EstimatePositive(g, Exponent(g, x));
    EstimateIs(alpha, g, Exponent(g, x));
  }

  /** An empty sketch answers 0, but for negative q its minimum, which is still the largest u64. */
  lemma QuantileOfEmpty(g: real, q: real)
    requires g > 1.0
    ensures Quantile(g, Empty(g), q) == if q < 0.0 then U64_MAX else 0
  {
    if 0.0 <= q < 1.0 {
      NothingAbove(NumBuckets(g), 0);
    }
  }

  lemma {:induction false} NothingAbove(n: nat, i: nat)
    requires i <= n
    ensures FirstAbove(seq(n, _ => 0), 0, i, 0) == None
    decreases n - i
  {
    if i < n { NothingAbove(n, i + 1); }
  }

  // ------------------------------------------------------------------ accuracy

  lemma ClampCloser(e: real, v: nat, min: nat, max: nat, x: nat, slack: real)
    requires min <= x <= max && v == RoundU64(if e >= 0.0 then e else 0.0) && e >= 0.0 && x <= U64_MAX
    requires x as real - slack <= e <= x as real + slack
    ensures x as real - slack - 0.5 <= Clamp(v, min, max) as real <= x as real + slack + 0.5
  {
  }

  /**
   For every list of samples without saturation and every 0 <= q < 1: let x be the sample at quantile q, so
   that at most a share of q of all samples is below x, and more than that is up to x. The answer depends
   on x alone, but for clamping. A sample from the
   log region is reported within alpha * x, plus the rounding to an integer; for the very last bucket the
   maximum is reported, which is at most gamma times the sample.
   */
  lemma QuantileOfSamples(alpha: real, g: real, xs: seq<Sample>, q: real, x: nat)
    requires Ratio(alpha, g) && AllStorable(g, xs) && 0 < Total(xs) <= U64_MAX && 0.0 <= q < 1.0
    requires AtQuantile(xs, q, x)
    ensures var s, r := SketchOf(g, xs), Quantile(g, SketchOf(g, xs), q);
            && s.min <= x <= s.max
            && (!InLastBucket(g, x) ==> r == Clamp(Reported(g, x), s.min, s.max))
            && (InLastBucket(g, x) ==>
                  r == s.max && x <= r && r as real <= g * x as real)
            && (x >= Cutoff(g) && !InLastBucket(g, x) ==>
                  x as real - alpha * x as real - 0.5 <= r as real <= x as real + alpha * x as real + 0.5)
  {
    hide InLastBucket, Reported, Quantile, SketchOf, Cutoff, Clamp, Weight, AllStorable, AtQuantile;
    QuantileIsReported(g, xs, q, x);
    LastAnswer(g, xs, x);
    if x >= Cutoff(g) {
      ReportedClose(alpha, g, x, SketchOf(g, xs).min, SketchOf(g, xs).max);
    }
  }

  lemma QuantileIsReported(g: real, xs: seq<Sample>, q: real, x: nat)
    requires g > 1.0 && AllStorable(g, xs) && 0 < Total(xs) <= U64_MAX && 0.0 <= q < 1.0 && AtQuantile(xs, q, x)
    ensures var s := SketchOf(g, xs);
            && xs != [] && s.min <= x <= s.max && x <= U64_MAX
            && Quantile(g, s, q) == if InLastBucket(g, x) then s.max else Clamp(Reported(g, x), s.min, s.max)
  {
    hide InLastBucket, Reported, Quantile, SketchOf, RankOf, Answer, IndexOf, NumBuckets, AtQuantile;
    QuantileBucket(g, xs, q, x);
    AtQuantileIff(xs, q, x);
    var i := RankedIsSample(xs, RankOf(Total(xs), q), x);
    assert Storable(g, xs[i]);
    MinMaxExact(g, xs, i);
    AnswerIsReported(g, SketchOf(g, xs), x);
  }

  lemma AnswerIsReported(g: real, s: Sketch, x: nat)
    requires g > 1.0 && |s.buckets| == NumBuckets(g)
    ensures Answer(g, s, Some(IndexOf(g, x))) ==
            if InLastBucket(g, x) then s.max else Clamp(Reported(g, x), s.min, s.max)
  {
    hide NumBuckets, Estimate, CeilLog;
    if x >= Cutoff(g) {
      LogAboveLinear(g, x);
    }
  }

  /** The maximum shares the last bucket with any sample that is in it. */
  lemma MaximumIsSample(g: real, xs: seq<Sample>, x: nat) returns (y: nat)
    requires g > 1.0 && AllStorable(g, xs) && xs != [] && x <= SketchOf(g, xs).max && InLastBucket(g, x)
    ensures y == SketchOf(g, xs).max && x <= y <= U64_MAX && IndexOf(g, y) == IndexOf(g, x)
  {
    hide IndexOf, NumBuckets, SketchOf, Cutoff;
    MinMaxExact(g, xs, 0);
    var j :| 0 <= j < |xs| && xs[j].value == SketchOf(g, xs).max;
    assert Storable(g, xs[j]);
    y := xs[j].value;
    IndexMonotone(g, x, y);
  }

  /** A sample in the last bucket has the maximum for company. */
  lemma LastAnswer(g: real, xs: seq<Sample>, x: nat)
    requires g > 1.0 && AllStorable(g, xs) && xs != [] && x <= SketchOf(g, xs).max
    ensures InLastBucket(g, x) ==> SketchOf(g, xs).max as real <= g * x as real
  {
    hide IndexOf, NumBuckets, SketchOf;
    if InLastBucket(g, x) {
      var y := MaximumIsSample(g, xs, x);
      SameLogBucket(g, x, y);
    }
  }

  /** At most a share of `q` of the samples is below `x`, and more than that is up to `x`. */
  ghost predicate AtQuantile(xs: seq<Sample>, q: real, x: nat) {
    Weight(xs, (v: nat) => v < x) as real <= q * Total(xs) as real < Weight(xs, (v: nat) => v <= x) as real
  }

  /** There is exactly one such sample, the one at the rank that `quantile` computes. */
  lemma AtQuantileIff(xs: seq<Sample>, q: real, x: nat)
    requires 0 < Total(xs) && 0.0 <= q < 1.0
    ensures AtQuantile(xs, q, x) <==> x == KthSmallest(xs, RankOf(Total(xs), q))
  {
    var r := RankOf(Total(xs), q);
    hide Weight, RankOf;
    assert AtQuantile(xs, q, x) <==> RankedAt(xs, r, x);
    if RankedAt(xs, r, x) {
      RankedUnique(xs, r, x, KthSmallest(xs, r));
    }
  }

  /** `r` is what is to be answered if `x` is the sample asked for. */
  ghost predicate AnswersFor(g: real, s: Sketch, x: nat, r: nat)
    requires g > 1.0
  {
    s.min <= x <= s.max && r == if InLastBucket(g, x) then s.max else Clamp(Reported(g, x), s.min, s.max)
  }

  /** Whatever samples a sketch stands for. */
  lemma AnswersForSamples(g: real, s: Sketch, q: real)
    requires g > 1.0
    ensures forall xs, x: nat | AllStorable(g, xs) && s == SketchOf(g, xs) && 0 < Total(xs) <= U64_MAX
                                && 0.0 <= q < 1.0 && AtQuantile(xs, q, x) ::
              AnswersFor(g, s, x, Quantile(g, s, q))
  {
    hide Quantile, SketchOf, AllStorable, AtQuantile, Reported, InLastBucket, Clamp, Weight;
    forall xs, x: nat | AllStorable(g, xs) && s == SketchOf(g, xs) && 0 < Total(xs) <= U64_MAX
                        && 0.0 <= q < 1.0 && AtQuantile(xs, q, x)
      ensures AnswersFor(g, s, x, Quantile(g, s, q))
    {
      QuantileIsReported(g, xs, q, x);
    }
  }

  /** `quantile` answers from the bucket of the sample at quantile `q`. */
  lemma QuantileBucket(g: real, xs: seq<Sample>, q: real, x: nat)
    requires g > 1.0 && AllStorable(g, xs) && 0 < Total(xs) <= U64_MAX && 0.0 <= q < 1.0 && AtQuantile(xs, q, x)
    ensures Quantile(g, SketchOf(g, xs), q) == Answer(g, SketchOf(g, xs), Some(IndexOf(g, x)))
  {
    hide Answer, IndexOf, NumBuckets, RankOf, AtQuantile;
    AtQuantileIff(xs, q, x);
    var i := RankedIsSample(xs, RankOf(Total(xs), q), x);
    assert Storable(g, xs[i]);
    CellsCount(g, xs, IndexOf(g, x));
    ScanFindsBucket(g, xs, RankOf(Total(xs), q));
  }

  lemma ReportedClose(alpha: real, g: real, x: nat, min: nat, max: nat)
    requires Ratio(alpha, g) && min <= x <= max && Cutoff(g) <= x <= U64_MAX
    ensures var r := Clamp(Reported(g, x), min, max);
            x as real - alpha * x as real - 0.5 <= r as real <= x as real + alpha * x as real + 0.5
  {
    hide Estimate, CeilLog, Pow;
    LogBucketWithin(alpha, g, x as real);
    var e := Estimate(g, CeilLog(g, x as real));
    EstimatePositive(g, CeilLog(g, x as real));
    ClampCloser(e, RoundU64(e), min, max, x, alpha * x as real);
  }

  // ------------------------------------------------------------------ when the documented precision holds

  /** If `x` is the sample asked for then the answer is within alpha of it. */
  ghost predicate PreciseOn(alpha: real, g: real, xs: seq<Sample>, q: real, x: nat)
    requires g > 1.0
  {
    AllStorable(g, xs) && 0 < Total(xs) <= U64_MAX && 0.0 <= q < 1.0 && AtQuantile(xs, q, x) ==>
      Within(alpha, x as real, Quantile(g, SketchOf(g, xs), q) as real)
  }

  /** Whatever the other samples are and whatever quantile is asked for. */
  ghost predicate AlwaysPrecise(alpha: real, g: real, x: nat)
    requires g > 1.0
  {
    forall xs, q :: PreciseOn(alpha, g, xs, q, x)
  }

  /**
   The test that decides it: what is reported for `x` must be within alpha, and in the last bucket all
   larger values of the bucket must be.
   */
  ghost predicate MeetsAlpha(alpha: real, g: real, x: nat)
    requires g > 1.0
  {
    if InLastBucket(g, x) then
      forall y | x <= y <= U64_MAX && IndexOf(g, y) == IndexOf(g, x) :: y as real <= x as real + alpha * x as real
    else
      Within(alpha, x as real, Reported(g, x) as real)
  }

  /** Clamping to bounds around `x` brings a value closer to `x`. */
  lemma ClampWithin(alpha: real, x: nat, v: nat, min: nat, max: nat)
    requires min <= x <= max && alpha > 0.0 && Within(alpha, x as real, v as real)
    ensures Within(alpha, x as real, Clamp(v, min, max) as real)
  {
    Product(alpha, x as real);
  }

  lemma MeetingAlphaIsPrecise(alpha: real, g: real, xs: seq<Sample>, q: real, x: nat)
    requires Ratio(alpha, g)
    ensures MeetsAlpha(alpha, g, x) ==> PreciseOn(alpha, g, xs, q, x)
  {
    hide IndexOf, NumBuckets, Quantile, SketchOf, Reported, Cutoff, AtQuantile;
    if && MeetsAlpha(alpha, g, x) && AllStorable(g, xs) && 0 < Total(xs) <= U64_MAX && 0.0 <= q < 1.0
       && AtQuantile(xs, q, x)
    {
      QuantileOfSamples(alpha, g, xs, q, x);
      var s := SketchOf(g, xs);
      if InLastBucket(g, x) {
        var y := MaximumIsSample(g, xs, x);
        Product(alpha, x as real);
      } else {
        ClampWithin(alpha, x, Reported(g, x), s.min, s.max);
      }
    }
  }

  /** A list in which `x` is the median and the other samples lie at 0 and at `y`. */
  function Around(x: nat, y: nat): seq<Sample> {
    [Sample(0, 1), Sample(x, 1), Sample(y, 1)]
  }

  lemma AroundMedian(g: real, x: nat, y: nat)
    requires g > 1.0 && x <= y && Storable(g, Sample(x, 1)) && Storable(g, Sample(y, 1))
    ensures AllStorable(g, Around(x, y)) && Total(Around(x, y)) == 3
    ensures AtQuantile(Around(x, y), 0.5, x)
    ensures SketchOf(g, Around(x, y)).min == 0 && SketchOf(g, Around(x, y)).max == y
  {
    hide IndexOf, NumBuckets, SketchOf;
    var xs := Around(x, y);
    IndexMonotone(g, 0, x);
    WeightOfThree(xs, (v: nat) => true);
    WeightOfThree(xs, (v: nat) => v < x);
    WeightOfThree(xs, (v: nat) => v <= x);
    MinMaxExact(g, xs, 0);
    MinMaxExact(g, xs, 2);
  }

  /** Between 0 and `y` nothing is clamped away. */
  lemma AroundAnswer(alpha: real, g: real, x: nat, y: nat)
    requires Ratio(alpha, g) && x <= y && Storable(g, Sample(x, 1)) && Storable(g, Sample(y, 1))
    requires InLastBucket(g, x) || Reported(g, x) <= y
    ensures var r := if InLastBucket(g, x) then y else Reported(g, x);
            PreciseOn(alpha, g, Around(x, y), 0.5, x) <==> Within(alpha, x as real, r as real)
  {
    hide IndexOf, NumBuckets, Quantile, SketchOf, Reported, Cutoff, AtQuantile;
    AroundMedian(g, x, y);
    QuantileOfSamples(alpha, g, Around(x, y), 0.5, x);
  }

  /** Where it matters, what is reported can itself be a sample. */
  lemma ReportedStorable(alpha: real, g: real, x: nat)
    requires Ratio(alpha, g) && Storable(g, Sample(x, 1))
    ensures x as real + alpha * x as real < Reported(g, x) as real ==> Storable(g, Sample(Reported(g, x), 1))
  {
    hide NumBuckets;
    if g < 2.0 {
      IndexInRange(g, Reported(g, x));
    } else {
      WideReported(alpha, g, x);
    }
  }

  /** With gamma at least two a report above the sample stays in the bucket of the sample. */
  lemma WideReported(alpha: real, g: real, x: nat)
    requires Ratio(alpha, g) && g >= 2.0 && Storable(g, Sample(x, 1))
    ensures x as real + alpha * x as real < Reported(g, x) as real ==> Storable(g, Sample(Reported(g, x), 1))
  {
    hide NumBuckets, IPow;
    LinearBucketsPositive(g);
    var e, r := Exponent(g, x), Reported(g, x);
    EstimateIs(alpha, g, e);
    var p := Pow(g, e);
    assert r as real <= (1.0 - alpha) * p + 0.5;
    Product(alpha, x as real);
    if x as real + alpha * x as real < r as real {
      if e == 0 {
        assert r == 1;
        OneStorable(alpha, g);
      } else {
        PowMonotone(g, 1, e);
        assert p >= 2.0;
        WideHalf(alpha, g, p);
        CeilLogIs(g, r as real, e);
        CeilLogMonotone(g, x as real, r as real);
      }
    }
  }

  lemma OneStorable(alpha: real, g: real)
    requires Ratio(alpha, g) && g >= 2.0 && alpha <= 0.5
    ensures Storable(g, Sample(1, 1))
  {
    hide Pow, CeilLog;
    LinearBucketsPositive(g);
    PowZero(g);
    var m, d := U64_MAX as real, g - 1.0;
    assert d * (1.0 - alpha) == 2.0 * alpha;
    assert (2.0 - d) * (1.0 - alpha) == 2.0 * (1.0 - alpha) - d * (1.0 - alpha);
    Factor(2.0 - d, 1.0 - alpha);
    var q := m / d;
    assert q * d == m;
    assert (1.0 - q) * d == d - m;
    if q <= 1.0 { Product(1.0 - q, d); }
    CeilLogIs(g, 1.0, 0);
    CeilLogIs(g, m, 0);
    CeilLogIs(g, q, 0);
  }

  lemma WideHalf(alpha: real, g: real, p: real)
    requires Ratio(alpha, g) && g >= 2.0 && p >= 2.0
    ensures (1.0 - alpha) * p + 0.5 <= p
  {
    assert (g - 2.0) * (1.0 - alpha) == g * (1.0 - alpha) - 2.0 * (1.0 - alpha);
    Product(g - 2.0, 1.0 - alpha);
    Product(alpha, p - 2.0);
    assert alpha * p >= 2.0 * alpha;
  }

  /**
   The documented precision, made exact: for every sample `x` and whatever else is in the sketch, the value
   returned for `x` is within alpha of it if and only if `x` meets the test.
   */
  lemma PreciseIff(alpha: real, g: real, x: nat)
    requires Ratio(alpha, g)
    ensures Storable(g, Sample(x, 1)) ==> (AlwaysPrecise(alpha, g, x) <==> MeetsAlpha(alpha, g, x))
  {
    if MeetsAlpha(alpha, g, x) {
      forall xs, q
        ensures PreciseOn(alpha, g, xs, q, x)
      {
        MeetingAlphaIsPrecise(alpha, g, xs, q, x);
      }
    } else if Storable(g, Sample(x, 1)) {
      var xs := Imprecise(alpha, g, x);
    }
  }

  /** A sample that fails the test is the median of a list for which the answer is off. */
  lemma Imprecise(alpha: real, g: real, x: nat) returns (xs: seq<Sample>)
    requires Ratio(alpha, g) && Storable(g, Sample(x, 1))
    ensures !MeetsAlpha(alpha, g, x) ==> !PreciseOn(alpha, g, xs, 0.5, x)
  {
    hide IndexOf, NumBuckets, PreciseOn, Reported, Cutoff;
    var y := x;
    if InLastBucket(g, x) {
      if !MeetsAlpha(alpha, g, x) {
        y :| x <= y <= U64_MAX && IndexOf(g, y) == IndexOf(g, x) && y as real > x as real + alpha * x as real;
      }
    } else if Reported(g, x) > x {
      y := Reported(g, x);
      Product(alpha, x as real);
      ReportedStorable(alpha, g, x);
    }
    xs := Around(x, y);
    if !MeetsAlpha(alpha, g, x) { AroundAnswer(alpha, g, x, y); }
  }

  lemma WeightOfThree(xs: seq<Sample>, p: nat -> bool)
    requires |xs| == 3 && forall i | 0 <= i < 3 :: xs[i].n == 1
    ensures Weight(xs, p) ==
            (if p(xs[0].value) then 1 else 0) + (if p(xs[1].value) then 1 else 0) + if p(xs[2].value) then 1 else 0
  {
    assert xs[..2][..1] == [xs[0]] && xs[..2][1] == xs[1] && xs[..1][..0] == [];
    assert Weight(xs[..2][..1], p) == if p(xs[0].value) then 1 else 0;
  }

  lemma ElevenNinths() returns (g: real)
    ensures g == Gamma(0.1) && Ratio(0.1, g) && 1.0 < g < 2.0 && 9.0 * g == 11.0
    ensures 6561.0 * Pow(g, 4) == 14641.0 && Cutoff(g) > 4
  {
    GammaIsRatio(0.1);
    g := Gamma(0.1);
    assert Pow(g, 1) == g * Pow(g, 0) == 11.0 / 9.0;
    assert Pow(g, 2) == g * Pow(g, 1) == 121.0 / 81.0;
    assert Pow(g, 3) == g * Pow(g, 2) == 1331.0 / 729.0;
    assert Pow(g, 4) == g * Pow(g, 3) == 14641.0 / 6561.0;
    CeilLogIs(g, 1.0 / (g - 1.0), 3);
  }

  /**
   The documented precision fails below the cutoff: with alpha = 0.1 the median of 0, 4, 100 is
   reported as 2.
   */
  lemma PrecisionFailsBelowCutoff(g: real, xs: seq<Sample>)
    requires g == Gamma(0.1) && g > 1.0
    requires xs == [Sample(0, 1), Sample(4, 1), Sample(100, 1)]
    ensures AllStorable(g, xs) && Total(xs) == 3 && AtQuantile(xs, 0.5, 4)
    ensures Quantile(g, SketchOf(g, xs), 0.5) == 2
  {
    var h := ElevenNinths();
    hide IndexOf, NumBuckets, Pow, Estimate, Quantile, SketchOf, Cutoff;
    IndexInRange(g, 0);
    IndexInRange(g, 4);
    IndexInRange(g, 100);
    WeightOfThree(xs, (v: nat) => true);
    WeightOfThree(xs, (v: nat) => v < 4);
    WeightOfThree(xs, (v: nat) => v <= 4);
    MinMaxExact(g, xs, 0);
    MinMaxExact(g, xs, 1);
    MinMaxExact(g, xs, 2);
    QuantileOfSamples(0.1, g, xs, 0.5, 4);
    EstimateIs(0.1, g, 4);
  }

  lemma PowStep(g: real, n: nat)
    requires n > 0
    ensures Pow(g, n) == g * Pow(g, n - 1)
  {
  }

  /** (11/9)^n for the exponents that the next example needs. */
  lemma HigherPowers(g: real)
    requires 9.0 * g == 11.0
    ensures Pow(g, 7) == 19487171.0 / 4782969.0 && Pow(g, 8) == 214358881.0 / 43046721.0
    ensures Pow(g, 10) == 25937424601.0 / 3486784401.0 && Pow(g, 11) == 285311670611.0 / 31381059609.0
  {
    hide Pow;
    PowZero(g);
    PowStep(g, 1);
    PowStep(g, 2);
    PowStep(g, 3);
    PowStep(g, 4);
    PowStep(g, 5);
    PowStep(g, 6);
    PowStep(g, 7);
    PowStep(g, 8);
    PowStep(g, 9);
    PowStep(g, 10);
    PowStep(g, 11);
  }

  lemma NineIsInLogBucket(g: real)
    requires g == Gamma(0.1) && g > 1.0
    ensures Ratio(0.1, g) && g < 2.0 && Cutoff(g) == 9 && Exponent(g, 9) == 11 && IndexOf(g, 9) == 12
    ensures !InLastBucket(g, 9) && Storable(g, Sample(9, 1))
  {
    var h := ElevenNinths();
    HigherPowers(g);
    hide Pow, CeilLog, NumBuckets;
    CeilLogIs(g, 1.0 / (g - 1.0), 7);
    CeilLogIs(g, 1.0 / (g - 1.0), 8);
    CeilLogIs(g, 9.0, 10);
    CeilLogIs(g, 9.0, 11);
    CeilLogIs(g, U64_MAX as real, 8);
    LastBucketUnused(g, 9);
    IndexInRange(g, 9);
  }

  /**
   It fails for log buckets too: with alpha = 0.1 the median of 0, 9, 100 is reported as 8, because the
   estimate of 8.18, which is within alpha, is rounded.
   */
  lemma PrecisionFailsInLogBucket(g: real)
    requires g == Gamma(0.1) && g > 1.0
    ensures 9 >= Cutoff(g) && AllStorable(g, Around(9, 100)) && Total(Around(9, 100)) == 3
    ensures AtQuantile(Around(9, 100), 0.5, 9)
    ensures Quantile(g, SketchOf(g, Around(9, 100)), 0.5) == 8 && !Within(0.1, 9.0, 8.0)
    ensures Within(0.1, 9.0, Estimate(g, Exponent(g, 9))) && !AlwaysPrecise(0.1, g, 9)
  {
    NineIsInLogBucket(g);
    var h := ElevenNinths();
    HigherPowers(g);
    EstimateIs(0.1, g, 11);
    hide IndexOf, NumBuckets, Pow, IPow, Estimate, Quantile, SketchOf, Cutoff, Exponent, AtQuantile;
    assert Reported(g, 9) == 8;
    IndexInRange(g, 100);
    AroundMedian(g, 9, 100);
    QuantileOfSamples(0.1, g, Around(9, 100), 0.5, 9);
    assert !MeetsAlpha(0.1, g, 9);
    PreciseIff(0.1, g, 9);
  }

  lemma OwnPower(g: real)
    requires 19.0 * g == 21.0
    ensures Pow(g, 4) == 194481.0 / 130321.0
  {
    hide Pow;
    PowZero(g);
    PowStep(g, 1);
    PowStep(g, 2);
    PowStep(g, 3);
    PowStep(g, 4);
  }

  lemma FourIsReportedAsOne(g: real)
    requires g == Gamma(0.05) && g > 1.0
    ensures Ratio(0.05, g) && g < 2.0 && 4 < Cutoff(g) && Reported(g, 4) == 1
  {
    GammaIsRatio(0.05);
    assert 19.0 * g == 21.0;
    hide Pow, IPow, CeilLog, Estimate;
    OwnPower(g);
    EstimateIs(0.05, g, 4);
    CeilLogIs(g, 1.0 / (g - 1.0), 4);
  }

  /** The sketch in which the executor counts CQEs has alpha = 0.05: it cannot tell a median of 4 from 1. */
  lemma PrecisionFailsForOwnSketch(g: real)
    requires g == Gamma(0.05) && g > 1.0
    ensures Reported(g, 4) == 1 && !AlwaysPrecise(0.05, g, 4)
  {
    hide Reported, Cutoff, NumBuckets, AlwaysPrecise, Gamma;
    FourIsReportedAsOne(g);
    IndexInRange(g, 4);
    PreciseIff(0.05, g, 4);
  }
}
