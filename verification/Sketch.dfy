/**
 The contents of a `DDSketch` as a value: what inserting a list of samples leaves in the cells, what
 `merge` does, and the bucket that `quantile` and `rank` read off.
 */
module SketchSpec {
  import opened Wrappers
  import opened RealPow
  import opened SketchIndex

  datatype Sketch = Sketch(buckets: seq<nat>, count: nat, min: nat, max: nat)

  /** One call of `insert_n`: `n` occurrences of `value`. */
  datatype Sample = Sample(value: nat, n: nat)

  function SatAdd(a: nat, b: nat): nat {
    if a + b > U64_MAX then U64_MAX else a + b
  }

  function Sat(a: nat): nat {
    if a > U64_MAX then U64_MAX else a
  }

  /** `+` on u64 as release builds have it. */
  function WrapAdd(a: nat, b: nat): nat {
    (a + b) % (U64_MAX + 1)
  }

  predicate Storable(g: real, x: Sample)
    requires g > 1.0
  {
    x.value <= U64_MAX && IndexOf(g, x.value) < NumBuckets(g)
  }

  ghost predicate AllStorable(g: real, xs: seq<Sample>)
    requires g > 1.0
  {
    forall i | 0 <= i < |xs| :: Storable(g, xs[i])
  }

  function Empty(g: real): Sketch
    requires g > 1.0
  {
    Sketch(seq(NumBuckets(g), _ => 0), 0, U64_MAX, 0)
  }

  /** `insert_n` without interference. */
  function Insert(g: real, s: Sketch, x: Sample): Sketch
    requires g > 1.0 && IndexOf(g, x.value) < |s.buckets|
  {
    var i := IndexOf(g, x.value);
    Sketch(s.buckets[i := SatAdd(s.buckets[i], x.n)], SatAdd(s.count, x.n),
           if x.value < s.min then x.value else s.min, if x.value > s.max then x.value else s.max)
  }

  function Merge(s: Sketch, t: Sketch): Sketch
    requires |s.buckets| == |t.buckets|
  {
    Sketch(seq(|s.buckets|, (i: nat) requires i < |s.buckets| => SatAdd(s.buckets[i], t.buckets[i])),
           SatAdd(s.count, t.count),
           if t.min < s.min then t.min else s.min, if t.max > s.max then t.max else s.max)
  }

  ghost function SketchOf(g: real, xs: seq<Sample>): (s: Sketch)
    requires g > 1.0 && AllStorable(g, xs)
    ensures |s.buckets| == NumBuckets(g)
  {
    if xs == [] then Empty(g) else Insert(g, SketchOf(g, xs[..|xs| - 1]), xs[|xs| - 1])
  }

  lemma InsertIsAppend(g: real, xs: seq<Sample>, x: Sample)
    requires g > 1.0 && AllStorable(g, xs) && Storable(g, x)
    ensures AllStorable(g, xs + [x]) && SketchOf(g, xs + [x]) == Insert(g, SketchOf(g, xs), x)
  {
    assert (xs + [x])[..|xs + [x]| - 1] == xs;
  }

  /** Merging commutes with inserting. */
  lemma MergeInsert(g: real, s: Sketch, t: Sketch, x: Sample)
    requires g > 1.0 && |s.buckets| == |t.buckets| && IndexOf(g, x.value) < |t.buckets|
    ensures Merge(s, Insert(g, t, x)) == Insert(g, Merge(s, t), x)
  {
    hide IndexOf;
    assert Merge(s, Insert(g, t, x)).buckets == Insert(g, Merge(s, t), x).buckets;
  }

  ghost predicate Bounded(s: Sketch) {
    s.count <= U64_MAX && s.min <= U64_MAX && forall i | 0 <= i < |s.buckets| :: s.buckets[i] <= U64_MAX
  }

  lemma {:induction false} SketchBounded(g: real, xs: seq<Sample>)
    requires g > 1.0 && AllStorable(g, xs)
    ensures Bounded(SketchOf(g, xs))
  {
    hide IndexOf, NumBuckets;
    if xs != [] {
      SketchBounded(g, xs[..|xs| - 1]);
    }
  }

  /** Merging two sketches gives the sketch of both lists of samples, saturation included. */
  lemma {:induction false} MergeIsUnion(g: real, xs: seq<Sample>, ys: seq<Sample>)
    requires g > 1.0 && AllStorable(g, xs) && AllStorable(g, ys)
    ensures AllStorable(g, xs + ys)
    ensures Merge(SketchOf(g, xs), SketchOf(g, ys)) == SketchOf(g, xs + ys)
  {
    hide IndexOf, NumBuckets;
    if ys == [] {
      assert xs + ys == xs;
      SketchBounded(g, xs);
      assert Merge(SketchOf(g, xs), Empty(g)).buckets == SketchOf(g, xs).buckets;
    } else {
      var init, y := ys[..|ys| - 1], ys[|ys| - 1];
      MergeIsUnion(g, xs, init);
      MergeInsert(g, SketchOf(g, xs), SketchOf(g, init), y);
      assert (xs + ys)[..|xs + ys| - 1] == xs + init;
    }
  }

  // ------------------------------------------------------------------ counting samples

  /** How many samples, with multiplicity, have a value that satisfies `p`. */
  ghost function Weight(xs: seq<Sample>, p: nat -> bool): nat {
    if xs == [] then 0
    else Weight(xs[..|xs| - 1], p) + if p(xs[|xs| - 1].value) then xs[|xs| - 1].n else 0
  }

  ghost function Total(xs: seq<Sample>): nat {
    Weight(xs, (v: nat) => true)
  }

  lemma {:induction false} WeightMonotone(xs: seq<Sample>, p: nat -> bool, q: nat -> bool)
    requires forall i | 0 <= i < |xs| :: p(xs[i].value) ==> q(xs[i].value)
    ensures Weight(xs, p) <= Weight(xs, q)
  {
    if xs != [] {
      WeightMonotone(xs[..|xs| - 1], p, q);
    }
  }

  lemma {:induction false} WeightSplits(xs: seq<Sample>, p: nat -> bool, q: nat -> bool, r: nat -> bool)
    requires forall v :: p(v) == (q(v) || r(v)) && !(q(v) && r(v))
    ensures Weight(xs, p) == Weight(xs, q) + Weight(xs, r)
  {
    if xs != [] {
      WeightSplits(xs[..|xs| - 1], p, q, r);
    }
  }

  lemma {:induction false} WeightWitness(xs: seq<Sample>, p: nat -> bool) returns (i: nat)
    requires Weight(xs, p) > 0
    ensures i < |xs| && p(xs[i].value)
  {
    var last := |xs| - 1;
    if p(xs[last].value) {
      i := last;
    } else {
      i := WeightWitness(xs[..last], p);
    }
  }

  ghost function InBucket(g: real, j: nat): nat -> bool
    requires g > 1.0
  {
    (v: nat) => IndexOf(g, v) == j
  }

  ghost function BelowBucket(g: real, j: nat): nat -> bool
    requires g > 1.0
  {
    (v: nat) => IndexOf(g, v) < j
  }

  /** Every cell holds what the samples add up to, capped at the largest u64. */
  lemma {:induction false} CellsCount(g: real, xs: seq<Sample>, j: nat)
    requires g > 1.0 && AllStorable(g, xs) && j < NumBuckets(g)
    ensures SketchOf(g, xs).buckets[j] == Sat(Weight(xs, InBucket(g, j)))
    ensures SketchOf(g, xs).count == Sat(Total(xs))
  {
    hide IndexOf, NumBuckets;
    if xs != [] {
      CellsCount(g, xs[..|xs| - 1], j);
    }
  }

  lemma {:induction false} MinMaxExact(g: real, xs: seq<Sample>, i: nat)
    requires g > 1.0 && AllStorable(g, xs) && i < |xs|
    ensures var s := SketchOf(g, xs);
            s.min <= xs[i].value <= s.max
    ensures var s := SketchOf(g, xs);
            (exists j :: 0 <= j < |xs| && xs[j].value == s.min) && (exists j :: 0 <= j < |xs| && xs[j].value == s.max)
  {
    hide IndexOf, NumBuckets;
    var last := |xs| - 1;
    var init := xs[..last];
    assert xs[last].value <= U64_MAX;
    if init != [] {
      MinMaxExact(g, init, if i < last then i else 0);
      var s := SketchOf(g, init);
      var a: nat :| a < |init| && init[a].value == s.min;
      var b: nat :| b < |init| && init[b].value == s.max;
      assert xs[a].value == s.min && xs[b].value == s.max;
    } else {
      assert SketchOf(g, init) == Empty(g);
    }
  }

  // ------------------------------------------------------------------ reading a rank

  ghost function PrefixSum(b: seq<nat>, j: nat): nat
    requires j <= |b|
  {
    if j == 0 then 0 else PrefixSum(b, j - 1) + b[j - 1]
  }

  lemma {:induction false} PrefixMonotone(b: seq<nat>, i: nat, j: nat)
    requires i <= j <= |b|
    ensures PrefixSum(b, i) <= PrefixSum(b, j)
    decreases j
  {
    if i < j {
      PrefixMonotone(b, i, j - 1);
    }
  }

  /** The cumulative scan: the first bucket at which the running u64 total exceeds `rank`. */
  function FirstAbove(b: seq<nat>, rank: nat, i: nat, total: nat): Option<nat>
    requires i <= |b|
    decreases |b| - i
  {
    if i == |b| then None
    else if WrapAdd(total, b[i]) > rank then Some(i)
    else FirstAbove(b, rank, i + 1, WrapAdd(total, b[i]))
  }

  lemma NoWrap(a: nat, b: nat)
    requires a + b <= U64_MAX
    ensures WrapAdd(a, b) == a + b
  {
  }

  lemma {:induction false} FirstAboveBrackets(b: seq<nat>, rank: nat, i: nat)
    requires i <= |b| && PrefixSum(b, i) <= rank && PrefixSum(b, |b|) <= U64_MAX
    ensures match FirstAbove(b, rank, i, PrefixSum(b, i))
            case Some(j) => j < |b| && PrefixSum(b, j) <= rank < PrefixSum(b, j + 1)
            case None => PrefixSum(b, |b|) <= rank
    decreases |b| - i
  {
    hide WrapAdd;
    if i < |b| {
      PrefixMonotone(b, i + 1, |b|);
      NoWrap(PrefixSum(b, i), b[i]);
      if PrefixSum(b, i + 1) <= rank { FirstAboveBrackets(b, rank, i + 1); }
    }
  }

  lemma {:induction false} PrefixIsWeight(g: real, xs: seq<Sample>, j: nat)
    requires g > 1.0 && AllStorable(g, xs) && Total(xs) <= U64_MAX && j <= NumBuckets(g)
    ensures PrefixSum(SketchOf(g, xs).buckets, j) == Weight(xs, BelowBucket(g, j))
  {
    hide IndexOf, NumBuckets;
    if j == 0 {
      WeightMonotone(xs, BelowBucket(g, 0), (v: nat) => false);
      WeightNone(xs);
    } else {
      PrefixIsWeight(g, xs, j - 1);
      CellsCount(g, xs, j - 1);
      WeightMonotone(xs, InBucket(g, j - 1), (v: nat) => true);
      WeightSplits(xs, BelowBucket(g, j), BelowBucket(g, j - 1), InBucket(g, j - 1));
    }
  }

  /** Without saturation no running total over the buckets overflows. */
  lemma SumsFit(g: real, xs: seq<Sample>)
    requires g > 1.0 && AllStorable(g, xs) && Total(xs) <= U64_MAX
    ensures PrefixSum(SketchOf(g, xs).buckets, NumBuckets(g)) <= U64_MAX
  {
    hide IndexOf, NumBuckets;
    PrefixIsWeight(g, xs, NumBuckets(g));
    WeightMonotone(xs, BelowBucket(g, NumBuckets(g)), (v: nat) => true);
  }

  lemma {:induction false} WeightNone(xs: seq<Sample>)
    ensures Weight(xs, (v: nat) => false) == 0
  {
    if xs != [] {
      WeightNone(xs[..|xs| - 1]);
    }
  }

  /** `x` is the sample at position `r`, counted from zero, of all samples in ascending order. */
  ghost predicate RankedAt(xs: seq<Sample>, r: nat, x: nat) {
    Weight(xs, (v: nat) => v < x) <= r < Weight(xs, (v: nat) => v <= x)
  }

  lemma RankedIsSample(xs: seq<Sample>, r: nat, x: nat) returns (i: nat)
    requires RankedAt(xs, r, x)
    ensures i < |xs| && xs[i].value == x
  {
    WeightSplits(xs, (v: nat) => v <= x, (v: nat) => v < x, (v: nat) => v == x);
    i := WeightWitness(xs, (v: nat) => v == x);
  }

  ghost function Highest(xs: seq<Sample>): (top: nat)
    ensures forall i | 0 <= i < |xs| :: xs[i].value <= top
  {
    if xs == [] then 0
    else
      var top, last := Highest(xs[..|xs| - 1]), xs[|xs| - 1].value;
      if last > top then last else top
  }

  lemma RankedExists(xs: seq<Sample>, r: nat, top: nat) returns (x: nat)
    requires Weight(xs, (v: nat) => v <= top) > r
    ensures x <= top && RankedAt(xs, r, x)
    decreases top
  {
    if top == 0 {
      x := 0;
      WeightMonotone(xs, (v: nat) => v < 0, (v: nat) => false);
      WeightNone(xs);
    } else if Weight(xs, (v: nat) => v <= top - 1) > r {
      x := RankedExists(xs, r, top - 1);
    } else {
      x := top;
      WeightMonotone(xs, (v: nat) => v < top, (v: nat) => v <= top - 1);
    }
  }

  /** The sample at position `r` of all samples in ascending order; there is exactly one. */
  ghost function KthSmallest(xs: seq<Sample>, r: nat): (x: nat)
    requires r < Total(xs)
    ensures RankedAt(xs, r, x)
  {
    RankedIsThere(xs, r);
    var x: nat :| RankedAt(xs, r, x);
    x
  }

  lemma RankedIsThere(xs: seq<Sample>, r: nat)
    requires r < Total(xs)
    ensures exists x: nat :: RankedAt(xs, r, x)
  {
    var top := Highest(xs);
    WeightMonotone(xs, (v: nat) => true, (v: nat) => v <= top);
    var x := RankedExists(xs, r, top);
  }

  lemma RankedUnique(xs: seq<Sample>, r: nat, x: nat, y: nat)
    requires RankedAt(xs, r, x) && RankedAt(xs, r, y)
    ensures x == y
  {
    if x < y {
      WeightMonotone(xs, (v: nat) => v <= x, (v: nat) => v < y);
    } else if y < x {
      WeightMonotone(xs, (v: nat) => v <= y, (v: nat) => v < x);
    }
  }

  /** The scan stops at the bucket of the sample with that rank, whatever the samples are. */
  lemma ScanFindsBucket(g: real, xs: seq<Sample>, r: nat)
    requires g > 1.0 && AllStorable(g, xs) && r < Total(xs) <= U64_MAX
    ensures FirstAbove(SketchOf(g, xs).buckets, r, 0, 0) == Some(IndexOf(g, KthSmallest(xs, r)))
  {
    hide IndexOf, NumBuckets;
    var x := KthSmallest(xs, r);
    var b, k := SketchOf(g, xs).buckets, IndexOf(g, x);
    var i := RankedIsSample(xs, r, x);
    SumsFit(g, xs);
    forall a | 0 <= a < |xs|
      ensures xs[a].value <= x ==> IndexOf(g, xs[a].value) <= k
      ensures xs[a].value >= x ==> IndexOf(g, xs[a].value) >= k
    {
      if xs[a].value <= x { IndexMonotone(g, xs[a].value, x); }
      if xs[a].value >= x { IndexMonotone(g, x, xs[a].value); }
    }
    assert Storable(g, xs[i]);
    PrefixIsWeight(g, xs, k);
    PrefixIsWeight(g, xs, k + 1);
    WeightMonotone(xs, (v: nat) => v <= x, BelowBucket(g, k + 1));
    WeightMonotone(xs, BelowBucket(g, k), (v: nat) => v < x);
    BracketIs(b, r, k);
  }

  lemma BracketIs(b: seq<nat>, r: nat, k: nat)
    requires k < |b| && PrefixSum(b, k) <= r < PrefixSum(b, k + 1) && PrefixSum(b, |b|) <= U64_MAX
    ensures FirstAbove(b, r, 0, 0) == Some(k)
  {
    FirstAboveBrackets(b, r, 0);
    PrefixMonotone(b, k + 1, |b|);
    var j := FirstAbove(b, r, 0, 0).value;
    if j < k {
      PrefixMonotone(b, j + 1, k);
    } else if k < j {
      PrefixMonotone(b, k + 1, j);
    }
  }

  /**
   `rank(value)` counts the samples in lower buckets: never more than the samples below `value`, and
   exactly those when no smaller sample shares its bucket.
   */
  lemma RankCounts(g: real, xs: seq<Sample>, value: nat)
    requires g > 1.0 && AllStorable(g, xs) && Total(xs) <= U64_MAX && IndexOf(g, value) <= NumBuckets(g)
    ensures var rank := PrefixSum(SketchOf(g, xs).buckets, IndexOf(g, value));
            && rank <= U64_MAX
            && rank + Weight(xs, (v: nat) => v < value && IndexOf(g, v) == IndexOf(g, value))
               == Weight(xs, (v: nat) => v < value)
  {
    hide IndexOf, NumBuckets;
    SumsFit(g, xs);
    PrefixMonotone(SketchOf(g, xs).buckets, IndexOf(g, value), NumBuckets(g));
    var k := IndexOf(g, value);
    PrefixIsWeight(g, xs, k);
    forall v: nat
      ensures (v < value) == (IndexOf(g, v) < k || (v < value && IndexOf(g, v) == k))
    {
      if v < value { IndexMonotone(g, v, value); } else { IndexMonotone(g, value, v); }
    }
    WeightSplits(xs, (v: nat) => v < value, BelowBucket(g, k), (v: nat) => v < value && IndexOf(g, v) == k);
  }
}
