/** `DDSketch` of `ddsketch.rs`: the structure itself. */
module DDSketches {
  import opened Wrappers
  import opened Bits
  import opened RealPow
  import opened SketchIndex
  import opened SketchSpec
  import opened SketchQuantile

  class DDSketch {
    const gamma: real
    const buckets: array<nat>
    var count: nat
    var min: nat
    var max: nat

    ghost predicate Valid()
      reads this, buckets
    {
      gamma > 1.0 && buckets.Length == NumBuckets(gamma)
    }

    ghost function View(): Sketch
      reads this, buckets
    {
      Sketch(buckets[..], count, min, max)
    }

    constructor (alpha: real)
      requires IsAlpha(alpha)
      ensures Valid() && gamma == Gamma(alpha) && View() == Empty(gamma) && fresh(buckets)
    {
      GammaIsRatio(alpha);
      var g := Gamma(alpha);
      gamma := g;
      buckets := new nat[NumBuckets(g)](_ => 0);
      count, min, max := 0, U64_MAX, 0;
      new;
      assert buckets[..] == Empty(gamma).buckets;
    }

    /**
     `insert_n` as one thread alone runs it: whatever list of samples the sketch stands for, it now stands
     for that list with one more entry.
     */
    method InsertN(value: nat, n: nat)
      requires Valid() && Storable(gamma, Sample(value, n))
      modifies this, buckets
      ensures Valid() && View() == Insert(gamma, old(View()), Sample(value, n))
      ensures min <= old(min) && min <= value && (min == old(min) || min == value)
      ensures max >= old(max) && max >= value && (max == old(max) || max == value)
      ensures forall j | 0 <= j < buckets.Length && j != IndexOf(gamma, value) :: buckets[j] == old(buckets[j])
      ensures forall xs | AllStorable(gamma, xs) && old(View()) == SketchOf(gamma, xs) ::
                AllStorable(gamma, xs + [Sample(value, n)]) && View() == SketchOf(gamma, xs + [Sample(value, n)])
    {
      hide NumBuckets;
      max := if value > max then value else max;
      min := if value < min then value else min;
      count := SatAdd(count, n);
      var i := IndexOf(gamma, value);
      buckets[i] := SatAdd(buckets[i], n);
      ghost var x := Sample(value, n);
      forall xs | AllStorable(gamma, xs) && old(View()) == SketchOf(gamma, xs)
        ensures AllStorable(gamma, xs + [x]) && View() == SketchOf(gamma, xs + [x])
      {
        InsertIsAppend(gamma, xs, x);
      }
    }

    /** Only the number of buckets has to agree; merging a sketch with itself doubles it. */
    method Merge(other: DDSketch)
      requires Valid() && other.Valid() && other.buckets.Length == buckets.Length
      requires other == this || other.buckets != buckets
      modifies this, buckets
      ensures Valid() && View() == SketchSpec.Merge(old(View()), old(other.View()))
      ensures forall xs, ys | AllStorable(gamma, xs) && old(View()) == SketchOf(gamma, xs)
                              && AllStorable(gamma, ys) && old(other.View()) == SketchOf(gamma, ys) ::
                AllStorable(gamma, xs + ys) && View() == SketchOf(gamma, xs + ys)
    {
      for i := 0 to buckets.Length
        invariant forall j | 0 <= j < i :: buckets[j] == SatAdd(old(buckets[j]), old(other.buckets[j]))
        invariant forall j | i <= j < buckets.Length :: buckets[j] == old(buckets[j])
        invariant forall j | i <= j < buckets.Length :: other.buckets[j] == old(other.buckets[j])
        invariant count == old(count) && min == old(min) && max == old(max)
      {
        buckets[i] := SatAdd(buckets[i], other.buckets[i]);
      }
      count := SatAdd(count, other.count);
      min := if other.min < min then other.min else min;
      max := if other.max > max then other.max else max;
      assert View().buckets == SketchSpec.Merge(old(View()), old(other.View())).buckets;
      forall xs, ys | AllStorable(gamma, xs) && old(View()) == SketchOf(gamma, xs)
                      && AllStorable(gamma, ys) && old(other.View()) == SketchOf(gamma, ys)
        ensures AllStorable(gamma, xs + ys) && View() == SketchOf(gamma, xs + ys)
      {
        MergeIsUnion(gamma, xs, ys);
      }
    }

    method Clear()
      requires Valid()
      modifies this, buckets
      ensures Valid() && View() == Empty(gamma)
    {
      min, max, count := U64_MAX, 0, 0;
      for i := 0 to buckets.Length
        invariant forall j | 0 <= j < i :: buckets[j] == 0
        invariant min == U64_MAX && max == 0 && count == 0
      {
        buckets[i] := 0;
      }
      assert View().buckets == Empty(gamma).buckets;
    }

    /** The iterator chain of `quantile` as the loop it runs. */
    method Scan(rank: nat) returns (index: Option<nat>)
      requires Valid()
      ensures index == FirstAbove(View().buckets, rank, 0, 0)
    {
      hide WrapAdd;
      var total: nat, i := 0, 0;
      while i < buckets.Length && WrapAdd(total, buckets[i]) <= rank
        invariant i <= buckets.Length
        invariant FirstAbove(buckets[..], rank, 0, 0) == FirstAbove(buckets[..], rank, i, total)
      {
        total, i := WrapAdd(total, buckets[i]), i + 1;
      }
      index := if i == buckets.Length then None else Some(i);
    }

    /** Without saturation the answer is what is reported for the sample at quantile `q`. */
    method QuantileAt(q: real) returns (r: nat)
      requires Valid()
      ensures r == Quantile(gamma, View(), q)
      ensures q < 0.0 ==> r == min
      ensures q >= 1.0 ==> r == max
      ensures forall xs, x: nat | AllStorable(gamma, xs) && View() == SketchOf(gamma, xs) && 0 < Total(xs) <= U64_MAX
                                  && 0.0 <= q < 1.0 && AtQuantile(xs, q, x) ::
                AnswersFor(gamma, View(), x, r)
    {
      hide Report, NumBuckets, RankOf, AnswersFor, AtQuantile, SketchOf, AllStorable, Weight, Clamp, IndexOf,
           FirstAbove;
      AnswersForSamples(gamma, View(), q);
      if q < 0.0 { return min; }
      if q >= 1.0 { return max; }
      var index := Scan(RankOf(count, q));
      match index {
        case None => r := max;
        case Some(i) =>
          if i < Cutoff(gamma) {
            r := Report(gamma, min, max, i);
          } else if i == buckets.Length - 1 {
            r := max;
          } else {
            r := Report(gamma, min, max, i - 1);
          }
      }
    }

    /** The u64 sum of the buckets below the value's own; without saturation it is the true sum. */
    method Rank(value: nat) returns (r: nat)
      requires Valid() && IndexOf(gamma, value) <= buckets.Length
      ensures r == PrefixSum(View().buckets, IndexOf(gamma, value)) % (U64_MAX + 1)
      ensures forall xs | AllStorable(gamma, xs) && View() == SketchOf(gamma, xs) && Total(xs) <= U64_MAX ::
                r + Weight(xs, (v: nat) => v < value && IndexOf(gamma, v) == IndexOf(gamma, value))
                == Weight(xs, (v: nat) => v < value)
    {
      hide IndexOf, NumBuckets, SketchOf;
      r := 0;
      for i := 0 to IndexOf(gamma, value)
        invariant r == PrefixSum(View().buckets, i) % (U64_MAX + 1)
      {
        ModAdd(PrefixSum(View().buckets, i), buckets[i], U64_MAX + 1);
        r := WrapAdd(r, buckets[i]);
      }
      forall xs | AllStorable(gamma, xs) && View() == SketchOf(gamma, xs) && Total(xs) <= U64_MAX
        ensures r + Weight(xs, (v: nat) => v < value && IndexOf(gamma, v) == IndexOf(gamma, value))
                == Weight(xs, (v: nat) => v < value)
      {
        RankCounts(gamma, xs, value);
      }
    }
  }
}
