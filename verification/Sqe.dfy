/**
 The submission queue of `sqe.rs` and the linked submitter of `handle.rs`. The state holds the ring
 as the program and the kernel see it (32-bit counters) next to the history of what was published.
 */
module SubmissionRing {
  import opened Wrappers
  import opened Bits

  /** `a - b` on u32, wrapping. */
  function WrappingSub(a: nat, b: nat): nat
    requires a < U32 && b < U32
  {
    if a >= b then a - b else a + U32 - b
  }

  function WrappingAdd(a: nat, b: nat): nat {
    (a + b) % U32
  }

  function WrappingDist(a: nat, b: nat, mask: nat): nat
    requires a < U32 && b < U32 && IsMask(mask)
  {
    var x, y := And(a, mask), And(b, mask);
    Masked(a, mask);
    Masked(b, mask);
    MaskFits(mask);
    if x == y then mask + 1 else And(WrappingSub(x, y), mask)
  }

  lemma MaskFits(mask: nat)
    requires IsMask(mask)
    ensures mask + 1 <= U32 / 2
  {
    var m := SizeDividesU32(mask);
  }

  /** The distance on unbounded counters: what is left of `a` after `b` modulo the ring size. */
  lemma DistMod(a: nat, b: nat, mask: nat)
    requires a < U32 && b < U32 && IsMask(mask)
    ensures var n := mask + 1;
            WrappingDist(a, b, mask) ==
              if a % n == b % n then n else if a % n > b % n then a % n - b % n else a % n + n - b % n
  {
    hide And, IsMask;
    var n := mask + 1;
    Masked(a, mask);
    Masked(b, mask);
    MaskFits(mask);
    var x, y := a % n, b % n;
    if x > y {
      Masked(x - y, mask);
      ModIs(x - y, n, 0, x - y);
    } else if x < y {
      var m := SizeDividesU32(mask);
      Masked(x + U32 - y, mask);
      assert n * (m - 1) == n * m - n;
      ModIs(x + U32 - y, n, m - 1, x + n - y);
    }
  }

  lemma StepFrom(b: nat, v: nat, n: nat)
    requires 1 <= v <= n
    ensures (b + v) % n == if b % n + v < n then b % n + v else b % n + v - n
  {
    ModAdd(b, v, n);
    var z := b % n + v;
    if z < n {
      ModIs(z, n, 0, z);
    } else {
      if z < 2 * n { ModIs(z, n, 1, z - n); }
    }
  }

  /** The difference of two 32-bit counters is the true distance, whether or not they have wrapped. */
  lemma CounterDistance(from: nat, to: nat)
    requires from <= to < from + U32
    ensures WrappingSub(to % U32, from % U32) == to - from
  {
    if from < to {
      StepFrom(from, to - from, U32);
    }
  }

  /**
   For every power-of-two size and all 32-bit a, b the distance is the unique step in 1..=size that
   leads from b to a under the mask, on wrapped or unwrapped counters.
   */
  lemma WrappingDistUnique(a: nat, b: nat, mask: nat, v: nat)
    requires a < U32 && b < U32 && IsMask(mask)
    ensures 1 <= WrappingDist(a, b, mask) <= mask + 1
    ensures 1 <= v <= mask + 1 ==>
              (And(WrappingAdd(b, v), mask) == And(a, mask) <==> v == WrappingDist(a, b, mask))
  {
    hide WrappingDist, And;
    var n := mask + 1;
    DistMod(a, b, mask);
    Remainders(a, b, n);
    if 1 <= v <= n {
      StepFrom(b, v, n);
      TruncatedMask(b + v, mask);
      Masked(a, mask);
      OneLap(a % n, b % n, n, v);
    }
  }

  /** The distance is the first step at which counting on from `b` comes round to `a`. */
  lemma DistIsFirstStep(a: nat, b: nat, mask: nat)
    requires a < U32 && b < U32 && IsMask(mask)
    ensures var d := WrappingDist(a, b, mask);
            && 1 <= d <= mask + 1 && And(WrappingAdd(b, d), mask) == And(a, mask)
            && forall k | 1 <= k < d :: And(WrappingAdd(b, k), mask) != And(a, mask)
  {
    hide WrappingDist, And, WrappingAdd;
    var d := WrappingDist(a, b, mask);
    WrappingDistUnique(a, b, mask, d);
    forall k | 1 <= k < d
      ensures And(WrappingAdd(b, k), mask) != And(a, mask)
    {
      WrappingDistUnique(a, b, mask, k);
    }
  }

  lemma Remainders(a: nat, b: nat, n: nat)
    requires n > 0
    ensures a % n < n && b % n < n
  {
  }

  /** Within one lap exactly one step leads from y to x. */
  lemma OneLap(x: nat, y: nat, n: nat, v: nat)
    requires x < n && y < n && 1 <= v <= n
    ensures (if y + v < n then y + v else y + v - n) == x
            <==> v == if x == y then n else if x > y then x - y else x + n - y
  {
  }

  /** With `used` SQEs in flight the ring offers the rest, except that a full ring looks empty. */
  lemma FreeSlots(head: nat, used: nat, mask: nat)
    requires IsMask(mask) && used <= mask + 1
    ensures WrappingDist(head % U32, (head + used) % U32, mask) ==
            if used == mask + 1 then mask + 1 else mask + 1 - used
  {
    var n := mask + 1;
    DistMod(head % U32, (head + used) % U32, mask);
    TruncatedMask(head, mask);
    TruncatedMask(head + used, mask);
    Masked(head % U32, mask);
    Masked((head + used) % U32, mask);
    if used > 0 {
      StepFrom(head, used, n);
    }
  }

  /** The slot of the `i`-th SQE from a 32-bit counter value. */
  function SlotFrom(counter: nat, i: nat, mask: nat): nat {
    And(counter % U32 + i, mask)
  }

  /** None of the slots that `sqes()` hands out holds one of the SQEs in flight between head and tail. */
  ghost predicate ExposesOnlyFree(head: nat, tail: nat, mask: nat)
    requires IsMask(mask)
  {
    forall i, j | 0 <= i < tail - head && 0 <= j < WrappingDist(head % U32, tail % U32, mask) ::
      SlotFrom(head, i, mask) != SlotFrom(tail, j, mask)
  }

  /** The exposed slots are disjoint from those in flight exactly when the ring is not full. */
  lemma ExposedSlotsDisjoint(head: nat, tail: nat, mask: nat)
    requires IsMask(mask) && head <= tail <= head + mask + 1
    ensures ExposesOnlyFree(head, tail, mask) <==> tail - head <= mask
  {
    var n, used := mask + 1, tail - head;
    FreeSlots(head, used, mask);
    if used <= mask {
      forall i, j | 0 <= i < used && 0 <= j < n - used
        ensures SlotFrom(head, i, mask) != SlotFrom(tail, j, mask)
      {
        TruncatedOffset(head, i, mask);
        TruncatedOffset(tail, j, mask);
        ModDistinct(head + i, tail + j, n);
      }
    } else {
      TruncatedOffset(head, 0, mask);
      TruncatedOffset(tail, 0, mask);
      ModAdd(n, head, n);
      assert SlotFrom(head, 0, mask) == SlotFrom(tail, 0, mask);
    }
  }

  lemma TruncatedOffset(x: nat, j: nat, mask: nat)
    requires IsMask(mask)
    ensures And(x % U32 + j, mask) == (x + j) % (mask + 1)
  {
    var n := mask + 1;
    Masked(x % U32 + j, mask);
    Masked(x % U32, mask);
    TruncatedMask(x, mask);
    ModAdd(x % U32, j, n);
    ModAdd(x, j, n);
  }
}
