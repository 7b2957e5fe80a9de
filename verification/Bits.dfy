/** Bitwise masking on naturals and the modular arithmetic that ring indices rest on. */
module Bits {
  const U32: nat := 0x1_0000_0000

  function Pow2(k: nat): (r: nat)
    ensures r > 0
  {
    if k == 0 then 1 else 2 * Pow2(k - 1)
  }

  /** The bitwise `&` of two unsigned integers. */
  function And(x: nat, m: nat): nat {
    if x == 0 || m == 0 then 0 else (if x % 2 == 1 && m % 2 == 1 then 1 else 0) + 2 * And(x / 2, m / 2)
  }

  /** `mask` is one less than a power of two that a `u32` can hold. */
  ghost predicate IsMask(mask: nat) {
    exists k: nat :: k <= 31 && mask + 1 == Pow2(k)
  }

  lemma MulBounds(d: int, e: int)
    requires d > 0
    ensures e >= 1 ==> d * e >= d
    ensures e <= 0 ==> d * e <= 0
    ensures e <= -1 ==> d * e <= -d
  {
  }

  lemma ModIs(x: int, d: int, q: int, r: int)
    requires 0 <= r < d && x == d * q + r
    ensures x % d == r && x / d == q
  {
    var e := q - x / d;
    assert d * e == d * q - d * (x / d);
    MulBounds(d, e);
  }

  lemma ModHalf(x: nat, p: nat)
    requires p > 0
    ensures x % (2 * p) == x % 2 + 2 * ((x / 2) % p)
  {
    var q, r := (x / 2) / p, (x / 2) % p;
    assert x / 2 == p * q + r;
    assert (2 * p) * q == 2 * (p * q);
    ModIs(x, 2 * p, q, 2 * r + x % 2);
  }

  /** One bit of `&` against an odd mask. */
  lemma AndOdd(x: nat, h: nat)
    ensures And(x, 2 * h + 1) == x % 2 + 2 * And(x / 2, h)
  {
    assert (2 * h + 1) / 2 == h && (2 * h + 1) % 2 == 1;
  }

  lemma {:induction false} AndMask(x: nat, k: nat)
    ensures And(x, Pow2(k) - 1) == x % Pow2(k)
  {
    if k > 0 {
      var p := Pow2(k - 1);
      AndMask(x / 2, k - 1);
      AndOdd(x, p - 1);
      ModHalf(x, p);
    }
  }

  lemma {:induction false} AndSelf(x: nat)
    ensures And(x, x) == x
  {
    if x > 0 {
      AndSelf(x / 2);
    }
  }

  lemma AndEven(h: nat)
    ensures And(2 * h, 2 * h + 1) == 2 * And(h, h)
  {
    AndOdd(2 * h, h);
  }

  lemma AndCarry(h: nat)
    ensures And(2 * h + 1, 2 * h + 2) == 2 * And(h, h + 1)
  {
    assert (2 * h + 1) / 2 == h && (2 * h + 2) / 2 == h + 1 && (2 * h + 2) % 2 == 0;
  }

  lemma {:induction false} MaskAccepted(k: nat)
    ensures And(Pow2(k) - 1, Pow2(k)) == 0
  {
    if k > 0 {
      MaskAccepted(k - 1);
      AndCarry(Pow2(k - 1) - 1);
    }
  }

  lemma {:induction false} MaskExponent(mask: nat) returns (k: nat)
    requires And(mask, mask + 1) == 0
    ensures mask + 1 == Pow2(k)
  {
    var h := mask / 2;
    if mask == 0 {
      k := 0;
    } else {
      AndSelf(h);
      AndEven(h);
      AndCarry(h);
      k := MaskExponent(h);
      k := k + 1;
    }
  }

  /** The constructor's test `mask & (mask + 1) == 0` accepts exactly the masks 2^k - 1. */
  lemma MaskTest(mask: nat)
    ensures And(mask, mask + 1) == 0 <==> exists k: nat :: mask + 1 == Pow2(k)
  {
    if And(mask, mask + 1) == 0 {
      var k := MaskExponent(mask);
    }
    forall k: nat | mask + 1 == Pow2(k)
      ensures And(mask, mask + 1) == 0
    {
      MaskAccepted(k);
    }
  }

  lemma Masked(x: nat, mask: nat)
    requires IsMask(mask)
    ensures And(x, mask) == x % (mask + 1)
  {
    var k: nat :| k <= 31 && mask + 1 == Pow2(k);
    AndMask(x, k);
  }

  lemma {:induction false} Pow2Splits(k: nat, n: nat)
    requires k <= n
    ensures Pow2(n) == Pow2(k) * Pow2(n - k)
  {
    if k > 0 {
      Pow2Splits(k - 1, n - 1);
    }
  }

  lemma Pow2Is32()
    ensures Pow2(32) == U32
  {
    assert Pow2(8) == 256;
    Pow2Splits(8, 16);
    Pow2Splits(16, 32);
  }

  lemma U32Splits(k: nat)
    requires k <= 31
    ensures Pow2(k) * Pow2(31 - k) == U32 / 2
  {
    Pow2Is32();
    Pow2Splits(k, 31);
    assert Pow2(32) == 2 * Pow2(31);
  }

  lemma Doubled(n: nat, half: nat) returns (m: nat)
    requires n > 0 && half > 0
    ensures m >= 2 && n * m == 2 * (n * half) && n <= n * half
  {
    m := 2 * half;
    MulBounds(n, half);
  }

  /** A ring size divides 2^32, and half of 2^32 is the largest one. */
  lemma SizeDividesU32(mask: nat) returns (m: nat)
    requires IsMask(mask)
    ensures m >= 2 && (mask + 1) * m == U32 && mask + 1 <= U32 / 2
  {
    var k: nat :| k <= 31 && mask + 1 == Pow2(k);
    U32Splits(k);
    m := Doubled(mask + 1, Pow2(31 - k));
  }

  lemma ModOfMod(x: nat, n: nat, m: nat)
    requires n > 0 && m > 0
    ensures (x % (n * m)) % n == x % n
  {
    var q, y := x / (n * m), x % (n * m);
    assert x == (n * m) * q + y;
    assert (n * m) * q == n * (m * q);
    assert y == n * (y / n) + y % n;
    assert n * (m * q) + n * (y / n) == n * (m * q + y / n);
    ModIs(x, n, m * q + y / n, y % n);
  }

  /** Truncation to 32 bits is invisible behind a mask. */
  lemma TruncatedMask(x: nat, mask: nat)
    requires IsMask(mask)
    ensures And(x % U32, mask) == x % (mask + 1)
  {
    var m := SizeDividesU32(mask);
    ModOfMod(x, mask + 1, m);
    Masked(x % U32, mask);
  }

  lemma ModAdd(x: nat, y: nat, n: nat)
    requires n > 0
    ensures (x % n + y) % n == (x + y) % n
  {
    var z := x % n + y;
    assert x == n * (x / n) + x % n;
    assert z == n * (z / n) + z % n;
    assert n * (x / n) + n * (z / n) == n * (x / n + z / n);
    ModIs(x + y, n, x / n + z / n, z % n);
  }

  /** Fewer than `n` consecutive counters fall into different slots. */
  lemma ModDistinct(x: nat, y: nat, n: nat)
    requires x < y < x + n
    ensures x % n != y % n
  {
    var d := y / n - x / n;
    assert x == n * (x / n) + x % n;
    assert y == n * (y / n) + y % n;
    assert n * d == n * (y / n) - n * (x / n);
    MulBounds(n, d);
  }

  /** Entries `lo` and later of a stream sit in the slots that their counters select. */
  ghost predicate Holds<T>(slots: seq<T>, lo: nat, all: seq<T>) {
    && |slots| > 0
    && |all| <= lo + |slots|
    && forall i | lo <= i < |all| :: slots[i % |slots|] == all[i]
  }

  lemma HoldsPush<T>(slots: seq<T>, lo: nat, all: seq<T>, e: T)
    requires Holds(slots, lo, all) && lo <= |all| < lo + |slots|
    ensures Holds(slots[|all| % |slots| := e], lo, all + [e])
  {
    var n := |slots|;
    forall i | lo <= i < |all| + 1
      ensures slots[|all| % n := e][i % n] == (all + [e])[i]
    {
      if i < |all| {
        ModDistinct(i, |all|, n);
      }
    }
  }

  lemma HoldsUpdate<T>(slots: seq<T>, lo: nat, all: seq<T>, k: nat, e: T)
    requires Holds(slots, lo, all) && lo <= k < |all|
    ensures Holds(slots[k % |slots| := e], lo, all[k := e])
  {
    var n := |slots|;
    forall i | lo <= i < |all|
      ensures slots[k % n := e][i % n] == all[k := e][i]
    {
      if i < k {
        ModDistinct(i, k, n);
      } else if i > k {
        ModDistinct(k, i, n);
      }
    }
  }
}
