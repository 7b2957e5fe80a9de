/** Powers and ceiled logarithms over the reals, as the bucket formulas of `ddsketch.rs` use them. */
module RealPow {
  function Pow(g: real, n: nat): real {
    if n == 0 then 1.0 else g * Pow(g, n - 1)
  }

  /** `ipow`: square and multiply. */
  function IPow(x: real, e: nat): real
    decreases e
  {
    if e == 0 then 1.0
    else if e == 1 then x
    else if e % 2 == 0 then IPow(x * x, e / 2)
    else x * IPow(x * x, e / 2)
  }

  lemma {:induction false} PowOfSquare(x: real, n: nat)
    ensures Pow(x * x, n) == Pow(x, 2 * n)
  {
    if n > 0 {
      PowOfSquare(x, n - 1);
      assert Pow(x, 2 * n) == x * Pow(x, 2 * n - 1);
    }
  }

  /** Square and multiply computes the power. */
  lemma {:induction false} IPowIsPow(x: real, e: nat)
    ensures IPow(x, e) == Pow(x, e)
    decreases e
  {
    if e > 1 {
      IPowIsPow(x * x, e / 2);
      PowOfSquare(x, e / 2);
    } else if e == 1 {
      assert Pow(x, 1) == x * Pow(x, 0);
    }
  }

  lemma {:induction false} PowAtLeastOne(g: real, n: nat)
    requires g >= 1.0
    ensures Pow(g, n) >= 1.0
  {
    if n > 0 {
      PowAtLeastOne(g, n - 1);
      Times(Pow(g, n - 1), g);
    }
  }

  lemma Times(p: real, g: real)
    requires p >= 1.0 && g >= 1.0
    ensures g * p >= p && g * p - p >= g - 1.0
  {
    assert g * p - p == (g - 1.0) * p;
    assert (g - 1.0) * p - (g - 1.0) == (g - 1.0) * (p - 1.0);
    Product(g - 1.0, p - 1.0);
    Product(g - 1.0, p);
  }

  lemma Product(a: real, b: real)
    requires a >= 0.0 && b >= 0.0
    ensures a * b >= 0.0
  {
  }

  lemma {:induction false} PowMonotone(g: real, m: nat, n: nat)
    requires g >= 1.0 && m <= n
    ensures Pow(g, m) <= Pow(g, n)
    decreases n
  {
    if m < n {
      PowMonotone(g, m, n - 1);
      PowAtLeastOne(g, n - 1);
      Times(Pow(g, n - 1), g);
    }
  }

  lemma RemainingSteps(g: real, x: real, p: real)
    requires g > 1.0 && p >= 1.0
    ensures (x - g * p) / (g - 1.0) <= (x - p) / (g - 1.0) - 1.0
    ensures x > p ==> (x - p) / (g - 1.0) >= 0.0
  {
    Times(p, g);
    QuotientStep(x - p, x - g * p, g - 1.0);
  }

  lemma Factor(c: real, d: real)
    requires d > 0.0 && c * d >= 0.0
    ensures c >= 0.0
  {
  }

  lemma QuotientStep(y: real, z: real, d: real)
    requires d > 0.0 && y - z >= d
    ensures z / d <= y / d - 1.0
    ensures y > 0.0 ==> y / d >= 0.0
  {
    var a, b := z / d, y / d;
    assert a * d == z && b * d == y;
    assert (b - a - 1.0) * d == b * d - a * d - d;
    Factor(b - a - 1.0, d);
  }

  /** `x.log(g).ceil() as usize`: the least natural exponent whose power reaches `x`. */
  function CeilLogFrom(g: real, x: real, n: nat, p: real): (r: nat)
    requires g > 1.0 && p == Pow(g, n) && (n > 0 ==> Pow(g, n - 1) < x)
    ensures Pow(g, r) >= x && (r > 0 ==> Pow(g, r - 1) < x)
    decreases if p >= x then 0.0 else (x - p) / (g - 1.0) + 2.0
  {
    PowAtLeastOne(g, n);
    RemainingSteps(g, x, p);
    if p >= x then n else CeilLogFrom(g, x, n + 1, g * p)
  }

  function CeilLog(g: real, x: real): (r: nat)
    requires g > 1.0
    ensures Pow(g, r) >= x && (r > 0 ==> Pow(g, r - 1) < x)
  {
    CeilLogFrom(g, x, 0, 1.0)
  }

  /** The exponent is determined by its two bounds. */
  lemma CeilLogIs(g: real, x: real, n: nat)
    requires g > 1.0
    ensures Pow(g, n) >= x <==> CeilLog(g, x) <= n
  {
    var r := CeilLog(g, x);
    if r <= n {
      PowMonotone(g, r, n);
    } else {
      PowMonotone(g, n, r - 1);
    }
  }

  lemma CeilLogMonotone(g: real, x: real, y: real)
    requires g > 1.0 && x <= y
    ensures CeilLog(g, x) <= CeilLog(g, y)
  {
    CeilLogIs(g, x, CeilLog(g, y));
  }

  /** A power grows by at most its last step per exponent. */
  lemma {:induction false} PowGrowth(g: real, n: nat)
    requires g >= 1.0 && n >= 1
    ensures Pow(g, n) - 1.0 <= (n as real) * ((g - 1.0) * Pow(g, n - 1))
  {
    if n == 1 {
      assert Pow(g, 1) == g * Pow(g, 0);
    } else {
      PowGrowth(g, n - 1);
      PowMonotone(g, n - 2, n - 1);
      var step, last := (g - 1.0) * Pow(g, n - 2), (g - 1.0) * Pow(g, n - 1);
      assert last - step == (g - 1.0) * (Pow(g, n - 1) - Pow(g, n - 2));
      Product(g - 1.0, Pow(g, n - 1) - Pow(g, n - 2));
      Product((n - 1) as real, last - step);
      assert ((n - 1) as real) * last - ((n - 1) as real) * step == ((n - 1) as real) * (last - step);
      assert Pow(g, n) - Pow(g, n - 1) == last;
      assert (n as real) * last == ((n - 1) as real) * last + last;
    }
  }
}
