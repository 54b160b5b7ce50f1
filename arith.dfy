/** Integer arithmetic used by the render-target size planning: powers,
    floor and ceiling division (the thread-group counts of every compute
    dispatch), and the integer part of a base-2 logarithm (the blur
    pyramid depth). */
module Arith {

  function Pow(b: nat, k: nat): (p: nat)
    ensures b >= 1 ==> p >= 1
  {
    if k == 0 then 1 else b * Pow(b, k - 1)
  }

  lemma MulLe(a: int, x: int, y: int)
    requires a >= 0 && x <= y
    ensures a * x <= a * y
  {
  }

  /** Ceiling division: the number of groups of `x` threads a dispatch
      needs so that every one of `n` texels is covered and no group is
      wholly outside the texture. */
  function CeilDiv(n: nat, x: nat): (g: nat)
    requires x >= 1
    ensures g * x >= n
    ensures (g - 1) * x < n
  {
    var q := (n + x - 1) / x;
    assert n + x - 1 == q * x + (n + x - 1) % x;
    q
  }

  /** The two inequalities of `CeilDiv` determine the group count. */
  lemma {:induction false} CeilDivUnique(n: nat, x: nat, g: int)
    requires x >= 1
    requires g * x >= n && (g - 1) * x < n
    ensures g == CeilDiv(n, x)
  {
    var c := CeilDiv(n, x);
    if g < c {
      MulLe(x, g, c - 1);
    } else if g > c {
      MulLe(x, c, g - 1);
    }
  }

  lemma DivShrinks(n: nat, d: nat)
    requires n >= 1 && d >= 2
    ensures 0 <= n / d < n
  {
    if n / d >= n {
      MulLe(d, n, n / d);
    }
  }

  /** Floor division (C#'s `/` on non-negative operands) is determined by
      its two inequalities. */
  lemma {:induction false} FloorDivUnique(n: nat, x: nat, q: int)
    requires x >= 1
    requires q * x <= n < (q + 1) * x
    ensures q == n / x
  {
    var c := n / x;
    assert c * x <= n < (c + 1) * x;
    if q < c {
      MulLe(x, q + 1, c);
    } else if q > c {
      MulLe(x, c + 1, q);
    }
  }

  /** Halving twice with floor division is dividing by the product. */
  lemma {:induction false} DivDiv(n: nat, a: nat, b: nat)
    requires a >= 1 && b >= 1
    ensures n / a / b == n / (a * b)
  {
    var q := n / a;
    var q2 := q / b;
    assert q2 * b <= q < (q2 + 1) * b;
    MulLe(a, q2 * b, q);
    MulLe(a, q + 1, (q2 + 1) * b);
    assert q * a <= n < (q + 1) * a;
    assert q2 * (a * b) == a * (q2 * b);
    assert (q2 + 1) * (a * b) == a * ((q2 + 1) * b);
    FloorDivUnique(n, a * b, q2);
  }

  /** Ceiling-halving a ceiling quotient is a ceiling quotient by twice the
      divisor: the pyramid level sizes have a closed form. */
  lemma {:induction false} CeilDivHalf(n: nat, a: nat)
    requires a >= 1
    ensures (CeilDiv(n, a) + 1) / 2 == CeilDiv(n, 2 * a)
  {
    var g1 := CeilDiv(n, a);
    var g2 := (g1 + 1) / 2;
    assert 2 * g2 >= g1 && 2 * (g2 - 1) <= g1 - 1;
    MulLe(a, g1, 2 * g2);
    MulLe(a, 2 * (g2 - 1), g1 - 1);
    assert g2 * (2 * a) == a * (2 * g2);
    assert (g2 - 1) * (2 * a) == a * (2 * (g2 - 1));
    assert a * (g1 - 1) == (g1 - 1) * a;
    CeilDivUnique(n, 2 * a, g2);
  }

  /** floor(log2(n)) for n >= 1. */
  function FloorLog2(n: nat): (k: nat)
    requires n >= 1
    ensures Pow(2, k) <= n < Pow(2, k + 1)
  {
    if n == 1 then 0 else 1 + FloorLog2(n / 2)
  }

  /** The bounds of `FloorLog2` determine it. */
  lemma {:induction false} FloorLog2Unique(n: nat, k: nat)
    requires n >= 1
    requires Pow(2, k) <= n < Pow(2, k + 1)
    ensures k == FloorLog2(n)
  {
    var m := FloorLog2(n);
    if k < m {
      PowMonotone(2, k + 1, m);
    } else if k > m {
      PowMonotone(2, m + 1, k);
    }
  }

  lemma {:induction false} PowMonotone(b: nat, i: nat, j: nat)
    requires b >= 1 && i <= j
    ensures Pow(b, i) <= Pow(b, j)
  {
    if i < j {
      PowMonotone(b, i, j - 1);
      MulLe(Pow(b, j - 1), 1, b);
    }
  }
}
