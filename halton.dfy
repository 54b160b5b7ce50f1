/** The TAA jitter generator (class `TAA` of SSRRF.cs): Halton values of
    bases 2 and 3 at a sample index that cycles through 0..63.
    Floating point is replaced by exact reals. */
module Halton {
  import opened Arith

  /** Radical inverse of `index` in base `radix`: the base-`radix` digits
      of `index` mirrored about the radix point. */
  function RadicalInverse(index: nat, radix: nat): (v: real)
    requires radix >= 2
    ensures 0.0 <= v < 1.0
    decreases index
  {
    if index == 0 then 0.0
    else
      var d := index % radix;
      DivShrinks(index, radix);
      var rest := RadicalInverse(index / radix, radix);
      UnitFraction(d, rest, radix);
      (d as real + rest) / radix as real
  }

  lemma MulLeReal(a: real, x: real, y: real)
    requires a >= 0.0 && x <= y
    ensures a * x <= a * y
  {
  }

  lemma UnitFraction(d: nat, rest: real, radix: nat)
    requires d < radix && 0.0 <= rest < 1.0
    ensures 0.0 <= (d as real + rest) / radix as real < 1.0
  {
    var x := d as real + rest;
    var r := radix as real;
    var q := x / r;
    assert x < r;
    assert q * r == x;
    if q >= 1.0 {
      MulLeReal(r, 1.0, q);
    }
  }

  /** The base-`radix` digits of `index`, least significant first. */
  function Digits(index: nat, radix: nat): (ds: seq<nat>)
    requires radix >= 2
    decreases index
  {
    if index == 0 then []
    else
      DivShrinks(index, radix);
      [index % radix] + Digits(index / radix, radix)
  }

  lemma PowDiv(index: nat, radix: nat, k: nat)
    requires radix >= 2 && k >= 1
    ensures index / radix / Pow(radix, k - 1) == index / Pow(radix, k)
  {
    DivDiv(index, radix, Pow(radix, k - 1));
  }

  lemma DigitsTail(index: nat, radix: nat, k: nat)
    requires radix >= 2 && 1 <= k < |Digits(index, radix)|
    ensures Digits(index, radix)[k] == Digits(index / radix, radix)[k - 1]
  {
  }

  /** Digit `k` of `Digits` is the positional digit `(index / radix^k) % radix`. */
  lemma {:induction false} DigitsAt(index: nat, radix: nat, k: nat)
    requires radix >= 2 && k < |Digits(index, radix)|
    ensures Digits(index, radix)[k] == (index / Pow(radix, k)) % radix
    decreases index
  {
    if k == 0 {
      assert Pow(radix, 0) == 1;
    } else {
      DigitsTail(index, radix, k);
      DivShrinks(index, radix);
      DigitsAt(index / radix, radix, k - 1);
      PowDiv(index, radix, k);
    }
  }

  /** `r` to the power `n`, over the reals. */
  function RealPow(r: real, n: nat): (p: real)
    ensures r > 0.0 ==> p > 0.0
  {
    if n == 0 then 1.0 else r * RealPow(r, n - 1)
  }

  /** The reference definition: digit k weighted by r^-(k+1), summed. */
  function PositionalSum(ds: seq<nat>, r: real): real
    requires r > 0.0
  {
    if ds == [] then 0.0
    else PositionalSum(ds[..|ds| - 1], r) + ds[|ds| - 1] as real / RealPow(r, |ds|)
  }

  /** The algebra of one digit shift, over opaque reals. */
  lemma ScaleSum(total: real, lower: real, d: real, a: real, e: real, r: real, p: real, shifted: real)
    requires r > 0.0 && p > 0.0
    requires total == lower + e / (r * p)
    requires lower == (d + a) / r
    requires shifted == a + e / p
    ensures total == (d + shifted) / r
  {
    assert e / (r * p) == (e / p) / r;
  }

  /** Prepending a digit shifts every other digit one place right. */
  lemma {:induction false} PositionalSumCons(d: nat, s: seq<nat>, r: real)
    requires r > 0.0
    ensures PositionalSum([d] + s, r) == (d as real + PositionalSum(s, r)) / r
    decreases |s|
  {
    var ds := [d] + s;
    if s == [] {
      assert ds[..0] == [];
      assert RealPow(r, 1) == r;
    } else {
      var s' := s[..|s| - 1];
      var e := s[|s| - 1];
      assert ds[..|ds| - 1] == [d] + s';
      assert ds[|ds| - 1] == e;
      PositionalSumCons(d, s', r);
      assert RealPow(r, |ds|) == r * RealPow(r, |s|);
      ScaleSum(PositionalSum(ds, r), PositionalSum([d] + s', r), d as real,
               PositionalSum(s', r), e as real, r, RealPow(r, |s|), PositionalSum(s, r));
    }
  }

  /** `RadicalInverse` is the positional digit sum of the digits of
      `index`: sum of digit_k * radix^-(k+1). */
  lemma {:induction false} RadicalInverseIsDigitSum(index: nat, radix: nat)
    requires radix >= 2
    ensures RadicalInverse(index, radix) == PositionalSum(Digits(index, radix), radix as real)
    decreases index
  {
    if index > 0 {
      DivShrinks(index, radix);
      RadicalInverseIsDigitSum(index / radix, radix);
      PositionalSumCons(index % radix, Digits(index / radix, radix), radix as real);
    }
  }

  /** The algebra of one digit step, over opaque reals: adding the digit
      at weight `1/p` and dividing the weight by `r`. */
  lemma WeightStep(sum: real, d: real, p: real, r: real, result: real, fraction: real,
                   result': real, fraction': real)
    requires p > 0.0 && r > 0.0
    requires result == sum && fraction == 1.0 / p
    requires result' == result + d * fraction && fraction' == fraction / r
    ensures result' == sum + d / p && fraction' == 1.0 / (r * p)
  {
  }

  /** One digit step on the positional sum: the digit `d` joins the
      consumed digits at the weight `fraction`, and the weight moves one
      place. */
  lemma DigitStep(ds: seq<nat>, d: nat, r: real, result: real, fraction: real,
                  result': real, fraction': real)
    requires r > 0.0
    requires result == PositionalSum(ds, r) && fraction == 1.0 / RealPow(r, |ds| + 1)
    requires result' == result + d as real * fraction && fraction' == fraction / r
    ensures result' == PositionalSum(ds + [d], r) && fraction' == 1.0 / RealPow(r, |ds + [d]| + 1)
  {
    assert (ds + [d])[..|ds|] == ds;
    WeightStep(PositionalSum(ds, r), d as real, RealPow(r, |ds| + 1), r, result, fraction, result', fraction');
  }

  /** One iteration of the digit loop moves the least significant digit of
      what remains to the consumed digits. */
  lemma DigitsSplit(n: nat, radix: nat, done: seq<nat>, i: int)
    requires radix >= 2 && i > 0
    requires Digits(n, radix) == done + Digits(Positive(i), radix)
    ensures 0 <= i / radix < i
    ensures Digits(n, radix) == (done + [i % radix]) + Digits(Positive(i / radix), radix)
  {
    DivShrinks(i, radix);
    assert Digits(i, radix) == [i % radix] + Digits(i / radix, radix);
  }

  /** The loop counter read as a natural number: a non-positive value
      has no digits. */
  function Positive(i: int): (n: nat)
    ensures i > 0 ==> n == i
    ensures i <= 0 ==> n == 0
  {
    if i > 0 then i else 0
  }

  /** The invariant of the digit loop of `GetHaltonValue`: the digits of
      `index` split into those consumed (`done`) and those of `i`; `result`
      is the positional sum of the consumed digits and `fraction` the
      weight of the next one. */
  ghost predicate HaltonLoop(index: int, radix: nat, done: seq<nat>, i: int, result: real, fraction: real)
    requires radix >= 2
  {
    && Digits(Positive(index), radix) == done + Digits(Positive(i), radix)
    && result == PositionalSum(done, radix as real)
    && fraction == 1.0 / RealPow(radix as real, |done| + 1)
  }

  /** One iteration of the digit loop keeps its invariant. */
  lemma HaltonLoopStep(index: int, radix: nat, done: seq<nat>, i: int, result: real, fraction: real,
                       done': seq<nat>, i': int, result': real, fraction': real)
    requires radix >= 2 && i > 0
    requires HaltonLoop(index, radix, done, i, result, fraction)
    requires done' == done + [i % radix] && i' == i / radix
    requires result' == result + (i % radix) as real * fraction && fraction' == fraction / radix as real
    ensures HaltonLoop(index, radix, done', i', result', fraction')
  {
    DigitsSplit(Positive(index), radix, done, i);
    DigitStep(done, i % radix, radix as real, result, fraction, result', fraction');
  }

  /** The loop starts with no digits consumed at weight `1/radix`. */
  lemma HaltonLoopEntry(index: int, radix: nat)
    requires radix >= 2
    ensures HaltonLoop(index, radix, [], index, 0.0, 1.0 / radix as real)
  {
    assert RealPow(radix as real, 1) == radix as real;
  }

  /** When `i` runs out every digit has been consumed, and the sum is the
      radical inverse. */
  lemma HaltonLoopExit(index: int, radix: nat, done: seq<nat>, i: int, result: real, fraction: real)
    requires radix >= 2 && i <= 0
    requires HaltonLoop(index, radix, done, i, result, fraction)
    ensures result == RadicalInverse(Positive(index), radix)
    ensures index <= 0 ==> result == 0.0
  {
    assert done + [] == done;
    if index > 0 {
      RadicalInverseIsDigitSum(index, radix);
    }
  }

  /** GetHaltonValue (SSRRF.cs:618-632): the digit loop. C#'s `%` and `/`
      agree with Dafny's while `index` is positive; a non-positive index
      skips the loop and yields 0. `fraction` is the weight of the next
      digit, so the loop accumulates the positional digit sum. */
  method GetHaltonValue(index: int, radix: int) returns (result: real)
    requires radix >= 2
    ensures result == RadicalInverse(Positive(index), radix)
    ensures index <= 0 ==> result == 0.0
    ensures 0.0 <= result < 1.0
  {
    result := 0.0;
    var fraction := 1.0 / radix as real;
    var i := index;
    ghost var done: seq<nat> := [];
    HaltonLoopEntry(index, radix);
    while i > 0
      invariant HaltonLoop(index, radix, done, i, result, fraction)
      decreases i
    {
      ghost var done0, i0, result0, fraction0 := done, i, result, fraction;
      DivShrinks(i, radix);
      done := done + [i % radix];
      result := result + (i % radix) as real * fraction;
      i := i / radix;
      fraction := fraction / radix as real;
      HaltonLoopStep(index, radix, done0, i0, result0, fraction0, done, i, result, fraction);
    }
    HaltonLoopExit(index, radix, done, i, result, fraction);
  }

  /** Number of samples in one jitter period (`k_SampleCount`). */
  const SampleCount: int := 64

  /** `index & 1023` on a 32-bit two's-complement int keeps the low ten bits,
      which is the non-negative remainder modulo 1024. */
  function Mask1023(index: int): (m: nat)
    ensures m < 1024
    ensures 0 <= index < 1024 ==> m == index
  {
    index % 1024
  }

  /** The offset `GenerateRandomOffset` returns at sample index `index`. */
  function JitterOffset(index: int): (o: (real, real))
    ensures 0.0 <= o.0 < 1.0 && 0.0 <= o.1 < 1.0
    ensures index == 0 ==> o == (0.0, 0.0)
  {
    (RadicalInverse(Mask1023(index), 2), RadicalInverse(Mask1023(index), 3))
  }

  /** The sample index after one call: increment, and wrap to 0 on
      reaching 64. */
  function NextSampleIndex(index: int): (next: int)
    ensures 0 <= index < SampleCount ==> next == (index + 1) % SampleCount
    ensures 0 <= next < SampleCount || next == index + 1
  {
    if index + 1 >= SampleCount then 0 else index + 1
  }

  /** The sample index of a fresh generator after `n` calls. */
  function SampleIndexAfter(n: nat): int
  {
    if n == 0 then 0 else NextSampleIndex(SampleIndexAfter(n - 1))
  }

  /** After `n` calls the index is `n mod 64`; it never leaves 0..63. */
  lemma {:induction false} SampleIndexAfterIsMod(n: nat)
    ensures SampleIndexAfter(n) == n % SampleCount
    ensures 0 <= SampleIndexAfter(n) < SampleCount
  {
    if n > 0 {
      SampleIndexAfterIsMod(n - 1);
      var q := (n - 1) / SampleCount;
      if (n - 1) % SampleCount + 1 < SampleCount {
        FloorDivUnique(n, SampleCount, q);
      } else {
        FloorDivUnique(n, SampleCount, q + 1);
      }
    }
  }

  /** The sample index repeats with period 64. */
  lemma SampleIndexPeriodic(n: nat)
    ensures SampleIndexAfter(n + SampleCount) == SampleIndexAfter(n)
  {
    SampleIndexAfterIsMod(n + SampleCount);
    SampleIndexAfterIsMod(n);
    FloorDivUnique(n + SampleCount, SampleCount, n / SampleCount + 1);
  }

  /** The jitter sequence repeats with period 64. */
  lemma JitterPeriodic(n: nat)
    ensures JitterOffset(SampleIndexAfter(n + SampleCount)) == JitterOffset(SampleIndexAfter(n))
  {
    SampleIndexPeriodic(n);
  }

  /** Class `TAA` (SSRRF.cs:613-645). */
  class TAA {
    var sampleIndex: int

    ghost predicate Valid()
      reads this
    {
      0 <= sampleIndex < SampleCount
    }

    constructor ()
      ensures Valid() && sampleIndex == 0
    {
      sampleIndex := 0;
    }

    /** GenerateRandomOffset: the Halton (2, 3) pair at the current index,
        then the index advances modulo 64. */
    method GenerateRandomOffset() returns (x: real, y: real)
      requires Valid()
      modifies this
      ensures Valid()
      ensures sampleIndex == (old(sampleIndex) + 1) % SampleCount
      ensures (x, y) == JitterOffset(old(sampleIndex))
      ensures x == RadicalInverse(old(sampleIndex), 2) && y == RadicalInverse(old(sampleIndex), 3)
    {
      var index := Mask1023(sampleIndex);
      assert Positive(index) == index == sampleIndex;
      x := GetHaltonValue(index, 2);
      y := GetHaltonValue(index, 3);
      sampleIndex := sampleIndex + 1;
      if sampleIndex >= SampleCount {
        sampleIndex := 0;
      }
    }
  }
}
