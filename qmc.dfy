/**
 * Quasi-Monte-Carlo sequences: the radical inverse (digit reversal about the
 * radix point), the Van der Corput, Halton and Hammersley sequences and the
 * Roth point set. Indices are `nat` (std::size_t); the F32 results are reals.
 */
module QuasiMonteCarlo {

  /** The radical inverse of `index` in `base`: its base-b digits, least
      significant first, placed after the radix point. */
  function RadicalInverseOf(index: nat, base: nat): (r: real)
    requires base >= 2
    ensures 0.0 <= r < 1.0
    ensures index == 0 ==> r == 0.0
    decreases index
  {
    if index == 0 then 0.0
    else
      var rest := RadicalInverseOf(index / base, base);
      var digit := index % base;
      QuotientBelowOne((digit as real) + rest, base as real);
      (digit as real + rest) / base as real
  }

  /** x / b lies in [0, 1) when x lies in [0, b). */
  lemma QuotientBelowOne(x: real, b: real)
    requires 0.0 <= x < b
    ensures 0.0 <= x / b < 1.0
  {
    assert x / b * b == x;
  }

  /** One turn of the RadicalInverse loop keeps its invariant: when the
      remaining value `whole` is its lowest digit followed by `rest`, adding
      that digit at the next weight leaves `rest` at that weight. */
  lemma LoopStep(result: real, denom: real, digit: real, rest: real, whole: real, b: real, total: real)
    requires denom >= 1.0 && b >= 2.0
    requires whole == (digit + rest) / b
    requires result + whole / denom == total
    ensures (result + digit / (denom * b)) + rest / (denom * b) == total
  {
    DivideSumTwice(digit, rest, b, denom);
  }

  lemma GrowsDenominator(denom: real, b: real)
    requires denom >= 1.0 && b >= 2.0
    ensures denom * b >= 1.0
  {
  }

  lemma {:induction false} RadicalInverseUnfold(i: nat, base: nat)
    requires i > 0 && base >= 2
    ensures RadicalInverseOf(i, base) == ((i % base) as real + RadicalInverseOf(i / base, base)) / (base as real)
  {
  }

  lemma QuotientShrinks(i: nat, base: nat)
    requires i > 0 && base >= 2
    ensures 0 <= i / base < i
  {
  }

  lemma DivideSum(a: real, c: real, b: real)
    requires b > 0.0
    ensures (a + c) / b == a / b + c / b
  {
  }

  /** Dividing a sum by b and then by d spreads over the terms. */
  lemma DivideSumTwice(a: real, c: real, b: real, d: real)
    requires b > 0.0 && d > 0.0
    ensures (a + c) / b / d == a / (d * b) + c / (d * b)
  {
    assert (a + c) / b / d == (a + c) / (d * b);
  }

  /** The base-b digits of `index`, least significant first. */
  function Digits(index: nat, base: nat): (ds: seq<nat>)
    requires base >= 2
    ensures forall k :: 0 <= k < |ds| ==> ds[k] < base
    decreases index
  {
    if index == 0 then [] else [index % base] + Digits(index / base, base)
  }

  /** The value of a digit sequence read least significant first. */
  function FromDigits(ds: seq<nat>, base: nat): nat
  {
    if ds == [] then 0 else ds[0] + base * FromDigits(ds[1..], base)
  }

  /** b^e over the reals. */
  function Power(base: nat, e: nat): (p: real)
    requires base >= 2
    ensures p >= 1.0
  {
    if e == 0 then 1.0 else base as real * Power(base, e - 1)
  }

  /** The series sum of ds[k] / b^(shift + k + 1). */
  function MirroredSeries(ds: seq<nat>, base: nat, shift: nat): real
    requires base >= 2
  {
    if ds == [] then 0.0 else ds[0] as real / Power(base, shift + 1) + MirroredSeries(ds[1..], base, shift + 1)
  }

  /** Digits is the base-b expansion of the index. */
  lemma {:induction false} DigitsExpand(index: nat, base: nat)
    requires base >= 2
    ensures FromDigits(Digits(index, base), base) == index
    decreases index
  {
    if index != 0 {
      DigitsExpand(index / base, base);
      var ds := Digits(index, base);
      assert ds[1..] == Digits(index / base, base);
    }
  }

  lemma {:induction false} MirroredSeriesShift(ds: seq<nat>, base: nat, shift: nat)
    requires base >= 2
    ensures MirroredSeries(ds, base, shift + 1) == MirroredSeries(ds, base, shift) / base as real
    decreases |ds|
  {
    if ds != [] {
      MirroredSeriesShift(ds[1..], base, shift + 1);
      var b := base as real;
      var p := Power(base, shift + 1);
      assert Power(base, shift + 2) == b * p;
      assert ds[0] as real / (b * p) == (ds[0] as real / p) / b;
    }
  }

  /** The radical inverse is the sum of d_k / b^(k+1) over the digits d_k. */
  lemma {:induction false} RadicalInverseIsDigitSeries(index: nat, base: nat)
    requires base >= 2
    ensures RadicalInverseOf(index, base) == MirroredSeries(Digits(index, base), base, 0)
    decreases index
  {
    if index != 0 {
      var next := index / base;
      QuotientShrinks(index, base);
      var ds := Digits(index, base);
      var tail := Digits(next, base);
      assert ds[0] == index % base && ds[1..] == tail;
      var b := base as real;
      var digit := (index % base) as real;
      var rest := RadicalInverseOf(next, base);
      RadicalInverseIsDigitSeries(next, base);
      MirroredSeriesShift(tail, base, 0);
      assert Power(base, 1) == b;
      assert MirroredSeries(ds, base, 0) == digit / b + MirroredSeries(tail, base, 1);
      assert MirroredSeries(tail, base, 1) == rest / b;
      DivideSum(digit, rest, b);
      assert RadicalInverseOf(index, base) == (digit + rest) / b;
    }
  }

  /** A one-digit index is mirrored to index / base. */
  lemma RadicalInverseOfOneDigit(index: nat, base: nat)
    requires base >= 2 && index < base
    ensures RadicalInverseOf(index, base) == index as real / base as real
  {
    assert index / base == 0;
  }

  /** One turn of the RadicalInverse loop on the index: the lowest digit moves
      into the result at the next weight and the rest of the index keeps the
      same remainder. The digit and the base enter as reals. */
  lemma {:induction false} DigitStep(i: nat, base: nat, result: real, denom: real, total: real, digit: real, b: real)
    requires i > 0 && base >= 2 && denom >= 1.0
    requires digit == (i % base) as real && b == base as real
    requires result + RadicalInverseOf(i, base) / denom == total
    ensures result + digit / (denom * b) + RadicalInverseOf(i / base, base) / (denom * b) == total
  {
    var rest := RadicalInverseOf(i / base, base);
    var whole := RadicalInverseOf(i, base);
    RadicalInverseUnfold(i, base);
    assert whole == (digit + rest) / b;
    LoopStep(result, denom, digit, rest, whole, b, total);
  }

  /** RadicalInverse(index, base): the loop divides the running denominator by
      the base once per digit. */
  method RadicalInverse(index: nat, base: nat) returns (r: real)
    requires base >= 2
    ensures r == RadicalInverseOf(index, base)
  {
    var result := 0.0;
    var denom := 1.0;
    var i: nat := index;
    while i != 0
      invariant denom >= 1.0
      invariant result + RadicalInverseOf(i, base) / denom == RadicalInverseOf(index, base)
      decreases i
    {
      var digit := (i % base) as real;
      var b := base as real;
      DigitStep(i, base, result, denom, RadicalInverseOf(index, base), digit, b);
      GrowsDenominator(denom, b);
      QuotientShrinks(i, base);
      denom := denom * b;
      result := result + digit / denom;
      i := i / base;
    }
    r := result;
  }

  /** VanderCorput(index): the radical inverse in base 2. */
  method VanderCorput(index: nat) returns (r: real)
    ensures r == RadicalInverseOf(index, 2)
  {
    r := RadicalInverse(index, 2);
  }

  /** The first points of the Van der Corput sequence. */
  lemma VanderCorputFirstPoints()
    ensures RadicalInverseOf(0, 2) == 0.0
    ensures RadicalInverseOf(1, 2) == 0.5
    ensures RadicalInverseOf(2, 2) == 0.25
    ensures RadicalInverseOf(3, 2) == 0.75
  {
    assert RadicalInverseOf(1, 2) == 0.5;
    assert RadicalInverseOf(2, 2) == (0.0 + RadicalInverseOf(1, 2)) / 2.0;
    assert RadicalInverseOf(3, 2) == (1.0 + RadicalInverseOf(1, 2)) / 2.0;
  }

  /** The table of primes is a list of bases of at least 2 (its entries are
      not part of this model). */
  predicate ValidPrimes(primes: seq<nat>)
  {
    forall k :: 0 <= k < |primes| ==> primes[k] >= 2
  }

  /** Halton(index, sample): dimension k holds the radical inverse in the k-th
      tabulated prime. */
  method Halton(index: nat, sample: array<real>, primes: seq<nat>)
    requires ValidPrimes(primes) && sample.Length <= |primes|
    modifies sample
    ensures forall k :: 0 <= k < sample.Length ==> sample[k] == RadicalInverseOf(index, primes[k])
  {
    var i := 0;
    while i < sample.Length
      invariant 0 <= i <= sample.Length
      invariant forall k :: 0 <= k < i ==> sample[k] == RadicalInverseOf(index, primes[k])
    {
      sample[i] := RadicalInverse(index, primes[i]);
      i := i + 1;
    }
  }

  /** Halton2D: bases 2 and 3; every coordinate lies in [0, 1). */
  method Halton2D(index: nat) returns (x: real, y: real)
    ensures x == RadicalInverseOf(index, 2) && y == RadicalInverseOf(index, 3)
  {
    x := RadicalInverse(index, 2);
    y := RadicalInverse(index, 3);
  }

  /** Halton3D: bases 2, 3 and 5. */
  method Halton3D(index: nat) returns (x: real, y: real, z: real)
    ensures x == RadicalInverseOf(index, 2) && y == RadicalInverseOf(index, 3)
    ensures z == RadicalInverseOf(index, 5)
  {
    x := RadicalInverse(index, 2);
    y := RadicalInverse(index, 3);
    z := RadicalInverse(index, 5);
  }

  /** Halton4D: bases 2, 3, 5 and 7. */
  method Halton4D(index: nat) returns (x: real, y: real, z: real, w: real)
    ensures x == RadicalInverseOf(index, 2) && y == RadicalInverseOf(index, 3)
    ensures z == RadicalInverseOf(index, 5) && w == RadicalInverseOf(index, 7)
  {
    x := RadicalInverse(index, 2);
    y := RadicalInverse(index, 3);
    z := RadicalInverse(index, 5);
    w := RadicalInverse(index, 7);
  }

  /** The first coordinate of a Hammersley point, index / nb_samples. */
  function Stratum(index: nat, nbSamples: nat): (r: real)
    requires index < nbSamples
    ensures 0.0 <= r < 1.0
  {
    index as real / nbSamples as real
  }

  /** Hammersley(index, sample, nb_samples): the stratum first, then the
      radical inverses in the tabulated primes. */
  method Hammersley(index: nat, sample: array<real>, nbSamples: nat, primes: seq<nat>)
    requires index < nbSamples
    requires ValidPrimes(primes) && 0 < sample.Length && sample.Length - 1 <= |primes|
    modifies sample
    ensures sample[0] == Stratum(index, nbSamples)
    ensures forall k :: 1 <= k < sample.Length ==> sample[k] == RadicalInverseOf(index, primes[k - 1])
  {
    sample[0] := index as real / nbSamples as real;
    var i := 1;
    while i < sample.Length
      invariant 1 <= i <= sample.Length
      invariant sample[0] == Stratum(index, nbSamples)
      invariant forall k :: 1 <= k < i ==> sample[k] == RadicalInverseOf(index, primes[k - 1])
    {
      sample[i] := RadicalInverse(index, primes[i - 1]);
      i := i + 1;
    }
  }

  /** Hammersley2D: (index / nb_samples, VanderCorput(index)). */
  method Hammersley2D(index: nat, nbSamples: nat) returns (x: real, y: real)
    requires index < nbSamples
    ensures x == Stratum(index, nbSamples) && y == RadicalInverseOf(index, 2)
  {
    x := index as real / nbSamples as real;
    y := RadicalInverse(index, 2);
  }

  /** Hammersley3D: the stratum, then bases 2 and 3. */
  method Hammersley3D(index: nat, nbSamples: nat) returns (x: real, y: real, z: real)
    requires index < nbSamples
    ensures x == Stratum(index, nbSamples) && y == RadicalInverseOf(index, 2)
    ensures z == RadicalInverseOf(index, 3)
  {
    x := index as real / nbSamples as real;
    y := RadicalInverse(index, 2);
    z := RadicalInverse(index, 3);
  }

  /** Hammersley4D: the stratum, then bases 2, 3 and 5. */
  method Hammersley4D(index: nat, nbSamples: nat) returns (x: real, y: real, z: real, w: real)
    requires index < nbSamples
    ensures x == Stratum(index, nbSamples) && y == RadicalInverseOf(index, 2)
    ensures z == RadicalInverseOf(index, 3) && w == RadicalInverseOf(index, 5)
  {
    x := index as real / nbSamples as real;
    y := RadicalInverse(index, 2);
    z := RadicalInverse(index, 3);
    w := RadicalInverse(index, 5);
  }

  /** Roth(index, nb_samples): the 2D Hammersley point. */
  method Roth(index: nat, nbSamples: nat) returns (x: real, y: real)
    requires index < nbSamples
    ensures x == Stratum(index, nbSamples) && y == RadicalInverseOf(index, 2)
  {
    x, y := Hammersley2D(index, nbSamples);
  }
}
