/**
 The harness's spectral tools, over the reals: the Goertzel recurrence is one bin of a discrete Fourier
 transform, and no bin holds more power than the whole buffer.
 */
module Signals {
  import opened Sequences

  const SAMPLE_WIDTH := 2

  /** One little-endian signed 16-bit sample. */
  function Sample(low: byte, high: byte): (r: int)
    ensures -0x8000 <= r < 0x8000
  {
    var word := (low as int) + 0x100 * (high as int);
    if word < 0x8000 then word else word - 0x1_0000
  }

  function Count(pcm: seq<byte>): nat {
    |pcm| / SAMPLE_WIDTH
  }

  /** The buffer's whole samples; an odd byte at the end is not one. */
  function Samples(pcm: seq<byte>): (r: seq<real>)
    ensures |r| == Count(pcm)
  {
    seq(Count(pcm), i requires 0 <= i < Count(pcm) => Sample(pcm[2 * i], pcm[2 * i + 1]) as real)
  }

  type Pcm16 = n: int | -0x8000 <= n < 0x8000

  /** Signed 16-bit samples on the wire: two's complement, the low byte first. */
  function Encode(ns: seq<Pcm16>): (pcm: seq<byte>)
    ensures |pcm| == 2 * |ns|
  {
    if ns == [] then [] else [ns[0] % 256, ns[0] / 256 % 256] + Encode(ns[1..])
  }

  function Reals(ns: seq<Pcm16>): (r: seq<real>)
    ensures |r| == |ns|
  {
    seq(|ns|, i requires 0 <= i < |ns| => ns[i] as real)
  }

  lemma SampleOf(n: Pcm16)
    ensures Sample(n % 256, n / 256 % 256) == n
  {
    var high := n / 256;
    assert n == 256 * high + n % 256 && -128 <= high < 128;
    assert high % 256 == if high < 0 then high + 256 else high;
  }

  lemma {:induction false} EncodedAt(ns: seq<Pcm16>, i: nat)
    requires i < |ns|
    ensures Encode(ns)[2 * i] == ns[i] % 256 && Encode(ns)[2 * i + 1] == ns[i] / 256 % 256
  {
    if i > 0 {
      EncodedAt(ns[1..], i - 1);
    }
  }

  /** Reading a buffer undoes writing it, whatever odd byte follows. */
  lemma SamplesOfEncoded(ns: seq<Pcm16>, odd: seq<byte>)
    requires |odd| < 2
    ensures Samples(Encode(ns) + odd) == Reals(ns)
  {
    var pcm := Encode(ns) + odd;
    forall i | 0 <= i < |ns| ensures Samples(pcm)[i] == ns[i] as real {
      EncodedAt(ns, i);
      SampleOf(ns[i]);
    }
  }

  /** Every buffer of whole samples is what writing some samples gives. */
  lemma {:induction false} EveryBufferIsEncoded(pcm: seq<byte>) returns (ns: seq<Pcm16>)
    requires |pcm| % 2 == 0
    ensures Encode(ns) == pcm && Samples(pcm) == Reals(ns)
  {
    if pcm == [] {
      ns := [];
    } else {
      var rest := EveryBufferIsEncoded(pcm[2..]);
      var first: Pcm16 := Sample(pcm[0], pcm[1]);
      ns := [first] + rest;
      BytesOf(pcm[0], pcm[1]);
      assert pcm == [pcm[0], pcm[1]] + pcm[2..];
      assert Encode(ns) == pcm;
    }
    SamplesOfEncoded(ns, []);
    assert Encode(ns) + [] == pcm;
  }

  lemma BytesOf(low: byte, high: byte)
    ensures Sample(low, high) % 256 == low && Sample(low, high) / 256 % 256 == high
  {
    var n := Sample(low, high);
    assert n == 256 * (if high < 128 then high else high - 256) + low;
  }

  datatype Complex = Complex(re: real, im: real)

  function Plus(a: Complex, b: Complex): Complex {
    Complex(a.re + b.re, a.im + b.im)
  }

  function Times(a: Complex, b: Complex): Complex {
    Complex(a.re * b.re - a.im * b.im, a.re * b.im + a.im * b.re)
  }

  function Scale(x: real, a: Complex): Complex {
    Complex(x * a.re, x * a.im)
  }

  function Norm2(a: Complex): real {
    a.re * a.re + a.im * a.im
  }

  /** A bin's angle, as its cosine and sine. */
  predicate Angle(c: real, s: real) {
    c * c + s * s == 1.0
  }

  /** The bin's analysing wave at sample `k`: the point at minus `k` times the angle. */
  function Twiddle(c: real, s: real, k: nat): Complex {
    if k == 0 then Complex(1.0, 0.0) else Times(Twiddle(c, s, k - 1), Complex(c, -s))
  }

  /** The transform's bin at an angle: the samples against the analysing wave. */
  function Dft(samples: seq<real>, c: real, s: real): Complex {
    if samples == [] then Complex(0.0, 0.0)
    else
      var n := |samples| - 1;
      Plus(Dft(samples[..n], c, s), Scale(samples[n], Twiddle(c, s, n)))
  }

  function Energy(samples: seq<real>): real {
    if samples == [] then 0.0
    else Energy(samples[..|samples| - 1]) + samples[|samples| - 1] * samples[|samples| - 1]
  }

  /** The bin evaluated by Horner's rule, against the wave turning the other way. */
  function Horner(samples: seq<real>, c: real, s: real): Complex {
    if samples == [] then Complex(0.0, 0.0)
    else
      var n := |samples| - 1;
      Plus(Complex(samples[n], 0.0), Times(Complex(c, s), Horner(samples[..n], c, s)))
  }

  lemma TimesAssociative(a: Complex, b: Complex, d: Complex)
    ensures Times(Times(a, b), d) == Times(a, Times(b, d))
  {
  }

  lemma TimesDistributes(a: Complex, x: real, b: Complex)
    ensures Times(a, Plus(Complex(x, 0.0), b)) == Plus(Scale(x, a), Times(a, b))
  {
  }

  lemma PlusCommutes(a: Complex, b: Complex)
    ensures Plus(a, b) == Plus(b, a)
  {
  }

  lemma Norm2Times(a: Complex, b: Complex)
    ensures Norm2(Times(a, b)) == Norm2(a) * Norm2(b)
  {
  }

  lemma UnitTimesUnit(a: Complex, b: Complex)
    requires Norm2(a) == 1.0 && Norm2(b) == 1.0
    ensures Norm2(Times(a, b)) == 1.0
  {
    Norm2Times(a, b);
  }

  lemma OppositeTurnsCancel(c: real, s: real)
    requires Angle(c, s)
    ensures Times(Complex(c, -s), Complex(c, s)) == Complex(1.0, 0.0)
  {
  }

  lemma {:induction false} TwiddleOnTheUnitCircle(c: real, s: real, k: nat)
    requires Angle(c, s)
    ensures Norm2(Twiddle(c, s, k)) == 1.0
  {
    if k > 0 {
      TwiddleOnTheUnitCircle(c, s, k - 1);
      UnitTimesUnit(Twiddle(c, s, k - 1), Complex(c, -s));
    }
  }

  /** Turning one step back undoes one step of the analysing wave. */
  lemma TwiddleTurnsBack(c: real, s: real, k: nat)
    requires Angle(c, s) && k > 0
    ensures Times(Twiddle(c, s, k), Complex(c, s)) == Twiddle(c, s, k - 1)
  {
    var before := Twiddle(c, s, k - 1);
    TimesAssociative(before, Complex(c, -s), Complex(c, s));
    OppositeTurnsCancel(c, s);
    assert Times(before, Complex(1.0, 0.0)) == before;
  }

  /** Horner's value, turned to where the transform ends, is the transform. */
  lemma {:induction false} HornerIsTheBinTurned(samples: seq<real>, c: real, s: real)
    requires Angle(c, s) && samples != []
    ensures Times(Twiddle(c, s, |samples| - 1), Horner(samples, c, s)) == Dft(samples, c, s)
  {
    var n := |samples| - 1;
    var init, turn := samples[..n], Twiddle(c, s, n);
    var inner := Horner(init, c, s);
    TimesDistributes(turn, samples[n], Times(Complex(c, s), inner));
    TimesAssociative(turn, Complex(c, s), inner);
    PlusCommutes(Scale(samples[n], turn), Dft(init, c, s));
    if n > 0 {
      TwiddleTurnsBack(c, s, n);
      HornerIsTheBinTurned(init, c, s);
    } else {
      assert Times(turn, Times(Complex(c, s), inner)) == Complex(0.0, 0.0);
    }
  }

  lemma HornerHasTheBinsPower(samples: seq<real>, c: real, s: real)
    requires Angle(c, s)
    ensures Norm2(Horner(samples, c, s)) == Norm2(Dft(samples, c, s))
  {
    if samples != [] {
      HornerIsTheBinTurned(samples, c, s);
      TwiddleOnTheUnitCircle(c, s, |samples| - 1);
      Norm2Times(Twiddle(c, s, |samples| - 1), Horner(samples, c, s));
    }
  }

  /** How the recurrence's two cells hold Horner's value. */
  predicate Holds(first: real, second: real, h: Complex, c: real, s: real) {
    h == Complex(first - c * second, s * second)
  }

  lemma RecurrenceGrows(samples: seq<real>, i: nat, first: real, second: real, coefficient: real, current: real,
                        c: real, s: real)
    requires Angle(c, s) && i < |samples| && coefficient == 2.0 * c
    requires current == samples[i] + coefficient * first - second
    requires Holds(first, second, Horner(samples[..i], c, s), c, s)
    ensures Holds(current, first, Horner(samples[..i + 1], c, s), c, s)
  {
    assert samples[..i + 1][..i] == samples[..i];
    assert c * (first - c * second) - s * (s * second) == c * first - (c * c + s * s) * second;
    assert c * (s * second) + s * (first - c * second) == s * first;
  }

  lemma CellsHoldThePower(first: real, second: real, coefficient: real, h: Complex, c: real, s: real)
    requires Angle(c, s) && Holds(first, second, h, c, s) && coefficient == 2.0 * c
    ensures first * first + second * second - coefficient * first * second == Norm2(h)
  {
    assert Norm2(h) == first * first - 2.0 * c * first * second + (c * c + s * s) * (second * second);
  }

  /** A product the solver leaves alone. */
  function Product(a: real, b: real): real {
    a * b
  }

  lemma ProductPositive(a: real, b: real)
    requires a > 0.0 && b > 0.0
    ensures Product(a, b) > 0.0
  {
  }

  function Square(x: real): (r: real)
    requires x > 0.0
    ensures r > 0.0
  {
    ProductPositive(x, x);
    Product(x, x)
  }

  /** An amplitude-squared estimate: the power over the square of the sample count. */
  function PerSquare(power: real, count: nat): (r: real)
    requires count > 0
    ensures Square(count as real) * r == power
  {
    power / Square(count as real)
  }

  lemma PerSquareIs(power: real, count: nat)
    requires count > 0
    ensures PerSquare(power, count) * (count as real * count as real) == power
  {
  }

  /** The power at one frequency. `c` and `s` are the cosine and sine of its angle per sample. */
  method GoertzelPower(pcm: seq<byte>, c: real, ghost s: real) returns (power: real)
    requires Angle(c, s)
    ensures Count(pcm) == 0 ==> power == 0.0
    ensures Count(pcm) > 0 ==> power == PerSquare(Norm2(Dft(Samples(pcm), c, s)), Count(pcm))
    ensures forall ns :: pcm == Encode(ns) && ns != [] ==> power == PerSquare(Norm2(Dft(Reals(ns), c, s)), |ns|)
  {
    AnyEncoding(pcm);
    var count := |pcm| / SAMPLE_WIDTH;
    if count == 0 {
      return 0.0;
    }
    var coefficient := 2.0 * c;
    var first, second := 0.0, 0.0;
    ghost var samples := Samples(pcm);
    for i := 0 to count
      invariant Holds(first, second, Horner(samples[..i], c, s), c, s)
    {
      var sample := Sample(pcm[2 * i], pcm[2 * i + 1]);
      var current := sample as real + coefficient * first - second;
      RecurrenceGrows(samples, i, first, second, coefficient, current, c, s);
      second := first;
      first := current;
    }
    assert samples[..count] == samples;
    CellsHoldThePower(first, second, coefficient, Horner(samples, c, s), c, s);
    HornerHasTheBinsPower(samples, c, s);
    power := first * first + second * second - coefficient * first * second;
    power := PerSquare(power, count);
  }

  lemma AnyEncoding(pcm: seq<byte>)
    ensures forall ns :: pcm == Encode(ns) ==> Samples(pcm) == Reals(ns)
  {
    forall ns | pcm == Encode(ns) ensures Samples(pcm) == Reals(ns) {
      SamplesOfEncoded(ns, []);
      assert Encode(ns) + [] == pcm;
    }
  }

  /** What the source takes a square root to be. */
  ghost predicate IsSquareRoot(root: real -> real) {
    forall x :: x >= 0.0 ==> root(x) >= 0.0 && root(x) * root(x) == x
  }

  method Rms(pcm: seq<byte>, root: real -> real) returns (level: real)
    requires IsSquareRoot(root)
    ensures Count(pcm) == 0 ==> level == 0.0
    ensures level >= 0.0
    ensures Count(pcm) > 0 ==> level * level == Energy(Samples(pcm)) / Count(pcm) as real
    ensures forall ns :: pcm == Encode(ns) && ns != [] ==> level * level == Energy(Reals(ns)) / |ns| as real
  {
    AnyEncoding(pcm);
    var count := |pcm| / SAMPLE_WIDTH;
    if count == 0 {
      return 0.0;
    }
    var total := 0;
    ghost var samples := Samples(pcm);
    for i := 0 to count
      invariant total as real == Energy(samples[..i]) && total >= 0
    {
      var sample := Sample(pcm[2 * i], pcm[2 * i + 1]);
      TotalGrows(samples, i, sample, total);
      total := total + sample * sample;
    }
    assert samples[..count] == samples;
    level := root(total as real / count as real);
  }

  lemma TotalGrows(samples: seq<real>, i: nat, sample: int, total: int)
    requires i < |samples| && samples[i] == sample as real
    requires total as real == Energy(samples[..i]) && total >= 0
    ensures (total + sample * sample) as real == Energy(samples[..i + 1]) && total + sample * sample >= 0
  {
    assert samples[..i + 1][..i] == samples[..i];
    SquareOfReal(sample);
  }

  lemma SquareOfReal(x: int)
    ensures (x * x) as real == x as real * x as real && x * x >= 0
  {
  }

  function Dot(a: Complex, b: Complex): real {
    a.re * b.re + a.im * b.im
  }

  lemma SquareOfSum(a: real, x: real, t: real)
    ensures (a + x * t) * (a + x * t) == a * a + 2.0 * x * (a * t) + x * x * (t * t)
  {
  }

  lemma Norm2PlusScaled(a: Complex, x: real, t: Complex)
    requires Norm2(t) == 1.0
    ensures Norm2(Plus(a, Scale(x, t))) == Norm2(a) + 2.0 * x * Dot(a, t) + x * x
  {
    SquareOfSum(a.re, x, t.re);
    SquareOfSum(a.im, x, t.im);
    assert x * x * (t.re * t.re) + x * x * (t.im * t.im) == x * x * Norm2(t);
    assert 2.0 * x * (a.re * t.re) + 2.0 * x * (a.im * t.im) == 2.0 * x * Dot(a, t);
  }

  lemma DotAgainstAUnit(a: Complex, t: Complex)
    requires Norm2(t) == 1.0
    ensures Product(Dot(a, t), Dot(a, t)) <= Norm2(a)
  {
    var cross := a.re * t.im - a.im * t.re;
    assert Dot(a, t) * Dot(a, t) + cross * cross == Norm2(a) * Norm2(t);
    assert cross * cross >= 0.0;
  }

  lemma SquareNotNegative(x: real)
    ensures x * x >= 0.0
  {
  }

  lemma NegativeProduct(n: real, x: real)
    requires n > 0.0 && x < 0.0
    ensures n * x < 0.0
  {
  }

  lemma FactorNotNegative(n: real, x: real)
    requires n > 0.0 && n * x >= 0.0
    ensures x >= 0.0
  {
    if x < 0.0 {
      NegativeProduct(n, x);
    }
  }

  lemma SignOfFactor(n: real, x: real, product: real)
    requires n > 0.0 && n * x == product && product >= 0.0
    ensures x >= 0.0
  {
    FactorNotNegative(n, x);
  }

  lemma ZeroSquare(d: real)
    requires Product(d, d) <= 0.0
    ensures d == 0.0
  {
    if d > 0.0 {
      ProductPositive(d, d);
    } else if d < 0.0 {
      ProductPositive(-d, -d);
    }
  }

  lemma CauchySchwarzStep(n: real, energy: real, norm: real, x: real, d: real, more: real, total: real, grown: real)
    requires n >= 0.0 && energy >= 0.0 && norm <= Product(n, energy) && Product(d, d) <= norm
    requires more == n + 1.0 && total == energy + x * x && grown == norm + 2.0 * x * d + x * x
    ensures grown <= Product(more, total) && total >= 0.0
  {
    SquareNotNegative(x);
    SquareNotNegative(d);
    if n == 0.0 {
      ZeroSquare(d);
    } else {
      SquareNotNegative(n * x - d);
      assert (n * x - d) * (n * x - d) == n * n * (x * x) - 2.0 * n * x * d + d * d;
      var gap := n * (x * x) + energy - 2.0 * x * d;
      assert n * gap == n * n * (x * x) + n * energy - 2.0 * n * x * d;
      FactorNotNegative(n, gap);
      assert (n + 1.0) * (energy + x * x) == n * energy + energy + n * (x * x) + x * x;
    }
  }

  lemma OneMoreSample(a: Complex, x: real, t: Complex, b: Complex, n: real, energy: real, more: real, total: real)
    requires Norm2(t) == 1.0 && b == Plus(a, Scale(x, t))
    requires n >= 0.0 && energy >= 0.0 && Norm2(a) <= Product(n, energy)
    requires more == n + 1.0 && total == energy + x * x
    ensures Norm2(b) <= Product(more, total) && total >= 0.0
  {
    var d := Along(a, t, Norm2(a));
    var grown := Grown(a, x, t, b, d);
    CauchySchwarzStep(n, energy, Norm2(a), x, d, more, total, grown);
  }

  /** How far `a` already goes the way `t` points. */
  lemma Along(a: Complex, t: Complex, norm: real) returns (d: real)
    requires Norm2(t) == 1.0 && norm == Norm2(a)
    ensures d == Dot(a, t) && Product(d, d) <= norm
  {
    d := Dot(a, t);
    DotAgainstAUnit(a, t);
  }

  lemma Grown(a: Complex, x: real, t: Complex, b: Complex, d: real) returns (grown: real)
    requires Norm2(t) == 1.0 && b == Plus(a, Scale(x, t)) && d == Dot(a, t)
    ensures grown == Norm2(b) == Norm2(a) + 2.0 * x * d + x * x
  {
    grown := Norm2(b);
    Norm2PlusScaled(a, x, t);
  }

  /** `bins` are the partial sums of `samples` against `weights`. */
  predicate Accumulates(samples: seq<real>, weights: seq<Complex>, bins: seq<Complex>) {
    && |weights| == |samples| && |bins| == |samples| + 1 && bins[0] == Complex(0.0, 0.0)
    && forall i :: 0 <= i < |samples| ==> bins[i + 1] == Plus(bins[i], Scale(samples[i], weights[i]))
  }

  lemma {:induction false} CauchySchwarz(samples: seq<real>, weights: seq<Complex>, bins: seq<Complex>, n: nat)
    requires Accumulates(samples, weights, bins) && n <= |samples|
    requires forall i :: 0 <= i < |weights| ==> Norm2(weights[i]) == 1.0
    ensures Norm2(bins[n]) <= Product(n as real, Energy(samples[..n])) && Energy(samples[..n]) >= 0.0
  {
    if n > 0 {
      CauchySchwarz(samples, weights, bins, n - 1);
      assert samples[..n][..n - 1] == samples[..n - 1];
      OneMoreSample(bins[n - 1], samples[n - 1], weights[n - 1], bins[n], (n - 1) as real, Energy(samples[..n - 1]),
                    n as real, Energy(samples[..n]));
    }
  }

  lemma DftAccumulates(samples: seq<real>, c: real, s: real, weights: seq<Complex>, bins: seq<Complex>)
    requires weights == seq(|samples|, k requires 0 <= k => Twiddle(c, s, k))
    requires bins == seq(|samples| + 1, k requires 0 <= k <= |samples| => Dft(samples[..k], c, s))
    ensures Accumulates(samples, weights, bins)
  {
    forall i | 0 <= i < |samples| ensures bins[i + 1] == Plus(bins[i], Scale(samples[i], weights[i])) {
      assert samples[..i + 1][..i] == samples[..i];
    }
  }

  lemma NoBinExceedsTheEnergy(samples: seq<real>, c: real, s: real)
    requires Angle(c, s)
    ensures Norm2(Dft(samples, c, s)) <= Product(|samples| as real, Energy(samples))
  {
    var weights := seq(|samples|, k requires 0 <= k => Twiddle(c, s, k));
    var bins := seq(|samples| + 1, k requires 0 <= k <= |samples| => Dft(samples[..k], c, s));
    DftAccumulates(samples, c, s, weights, bins);
    forall i | 0 <= i < |weights| ensures Norm2(weights[i]) == 1.0 {
      TwiddleOnTheUnitCircle(c, s, i);
    }
    CauchySchwarz(samples, weights, bins, |samples|);
    assert samples[..|samples|] == samples;
  }

  /** So a tone's power is never negative, and never above the buffer's mean square. */
  lemma PowerIsBounded(pcm: seq<byte>, c: real, s: real)
    requires Angle(c, s) && Count(pcm) > 0
    ensures 0.0 <= PerSquare(Norm2(Dft(Samples(pcm), c, s)), Count(pcm)) <= Energy(Samples(pcm)) / Count(pcm) as real
  {
    var samples := Samples(pcm);
    NoBinExceedsTheEnergy(samples, c, s);
    Norm2IsNotNegative(Dft(samples, c, s));
    PerSquareIsBounded(Norm2(Dft(samples, c, s)), Energy(samples), Count(pcm));
  }

  lemma Norm2IsNotNegative(a: Complex)
    ensures Norm2(a) >= 0.0
  {
  }

  lemma PerSquareIsBounded(power: real, energy: real, count: nat)
    requires count > 0 && 0.0 <= power <= Product(count as real, energy)
    ensures 0.0 <= PerSquare(power, count) <= energy / count as real
  {
    var n := count as real;
    Compare(PerSquare(power, count), energy / n, power, energy, n, Square(n));
  }

  lemma Compare(p: real, q: real, power: real, energy: real, n: real, square: real)
    requires n > 0.0 && square > 0.0 && square == n * n
    requires 0.0 <= power <= Product(n, energy) && square * p == power && n * q == energy
    ensures 0.0 <= p <= q
  {
    assert square * q == n * energy;
    assert square * (q - p) == square * q - square * p;
    SignOfFactor(square, q - p, n * energy - power);
    SignOfFactor(square, p, power);
  }
}
