/**
 * Second-order coefficient designers: the Audio EQ Cookbook formulae
 * (low-pass, high-pass, band-pass with constant skirt gain, all-pass,
 * peaking EQ, low shelf, high shelf, notch) and Zoelzer's constant-Q
 * peaking design used by the equalizer.
 *
 * Each designer builds `IIRFilter::new(2)` and hands it the vectors it
 * computed through `set_coefficients`, so its result is a FilterState.
 * The trigonometric and power routines are not computable here; they come
 * in as the fields of a Math value, about which only a few facts are assumed.
 */
module Designers {
  import opened Wrappers
  import opened Iir

  /** The platform math routines the designers call. */
  datatype Math = Math(
    pi: real,
    e: real,
    sin: real -> real,
    cos: real -> real,
    tan: real -> real,
    sqrt: real -> real,
    sinh: real -> real,
    log: (real, real) -> real,  // log(x, base)
    pow: (real, real) -> real)  // powf(base, exponent)

  /** The facts about the math routines the designs rely on. */
  ghost predicate ValidMath(m: Math) {
    (forall x :: 0.0 < m.pow(10.0, x)) &&
    m.pow(10.0, 0.0) == 1.0 &&
    (forall x :: m.pow(x, 2.0) == x * x) &&
    (forall x :: 0.0 < x ==> 0.0 < m.sqrt(x)) &&
    m.sinh(0.0) == 0.0
  }

  /** 1/sqrt(2), the Butterworth-flat quality factor used when none is given. */
  function DefaultQ(m: Math): (q: real)
    requires ValidMath(m)
    ensures 0.0 < q && q * m.sqrt(2.0) == 1.0
  {
    1.0 / m.sqrt(2.0)
  }

  /** The quality factor a designer uses for an optional argument. */
  function ResolveQ(m: Math, qFactor: Option<real>): (q: real)
    requires ValidMath(m)
    ensures qFactor.Some? ==> q == qFactor.value
    ensures qFactor.None? ==> q == DefaultQ(m)
  {
    if qFactor.None? then DefaultQ(m) else qFactor.value
  }

  /** What the cookbook designers need to avoid dividing by zero. */
  ghost predicate Designable(m: Math, sampleRate: nat, qFactor: Option<real>) {
    ValidMath(m) && sampleRate > 0 && ResolveQ(m, qFactor) != 0.0
  }

  /** Angular frequency w0 = 2*pi*f / fs. */
  function W0(m: Math, frequency: real, sampleRate: nat): real
    requires sampleRate > 0
  {
    2.0 * m.pi * frequency / sampleRate as real
  }

  /** alpha = sin(w0) / (2Q). */
  function Alpha(m: Math, frequency: real, sampleRate: nat, q: real): real
    requires sampleRate > 0 && q != 0.0
  {
    m.sin(W0(m, frequency, sampleRate)) / (2.0 * q)
  }

  /** A coefficient polynomial evaluated at z = 1 (DC). */
  function AtDc(c: seq<real>): real
    requires |c| == 3
  {
    c[0] + c[1] + c[2]
  }

  /** A coefficient polynomial evaluated at z = -1 (the Nyquist frequency). */
  function AtNyquist(c: seq<real>): real
    requires |c| == 3
  {
    c[0] - c[1] + c[2]
  }

  /** An order-2 filter with silent delay lines, as every designer returns. */
  ghost predicate FreshBiquad(f: FilterState) {
    f.order == 2 && f.WellFormed() && f.Quiet()
  }

  /**
   * `IIRFilter::new(2)` followed by `set_coefficients(a, b)`. The source
   * discards the returned Result; with these lengths it is always Ok.
   */
  function Biquad(a: seq<real>, b: seq<real>): (f: FilterState)
    requires (|a| == 2 || |a| == 3) && |b| == 3
    ensures FreshBiquad(f) && f.b == b
    ensures |a| == 3 ==> f.a == a
    ensures |a| == 2 ==> f.a == [1.0] + a
  {
    Assign(Fresh(2), a, b).value
  }

  /** A coefficient pair as a designer hands it to `set_coefficients`. */
  datatype Vectors = Vectors(a: seq<real>, b: seq<real>)

  /** The feedback vector [1 + alpha, -2cos(w0), 1 - alpha] of the second-order cookbook sections. */
  function CookbookFeedback(cs: real, alpha: real): (a: seq<real>)
    ensures |a| == 3 && a[1] == -2.0 * cs && a[0] + a[2] == 2.0 && a[0] - a[2] == 2.0 * alpha
  {
    [1.0 + alpha, -2.0 * cs, 1.0 - alpha]
  }

  /** Low-pass: b = [b0, 2 b0, b0]; unity gain at DC, a zero at the Nyquist frequency. */
  function LowpassVectors(cs: real, alpha: real): (v: Vectors)
    ensures v.a == CookbookFeedback(cs, alpha) && |v.b| == 3
    ensures v.b[1] == 2.0 * v.b[0] && v.b[2] == v.b[0]
    ensures AtDc(v.b) == AtDc(v.a) && AtNyquist(v.b) == 0.0
  {
    var b0 := (1.0 - cs) / 2.0;
    var b1 := 1.0 - cs;
    var a0 := 1.0 + alpha;
    var a1 := -2.0 * cs;
    var a2 := 1.0 - alpha;
    Vectors([a0, a1, a2], [b0, b1, b0])
  }

  /** High-pass: b = [b0, -2 b0, b0]; a zero at DC, unity gain at the Nyquist frequency. */
  function HighpassVectors(cs: real, alpha: real): (v: Vectors)
    ensures v.a == CookbookFeedback(cs, alpha) && |v.b| == 3
    ensures v.b[1] == -2.0 * v.b[0] && v.b[2] == v.b[0]
    ensures AtDc(v.b) == 0.0 && AtNyquist(v.b) == AtNyquist(v.a)
  {
    var b0 := (1.0 + cs) / 2.0;
    var b1 := -1.0 - cs;
    var a0 := 1.0 + alpha;
    var a1 := -2.0 * cs;
    var a2 := 1.0 - alpha;
    Vectors([a0, a1, a2], [b0, b1, b0])
  }

  /** Band-pass with constant skirt gain: b = [sin(w0)/2, 0, -sin(w0)/2]; zeros at DC and Nyquist. */
  function BandpassVectors(sn: real, cs: real, alpha: real): (v: Vectors)
    ensures v.a == CookbookFeedback(cs, alpha) && |v.b| == 3
    ensures v.b[1] == 0.0 && v.b[2] == -v.b[0] && 2.0 * v.b[0] == sn
    ensures AtDc(v.b) == 0.0 && AtNyquist(v.b) == 0.0
  {
    var b0 := sn / 2.0;
    var b1 := 0.0;
    var b2 := -b0;
    var a0 := 1.0 + alpha;
    var a1 := -2.0 * cs;
    var a2 := 1.0 - alpha;
    Vectors([a0, a1, a2], [b0, b1, b2])
  }

  /** All-pass: the feedback vector is the feedforward vector reversed. */
  function AllpassVectors(cs: real, alpha: real): (v: Vectors)
    ensures v.a == CookbookFeedback(cs, alpha) && |v.b| == 3
    ensures v.a == [v.b[2], v.b[1], v.b[0]]
    ensures AtDc(v.b) == AtDc(v.a) && AtNyquist(v.b) == AtNyquist(v.a)
  {
    var b0 := 1.0 - alpha;
    var b1 := -2.0 * cs;
    var b2 := 1.0 + alpha;
    Vectors([b2, b1, b0], [b0, b1, b2])
  }

  /**
   * Peaking EQ: a1 = b1, a0 + a2 = b0 + b2 = 2, and the gain at w0,
   * (b0 - b2) / (a0 - a2), is A^2; at A = 1 numerator and denominator agree.
   */
  function PeakVectors(cs: real, alpha: real, bigA: real): (v: Vectors)
    requires bigA != 0.0
    ensures |v.a| == 3 && |v.b| == 3
    ensures v.a[1] == -2.0 * cs && v.a[1] == v.b[1] && v.a[0] + v.a[2] == 2.0 && v.b[0] + v.b[2] == 2.0
    ensures v.b[0] - v.b[2] == bigA * bigA * (v.a[0] - v.a[2])
    ensures bigA == 1.0 ==> v.a == v.b
  {
    var b0 := 1.0 + alpha * bigA;
    var b1 := -2.0 * cs;
    var b2 := 1.0 - alpha * bigA;
    var a0 := 1.0 + alpha / bigA;
    var a1 := -2.0 * cs;
    var a2 := 1.0 - alpha / bigA;
    PeakGainAtCenter(alpha, bigA);
    Vectors([a0, a1, a2], [b0, b1, b2])
  }

  lemma PeakGainAtCenter(alpha: real, bigA: real)
    requires bigA != 0.0
    ensures (1.0 + alpha * bigA) - (1.0 - alpha * bigA) == bigA * bigA * ((1.0 + alpha / bigA) - (1.0 - alpha / bigA))
  {
    assert bigA * (alpha / bigA) == alpha;
  }

  /** Notch: b = [1, -2cos(w0), 1] and a1 = b1; unity gain at DC and at the Nyquist frequency. */
  function NotchVectors(cs: real, alpha: real): (v: Vectors)
    ensures v.a == CookbookFeedback(cs, alpha) && |v.b| == 3
    ensures v.b[0] == 1.0 && v.b[2] == 1.0 && v.a[1] == v.b[1]
    ensures AtDc(v.b) == AtDc(v.a) && AtNyquist(v.b) == AtNyquist(v.a)
  {
    var b0 := 1.0;
    var b1 := -2.0 * cs;
    var a0 := 1.0 + alpha;
    var a1 := -2.0 * cs;
    var a2 := 1.0 - alpha;
    Vectors([a0, a1, a2], [b0, b1, b0])
  }

  /** The shelving formulae of the cookbook, on the already computed A, cos(w0), alpha and sqrt(A). */
  function LowShelfVectors(bigA: real, cs: real, alpha: real, sqrtA: real): (v: Vectors)
    ensures |v.a| == 3 && |v.b| == 3
  {
    var pmc := (bigA + 1.0) - (bigA - 1.0) * cs;
    var ppmc := (bigA + 1.0) + (bigA - 1.0) * cs;
    var mpc := (bigA - 1.0) - (bigA + 1.0) * cs;
    var pmpc := (bigA - 1.0) + (bigA + 1.0) * cs;
    var aa2 := 2.0 * sqrtA * alpha;
    var b0 := bigA * (pmc + aa2);
    var b1 := 2.0 * bigA * mpc;
    var b2 := bigA * (pmc - aa2);
    var a0 := ppmc + aa2;
    var a1 := -2.0 * pmpc;
    var a2 := ppmc - aa2;
    Vectors([a0, a1, a2], [b0, b1, b2])
  }

  function HighShelfVectors(bigA: real, cs: real, alpha: real, sqrtA: real): (v: Vectors)
    ensures |v.a| == 3 && |v.b| == 3
  {
    var pmc := (bigA + 1.0) - (bigA - 1.0) * cs;
    var ppmc := (bigA + 1.0) + (bigA - 1.0) * cs;
    var mpc := (bigA - 1.0) - (bigA + 1.0) * cs;
    var pmpc := (bigA - 1.0) + (bigA + 1.0) * cs;
    var aa2 := 2.0 * sqrtA * alpha;
    var b0 := bigA * (ppmc + aa2);
    var b1 := -2.0 * bigA * pmpc;
    var b2 := bigA * (ppmc - aa2);
    var a0 := pmc + aa2;
    var a1 := 2.0 * mpc;
    var a2 := pmc - aa2;
    Vectors([a0, a1, a2], [b0, b1, b2])
  }

  /** Negates the z^-1 coefficient of both vectors: the response mirrored about fs/4 (z -> -z). */
  function Mirror(v: Vectors): (r: Vectors)
    requires |v.a| == 3 && |v.b| == 3
    ensures |r.a| == 3 && |r.b| == 3
    ensures AtDc(r.a) == AtNyquist(v.a) && AtDc(r.b) == AtNyquist(v.b)
    ensures AtNyquist(r.a) == AtDc(v.a) && AtNyquist(r.b) == AtDc(v.b)
  {
    Vectors([v.a[0], -v.a[1], v.a[2]], [v.b[0], -v.b[1], v.b[2]])
  }

  /** The low shelf has unity gain at the Nyquist frequency and is flat at A = 1. */
  lemma LowShelfUnity(bigA: real, cs: real, alpha: real, sqrtA: real)
    ensures var v := LowShelfVectors(bigA, cs, alpha, sqrtA);
      AtNyquist(v.b) == AtNyquist(v.a) && (bigA == 1.0 ==> v.a == v.b)
  {
    var v := LowShelfVectors(bigA, cs, alpha, sqrtA);
    assert AtNyquist(v.a) == 4.0 * bigA * (1.0 + cs);
    assert AtNyquist(v.b) == 4.0 * bigA * (1.0 + cs);
    if bigA == 1.0 {
      assert v.a[0] == v.b[0] && v.a[1] == v.b[1] && v.a[2] == v.b[2];
    }
  }

  /** The low shelf's gain at DC is A^2 = 10^(gain_db / 20). */
  lemma LowShelfDcGain(bigA: real, cs: real, alpha: real, sqrtA: real)
    ensures var v := LowShelfVectors(bigA, cs, alpha, sqrtA);
      AtDc(v.b) == bigA * bigA * AtDc(v.a)
  {
    var v := LowShelfVectors(bigA, cs, alpha, sqrtA);
    assert AtDc(v.a) == 4.0 * (1.0 - cs);
    assert AtDc(v.b) == bigA * bigA * (4.0 * (1.0 - cs));
  }

  /** The high shelf swaps the roles of the boost and cut terms: it is the low shelf at cos(pi - w0), mirrored. */
  lemma HighShelfMirrorsLowShelf(bigA: real, cs: real, alpha: real, sqrtA: real)
    ensures HighShelfVectors(bigA, cs, alpha, sqrtA) == Mirror(LowShelfVectors(bigA, -cs, alpha, sqrtA))
  {
    var h := HighShelfVectors(bigA, cs, alpha, sqrtA);
    var l := Mirror(LowShelfVectors(bigA, -cs, alpha, sqrtA));
    assert h.a[0] == l.a[0] && h.a[1] == l.a[1] && h.a[2] == l.a[2];
    assert h.b[0] == l.b[0] && h.b[1] == l.b[1] && h.b[2] == l.b[2];
  }

  /** The high shelf has unity gain at DC and is flat at A = 1. */
  lemma HighShelfUnity(bigA: real, cs: real, alpha: real, sqrtA: real)
    ensures var v := HighShelfVectors(bigA, cs, alpha, sqrtA);
      AtDc(v.b) == AtDc(v.a) && (bigA == 1.0 ==> v.a == v.b)
  {
    HighShelfMirrorsLowShelf(bigA, cs, alpha, sqrtA);
    LowShelfUnity(bigA, -cs, alpha, sqrtA);
  }

  /** The high shelf's gain at the Nyquist frequency is A^2. */
  lemma HighShelfNyquistGain(bigA: real, cs: real, alpha: real, sqrtA: real)
    ensures var v := HighShelfVectors(bigA, cs, alpha, sqrtA);
      AtNyquist(v.b) == bigA * bigA * AtNyquist(v.a)
  {
    HighShelfMirrorsLowShelf(bigA, cs, alpha, sqrtA);
    LowShelfDcGain(bigA, -cs, alpha, sqrtA);
  }

  function MakeLowpass(m: Math, frequency: real, sampleRate: nat, qFactor: Option<real>): (f: FilterState)
    requires Designable(m, sampleRate, qFactor)
    ensures FreshBiquad(f)
    ensures f.b[1] == 2.0 * f.b[0] && f.b[2] == f.b[0]
    ensures AtDc(f.b) == AtDc(f.a) && AtNyquist(f.b) == 0.0
  {
    var q := ResolveQ(m, qFactor);
    var w0 := W0(m, frequency, sampleRate);
    var v := LowpassVectors(m.cos(w0), Alpha(m, frequency, sampleRate, q));
    Biquad(v.a, v.b)
  }

  function MakeHighpass(m: Math, frequency: real, sampleRate: nat, qFactor: Option<real>): (f: FilterState)
    requires Designable(m, sampleRate, qFactor)
    ensures FreshBiquad(f)
    ensures f.b[1] == -2.0 * f.b[0] && f.b[2] == f.b[0]
    ensures AtDc(f.b) == 0.0 && AtNyquist(f.b) == AtNyquist(f.a)
  {
    var q := ResolveQ(m, qFactor);
    var w0 := W0(m, frequency, sampleRate);
    var v := HighpassVectors(m.cos(w0), Alpha(m, frequency, sampleRate, q));
    Biquad(v.a, v.b)
  }

  /** Band-pass with constant skirt gain: the peak gain b0 / alpha is Q. */
  function MakeBandpass(m: Math, frequency: real, sampleRate: nat, qFactor: Option<real>): (f: FilterState)
    requires Designable(m, sampleRate, qFactor)
    ensures FreshBiquad(f)
    ensures f.b[1] == 0.0 && f.b[2] == -f.b[0]
    ensures 2.0 * f.b[0] == ResolveQ(m, qFactor) * (f.a[0] - f.a[2])
    ensures AtDc(f.b) == 0.0 && AtNyquist(f.b) == 0.0
  {
    var q := ResolveQ(m, qFactor);
    var w0 := W0(m, frequency, sampleRate);
    var alpha := Alpha(m, frequency, sampleRate, q);
    assert q * (2.0 * alpha) == m.sin(w0);
    var v := BandpassVectors(m.sin(w0), m.cos(w0), alpha);
    Biquad(v.a, v.b)
  }

  /** All-pass: the feedback vector is the feedforward vector reversed. */
  function MakeAllpass(m: Math, frequency: real, sampleRate: nat, qFactor: Option<real>): (f: FilterState)
    requires Designable(m, sampleRate, qFactor)
    ensures FreshBiquad(f)
    ensures f.a == [f.b[2], f.b[1], f.b[0]]
    ensures AtDc(f.b) == AtDc(f.a) && AtNyquist(f.b) == AtNyquist(f.a)
  {
    var q := ResolveQ(m, qFactor);
    var w0 := W0(m, frequency, sampleRate);
    var v := AllpassVectors(m.cos(w0), Alpha(m, frequency, sampleRate, q));
    Biquad(v.a, v.b)
  }

  /** The gain factor A = 10^(gain_db / 40) of the peaking and shelving designs. */
  function BigA(m: Math, gainDb: real): (a: real)
    requires ValidMath(m)
    ensures 0.0 < a && (gainDb == 0.0 ==> a == 1.0)
  {
    m.pow(10.0, gainDb / 40.0)
  }

  /** Peaking EQ: a1 = b1, a0 + a2 = b0 + b2 = 2; at 0 dB b == a. */
  function MakePeak(m: Math, frequency: real, sampleRate: nat, gainDb: real, qFactor: Option<real>): (f: FilterState)
    requires Designable(m, sampleRate, qFactor)
    ensures FreshBiquad(f) && f.a[1] == -2.0 * m.cos(W0(m, frequency, sampleRate))
    ensures f.a[1] == f.b[1] && f.a[0] + f.a[2] == 2.0 && f.b[0] + f.b[2] == 2.0
    ensures gainDb == 0.0 ==> f.a == f.b
  {
    var q := ResolveQ(m, qFactor);
    var w0 := W0(m, frequency, sampleRate);
    var v := PeakVectors(m.cos(w0), Alpha(m, frequency, sampleRate, q), BigA(m, gainDb));
    Biquad(v.a, v.b)
  }

  function MakeLowShelf(m: Math, frequency: real, sampleRate: nat, gainDb: real, qFactor: Option<real>): (f: FilterState)
    requires Designable(m, sampleRate, qFactor)
    ensures FreshBiquad(f)
    ensures AtNyquist(f.b) == AtNyquist(f.a)
    ensures gainDb == 0.0 ==> f.a == f.b
  {
    var q := ResolveQ(m, qFactor);
    var w0 := W0(m, frequency, sampleRate);
    var bigA := BigA(m, gainDb);
    var alpha := Alpha(m, frequency, sampleRate, q);
    var v := LowShelfVectors(bigA, m.cos(w0), alpha, m.sqrt(bigA));
    LowShelfUnity(bigA, m.cos(w0), alpha, m.sqrt(bigA));
    Biquad(v.a, v.b)
  }

  function MakeHighShelf(m: Math, frequency: real, sampleRate: nat, gainDb: real, qFactor: Option<real>): (f: FilterState)
    requires Designable(m, sampleRate, qFactor)
    ensures FreshBiquad(f)
    ensures AtDc(f.b) == AtDc(f.a)
    ensures gainDb == 0.0 ==> f.a == f.b
  {
    var q := ResolveQ(m, qFactor);
    var w0 := W0(m, frequency, sampleRate);
    var bigA := BigA(m, gainDb);
    var alpha := Alpha(m, frequency, sampleRate, q);
    var v := HighShelfVectors(bigA, m.cos(w0), alpha, m.sqrt(bigA));
    HighShelfUnity(bigA, m.cos(w0), alpha, m.sqrt(bigA));
    Biquad(v.a, v.b)
  }

  /**
   * The bandwidth form of alpha: sin(w0) * sinh(ln(2)/2 * Q * w0 / sin(w0)).
   * Q only scales the argument of sinh, so Q = 0 is no division by zero: it gives alpha = 0.
   */
  function NotchAlpha(m: Math, w0: real, q: real): (alpha: real)
    requires ValidMath(m) && m.sin(w0) != 0.0
    ensures q == 0.0 ==> alpha == 0.0
  {
    m.sin(w0) * m.sinh((m.log(2.0, m.e) / 2.0) * q * (w0 / m.sin(w0)))
  }

  /** Notch: it divides by sin(w0) but never by Q; at Q = 0 (alpha = 0) numerator and denominator agree. */
  function MakeNotch(m: Math, frequency: real, sampleRate: nat, qFactor: Option<real>): (f: FilterState)
    requires ValidMath(m) && sampleRate > 0 && m.sin(W0(m, frequency, sampleRate)) != 0.0
    ensures FreshBiquad(f) && f.a[1] == -2.0 * m.cos(W0(m, frequency, sampleRate))
    ensures f.b[0] == 1.0 && f.b[2] == 1.0 && f.a[1] == f.b[1] && f.a[0] + f.a[2] == 2.0
    ensures AtDc(f.b) == AtDc(f.a) && AtNyquist(f.b) == AtNyquist(f.a)
    ensures ResolveQ(m, qFactor) == 0.0 ==> f.a == f.b
  {
    var q := ResolveQ(m, qFactor);
    var w0 := W0(m, frequency, sampleRate);
    var v := NotchVectors(m.cos(w0), NotchAlpha(m, w0, q));
    Biquad(v.a, v.b)
  }

  /** Low-pass, high-pass, band-pass and all-pass share one feedback vector. */
  lemma SharedFeedback(m: Math, frequency: real, sampleRate: nat, qFactor: Option<real>)
    requires Designable(m, sampleRate, qFactor)
    ensures var a := MakeLowpass(m, frequency, sampleRate, qFactor).a;
      a == MakeHighpass(m, frequency, sampleRate, qFactor).a &&
      a == MakeBandpass(m, frequency, sampleRate, qFactor).a &&
      a == MakeAllpass(m, frequency, sampleRate, qFactor).a &&
      a == CookbookFeedback(m.cos(W0(m, frequency, sampleRate)), Alpha(m, frequency, sampleRate, ResolveQ(m, qFactor)))
  {
  }

  // Constant-Q peaking EQ (Zoelzer, DAFX pp. 50-55)

  /** The linear gain with a cut inverted: never below 1, and equal for v and 1/v. */
  function InvertCut(v: real): (r: real)
    requires 0.0 < v
    ensures 1.0 <= r
    ensures v < 1.0 ==> r * v == 1.0
    ensures 1.0 <= v ==> r == v
  {
    if v < 1.0 then 1.0 / v else v
  }

  /** A boost of +g dB and a cut of -g dB use the same inverted gain. */
  lemma InvertCutReciprocal(v: real, w: real)
    requires 0.0 < v && 0.0 < w && v * w == 1.0
    ensures InvertCut(v) == InvertCut(w)
  {
    if v < 1.0 {
      assert 1.0 < w;
    } else if w < 1.0 {
      assert 1.0 / w == v;
    } else {
      assert v == 1.0 && w == 1.0;
    }
  }

  /** 1 + (g/Q)k + k^2, the denominator of both branches: at least 1 for g, k >= 0. */
  function ConstantQDen(k: real, kSqr: real, g: real, q: real): (d: real)
    requires 0.0 <= k && 0.0 <= kSqr && 0.0 <= g && 0.0 < q
    ensures 1.0 <= d
  {
    assert 0.0 <= g / q;
    1.0 + ((g / q) * k) + kSqr
  }

  lemma Quotients(x: real, y: real, z: real, d: real)
    requires d != 0.0
    ensures x / d + y / d + z / d == (x + y + z) / d
    ensures x / d - y / d + z / d == (x - y + z) / d
    ensures d / d == 1.0
  {
  }

  /**
   * The two branches of the design. Both store a = [1, a1, a2] through the
   * implicit leading 1.0, both have a1 = b1, and both have unity gain at DC
   * and at the Nyquist frequency; the boost raises b0 to at least 1, the cut
   * lowers it to at most 1, and at v0 = 1 both reduce to b == a.
   */
  function ConstantQVectors(k: real, kSqr: real, v0: real, q: real, boost: bool): (v: Vectors)
    requires 0.0 <= k && 0.0 <= kSqr && 1.0 <= v0 && 0.0 < q
    ensures |v.a| == 2 && |v.b| == 3 && v.a[0] == v.b[1]
    ensures AtDc(v.b) == AtDc([1.0] + v.a) && AtNyquist(v.b) == AtNyquist([1.0] + v.a)
    ensures boost ==> 1.0 <= v.b[0]
    ensures !boost ==> v.b[0] <= 1.0
    ensures v0 == 1.0 ==> v.b == [1.0] + v.a
  {
    var d1 := ConstantQDen(k, kSqr, 1.0, q);
    var dv := ConstantQDen(k, kSqr, v0, q);
    ConstantQShape(k, kSqr, v0, q);
    ConstantQBalance(k, kSqr, v0, q);
    if boost then
      var b0 := (1.0 + ((v0 / q) * k) + kSqr) / d1;
      var b1 := (2.0 * (kSqr - 1.0)) / d1;
      var b2 := (1.0 - ((v0 / q) * k) + kSqr) / d1;
      var a1 := b1;
      var a2 := (1.0 - ((1.0 / q) * k) + kSqr) / d1;
      Vectors([a1, a2], [b0, b1, b2])
    else
      var b0 := (1.0 + ((1.0 / q) * k) + kSqr) / dv;
      var b1 := (2.0 * (kSqr - 1.0)) / dv;
      var b2 := (1.0 - ((1.0 / q) * k) + kSqr) / dv;
      var a1 := b1;
      var a2 := (1.0 - ((v0 / q) * k) + kSqr) / dv;
      Vectors([a1, a2], [b0, b1, b2])
  }

  /** A quotient of positives is at least 1 when the numerator is at least the denominator. */
  lemma RatioAtLeastOne(x: real, d: real)
    requires 0.0 < d <= x
    ensures 1.0 <= x / d
  {
    var r := x / d;
    assert r * d == x;
    assert (r - 1.0) * d == x - d;
  }

  /** A quotient of positives is at most 1 when the numerator is at most the denominator. */
  lemma RatioAtMostOne(x: real, d: real)
    requires 0.0 < x <= d
    ensures x / d <= 1.0
  {
    var r := x / d;
    assert r * d == x;
    assert (1.0 - r) * d == d - x;
  }

  /** Over one denominator, numerator pairs with the same total give the same DC and Nyquist sums. */
  lemma ExchangeNumerators(x: real, y: real, u: real, w: real, s: real, d: real)
    requires d != 0.0 && x + y == u + w
    ensures x / d + s / d + y / d == u / d + s / d + w / d
    ensures x / d - s / d + y / d == u / d - s / d + w / d
  {
    Quotients(x, s, y, d);
    Quotients(u, s, w, d);
  }

  /**
   * The two denominators d1 = 1 + k/Q + k^2 (boost) and dv = 1 + v0*k/Q + k^2
   * (cut): d1 <= dv, so the boost's b0 = dv/d1 is at least 1 and the cut's
   * b0 = d1/dv at most 1.
   */
  lemma ConstantQShape(k: real, kSqr: real, v0: real, q: real)
    requires 0.0 <= k && 0.0 <= kSqr && 1.0 <= v0 && 0.0 < q
    ensures var d1 := ConstantQDen(k, kSqr, 1.0, q);
      var dv := ConstantQDen(k, kSqr, v0, q);
      d1 <= dv &&
      (1.0 + ((v0 / q) * k) + kSqr) == dv && (1.0 + ((1.0 / q) * k) + kSqr) == d1 &&
      1.0 <= dv / d1 && d1 / dv <= 1.0 && d1 / d1 == 1.0 && dv / dv == 1.0
  {
    var d1 := ConstantQDen(k, kSqr, 1.0, q);
    var dv := ConstantQDen(k, kSqr, v0, q);
    assert v0 / q >= 1.0 / q;
    assert (v0 / q) * k >= (1.0 / q) * k;
    RatioAtLeastOne(dv, d1);
    RatioAtMostOne(d1, dv);
  }

  /**
   * The numerators of each branch trade dv against d1 and the last numerator
   * term against its mirror, with the same total: so the DC and Nyquist sums
   * of b equal those of [d/d, a1, a2].
   */
  lemma ConstantQBalance(k: real, kSqr: real, v0: real, q: real)
    requires 0.0 <= k && 0.0 <= kSqr && 1.0 <= v0 && 0.0 < q
    ensures var d1 := ConstantQDen(k, kSqr, 1.0, q);
      var dv := ConstantQDen(k, kSqr, v0, q);
      var s := 2.0 * (kSqr - 1.0);
      var n1 := 1.0 - ((1.0 / q) * k) + kSqr;
      var nv := 1.0 - ((v0 / q) * k) + kSqr;
      dv / d1 + s / d1 + nv / d1 == d1 / d1 + s / d1 + n1 / d1 &&
      dv / d1 - s / d1 + nv / d1 == d1 / d1 - s / d1 + n1 / d1 &&
      d1 / dv + s / dv + n1 / dv == dv / dv + s / dv + nv / dv &&
      d1 / dv - s / dv + n1 / dv == dv / dv - s / dv + nv / dv
  {
    var d1 := ConstantQDen(k, kSqr, 1.0, q);
    var dv := ConstantQDen(k, kSqr, v0, q);
    var s := 2.0 * (kSqr - 1.0);
    var n1 := 1.0 - ((1.0 / q) * k) + kSqr;
    var nv := 1.0 - ((v0 / q) * k) + kSqr;
    ExchangeNumerators(dv, nv, d1, n1, s, d1);
    ExchangeNumerators(d1, n1, dv, nv, s, dv);
  }

  /** Every entry of c multiplied by s. */
  function Scale(c: seq<real>, s: real): (r: seq<real>)
    ensures |r| == |c| && forall i :: 0 <= i < |c| ==> r[i] == c[i] * s
  {
    seq(|c|, i requires 0 <= i < |c| => c[i] * s)
  }

  /**
   * For the same inverted gain v0, the cut section is the boost section with
   * numerator and denominator exchanged (up to the scale factors dv and d1):
   * a cut exactly undoes the boost of the same size.
   */
  lemma CutUndoesBoost(k: real, kSqr: real, v0: real, q: real)
    requires 0.0 <= k && 0.0 <= kSqr && 1.0 <= v0 && 0.0 < q
    ensures var boost := ConstantQVectors(k, kSqr, v0, q, true);
      var cut := ConstantQVectors(k, kSqr, v0, q, false);
      var d1 := ConstantQDen(k, kSqr, 1.0, q);
      var dv := ConstantQDen(k, kSqr, v0, q);
      Scale(cut.b, dv) == Scale([1.0] + boost.a, d1) &&
      Scale([1.0] + cut.a, dv) == Scale(boost.b, d1)
  {
    var boost := ConstantQVectors(k, kSqr, v0, q, true);
    var cut := ConstantQVectors(k, kSqr, v0, q, false);
    var d1 := ConstantQDen(k, kSqr, 1.0, q);
    var dv := ConstantQDen(k, kSqr, v0, q);
    var s := 2.0 * (kSqr - 1.0);
    var n1 := 1.0 - ((1.0 / q) * k) + kSqr;
    var nv := 1.0 - ((v0 / q) * k) + kSqr;
    ConstantQClosedForm(k, kSqr, v0, q);
    ScaleQuotients(cut.b, dv, d1, s, n1);
    ScaleUnitQuotients(boost.a, d1, s, n1);
    ScaleUnitQuotients(cut.a, dv, s, nv);
    ScaleQuotients(boost.b, d1, dv, s, nv);
  }

  /** Both branches written over the two denominators d1 and dv. */
  lemma ConstantQClosedForm(k: real, kSqr: real, v0: real, q: real)
    requires 0.0 <= k && 0.0 <= kSqr && 1.0 <= v0 && 0.0 < q
    ensures var d1 := ConstantQDen(k, kSqr, 1.0, q);
      var dv := ConstantQDen(k, kSqr, v0, q);
      var s := 2.0 * (kSqr - 1.0);
      var n1 := 1.0 - ((1.0 / q) * k) + kSqr;
      var nv := 1.0 - ((v0 / q) * k) + kSqr;
      ConstantQVectors(k, kSqr, v0, q, true) == Vectors([s / d1, n1 / d1], [dv / d1, s / d1, nv / d1]) &&
      ConstantQVectors(k, kSqr, v0, q, false) == Vectors([s / dv, nv / dv], [d1 / dv, s / dv, n1 / dv])
  {
  }

  /** Scaling [n0/d, n1/d, n2/d] by d gives back the numerators. */
  lemma ScaleQuotients(c: seq<real>, d: real, n0: real, n1: real, n2: real)
    requires d != 0.0 && c == [n0 / d, n1 / d, n2 / d]
    ensures Scale(c, d) == [n0, n1, n2]
  {
    Cancel(n0, d); Cancel(n1, d); Cancel(n2, d);
    var r := Scale(c, d);
    assert r[0] == n0 && r[1] == n1 && r[2] == n2;
  }

  /** Scaling [1, n1/d, n2/d] by d gives [d, n1, n2]. */
  lemma ScaleUnitQuotients(a: seq<real>, d: real, n1: real, n2: real)
    requires d != 0.0 && a == [n1 / d, n2 / d]
    ensures Scale([1.0] + a, d) == [d, n1, n2]
  {
    Cancel(n1, d); Cancel(n2, d);
    var r := Scale([1.0] + a, d);
    assert r[0] == d && r[1] == n1 && r[2] == n2;
  }

  lemma Cancel(x: real, d: real)
    requires d != 0.0
    ensures (x / d) * d == x
  {
  }

  /** k = tan(pi * f / fs). */
  function TanK(m: Math, frequencyCenter: real, sampleRate: nat): real
    requires sampleRate > 0
  {
    m.tan((m.pi * frequencyCenter) / sampleRate as real)
  }

  /** The inverted linear gain v0 = 10^(gain_db / 20), or its reciprocal for a cut. */
  function ConstantQGain(m: Math, gainDb: real): (v0: real)
    requires ValidMath(m)
    ensures 1.0 <= v0 && (gainDb == 0.0 ==> v0 == 1.0)
  {
    InvertCut(m.pow(10.0, gainDb / 20.0))
  }

  /** What the constant-Q design needs: Q > 0 and a centre below the Nyquist frequency (k >= 0). */
  ghost predicate ConstantQDesignable(m: Math, frequencyCenter: real, sampleRate: nat, qFactor: Option<real>) {
    ValidMath(m) && sampleRate > 0 && 0.0 < ResolveQ(m, qFactor) && 0.0 <= TanK(m, frequencyCenter, sampleRate)
  }

  /** `make_peak_eq_constant_q`: the boost branch is taken exactly when gain_db > 0. */
  function MakePeakEqConstantQ(m: Math, frequencyCenter: real, sampleRate: nat, gainDb: real, qFactor: Option<real>): (f: FilterState)
    requires ConstantQDesignable(m, frequencyCenter, sampleRate, qFactor)
    ensures FreshBiquad(f) && f.a[0] == 1.0 && f.a[1] == f.b[1]
    ensures AtDc(f.b) == AtDc(f.a) && AtNyquist(f.b) == AtNyquist(f.a)
    ensures 0.0 < gainDb ==> 1.0 <= f.b[0]
    ensures gainDb <= 0.0 ==> f.b[0] <= 1.0
    ensures gainDb == 0.0 ==> f.a == f.b
  {
    var q := ResolveQ(m, qFactor);
    var k := TanK(m, frequencyCenter, sampleRate);
    var v0 := ConstantQGain(m, gainDb);
    var kSqr := m.pow(k, 2.0);
    var v := ConstantQVectors(k, kSqr, v0, q, gainDb > 0.0);
    Biquad(v.a, v.b)
  }

  /**
   * Given 10^(-g/20) * 10^(g/20) = 1, the design for -g dB is the design for
   * +g dB with numerator and denominator exchanged: the cut undoes the boost.
   */
  lemma ConstantQCutUndoesBoost(m: Math, frequencyCenter: real, sampleRate: nat, g: real, qFactor: Option<real>)
    requires ConstantQDesignable(m, frequencyCenter, sampleRate, qFactor) && 0.0 < g
    requires m.pow(10.0, (-g) / 20.0) * m.pow(10.0, g / 20.0) == 1.0
    ensures var boost := MakePeakEqConstantQ(m, frequencyCenter, sampleRate, g, qFactor);
      var cut := MakePeakEqConstantQ(m, frequencyCenter, sampleRate, -g, qFactor);
      var k := TanK(m, frequencyCenter, sampleRate);
      var v0 := ConstantQGain(m, g);
      var q := ResolveQ(m, qFactor);
      Scale(cut.b, ConstantQDen(k, k * k, v0, q)) == Scale(boost.a, ConstantQDen(k, k * k, 1.0, q)) &&
      Scale(cut.a, ConstantQDen(k, k * k, v0, q)) == Scale(boost.b, ConstantQDen(k, k * k, 1.0, q))
  {
    var k := TanK(m, frequencyCenter, sampleRate);
    var q := ResolveQ(m, qFactor);
    InvertCutReciprocal(m.pow(10.0, (-g) / 20.0), m.pow(10.0, g / 20.0));
    assert ConstantQGain(m, -g) == ConstantQGain(m, g);
    assert m.pow(k, 2.0) == k * k;
    CutUndoesBoost(k, k * k, ConstantQGain(m, g), q);
  }
}
