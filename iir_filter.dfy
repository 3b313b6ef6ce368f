/**
 * The N-th-order IIR recurrence engine.
 *
 * A filter of order k keeps feedback coefficients a[0..k], feedforward
 * coefficients b[0..k], the last k inputs x[n-1] .. x[n-k] and the last k
 * outputs y[n-1] .. y[n-k], and computes the direct-form-I difference equation
 *
 *   y[n] = (b[0]*x[n] + sum_{i=1..k} (b[i]*x[n-i] - a[i]*y[n-i])) / a[0]
 *
 * The pure part (FilterState, Assign, Step, Run) is the specification; the
 * class IirFilter is the stateful engine, proved against it.
 */
module Iir {
  import opened Wrappers

  /** Why `set_coefficients` refused its arguments. */
  datatype CoeffError =
    | FeedbackLength     // `a` has neither `order` nor `order + 1` elements
    | FeedforwardLength  // `b` does not have `order + 1` elements

  /** The abstract value of one filter: its order, coefficients and delay lines. */
  datatype FilterState = FilterState(order: nat, a: seq<real>, b: seq<real>, xh: seq<real>, yh: seq<real>)
  {
    /** Both coefficient vectors have order + 1 entries, both histories order entries. */
    predicate WellFormed() {
      |a| == order + 1 && |b| == order + 1 && |xh| == order && |yh| == order
    }

    /** What `process` needs: a history slot to shift and a non-zero divisor a[0]. */
    predicate Runnable() {
      WellFormed() && order >= 1 && a[0] != 0.0
    }

    /** a[0] = b[0] = 1 and every other coefficient is zero. */
    ghost predicate IdentityCoeffs() {
      WellFormed() && a[0] == 1.0 && b[0] == 1.0 &&
      forall i :: 1 <= i <= order ==> a[i] == 0.0 && b[i] == 0.0
    }

    /** Both delay lines hold only zeros. */
    ghost predicate Quiet() {
      WellFormed() && forall i :: 0 <= i < order ==> xh[i] == 0.0 && yh[i] == 0.0
    }

    /** Numerator equals denominator and the two delay lines agree. */
    ghost predicate Transparent() {
      Runnable() && a == b && xh == yh
    }
  }

  /** The result of processing one sample: the output and the next state. */
  datatype Stepped = Stepped(output: real, next: FilterState)

  /** The result of processing a stream of samples in order. */
  datatype Ran = Ran(outputs: seq<real>, final: FilterState)

  function Zeros(n: nat): (z: seq<real>)
    ensures |z| == n && forall i :: 0 <= i < n ==> z[i] == 0.0
  {
    seq(n, _ => 0.0)
  }

  /** `IIRFilter::new(order)`: an identity filter with silent delay lines. */
  function Fresh(order: nat): (s: FilterState)
    ensures s.order == order && s.WellFormed()
    ensures s.IdentityCoeffs() && s.Quiet()
  {
    FilterState(order, [1.0] + Zeros(order), [1.0] + Zeros(order), Zeros(order), Zeros(order))
  }

  /**
   * `set_coefficients(a, b)`: both lengths are checked before anything
   * changes; a feedback vector one short gets an implicit leading 1.0.
   * The delay lines are never touched.
   */
  function Assign(s: FilterState, a: seq<real>, b: seq<real>): (r: Result<FilterState, CoeffError>)
    ensures r.Ok? <==> (|a| == s.order || |a| == s.order + 1) && |b| == s.order + 1
    ensures r.Err? ==> r.error == if |a| != s.order && |a| != s.order + 1 then FeedbackLength else FeedforwardLength
    ensures r.Ok? ==> r.value.order == s.order && r.value.xh == s.xh && r.value.yh == s.yh
    ensures r.Ok? ==> r.value.b == b && |r.value.a| == s.order + 1
    ensures r.Ok? ==> r.value.a[s.order + 1 - |a|..] == a && (|a| == s.order ==> r.value.a[0] == 1.0)
  {
    if |a| != s.order + 1 && |a| != s.order then Err(FeedbackLength)
    else if |b| != s.order + 1 then Err(FeedforwardLength)
    else Ok(s.(a := if |a| < s.order + 1 then [1.0] + a else a, b := b))
  }

  /** sum_{i=1..n} (b[i]*xh[i-1] - a[i]*yh[i-1]), accumulated in index order. */
  function FeedSum(s: FilterState, n: nat): (r: real)
    requires s.WellFormed() && n <= s.order
    ensures (forall i :: 0 <= i < n ==> s.xh[i] == 0.0 && s.yh[i] == 0.0) ==> r == 0.0
  {
    if n == 0 then 0.0
    else FeedSum(s, n - 1) + (s.b[n] * s.xh[n - 1] - s.a[n] * s.yh[n - 1])
  }

  /** `process(x)`: the difference equation, then both delay lines shift one slot right. */
  function Step(s: FilterState, x: real): (r: Stepped)
    requires s.Runnable()
    ensures r.next.Runnable()
    ensures r.next.order == s.order && r.next.a == s.a && r.next.b == s.b
  {
    var y := (FeedSum(s, s.order) + s.b[0] * x) / s.a[0];
    Stepped(y, s.(xh := [x] + s.xh[..s.order - 1], yh := [y] + s.yh[..s.order - 1]))
  }

  /** Calling `process` once per sample of `xs`, in order. */
  function Run(s: FilterState, xs: seq<real>): (r: Ran)
    requires s.Runnable()
    ensures |r.outputs| == |xs|
    ensures r.final.Runnable() && r.final.order == s.order && r.final.a == s.a && r.final.b == s.b
    decreases |xs|
  {
    if xs == [] then Ran([], s)
    else
      var st := Step(s, xs[0]);
      var rest := Run(st.next, xs[1..]);
      Ran([st.output] + rest.outputs, rest.final)
  }

  /** The history sum is zero when every feedforward term cancels its feedback term. */
  lemma {:induction false} FeedSumVanishes(s: FilterState, n: nat)
    requires s.WellFormed() && n <= s.order
    requires forall i :: 1 <= i <= n ==> s.b[i] * s.xh[i - 1] == s.a[i] * s.yh[i - 1]
    ensures FeedSum(s, n) == 0.0
  {
    if n > 0 {
      FeedSumVanishes(s, n - 1);
    }
  }

  /** With identity coefficients, one step returns its input, whatever the history. */
  lemma IdentityStep(s: FilterState, x: real)
    requires s.Runnable() && s.IdentityCoeffs()
    ensures Step(s, x).output == x && Step(s, x).next.IdentityCoeffs()
  {
    FeedSumVanishes(s, s.order);
  }

  /** A filter with identity coefficients passes every stream through unchanged. */
  lemma {:induction false} IdentityRun(s: FilterState, xs: seq<real>)
    requires s.Runnable() && s.IdentityCoeffs()
    ensures Run(s, xs).outputs == xs
    decreases |xs|
  {
    if xs != [] {
      IdentityStep(s, xs[0]);
      IdentityRun(Step(s, xs[0]).next, xs[1..]);
    }
  }

  /** A freshly constructed filter of order >= 1 is the identity on every stream. */
  lemma FreshFilterIsIdentity(order: nat, xs: seq<real>)
    requires order >= 1
    ensures Run(Fresh(order), xs).outputs == xs
  {
    IdentityRun(Fresh(order), xs);
  }

  /** Zero in, zero out: silent history and a zero sample give a zero output and silent history. */
  lemma QuietStep(s: FilterState)
    requires s.Runnable() && s.Quiet()
    ensures Step(s, 0.0).output == 0.0 && Step(s, 0.0).next.Quiet()
  {
    FeedSumVanishes(s, s.order);
  }

  /** Processing n zero samples from silent history returns n zeros, for any coefficients. */
  lemma {:induction false} SilenceRun(s: FilterState, n: nat)
    requires s.Runnable() && s.Quiet()
    ensures Run(s, Zeros(n)).outputs == Zeros(n)
    decreases n
  {
    if n > 0 {
      QuietStep(s);
      assert Zeros(n)[1..] == Zeros(n - 1);
      SilenceRun(Step(s, 0.0).next, n - 1);
    }
  }

  /** When b == a and the delay lines agree, a step returns its input and they still agree. */
  lemma TransparentStep(s: FilterState, x: real)
    requires s.Transparent()
    ensures Step(s, x).output == x && Step(s, x).next.Transparent()
  {
    FeedSumVanishes(s, s.order);
  }

  /** The cases exercised by the engine's own tests: each returns 0.0 for a 0.0 input. */
  lemma EngineTestCases()
    ensures Step(Fresh(2), 0.0).output == 0.0
    ensures Assign(Fresh(2), [0.0, 0.0], [0.0, 0.0, 0.0]).Ok?
    ensures Step(Assign(Fresh(2), [0.0, 0.0], [0.0, 0.0, 0.0]).value, 0.0).output == 0.0
    ensures Assign(Fresh(2), [1.0, 0.0, 0.0], [0.0, 0.0, 0.0]).Ok?
    ensures Step(Assign(Fresh(2), [1.0, 0.0, 0.0], [0.0, 0.0, 0.0]).value, 0.0).output == 0.0
  {
    QuietStep(Fresh(2));
    QuietStep(Assign(Fresh(2), [0.0, 0.0], [0.0, 0.0, 0.0]).value);
    QuietStep(Assign(Fresh(2), [1.0, 0.0, 0.0], [0.0, 0.0, 0.0]).value);
  }

  /** One filter section; coefficients are replaced wholesale, histories shift in place. */
  class IirFilter {
    const order: nat
    // a[0] .. a[k]
    var aCoeffs: seq<real>
    // b[0] .. b[k]
    var bCoeffs: seq<real>
    // x[n-1] .. x[n-k]
    const inputHistory: array<real>
    // y[n-1] .. y[n-k]
    const outputHistory: array<real>

    ghost predicate Valid()
      reads this
    {
      |aCoeffs| == order + 1 && |bCoeffs| == order + 1 &&
      inputHistory.Length == order && outputHistory.Length == order &&
      inputHistory != outputHistory
    }

    ghost function State(): FilterState
      reads this, inputHistory, outputHistory
    {
      FilterState(order, aCoeffs, bCoeffs, inputHistory[..], outputHistory[..])
    }

    constructor (order: nat)
      ensures Valid() && State() == Fresh(order)
      ensures fresh(inputHistory) && fresh(outputHistory)
    {
      this.order := order;
      aCoeffs := [1.0] + Zeros(order);
      bCoeffs := [1.0] + Zeros(order);
      inputHistory := new real[order](_ => 0.0);
      outputHistory := new real[order](_ => 0.0);
    }

    /** All-or-nothing replacement of both coefficient vectors; the histories stay. */
    method SetCoefficients(a: seq<real>, b: seq<real>) returns (r: Outcome<CoeffError>)
      requires Valid()
      modifies this
      ensures Valid()
      ensures Assign(old(State()), a, b).Ok? ==> r == Pass && State() == Assign(old(State()), a, b).value
      ensures Assign(old(State()), a, b).Err? ==> r == Fail(Assign(old(State()), a, b).error) && State() == old(State())
    {
      if |a| != order + 1 && |a| != order {
        return Fail(FeedbackLength);
      }
      if |b| != order + 1 {
        return Fail(FeedforwardLength);
      }
      if |a| < order + 1 {
        aCoeffs := [1.0] + a;
      } else {
        aCoeffs := a;
      }
      bCoeffs := b;
      r := Pass;
    }

    /** Computes y[n] for `sample` and pushes `sample` and y[n] onto the delay lines. */
    method Process(sample: real) returns (result: real)
      requires Valid() && order >= 1 && aCoeffs[0] != 0.0
      modifies inputHistory, outputHistory
      ensures Stepped(result, State()) == Step(old(State()), sample)
    {
      ghost var s := State();
      result := 0.0;
      for i := 1 to order + 1
        invariant result == FeedSum(s, i - 1)
      {
        result := result + (bCoeffs[i] * inputHistory[i - 1] - aCoeffs[i] * outputHistory[i - 1]);
      }
      result := (result + bCoeffs[0] * sample) / aCoeffs[0];
      assert result == Step(s, sample).output;

      ShiftRight(inputHistory);
      ShiftRight(outputHistory);
      inputHistory[0] := sample;
      outputHistory[0] := result;
      assert inputHistory[..] == [sample] + s.xh[..order - 1];
      assert outputHistory[..] == [result] + s.yh[..order - 1];
      assert State() == Step(s, sample).next;
    }
  }

  /** `copy_within(0..len - 1, 1)`: every element moves one slot right; slot 0 keeps its value. */
  method ShiftRight(h: array<real>)
    requires h.Length >= 1
    modifies h
    ensures h[0] == old(h[0]) && h[1..] == old(h[..h.Length - 1])
  {
    var j := h.Length - 1;
    while j > 0
      invariant 0 <= j <= h.Length - 1
      invariant forall k :: 0 <= k <= j ==> h[k] == old(h[k])
      invariant forall k :: j < k < h.Length ==> h[k] == old(h[k - 1])
    {
      h[j] := h[j - 1];
      j := j - 1;
    }
  }
}
