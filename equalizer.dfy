/**
 * A multi-band equalizer: an ordered cascade of constant-Q peaking sections,
 * one per band. Changing a band's gain re-derives that band's coefficients
 * and hot-swaps them into the running section without touching any delay
 * line. The pure part (EqualizerModel and the functions over it) is the
 * specification; the class Equalizer is proved against it.
 */
module Eq {
  import opened Wrappers
  import opened Iir
  import opened Designers

  /** A gain outside [gain_min_db, gain_max_db]; carries the gain and both bounds. */
  datatype GainError = OutOfRangeGain(gainDb: real, gainMinDb: real, gainMaxDb: real)

  /** The abstract value of an equalizer. */
  datatype EqualizerModel = EqualizerModel(
    sampleRate: nat,
    bands: seq<real>,
    gains: seq<real>,
    gainMaxDb: real,
    gainMinDb: real,
    qFactor: real,
    stages: seq<FilterState>)

  /** Every band centre admits the constant-Q design at this rate and Q. */
  ghost predicate BandsDesignable(m: Math, sampleRate: nat, bands: seq<real>, qFactor: real) {
    forall i :: 0 <= i < |bands| ==> ConstantQDesignable(m, bands[i], sampleRate, Some(qFactor))
  }

  /** Bands, gains and stages are index-aligned; every stage is an order-2 section with a0 = 1. */
  ghost predicate Aligned(m: Math, e: EqualizerModel) {
    |e.gains| == |e.bands| && |e.stages| == |e.bands| &&
    ValidMath(m) && BandsDesignable(m, e.sampleRate, e.bands, e.qFactor) &&
    forall i :: 0 <= i < |e.stages| ==> e.stages[i].order == 2 && e.stages[i].WellFormed() && e.stages[i].a[0] == 1.0
  }

  /** Every stage can process a sample. */
  ghost predicate AllRunnable(ss: seq<FilterState>) {
    forall i :: 0 <= i < |ss| ==> ss[i].Runnable()
  }

  /** The section designed for band `index` at gain `gainDb`. */
  function BandDesign(m: Math, e: EqualizerModel, index: nat, gainDb: real): FilterState
    requires Aligned(m, e) && index < |e.bands|
  {
    MakePeakEqConstantQ(m, e.bands[index], e.sampleRate, gainDb, Some(e.qFactor))
  }

  /** `gen_chain_filters`: one 0 dB constant-Q section per band, in band order. */
  function ChainStages(m: Math, sampleRate: nat, bands: seq<real>, qFactor: real): (ss: seq<FilterState>)
    requires ValidMath(m) && BandsDesignable(m, sampleRate, bands, qFactor)
    ensures |ss| == |bands|
    ensures forall i :: 0 <= i < |bands| ==> ss[i] == MakePeakEqConstantQ(m, bands[i], sampleRate, 0.0, Some(qFactor))
  {
    seq(|bands|, i requires 0 <= i < |bands| => MakePeakEqConstantQ(m, bands[i], sampleRate, 0.0, Some(qFactor)))
  }

  /** `Equalizer::new`: every gain 0 dB, every section transparent; nothing about the bounds is checked. */
  function Initial(m: Math, sampleRate: nat, bands: seq<real>, gainMaxDb: real, gainMinDb: real, qFactor: real): (e: EqualizerModel)
    requires ValidMath(m) && BandsDesignable(m, sampleRate, bands, qFactor)
    ensures Aligned(m, e) && e.bands == bands && e.sampleRate == sampleRate && e.qFactor == qFactor
    ensures e.gainMaxDb == gainMaxDb && e.gainMinDb == gainMinDb
    ensures forall i :: 0 <= i < |bands| ==> e.gains[i] == 0.0 && e.stages[i].Transparent()
  {
    var ss := ChainStages(m, sampleRate, bands, qFactor);
    forall i | 0 <= i < |bands|
      ensures ss[i].Transparent()
    {
      assert ss[i].xh == Zeros(2) == ss[i].yh;
    }
    EqualizerModel(sampleRate, bands, Zeros(|bands|), gainMaxDb, gainMinDb, qFactor, ss)
  }

  /** `change_filter`: band `index` gets the coefficients designed for its gain; its history stays. */
  function Rederive(m: Math, e: EqualizerModel, index: nat): (r: EqualizerModel)
    requires Aligned(m, e) && index < |e.bands|
    ensures Aligned(m, r) && r == e.(stages := r.stages) && |r.stages| == |e.stages|
    ensures forall j :: 0 <= j < |e.stages| && j != index ==> r.stages[j] == e.stages[j]
    ensures r.stages[index].xh == e.stages[index].xh && r.stages[index].yh == e.stages[index].yh
    ensures r.stages[index].a == BandDesign(m, e, index, e.gains[index]).a
    ensures r.stages[index].b == BandDesign(m, e, index, e.gains[index]).b
  {
    var tmp := BandDesign(m, e, index, e.gains[index]);
    var swapped := Assign(e.stages[index], tmp.a, tmp.b);
    e.(stages := e.stages[index := swapped.value])
  }

  /**
   * `set_band_gain`: a gain outside the inclusive range is refused and
   * nothing changes; otherwise only that band's gain and coefficients change.
   */
  function ApplyBandGain(m: Math, e: EqualizerModel, index: nat, gainDb: real): (r: Result<EqualizerModel, GainError>)
    requires Aligned(m, e) && index < |e.bands|
    ensures r.Err? <==> gainDb < e.gainMinDb || e.gainMaxDb < gainDb
    ensures r.Err? ==> r.error == OutOfRangeGain(gainDb, e.gainMinDb, e.gainMaxDb)
    ensures r.Ok? ==> Aligned(m, r.value) && r.value == e.(gains := e.gains[index := gainDb], stages := r.value.stages)
    ensures r.Ok? ==> |r.value.stages| == |e.stages|
    ensures r.Ok? ==> forall j :: 0 <= j < |e.stages| && j != index ==> r.value.stages[j] == e.stages[j]
    ensures r.Ok? ==> r.value.stages[index].xh == e.stages[index].xh && r.value.stages[index].yh == e.stages[index].yh
    ensures r.Ok? ==> r.value.stages[index].a == BandDesign(m, e, index, gainDb).a
    ensures r.Ok? ==> r.value.stages[index].b == BandDesign(m, e, index, gainDb).b
  {
    if gainDb < e.gainMinDb || gainDb > e.gainMaxDb then
      Err(OutOfRangeGain(gainDb, e.gainMinDb, e.gainMaxDb))
    else
      Ok(Rederive(m, e.(gains := e.gains[index := gainDb]), index))
  }

  /** Setting the same gain twice leaves the same equalizer as setting it once. */
  lemma ApplyBandGainIdempotent(m: Math, e: EqualizerModel, index: nat, gainDb: real)
    requires Aligned(m, e) && index < |e.bands|
    requires ApplyBandGain(m, e, index, gainDb).Ok?
    ensures ApplyBandGain(m, ApplyBandGain(m, e, index, gainDb).value, index, gainDb) == ApplyBandGain(m, e, index, gainDb)
  {
    var once := ApplyBandGain(m, e, index, gainDb).value;
    var twice := ApplyBandGain(m, once, index, gainDb).value;
    assert BandDesign(m, once, index, gainDb) == BandDesign(m, e, index, gainDb);
    assert once.gains[index := gainDb] == once.gains;
    var t, o := twice.stages[index], once.stages[index];
    assert t.order == 2 == o.order && t.a == o.a && t.b == o.b && t.xh == o.xh && t.yh == o.yh;
    assert twice.stages == once.stages;
  }

  /** The output of a cascade and the stages' next states. */
  datatype Cascaded = Cascaded(output: real, stages: seq<FilterState>)

  /** Feeds `x` through ss[0], its output through ss[1], and so on. */
  function Cascade(ss: seq<FilterState>, x: real): (r: Cascaded)
    requires AllRunnable(ss)
    ensures |r.stages| == |ss| && AllRunnable(r.stages)
    ensures forall i :: 0 <= i < |ss| ==>
      r.stages[i].order == ss[i].order && r.stages[i].a == ss[i].a && r.stages[i].b == ss[i].b
    decreases |ss|
  {
    if ss == [] then Cascaded(x, [])
    else
      var st := Step(ss[0], x);
      var rest := Cascade(ss[1..], st.output);
      Cascaded(rest.output, [st.next] + rest.stages)
  }

  /** `done` stages already processed, followed by a cascade still to run. */
  function Prepend(done: seq<FilterState>, c: Cascaded): Cascaded {
    Cascaded(c.output, done + c.stages)
  }

  /** Running a cascade in two parts: the first part's output feeds the second part. */
  lemma {:induction false} CascadeSplit(ss: seq<FilterState>, i: nat, x: real)
    requires AllRunnable(ss) && i <= |ss|
    ensures Cascade(ss, x) == Prepend(Cascade(ss[..i], x).stages, Cascade(ss[i..], Cascade(ss[..i], x).output))
    decreases i
  {
    if i == 0 {
      assert ss[..0] == [] && ss[0..] == ss;
      assert [] + Cascade(ss, x).stages == Cascade(ss, x).stages;
    } else {
      var st := Step(ss[0], x);
      var tail := ss[1..];
      assert tail[..i - 1] == ss[1..i] && tail[i - 1..] == ss[i..];
      CascadeSplit(tail, i - 1, st.output);
      var head := Cascade(ss[1..i], st.output);
      var rest := Cascade(ss[i..], head.output);
      assert Cascade(tail, st.output) == Cascaded(rest.output, head.stages + rest.stages);
      assert ss[..i][0] == ss[0] && ss[..i][1..] == ss[1..i];
      assert Cascade(ss[..i], x) == Cascaded(head.output, [st.next] + head.stages);
      Associative([st.next], head.stages, rest.stages);
    }
  }

  lemma Associative(p: seq<FilterState>, q: seq<FilterState>, r: seq<FilterState>)
    ensures p + (q + r) == (p + q) + r
  {
  }

  /** Replacing the first element after a prefix moves it into the prefix. */
  lemma SplicePoint(done: seq<FilterState>, rest: seq<FilterState>, s: FilterState)
    requires rest != []
    ensures (done + rest)[|done|] == rest[0]
    ensures (done + rest)[|done| := s] == (done + [s]) + rest[1..]
  {
  }

  /** One more stage of a partly run cascade: stage i consumes the running sample. */
  lemma CascadeAdvance(ss: seq<FilterState>, done: seq<FilterState>, i: nat, x: real, y: real)
    requires AllRunnable(ss) && i < |ss|
    requires Cascade(ss, x) == Prepend(done, Cascade(ss[i..], y))
    ensures Cascade(ss, x) == Prepend(done + [Step(ss[i], y).next], Cascade(ss[i + 1..], Step(ss[i], y).output))
  {
    var t := ss[i..];
    assert t[0] == ss[i] && t[1..] == ss[i + 1..];
    var st := Step(ss[i], y);
    var rest := Cascade(ss[i + 1..], st.output);
    assert Cascade(t, y) == Cascaded(rest.output, [st.next] + rest.stages);
    Associative(done, [st.next], rest.stages);
  }

  /** Stage i advances exactly once, fed by the output of stages 0 .. i-1. */
  lemma CascadeStage(ss: seq<FilterState>, i: nat, x: real)
    requires AllRunnable(ss) && i < |ss|
    ensures Cascade(ss, x).stages[i] == Step(ss[i], Cascade(ss[..i], x).output).next
  {
    CascadeSplit(ss, i, x);
    assert ss[i..][0] == ss[i];
  }

  /** Transparent stages pass the sample through and stay transparent. */
  lemma {:induction false} TransparentCascade(ss: seq<FilterState>, x: real)
    requires forall i :: 0 <= i < |ss| ==> ss[i].Transparent()
    ensures AllRunnable(ss)
    ensures Cascade(ss, x).output == x
    ensures forall i :: 0 <= i < |ss| ==> Cascade(ss, x).stages[i].Transparent()
    decreases |ss|
  {
    if ss != [] {
      TransparentStep(ss[0], x);
      TransparentCascade(ss[1..], x);
      var r := Cascade(ss, x);
      forall i | 0 <= i < |ss|
        ensures r.stages[i].Transparent()
      {
        if i > 0 {
          assert r.stages[i] == Cascade(ss[1..], x).stages[i - 1];
        }
      }
    }
  }

  /** The output of one equalizer step and the equalizer after it. */
  datatype Processed = Processed(output: real, next: EqualizerModel)

  /** `process`: the cascade in band order; gains and configuration do not change. */
  function ProcessSample(m: Math, e: EqualizerModel, x: real): (r: Processed)
    requires Aligned(m, e)
    ensures Aligned(m, r.next) && r.next == e.(stages := r.next.stages) && |r.next.stages| == |e.stages|
    ensures forall i :: 0 <= i < |e.stages| ==> r.next.stages[i].a == e.stages[i].a && r.next.stages[i].b == e.stages[i].b
  {
    var c := Cascade(e.stages, x);
    Processed(c.output, e.(stages := c.stages))
  }

  /** Processing a stream of samples, one `process` call per sample, in order. */
  function ProcessStream(m: Math, e: EqualizerModel, xs: seq<real>): (ys: seq<real>)
    requires Aligned(m, e)
    ensures |ys| == |xs|
    decreases |xs|
  {
    if xs == [] then []
    else
      var p := ProcessSample(m, e, xs[0]);
      [p.output] + ProcessStream(m, p.next, xs[1..])
  }

  /** With every section transparent (as after construction), the equalizer passes every stream through. */
  lemma {:induction false} TransparentStream(m: Math, e: EqualizerModel, xs: seq<real>)
    requires Aligned(m, e) && forall i :: 0 <= i < |e.stages| ==> e.stages[i].Transparent()
    ensures ProcessStream(m, e, xs) == xs
    decreases |xs|
  {
    if xs != [] {
      var p := ProcessSample(m, e, xs[0]);
      TransparentCascade(e.stages, xs[0]);
      assert p.output == xs[0] && p.next.stages == Cascade(e.stages, xs[0]).stages;
      TransparentStream(m, p.next, xs[1..]);
      assert ProcessStream(m, e, xs) == [xs[0]] + ProcessStream(m, p.next, xs[1..]);
      assert [xs[0]] + xs[1..] == xs;
    }
  }

  /** A freshly built equalizer, all bands at 0 dB, returns every stream unchanged, for any band count. */
  lemma FreshEqualizerIsIdentity(m: Math, sampleRate: nat, bands: seq<real>, gainMaxDb: real, gainMinDb: real, qFactor: real, xs: seq<real>)
    requires ValidMath(m) && BandsDesignable(m, sampleRate, bands, qFactor)
    ensures ProcessStream(m, Initial(m, sampleRate, bands, gainMaxDb, gainMinDb, qFactor), xs) == xs
  {
    TransparentStream(m, Initial(m, sampleRate, bands, gainMaxDb, gainMinDb, qFactor), xs);
  }

  /** Two sections share neither the filter object nor a delay-line array. */
  ghost predicate Apart(f: IirFilter, g: IirFilter) {
    f != g &&
    f.inputHistory != g.inputHistory && f.inputHistory != g.outputHistory &&
    f.outputHistory != g.inputHistory && f.outputHistory != g.outputHistory
  }

  /** Distinct sections own disjoint objects. */
  ghost predicate Separated(fs: seq<IirFilter>) {
    forall i, j :: 0 <= i < |fs| && 0 <= j < |fs| && i != j ==> Apart(fs[i], fs[j])
  }

  /** The quality factor of the ten-band preset, 2*sqrt(2) (about 2.83, one octave per band). */
  function PresetQ(m: Math): real {
    2.0 * m.sqrt(2.0)
  }

  /** The band centres of the ten-band preset, in Hz. */
  const TenBands: seq<real> := [29.0, 59.0, 119.0, 237.0, 474.0, 947.0, 1889.0, 3770.0, 7523.0, 15011.0]

  class Equalizer {
    const math: Math
    const sampleRate: nat
    const bands: seq<real>
    var gains: seq<real>
    const gainMaxDb: real
    const gainMinDb: real
    const qFactor: real
    const filters: seq<IirFilter>

    /** The delay-line arrays of all sections. */
    ghost function Histories(): set<object> {
      (set f | f in filters :: f.inputHistory) + (set f | f in filters :: f.outputHistory)
    }

    ghost function States(): (ss: seq<FilterState>)
      reads filters, Histories()
      ensures |ss| == |filters| && forall i :: 0 <= i < |filters| ==> ss[i] == filters[i].State()
    {
      seq(|filters|, i requires 0 <= i < |filters| reads filters, Histories() => filters[i].State())
    }

    ghost function Model(): EqualizerModel
      reads this, filters, Histories()
    {
      EqualizerModel(sampleRate, bands, gains, gainMaxDb, gainMinDb, qFactor, States())
    }

    /** Every section is a well-formed filter and no two share an object. */
    ghost predicate Owned()
      reads this, filters
    {
      (forall i :: 0 <= i < |filters| ==> filters[i].Valid()) && Separated(filters)
    }

    ghost predicate Valid()
      reads this, filters, Histories()
    {
      Owned() && Aligned(math, Model())
    }

    constructor (m: Math, sampleRate: nat, bands: seq<real>, gainMaxDb: real, gainMinDb: real, qFactor: real)
      requires ValidMath(m) && BandsDesignable(m, sampleRate, bands, qFactor)
      ensures Valid() && math == m && this.bands == bands
      ensures Model() == Initial(m, sampleRate, bands, gainMaxDb, gainMinDb, qFactor)
      ensures forall i :: 0 <= i < |filters| ==> fresh(filters[i]) && fresh(filters[i].inputHistory) && fresh(filters[i].outputHistory)
    {
      math := m;
      this.sampleRate := sampleRate;
      this.bands := bands;
      gains := Zeros(|bands|);
      this.gainMaxDb := gainMaxDb;
      this.gainMinDb := gainMinDb;
      this.qFactor := qFactor;
      var fs := GenChainFilters(m, sampleRate, bands, qFactor);
      filters := fs;
      new;
      assert States() == ChainStages(m, sampleRate, bands, qFactor);
    }

    /** Builds one 0 dB constant-Q section per band, in band order, each a new filter. */
    static method GenChainFilters(m: Math, sampleRate: nat, bands: seq<real>, qFactor: real) returns (fs: seq<IirFilter>)
      requires ValidMath(m) && BandsDesignable(m, sampleRate, bands, qFactor)
      ensures |fs| == |bands|
      ensures forall i :: 0 <= i < |fs| ==> fresh(fs[i]) && fresh(fs[i].inputHistory) && fresh(fs[i].outputHistory)
      ensures forall i :: 0 <= i < |fs| ==> fs[i].Valid() && fs[i].order == 2
      ensures Separated(fs)
      ensures forall i :: 0 <= i < |fs| ==> fs[i].State() == ChainStages(m, sampleRate, bands, qFactor)[i]
    {
      fs := Sections(ChainStages(m, sampleRate, bands, qFactor));
    }

    /** One new filter per designed section, in order. */
    static method Sections(designs: seq<FilterState>) returns (fs: seq<IirFilter>)
      requires forall i :: 0 <= i < |designs| ==> FreshBiquad(designs[i])
      ensures |fs| == |designs|
      ensures forall i :: 0 <= i < |fs| ==> fresh(fs[i]) && fresh(fs[i].inputHistory) && fresh(fs[i].outputHistory)
      ensures forall i :: 0 <= i < |fs| ==> fs[i].Valid() && fs[i].order == 2
      ensures Separated(fs)
      ensures forall i :: 0 <= i < |fs| ==> fs[i].State() == designs[i]
    {
      fs := [];
      for i := 0 to |designs|
        invariant |fs| == i
        invariant forall j :: 0 <= j < i ==> fresh(fs[j]) && fresh(fs[j].inputHistory) && fresh(fs[j].outputHistory)
        invariant forall j :: 0 <= j < i ==> fs[j].Valid() && fs[j].order == 2
        invariant Separated(fs)
        invariant forall j :: 0 <= j < i ==> fs[j].State() == designs[j]
      {
        var f := NewSection(designs[i]);
        assert forall j :: 0 <= j < i ==> Apart(fs[j], f) && Apart(f, fs[j]);
        fs := fs + [f];
      }
    }

    /** `IIRFilter::new(2)` loaded with a designed section's coefficients. */
    static method NewSection(design: FilterState) returns (f: IirFilter)
      requires FreshBiquad(design)
      ensures fresh(f) && fresh(f.inputHistory) && fresh(f.outputHistory)
      ensures f.Valid() && f.order == 2 && f.State() == design
    {
      f := new IirFilter(2);
      var _ := f.SetCoefficients(design.a, design.b);
      assert design.xh == Zeros(2) && design.yh == Zeros(2);
    }

    function GetBandsFreq(index: nat): (freq: real)
      reads this
      requires index < |bands|
      ensures freq == bands[index]
    {
      bands[index]
    }

    function GetBandGain(index: nat): (gainDb: real)
      reads this, filters, Histories()
      requires Valid() && index < |bands|
      ensures gainDb == Model().gains[index]
    {
      gains[index]
    }

    /** Re-derives band `index` from its stored gain and swaps the coefficients into its section. */
    method ChangeFilter(index: nat)
      requires Valid() && index < |bands|
      modifies filters[index]
      ensures Valid() && Model() == Rederive(math, old(Model()), index)
    {
      var tmp := MakePeakEqConstantQ(math, bands[index], sampleRate, gains[index], Some(qFactor));
      var _ := filters[index].SetCoefficients(tmp.a, tmp.b);
      assert States() == Rederive(math, old(Model()), index).stages;
    }

    method SetBandGain(index: nat, gainDb: real) returns (r: Outcome<GainError>)
      requires Valid() && index < |bands|
      modifies this, filters[index]
      ensures Valid()
      ensures ApplyBandGain(math, old(Model()), index, gainDb).Ok? ==>
        r == Pass && Model() == ApplyBandGain(math, old(Model()), index, gainDb).value
      ensures ApplyBandGain(math, old(Model()), index, gainDb).Err? ==>
        r == Fail(ApplyBandGain(math, old(Model()), index, gainDb).error) && Model() == old(Model())
      ensures r == if gainDb < gainMinDb || gainMaxDb < gainDb then Fail(OutOfRangeGain(gainDb, gainMinDb, gainMaxDb)) else Pass
      ensures gains == if r.Pass? then old(gains)[index := gainDb] else old(gains)
    {
      ghost var e := Model();
      if gainDb < gainMinDb || gainDb > gainMaxDb {
        assert ApplyBandGain(math, e, index, gainDb) == Err(OutOfRangeGain(gainDb, gainMinDb, gainMaxDb));
        return Fail(OutOfRangeGain(gainDb, gainMinDb, gainMaxDb));
      }
      ghost var updated := e.(gains := e.gains[index := gainDb]);
      assert ApplyBandGain(math, e, index, gainDb) == Ok(Rederive(math, updated, index));
      gains := gains[index := gainDb];
      assert Model() == updated;
      ChangeFilter(index);
      r := Pass;
    }

    /** The ten-band preset: 12 dB maximum, -24 dB minimum, Q = 2*sqrt(2). */
    static method MakeEqualizer10Band(m: Math, sampleRate: nat) returns (eq: Equalizer)
      requires ValidMath(m) && BandsDesignable(m, sampleRate, TenBands, PresetQ(m))
      ensures fresh(eq) && eq.Valid() && eq.math == m
      ensures eq.bands == TenBands && eq.Model() == Initial(m, sampleRate, TenBands, 12.0, -24.0, PresetQ(m))
      ensures forall i :: 0 <= i < |eq.filters| ==>
        fresh(eq.filters[i]) && fresh(eq.filters[i].inputHistory) && fresh(eq.filters[i].outputHistory)
    {
      eq := new Equalizer(m, sampleRate, TenBands, 12.0, -24.0, PresetQ(m));
    }

    /** Feeds the sample through every section in band order and returns the last output. */
    method Process(sample: real) returns (out: real)
      requires Valid()
      modifies Histories()
      ensures Valid()
      ensures Processed(out, Model()) == ProcessSample(math, old(Model()), sample)
    {
      out := RunChain(sample);
    }

    /** The loop of `process`: section i gets the output of section i-1. */
    method RunChain(sample: real) returns (out: real)
      requires Owned() && AllRunnable(States())
      modifies Histories()
      ensures Cascaded(out, States()) == Cascade(old(States()), sample)
    {
      ghost var pre := States();
      ghost var done: seq<FilterState> := [];
      var sampleT := sample;
      for i := 0 to |filters|
        invariant |done| == i && Owned()
        invariant States() == done + pre[i..]
        invariant Cascade(pre, sample) == Prepend(done, Cascade(pre[i..], sampleT))
      {
        CascadeAdvance(pre, done, i, sample, sampleT);
        ghost var st := Step(pre[i], sampleT);
        SplicePoint(done, pre[i..], st.next);
        assert pre[i..][1..] == pre[i + 1..];
        sampleT := StepSection(i, sampleT);
        done := done + [st.next];
      }
      out := sampleT;
      assert pre[|filters|..] == [] && done + [] == done;
    }

    /** Section i processes one sample; every other section is left as it was. */
    method StepSection(i: nat, sample: real) returns (out: real)
      requires Owned() && i < |filters| && States()[i].Runnable()
      modifies filters[i].inputHistory, filters[i].outputHistory
      ensures Owned()
      ensures out == Step(old(States())[i], sample).output
      ensures States() == old(States())[i := Step(old(States())[i], sample).next]
    {
      var f := filters[i];
      out := f.Process(sample);
      forall j | 0 <= j < |filters| && j != i
        ensures filters[j].State() == old(filters[j].State())
      {
        assert Apart(filters[j], f);
      }
    }
  }

  /** Band 0 cut by 10 dB, band 9 raised to its 12 dB ceiling, then 13 dB refused on band 9. */
  method AdjustPreset(eq: Equalizer) returns (cut: Outcome<GainError>, boost: Outcome<GainError>, over: Outcome<GainError>)
    requires eq.Valid() && |eq.bands| == 10 && eq.gainMinDb == -24.0 && eq.gainMaxDb == 12.0
    modifies eq, eq.filters[0], eq.filters[9]
    ensures eq.Valid()
    ensures cut == Pass && boost == Pass && over == Fail(OutOfRangeGain(13.0, -24.0, 12.0))
    ensures eq.gains[0] == -10.0 && eq.gains[9] == 12.0
  {
    cut := eq.SetBandGain(0, -10.0);
    assert |eq.gains| == 10 && eq.gains[0] == -10.0;
    boost := eq.SetBandGain(9, 12.0);
    assert eq.gains[0] == -10.0 && eq.gains[9] == 12.0;
    over := eq.SetBandGain(9, 13.0);
  }

  /**
   * The ten-band preset in use: build it, adjust two bands (one refused
   * request included), read the gains back and filter one sample.
   */
  method TenBandSession(m: Math, sampleRate: nat, sample: real)
    returns (cut: Outcome<GainError>, boost: Outcome<GainError>, over: Outcome<GainError>, gain0: real, gain9: real, out: real)
    requires ValidMath(m) && BandsDesignable(m, sampleRate, TenBands, PresetQ(m))
    ensures cut == Pass && boost == Pass && over == Fail(OutOfRangeGain(13.0, -24.0, 12.0))
    ensures gain0 == -10.0 && gain9 == 12.0
  {
    var eq := Equalizer.MakeEqualizer10Band(m, sampleRate);
    cut, boost, over := AdjustPreset(eq);
    gain0 := eq.GetBandGain(0);
    gain9 := eq.GetBandGain(9);
    out := eq.Process(sample);
  }
}
