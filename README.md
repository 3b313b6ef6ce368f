# Biquad filters and a ten-band graphic equalizer, in Dafny

This project models the signal-processing core of a small Rust audio library:

- **the IIR filter engine** (`src/iir_filter.rs`). An `IIRFilter` of order *k* holds feedback coefficients `a`, feedforward coefficients `b` and two delay lines: the last *k* inputs and the last *k* outputs. `set_coefficients` replaces `a` and `b` after a length check. `process` computes one output sample and shifts both delay lines in place.
- **the filter designers** (`src/butterworth_filter.rs`). These are the Audio-EQ-Cookbook low-pass, high-pass, band-pass, all-pass, peak, low-shelf, high-shelf and notch biquads, plus a constant-Q peaking section. Each returns a fresh order-2 filter.
- **the equalizer** (`src/equalizer.rs`). It is a chain of constant-Q peaking sections, one per band centre, each with its own gain in dB within fixed bounds. A sample is filtered by every section in band order.

Samples and coefficients are `real`. The transcendental routines (`sin`, `cos`, `tan`, `sqrt`, `sinh`, `log`, `pow`, π, *e*) form a `Math` value passed to every designer. `ValidMath` assumes only what the proofs use: `pow(10, x) > 0`, `pow(10, 0) == 1`, `pow(x, 2) == x * x`, `sqrt(x) > 0` for `x > 0` and `sinh(0) == 0`.

Each stateful Rust type is a Dafny class proved against a pure specification:

| class | abstract state | specification functions |
|---|---|---|
| `Iir.IirFilter` | `State(): FilterState` | `Fresh`, `Assign`, `Step` |
| `Eq.Equalizer` | `Model(): EqualizerModel` | `Initial`, `Rederive`, `ApplyBandGain`, `ProcessSample` |

The designers are pure functions. Each returns the `FilterState` produced by `IIRFilter::new(2)` followed by `set_coefficients`. The lemmas state what the designs mean:

- gains at DC and at the Nyquist frequency
- the shared feedback polynomial
- the shelf mirror symmetry
- the constant-Q boost/cut inversion
- that an unadjusted equalizer passes every signal through unchanged

Modules: `Wrappers` (`wrappers.dfy`), `Iir` (`iir_filter.dfy`), `Designers` (`butterworth_filter.dfy`), `Eq` (`equalizer.dfy`).

## Model

| member | source | states |
|---|---|---|
| Iir.Fresh | src/iir_filter.rs:111-127 | A new filter of order k is well formed, has identity coefficients (a = b = [1, 0, …, 0]) and two delay lines of k zeros |
| Iir.Assign | src/iir_filter.rs:148-170 | Succeeds exactly when \|a\| is k or k+1 and \|b\| is k+1. The feedback length is checked first, so a bad `a` reports the feedback error even when `b` is also bad. On success `b` is stored as given, and `a` is stored as given or behind an implicit leading 1.0. The order and both delay lines are unchanged |
| Iir.Step | src/iir_filter.rs:184-204 | Processing a sample never changes the order or either coefficient vector, and the filter stays runnable |
| Iir.Run | src/iir_filter.rs:184-204 | Filtering a stream gives one output per input and leaves the coefficients and order unchanged |
| Iir.FeedSum | src/iir_filter.rs:188-191 | The history part of the difference equation, summed over the first n taps, is zero while those taps of both delay lines are silent |
| Iir.FeedSumVanishes | src/iir_filter.rs:188-191 | The history sum Σ(b[i]·x[n-i] − a[i]·y[n-i]) is zero whenever every feedforward term cancels its feedback term |
| Iir.IdentityStep | src/iir_filter.rs:184-204 | A filter with identity coefficients outputs its input unchanged and keeps identity coefficients |
| Iir.IdentityRun | src/iir_filter.rs:184-204 | A filter with identity coefficients passes any stream through unchanged, whatever its history |
| Iir.FreshFilterIsIdentity | src/iir_filter.rs:111-127 | A newly created filter of any order ≥ 1 passes every stream through unchanged |
| Iir.QuietStep | src/iir_filter.rs:184-204 | A filter with all-zero delay lines maps input 0 to output 0 and stays quiet |
| Iir.SilenceRun | src/iir_filter.rs:184-204 | A quiet filter maps a stream of n zeros to n zeros, whatever its coefficients |
| Iir.TransparentStep | src/iir_filter.rs:184-204 | A runnable filter whose numerator equals its denominator and whose two delay lines agree outputs its input and keeps both properties |
| Iir.EngineTestCases | src/iir_filter.rs:212-249 | The source's unit tests: a new order-2 filter maps 0 to 0; both coefficient assignments in the tests are accepted, and each resulting filter maps 0 to 0 |
| Iir.IirFilter.constructor | src/iir_filter.rs:111-127 | The new object's state is `Fresh(order)`, with two newly allocated history arrays |
| Iir.IirFilter.SetCoefficients | src/iir_filter.rs:148-170 | Returns Pass and takes the state given by `Assign` when `Assign` succeeds. Otherwise it returns that error and leaves the state unchanged |
| Iir.IirFilter.Process | src/iir_filter.rs:184-204 | The returned sample and the new state are exactly `Step(old state, sample)` |
| Iir.ShiftRight | src/iir_filter.rs:197-198 | Shifts a delay line right by one in place: the old prefix moves to positions 1.. and the first entry is kept |
| Designers.DefaultQ | src/butterworth_filter.rs:129-133 | The default Q is the positive value with Q·√2 = 1 (1/√2) |
| Designers.ResolveQ | src/butterworth_filter.rs:129-133 | A supplied Q is used as given, and a missing one becomes `DefaultQ` |
| Designers.Biquad | src/butterworth_filter.rs:147-149 | `new(2)` then `set_coefficients` gives a fresh order-2 filter with zero histories and b as given. a is taken as given when it has 3 entries and behind 1.0 when it has 2 |
| Designers.CookbookFeedback | src/butterworth_filter.rs:142-144 | The cookbook feedback vector has a1 = −2·cos w0, a0 + a2 = 2 and a0 − a2 = 2α |
| Designers.LowpassVectors | src/butterworth_filter.rs:140-149 | The low-pass numerator is proportional to [1, 2, 1]; the gain at DC is 1 and at Nyquist is 0 |
| Designers.HighpassVectors | src/butterworth_filter.rs:174-183 | The high-pass numerator is proportional to [1, −2, 1]; the gain at DC is 0 and at Nyquist is 1 |
| Designers.BandpassVectors | src/butterworth_filter.rs:208-218 | The band-pass numerator is [sin w0/2, 0, −sin w0/2]; it is zero at both DC and Nyquist |
| Designers.AllpassVectors | src/butterworth_filter.rs:243-249 | The all-pass feedback is the feedforward reversed, so the gain at DC and at Nyquist is 1 |
| Designers.PeakVectors | src/butterworth_filter.rs:275-284 | The peak numerator and denominator share their middle coefficient a1 = b1 = −2·cos w0, and a0 + a2 = b0 + b2 = 2. b0 − b2 = A²·(a0 − a2), so the gain at w0 is A², and A = 1 gives a flat filter |
| Designers.PeakGainAtCenter | src/butterworth_filter.rs:275-280 | The peak's numerator and denominator differ at w0 by the factor A², the gain 10^(dB/20) |
| Designers.NotchVectors | src/butterworth_filter.rs:475-484 | The notch numerator is [1, −2 cos w0, 1], sharing the feedback's middle term; the gain at DC and at Nyquist is 1 |
| Designers.LowShelfVectors | src/butterworth_filter.rs:392-408 | Both low-shelf vectors have three entries. The gain facts are in LowShelfUnity and LowShelfDcGain |
| Designers.LowShelfUnity | src/butterworth_filter.rs:392-408 | The low shelf has unit gain at Nyquist and is flat when A = 1 |
| Designers.LowShelfDcGain | src/butterworth_filter.rs:392-408 | The low shelf's gain at DC is A² = 10^(dB/20) |
| Designers.HighShelfVectors | src/butterworth_filter.rs:432-448 | Both high-shelf vectors have three entries. The gain facts are in HighShelfUnity and HighShelfNyquistGain |
| Designers.HighShelfMirrorsLowShelf | src/butterworth_filter.rs:432-448 | The high shelf is the low shelf at cos(π − w0) with z replaced by −z: every coefficient matches |
| Designers.HighShelfUnity | src/butterworth_filter.rs:432-448 | The high shelf has unit gain at DC and is flat when A = 1 |
| Designers.HighShelfNyquistGain | src/butterworth_filter.rs:432-448 | The high shelf's gain at Nyquist is A² |
| Designers.MakeLowpass | src/butterworth_filter.rs:128-152 | Returns a fresh biquad with a numerator proportional to [1, 2, 1], unit gain at DC and zero gain at Nyquist |
| Designers.MakeHighpass | src/butterworth_filter.rs:162-186 | Returns a fresh biquad with a numerator proportional to [1, −2, 1], zero gain at DC and unit gain at Nyquist |
| Designers.MakeBandpass | src/butterworth_filter.rs:196-221 | Returns a fresh biquad with b1 = 0, b2 = −b0 and 2·b0 = Q·(a0 − a2), the constant-skirt gain Q; it is zero at DC and at Nyquist |
| Designers.MakeAllpass | src/butterworth_filter.rs:231-252 | Returns a fresh biquad whose feedback is its feedforward reversed, so it has unit gain at DC and at Nyquist |
| Designers.SharedFeedback | src/butterworth_filter.rs:128-252 | Low-pass, high-pass, band-pass and all-pass with the same parameters share one cookbook feedback vector |
| Designers.BigA | src/butterworth_filter.rs:273 | A = 10^(dB/40) is positive, and it is 1 at 0 dB |
| Designers.MakePeak | src/butterworth_filter.rs:262-288 | Returns a fresh biquad with a1 = b1 = −2·cos w0, a0 + a2 = b0 + b2 = 2, and a flat response at 0 dB |
| Designers.MakeLowShelf | src/butterworth_filter.rs:381-411 | Returns a fresh biquad with unit gain at Nyquist that is flat at 0 dB |
| Designers.MakeHighShelf | src/butterworth_filter.rs:421-451 | Returns a fresh biquad with unit gain at DC that is flat at 0 dB |
| Designers.NotchAlpha | src/butterworth_filter.rs:473 | The bandwidth-form alpha divides only by sin w0. Q scales the argument of sinh, so Q = 0 gives alpha = 0 |
| Designers.MakeNotch | src/butterworth_filter.rs:462-487 | Needs only sin w0 ≠ 0 (Q is never a divisor). Returns a fresh biquad with b0 = b2 = 1, a1 = b1 = −2·cos w0 and a0 + a2 = 2; it has unit gain at DC and at Nyquist. With Q = 0 numerator and denominator are equal |
| Designers.InvertCut | src/butterworth_filter.rs:332-335 | The inverted linear gain is at least 1. A cut (v < 1) becomes its reciprocal, and anything else is kept |
| Designers.InvertCutReciprocal | src/butterworth_filter.rs:330-335 | Reciprocal gains (a cut and a boost of the same size in dB) invert to the same v0 |
| Designers.ConstantQGain | src/butterworth_filter.rs:330-335 | v0 is at least 1, and it is exactly 1 at 0 dB |
| Designers.ConstantQDen | src/butterworth_filter.rs:347-363 | Each constant-Q denominator 1 + (g/Q)k + k² is at least 1 for k ≥ 0, so no division is by zero |
| Designers.ConstantQVectors | src/butterworth_filter.rs:343-363 | Both branches give a1 = b1 and unit gain at DC and at Nyquist. A boost has b0 ≥ 1, a cut has b0 ≤ 1, and v0 = 1 gives a flat section |
| Designers.ConstantQShape | src/butterworth_filter.rs:343-363 | The boost denominator d1 is at most the cut denominator dv, so the boost's b0 = dv/d1 is at least 1 and the cut's b0 = d1/dv at most 1 |
| Designers.ConstantQBalance | src/butterworth_filter.rs:347-363 | In each branch the numerator b and the denominator [1, a1, a2] have the same sum at DC and at Nyquist (unit gain there) |
| Designers.ConstantQClosedForm | src/butterworth_filter.rs:347-363 | The boost branch is written over d1 = 1 + k/Q + k² and the cut branch over dv = 1 + v0·k/Q + k², with the same three numerators |
| Designers.CutUndoesBoost | src/butterworth_filter.rs:347-363 | For one v0, the cut section's numerator is the boost section's denominator and vice versa, up to the scale factors dv and d1 |
| Designers.MakePeakEqConstantQ | src/butterworth_filter.rs:309-371 | Returns a fresh biquad with an implicit a0 = 1 and a1 = b1, and unit gain at DC and at Nyquist. A boost has b0 ≥ 1, a cut or 0 dB has b0 ≤ 1, and 0 dB is flat |
| Designers.ConstantQCutUndoesBoost | src/butterworth_filter.rs:309-371 | The −g dB section is the +g dB section with numerator and denominator exchanged: a cut exactly undoes the boost of the same size |
| Eq.ChainStages | src/equalizer.rs:136-143 | One section per band, in band order. Section i is the 0 dB constant-Q design at bands[i] with the equalizer's Q |
| Eq.Initial | src/equalizer.rs:118-134 | A new equalizer keeps its rate, bands, bounds and Q, has every gain at 0 dB, and has every section transparent |
| Eq.Rederive | src/equalizer.rs:145-159 | Re-deriving band i replaces only section i's coefficients with the design for the band's stored gain. Every other section, all gains and section i's delay lines are unchanged |
| Eq.ApplyBandGain | src/equalizer.rs:171-181 | Fails with OutOfRangeGain exactly when the gain lies outside [min, max], changing nothing. Otherwise it stores the gain and swaps in the new design for that band only, keeping the delay lines |
| Eq.ApplyBandGainIdempotent | src/equalizer.rs:171-181 | Setting the same gain on a band twice leaves the same equalizer as setting it once, delay lines included |
| Eq.Cascade | src/equalizer.rs:217-226 | Running a sample through the chain keeps the number of sections and every section's order and coefficients |
| Eq.CascadeSplit | src/equalizer.rs:219-224 | The chain can be cut at any point: the tail is fed the head's output, and the new sections are the head's followed by the tail's |
| Eq.CascadeStage | src/equalizer.rs:219-224 | Section i is advanced by exactly one step, on the output of sections 0..i−1 |
| Eq.CascadeAdvance | src/equalizer.rs:219-224 | One loop iteration: the prefix already run grows by section i's step, fed by the running sample |
| Eq.TransparentCascade | src/equalizer.rs:217-226 | A chain of transparent sections outputs its input and stays transparent |
| Eq.ProcessSample | src/equalizer.rs:217-226 | Processing changes only the sections' delay lines: gains, bands, bounds, Q, the number of sections and every section's coefficients stay as they were, and the equalizer stays consistent |
| Eq.ProcessStream | src/equalizer.rs:217-226 | Processing a stream gives one output per input sample |
| Eq.TransparentStream | src/equalizer.rs:217-226 | An equalizer whose sections are all transparent passes any stream through unchanged |
| Eq.FreshEqualizerIsIdentity | src/equalizer.rs:118-134 | A newly built equalizer (all gains 0 dB) passes every stream through unchanged |
| Eq.Equalizer.constructor | src/equalizer.rs:118-134 | The new equalizer is consistent, keeps its band list, and its model is `Initial(...)` of its arguments. Every section and both its delay-line arrays are newly allocated, so the equalizer exclusively owns them |
| Eq.Equalizer.GenChainFilters | src/equalizer.rs:136-143 | Builds one fresh, separately owned order-2 filter per band, whose state is that band's 0 dB design |
| Eq.Equalizer.Sections | src/equalizer.rs:136-143 | Builds one fresh filter per design, in order, with no two filters sharing an object or a history array |
| Eq.Equalizer.NewSection | src/butterworth_filter.rs:365-368 | A newly allocated order-2 filter whose state is the given fresh biquad |
| Eq.Equalizer.GetBandsFreq | src/equalizer.rs:161-164 | Returns the centre frequency of band `index` |
| Eq.Equalizer.GetBandGain | src/equalizer.rs:166-169 | Returns the stored gain of band `index` |
| Eq.Equalizer.ChangeFilter | src/equalizer.rs:145-159 | The new model is `Rederive(old model, index)`, and the object stays consistent |
| Eq.Equalizer.SetBandGain | src/equalizer.rs:171-181 | Returns Pass with the new model given by `ApplyBandGain` when that succeeds. Otherwise it returns its OutOfRangeGain error and leaves the equalizer unchanged |
| Eq.Equalizer.MakeEqualizer10Band | src/equalizer.rs:183-213 | The preset is a newly allocated equalizer on the ten GStreamer band centres, with bounds [−24, 12] dB and Q = 2√2, all at 0 dB. Its sections and delay lines are newly allocated too |
| Eq.AdjustPreset | src/equalizer.rs:171-181 | On the preset, −10 dB on band 0 and 12 dB (the inclusive ceiling) on band 9 are accepted and stored, and 13 dB is refused with OutOfRangeGain(13, −24, 12) |
| Eq.TenBandSession | src/equalizer.rs:183-213 | A caller can build the preset, adjust it and filter with it: both adjustments pass, 13 dB is refused, and the gains read back are −10 and 12 dB |
| Eq.Equalizer.Process | src/equalizer.rs:217-226 | The output and the new model are exactly `ProcessSample(old model, sample)` |
| Eq.Equalizer.RunChain | src/equalizer.rs:219-224 | The loop over the filters returns `Cascade(old states, sample)`: each filter steps once, in order, on the previous filter's output |
| Eq.Equalizer.StepSection | src/equalizer.rs:220-222 | Steps filter i once and changes no other filter's state |

## Left out

- Floating point: every value is an exact `real`, with no rounding, NaN or infinity. Where the Rust code would divide by zero and produce inf/NaN, the model has a precondition instead:
  - `Step` needs a[0] ≠ 0.
  - The cookbook designers other than the notch need a sample rate > 0 and Q ≠ 0 (alpha = sin w0 / 2Q).
  - The constant-Q design needs Q > 0 and tan(π·f/fs) ≥ 0 (a centre below Nyquist), which keeps both denominators ≥ 1.
  - `MakeNotch` needs sin(w0) ≠ 0.
- The exact regression coefficient vectors in the designer unit tests are not modelled. They depend on IEEE-754 `sin`/`cos`/`powf` results, which the `Math` parameter leaves abstract.
- Iir.IirFilter.Process requires order ≥ 1. For order 0 the Rust code computes `len - 1` on a `usize` of 0 when shifting the delay lines and panics; that panic is not modelled.
- Integer widths: the sample rate (`u32`) and the orders and indices (`usize`) are unbounded `nat`s. The model never needs the values they wrap to.
- Index checks that panic (`assert!(index < len)`) are preconditions, not modelled panics.
- Error values: `set_coefficients`' error strings are the variants `FeedbackLength`/`FeedforwardLength`. The strings are not formatted, and the feedforward message reports the feedback length; text is not modelled. `set_band_gain`'s formatted message becomes `OutOfRangeGain(gain, min, max)`.
- The `ProcessingBlock` trait is not modelled as an interface. Each type's `process` is a method of its class.
- `src/main.rs` and `src/show_response.rs` are not part of this model. They do I/O, plotting and frequency-response display outside the core.
- Eq.Equalizer.GenChainFilters returns the new filters rather than pushing them onto a half-built equalizer: a Dafny constructor builds its fields before the object exists. The filters and their order are the same.
- Designers.MakePeak: the A² gain at the centre frequency is proved on the scalar coefficients (`PeakVectors`, `PeakGainAtCenter`), not restated in terms of `Math`.
- Designers.MakeLowShelf: the A² gain at DC is proved on the vectors (`LowShelfDcGain`), not on the designed filter.
- Designers.MakeHighShelf: the A² gain at Nyquist is proved on the vectors (`HighShelfNyquistGain`), not on the designed filter.
- Designers.ConstantQCutUndoesBoost: needs pow(10, −g/20)·pow(10, g/20) = 1 as a precondition, an exponent law that `ValidMath` does not assume.
- Eq.ProcessStream: only the output length is stated on the function itself. Its content for an unadjusted equalizer is `TransparentStream` / `FreshEqualizerIsIdentity`.
- The equalizer accepts any list of band centres below the Nyquist frequency (more exactly, with tan(π·f/fs) ≥ 0), including an empty one: the Rust constructor performs no validation, and the model follows the code. A centre between the Nyquist frequency and the sample rate (for example the 15011 Hz band of the preset at 22050 Hz) is excluded by that precondition, although the Rust code would build a section for it.
