/** The vibraphone: five resonant modes per bar, each a Karplus-Strong line
    of its own seeded with fresh noise, whose damped average is modulated by
    the fan vibrato. The modes are added into one buffer, each with a weight
    set by the strike position and the mallet size, and the buffer is
    normalised by its peak. */
module Vibraphone {
  import opened Signal
  import opened Waveguide
  import opened Returner
  import Instrument

  /** `vibraphoneData()["mallet_size"]` */
  const MalletSize: real := 0.3
  /** `vibraphoneData()["strike_position"]` */
  const StrikePosition: real := 0.2
  /** `vibraphoneData()["damping"]` */
  const Damping: real := 0.998
  /** `vibraphoneData()["vibrato_rate"]`, in Hz. */
  const VibratoRate: real := 6.0
  /** `vibraphoneData()["vibrato_depth"]` */
  const VibratoDepth: real := 0.02
  /** `vibraphoneData()["f_n"]`: each mode's frequency over the fundamental. */
  const Ratios: seq<real> := [1.0, 2.756, 5.404, 8.933, 13.333]

  /** `__mode_weight`: `sin(pi f_n strike_position) exp(-(mallet_size f_n)^2)`.
      As `|sin| <= 1` and `exp` of a non-positive number lies in (0, 1], no
      mode weighs more than 1 in magnitude. */
  function ModeWeight(tr: Transcendental, fn: real): (w: real)
    ensures (forall x :: -1.0 <= tr.sin(x) <= 1.0) && (forall y :: y <= 0.0 ==> 0.0 < tr.exp(y) <= 1.0)
      ==> -1.0 <= w <= 1.0
  {
    var m := MalletSize * fn;
    var s := tr.sin(tr.pi * fn * StrikePosition);
    var e := tr.exp(-(m * m));
    assert (forall x :: -1.0 <= tr.sin(x) <= 1.0) && (forall y :: y <= 0.0 ==> 0.0 < tr.exp(y) <= 1.0)
      ==> -1.0 <= s * e <= 1.0 by {
      if (forall x :: -1.0 <= tr.sin(x) <= 1.0) && (forall y :: y <= 0.0 ==> 0.0 < tr.exp(y) <= 1.0) {
        assert 0.0 <= m * m;
        assert 0.0 < e <= 1.0;
        assert -e <= s * e <= e;
      }
    }
    s * e
  }

  /** The fan vibrato at time `t`: `1 + depth sin(2 pi rate t)`. */
  function Vibrato(tr: Transcendental, t: real): real
  {
    1.0 + VibratoDepth * tr.sin(2.0 * tr.pi * VibratoRate * t)
  }

  /** Mode `i` is damped by `damping ** (1 + 0.1 i)`: higher modes die
      faster. */
  function ModeDamping(tr: Transcendental, i: nat): real
  {
    tr.pow(Damping, 1.0 + i as real * 0.1)
  }

  /** The gain of mode `i` at sample `n`, which is at time `n / fs`. */
  function ModeGain(tr: Transcendental, i: nat): nat -> real
  {
    n => ModeDamping(tr, i) * Vibrato(tr, n as real / 44100.0)
  }

  /** `int(fs / (f * ratio))`: the length of a mode's line. */
  function ModeLength(f: real, ratio: real): int
    requires f * ratio != 0.0
  {
    DelayLength(SamplingRate as real, f * ratio)
  }

  /** The lengths of the five mode lines of a fundamental. */
  function ModeLengths(f: real): (lens: seq<int>)
    requires 0.0 < f
    ensures |lens| == |Ratios|
  {
    seq(|Ratios|, i requires 0 <= i < |Ratios| => ModeLength(f, Ratios[i]))
  }

  /** One length per mode, each of two samples or more. */
  predicate LongEnough(lens: seq<int>)
  {
    |lens| == |Ratios| && forall i :: 0 <= i < |lens| ==> 2 <= lens[i]
  }

  /** A fundamental for which every mode's line has two samples or more. */
  predicate Resonant(f: real)
  {
    0.0 < f && LongEnough(ModeLengths(f))
  }

  /** Every fundamental of a seven-note table is resonant: even the
      highest mode of a 1200 Hz bar gets a line of two samples. */
  lemma ScaleResonant(freqs: seq<real>, k: nat)
    requires IsScale(freqs) && k < 7
    ensures Resonant(freqs[k])
  {
    var f := freqs[k];
    forall i | 0 <= i < |Ratios| ensures 2 <= ModeLengths(f)[i] {
      assert f * Ratios[i] <= 1200.0 * Ratios[i];
      DelayAtLeast(SamplingRate as real, f * Ratios[i], 2);
    }
  }

  /** What mode `i` of note `k` plays: its own line, from the `(5k + i)`-th
      noise array, run for the whole buffer. */
  function ModeOutput(tr: Transcendental, draws: Draws, k: nat, lens: seq<int>, i: nat): (s: seq<real>)
    requires LongEnough(lens) && i < |Ratios|
    ensures |s| == NumSamples
  {
    var line0 := Draw(draws, |Ratios| * k + i, lens[i]);
    AveragingRun(line0, ModeGain(tr, i), NumSamples).1
  }

  /** The buffer after the first `m` modes: zero, plus each mode's output
      times its weight. */
  function Mix(tr: Transcendental, draws: Draws, k: nat, lens: seq<int>, weights: seq<real>, m: nat): (s: seq<real>)
    requires LongEnough(lens) && |weights| == |Ratios| && m <= |Ratios|
    ensures |s| == NumSamples
  {
    if m == 0 then Zeros(NumSamples)
    else Plus(Mix(tr, draws, k, lens, weights, m - 1), Scale(ModeOutput(tr, draws, k, lens, m - 1), weights[m - 1]))
  }

  /** Sample `n` of the mixed buffer is the weighted sum of the modes'
      samples `n`. */
  lemma {:induction false} MixAt(tr: Transcendental, draws: Draws, k: nat, lens: seq<int>, weights: seq<real>, m: nat, n: nat)
    requires LongEnough(lens) && |weights| == |Ratios| && m <= |Ratios| && n < NumSamples
    ensures Mix(tr, draws, k, lens, weights, m)[n] == WeightedSum(tr, draws, k, lens, weights, m, n)
  {
    if m > 0 {
      MixAt(tr, draws, k, lens, weights, m - 1, n);
    }
  }

  /** `sum(weight_i * mode_i[n] for i < m)`, one sample at a time. */
  function WeightedSum(tr: Transcendental, draws: Draws, k: nat, lens: seq<int>, weights: seq<real>, m: nat, n: nat): real
    requires LongEnough(lens) && |weights| == |Ratios| && m <= |Ratios| && n < NumSamples
  {
    if m == 0 then 0.0
    else WeightedSum(tr, draws, k, lens, weights, m - 1, n) + ModeOutput(tr, draws, k, lens, m - 1)[n] * weights[m - 1]
  }

  /** `__mode_weight` of every mode. */
  function ModeWeights(tr: Transcendental): (w: seq<real>)
    ensures |w| == |Ratios|
  {
    seq(|Ratios|, i requires 0 <= i < |Ratios| => ModeWeight(tr, Ratios[i]))
  }

  /** One finished buffer: all five modes mixed and divided by the peak. */
  function Voice(tr: Transcendental, draws: Draws, k: nat, f: real): (b: Buffer)
    requires Resonant(f)
    ensures b.Length() == NumSamples
    ensures b.Samples? ==> forall i :: 0 <= i < |b.values| ==> -1.0 <= b.values[i] <= 1.0
    ensures b.Samples? ==> exists i :: 0 <= i < |b.values| && Abs(b.values[i]) == 1.0
  {
    NormalizeByPeak(Mix(tr, draws, k, ModeLengths(f), ModeWeights(tr), |Ratios|))
  }

  /** Every starting line of note `k` is all zeros. */
  predicate SilentNoise(draws: Draws, k: nat, lens: seq<int>)
    requires LongEnough(lens)
  {
    forall i :: 0 <= i < |Ratios| ==> AtRest(Draw(draws, |Ratios| * k + i, lens[i]))
  }

  /** If every starting line of a note is all zeros, every mode stays at
      rest, the mix is silent and the division by its zero peak leaves the
      buffer non-finite. */
  lemma SilentNoteIsNonFinite(tr: Transcendental, draws: Draws, k: nat, f: real)
    requires Resonant(f) && SilentNoise(draws, k, ModeLengths(f))
    ensures Voice(tr, draws, k, f).NonFinite?
  {
    SilentModesMix(tr, draws, k, ModeLengths(f), ModeWeights(tr), |Ratios|);
  }

  /** The mix of silent modes is silent. */
  lemma {:induction false} SilentModesMix(tr: Transcendental, draws: Draws, k: nat, lens: seq<int>, weights: seq<real>, m: nat)
    requires LongEnough(lens) && |weights| == |Ratios| && m <= |Ratios| && SilentNoise(draws, k, lens)
    ensures AtRest(Mix(tr, draws, k, lens, weights, m))
  {
    if m > 0 {
      SilentModesMix(tr, draws, k, lens, weights, m - 1);
      var i := m - 1;
      var line0 := Draw(draws, |Ratios| * k + i, lens[i]);
      AveragingAtRest(line0, ModeGain(tr, i), NumSamples);
      var s := Mix(tr, draws, k, lens, weights, m - 1);
      var t := Scale(ModeOutput(tr, draws, k, lens, i), weights[i]);
      assert AtRest(t);
      assert AtRest(Plus(s, t));
    }
  }

  /** One new sample of a mode's line: `0.5 (d[0] + d[1]) damping vibrato`. */
  function ModeSample(line: seq<real>, damping: real, vibrato: real): real
    requires |line| >= 2
  {
    0.5 * (line[0] + line[1]) * damping * vibrato
  }

  /** The new sample is the line's average scaled by the mode's gain at
      time `n / fs`. */
  lemma ModeSampleAveraged(line: seq<real>, tr: Transcendental, i: nat, n: nat)
    requires |line| >= 2
    ensures ModeSample(line, ModeDamping(tr, i), Vibrato(tr, n as real / 44100.0)) == Averaged(line, ModeGain(tr, i)(n))
  {
    var d := ModeDamping(tr, i);
    var v := Vibrato(tr, n as real / 44100.0);
    assert ModeGain(tr, i)(n) == d * v;
    var a := line[0] + line[1];
    assert 0.5 * a * d * v == (d * v) * (a / 2.0);
  }

  /** `o` with the first `|v|` samples raised by `v`, times `w`. */
  function AddedPrefix(o: seq<real>, v: seq<real>, w: real): (r: seq<real>)
    requires |v| <= |o|
    ensures |r| == |o|
  {
    seq(|o|, j requires 0 <= j < |o| => if j < |v| then o[j] + v[j] * w else o[j])
  }

  /** One more added sample is one more in-place update. */
  lemma AddedPrefixGrows(o: seq<real>, v: seq<real>, x: real, w: real)
    requires |v| < |o|
    ensures AddedPrefix(o, v + [x], w) == AddedPrefix(o, v, w)[|v| := AddedPrefix(o, v, w)[|v|] + x * w]
  {
  }

  /** Once every sample is added, the result is the plain sum. */
  lemma AddedPrefixComplete(o: seq<real>, v: seq<real>, w: real)
    requires |v| == |o|
    ensures AddedPrefix(o, v, w) == Plus(o, Scale(v, w))
  {
  }

  /** The new sample of mode `i` at sample `n`: the average of the line's
      two oldest samples, damped and scaled by the vibrato at `t[n]`. */
  method ModeStep(line: seq<real>, tr: Transcendental, timeData: seq<real>, i: nat, n: nat) returns (val: real)
    requires |line| >= 2 && timeData == ReturnTimeData() && n < NumSamples
    ensures val == Averaged(line, ModeGain(tr, i)(n))
  {
    assert timeData[n] == n as real / 44100.0;
    var vibrato := Vibrato(tr, timeData[n]);
    var damping := ModeDamping(tr, i);
    val := ModeSample(line, damping, vibrato);
    ModeSampleAveraged(line, tr, i, n);
  }

  /** `output[n] += x`. */
  method AddInPlace(output: array<real>, n: nat, x: real)
    requires n < output.Length
    modifies output
    ensures output[..] == old(output[..])[n := old(output[n]) + x]
  {
    output[n] := output[n] + x;
  }

  /** The inner sample loop for mode `i`: the line is advanced one sample
      at a time, and each new value, times the mode's weight, is added
      into the output in place. */
  method AddMode(output: array<real>, line0: seq<real>, tr: Transcendental, timeData: seq<real>, i: nat, weight: real)
    requires output.Length == NumSamples && |line0| >= 2 && timeData == ReturnTimeData()
    modifies output
    ensures output[..] == Plus(old(output[..]), Scale(AveragingRun(line0, ModeGain(tr, i), NumSamples).1, weight))
  {
    ghost var o0 := output[..];
    var line := line0;
    ghost var vals: seq<real> := [];
    for n := 0 to NumSamples
      invariant line == AveragingRun(line0, ModeGain(tr, i), n).0
      invariant vals == AveragingRun(line0, ModeGain(tr, i), n).1
      invariant output[..] == AddedPrefix(o0, vals, weight)
    {
      var val := ModeStep(line, tr, timeData, i, n);
      AveragingRunStep(line0, ModeGain(tr, i), n, line, vals, val);
      AddedPrefixGrows(o0, vals, val, weight);
      AddInPlace(output, n, val * weight);
      line := RollLeftWriteLast(line, val);
      vals := vals + [val];
    }
    AddedPrefixComplete(o0, vals, weight);
  }

  /** One pass of the body of the frequency loop: a zeroed buffer, the five
      modes added into it, then the peak normalisation. */
  method PlayVoice(tr: Transcendental, draws: Draws, k: nat, f: real, timeData: seq<real>) returns (b: Buffer)
    requires Resonant(f) && timeData == ReturnTimeData()
    ensures b == Voice(tr, draws, k, f)
  {
    ghost var lens := ModeLengths(f);
    ghost var weights := ModeWeights(tr);
    var output := new real[NumSamples](_ => 0.0);
    for i := 0 to |Ratios|
      invariant output[..] == Mix(tr, draws, k, lens, weights, i)
    {
      var ratio := Ratios[i];
      var delayLength := ModeLength(f, ratio);
      assert delayLength == lens[i];
      var delayLine := Draw(draws, |Ratios| * k + i, delayLength);
      var weight := ModeWeight(tr, ratio);
      assert ModeOutput(tr, draws, k, lens, i) == AveragingRun(delayLine, ModeGain(tr, i), NumSamples).1;
      AddMode(output, delayLine, tr, timeData, i, weight);
    }
    b := NormalizeByPeak(output[..]);
  }

  /** The buffers `makeSound` appends, one per fundamental. */
  function Sounds(tr: Transcendental, draws: Draws, freqs: seq<real>): (s: seq<Buffer>)
    requires forall k :: 0 <= k < |freqs| ==> Resonant(freqs[k])
    ensures |s| == |freqs|
  {
    seq(|freqs|, k requires 0 <= k < |freqs| => Voice(tr, draws, k, freqs[k]))
  }

  class Vibraphone {
    const base: Instrument.Instrument

    /** A new vibraphone has played nothing and belongs to the blue group. */
    constructor()
      ensures fresh(base)
      ensures base.soundsInstrumentPlay == [] && base.color == "blue"
    {
      var b := new Instrument.Instrument();
      b.color := "blue";
      base := b;
    }

    /** Appends one buffer per blue fundamental; nothing already played
        changes. */
    method MakeSound(tr: Transcendental, draws: Draws)
      modifies base
      ensures base.soundsInstrumentPlay == old(base.soundsInstrumentPlay) + Sounds(tr, draws, BlueFrequencies())
      ensures base.color == old(base.color)
    {
      var freqs := BlueFrequencies();
      forall k | 0 <= k < |freqs| ensures Resonant(freqs[k]) {
        ScaleResonant(freqs, k);
      }
      Play(tr, draws, freqs);
    }

    /** The loop over the fundamentals. */
    method Play(tr: Transcendental, draws: Draws, freqs: seq<real>)
      requires forall k :: 0 <= k < |freqs| ==> Resonant(freqs[k])
      modifies base
      ensures base.soundsInstrumentPlay == old(base.soundsInstrumentPlay) + Sounds(tr, draws, freqs)
      ensures base.color == old(base.color)
    {
      var timeData := ReturnTimeData();
      var all := Sounds(tr, draws, freqs);
      var k := 0;
      while k < |freqs|
        invariant 0 <= k <= |freqs|
        invariant base.soundsInstrumentPlay == old(base.soundsInstrumentPlay) + all[..k]
        invariant base.color == old(base.color)
      {
        var voice := PlayVoice(tr, draws, k, freqs[k], timeData);
        PrefixGrows(all, k);
        base.AddSound(voice);
        k := k + 1;
      }
    }
  }
}
