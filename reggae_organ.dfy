/** The reggae organ: additive synthesis of five harmonics of decreasing
    amplitude, shaped by the organ envelope and divided by the buffer's
    largest sample. */
module ReggaeOrgan {
  import opened Signal
  import opened Returner
  import Instrument

  /** The harmonic numbers `returnReggaeHarmonics` lists. */
  const Harmonics: seq<nat> := [1, 2, 3, 4, 5]

  /** `np.sin(2 pi f t)` over the time axis. */
  function SinWave(tr: Transcendental, f: real, t: seq<real>): (s: seq<real>)
    ensures |s| == |t|
  {
    seq(|t|, n requires 0 <= n < |t| => Phase(tr, f, t[n]))
  }

  /** `sin(2 pi f t)` at one instant. */
  function Phase(tr: Transcendental, f: real, tn: real): real
  {
    tr.sin(2.0 * tr.pi * f * tn)
  }

  /** The buffer after the first `m` harmonics: zero, plus each harmonic's
      sine wave times its amplitude. */
  function Additive(tr: Transcendental, t: seq<real>, f: real, hs: seq<nat>, amps: seq<real>, m: nat): (s: seq<real>)
    requires m <= |hs| && m <= |amps|
    ensures |s| == |t|
  {
    if m == 0 then Zeros(|t|)
    else Plus(Additive(tr, t, f, hs, amps, m - 1), Scale(SinWave(tr, f * hs[m - 1] as real, t), amps[m - 1]))
  }

  /** Adding harmonic `m` to the first `m` gives the first `m + 1`. */
  lemma AdditiveStep(tr: Transcendental, t: seq<real>, f: real, hs: seq<nat>, amps: seq<real>, m: nat)
    requires m < |hs| && m < |amps|
    ensures Additive(tr, t, f, hs, amps, m + 1) ==
      Plus(Additive(tr, t, f, hs, amps, m), Scale(SinWave(tr, f * hs[m] as real, t), amps[m]))
  {
  }

  /** The classic additive formula at one sample:
      `sum(amps[j] * sin(2 pi f hs[j] t))` over the first `m` harmonics. */
  function HarmonicSum(tr: Transcendental, f: real, hs: seq<nat>, amps: seq<real>, m: nat, tn: real): real
    requires m <= |hs| && m <= |amps|
  {
    if m == 0 then 0.0
    else HarmonicSum(tr, f, hs, amps, m - 1, tn) + amps[m - 1] * Phase(tr, f * hs[m - 1] as real, tn)
  }

  /** Each sample of the vector sum is the additive formula at that
      sample's instant. */
  lemma {:induction false} AdditiveAt(tr: Transcendental, t: seq<real>, f: real, hs: seq<nat>, amps: seq<real>, m: nat, n: nat)
    requires m <= |hs| && m <= |amps| && n < |t|
    ensures Additive(tr, t, f, hs, amps, m)[n] == HarmonicSum(tr, f, hs, amps, m, t[n])
  {
    if m > 0 {
      AdditiveAt(tr, t, f, hs, amps, m - 1, n);
    }
  }

  /** Every harmonic starts at phase zero: at `t = 0`, with `sin 0 = 0`,
      the sum is silent. */
  lemma {:induction false} StartsAtZero(tr: Transcendental, f: real, hs: seq<nat>, amps: seq<real>, m: nat)
    requires m <= |hs| && m <= |amps| && tr.sin(0.0) == 0.0
    ensures HarmonicSum(tr, f, hs, amps, m, 0.0) == 0.0
  {
    if m > 0 {
      StartsAtZero(tr, f, hs, amps, m - 1);
      assert 2.0 * tr.pi * (f * hs[m - 1] as real) * 0.0 == 0.0;
    }
  }

  /** One finished buffer: the five harmonics summed, times the envelope,
      divided by the largest sample. */
  function Voice(tr: Transcendental, t: seq<real>, env: seq<real>, f: real): (b: Buffer)
    requires |t| == |env| > 0
    ensures b.Length() == |t|
  {
    NormalizeByMax(Times(Additive(tr, t, f, Harmonics, ReturnReggaeAmplitude(), |Harmonics|), env))
  }

  /** A buffer whose largest sample is positive ends with its largest sample
      at exactly 1, but only the positive side is bounded. */
  lemma VoiceTopsAtOne(tr: Transcendental, t: seq<real>, env: seq<real>, f: real)
    requires |t| == |env| > 0
    requires 0.0 < Max(Times(Additive(tr, t, f, Harmonics, ReturnReggaeAmplitude(), |Harmonics|), env))
    ensures var b := Voice(tr, t, env, f);
      b.Samples? && (forall i :: 0 <= i < |t| ==> b.values[i] <= 1.0) && exists i :: 0 <= i < |t| && b.values[i] == 1.0
  {
  }

  /** One pass of the body of the frequency loop: the harmonics added into a
      zeroed buffer one at a time, then the envelope and the division. */
  method PlayVoice(tr: Transcendental, t: seq<real>, env: seq<real>, harmonics: seq<nat>, amplitudes: seq<real>, numSamples: nat, frequency: real)
    returns (b: Buffer)
    requires |t| == |env| == numSamples > 0
    requires harmonics == Harmonics && amplitudes == ReturnReggaeAmplitude()
    ensures b == Voice(tr, t, env, frequency)
  {
    var output := Zeros(numSamples);
    for i := 0 to |harmonics|
      invariant output == Additive(tr, t, frequency, harmonics, amplitudes, i)
    {
      var f := frequency * harmonics[i] as real;
      var sinWave := SinWave(tr, f, t);
      var wave := Scale(sinWave, amplitudes[i]);
      output := Plus(output, wave);
      AdditiveStep(tr, t, frequency, harmonics, amplitudes, i);
    }
    output := Times(output, env);
    b := NormalizeByMax(output);
  }

  /** The buffers `makeSound` appends, one per fundamental. */
  function Sounds(tr: Transcendental, t: seq<real>, env: seq<real>, freqs: seq<real>): (s: seq<Buffer>)
    requires |t| == |env| > 0
    ensures |s| == |freqs|
  {
    seq(|freqs|, k requires 0 <= k < |freqs| => Voice(tr, t, env, freqs[k]))
  }

  class ReggaeOrgan {
    const base: Instrument.Instrument

    /** A new organ has played nothing and belongs to the red group. */
    constructor()
      ensures fresh(base)
      ensures base.soundsInstrumentPlay == [] && base.color == "red"
    {
      var b := new Instrument.Instrument();
      b.color := "red";
      base := b;
    }

    /** Appends one buffer of 44100 samples per red fundamental, over the
        one-second time axis and shaped by the organ envelope; nothing
        already played changes. */
    method MakeSound(tr: Transcendental)
      modifies base
      ensures EnvelopeLayout(ReggaeAdsr, SamplingRate as real, NumSamples).Some?
      ensures base.soundsInstrumentPlay == old(base.soundsInstrumentPlay) +
        Sounds(tr, ReturnTimeData(), EnvelopeLayout(ReggaeAdsr, SamplingRate as real, NumSamples).value, RedFrequencies())
      ensures base.color == old(base.color)
    {
      var w := SoundWaveData();
      var freqs := RedFrequencies();
      var harmonics := ReturnReggaeHarmonics();
      assert harmonics == Harmonics;
      var amplitudes := ReturnReggaeAmplitude();
      var numSamples := Trunc(w.duration * w.samplingRate as real);
      assert numSamples == NumSamples;
      var t := ReturnTimeData();
      var env := ReggaeADSREnvelopTimeData();
      Play(tr, t, env, harmonics, amplitudes, numSamples, freqs);
    }

    /** The loop over the fundamentals. */
    method Play(tr: Transcendental, t: seq<real>, env: seq<real>, harmonics: seq<nat>, amplitudes: seq<real>, numSamples: nat, freqs: seq<real>)
      requires |t| == |env| == numSamples > 0
      requires harmonics == Harmonics && amplitudes == ReturnReggaeAmplitude()
      modifies base
      ensures base.soundsInstrumentPlay == old(base.soundsInstrumentPlay) + Sounds(tr, t, env, freqs)
      ensures base.color == old(base.color)
    {
      var all := Sounds(tr, t, env, freqs);
      var k := 0;
      while k < |freqs|
        invariant 0 <= k <= |freqs|
        invariant base.soundsInstrumentPlay == old(base.soundsInstrumentPlay) + all[..k]
        invariant base.color == old(base.color)
      {
        var voice := PlayVoice(tr, t, env, harmonics, amplitudes, numSamples, freqs[k]);
        PrefixGrows(all, k);
        base.AddSound(voice);
        k := k + 1;
      }
    }
  }
}
