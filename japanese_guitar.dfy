/** The shamisen: a plucked string whose noisy start is shaped by a Hann
    window turned to the pick position and by a comb filter that cancels
    the pick position's notches. The line is averaged two samples at a time
    and damped, and the output goes through four resonant body filters and
    a peak normalisation. */
module JapaneseGuitar {
  import opened Signal
  import opened Waveguide
  import opened Returner
  import Instrument

  /** `japaneseGuitarData()["pick_force"]` */
  const PickForce: real := 1.0
  /** `japaneseGuitarData()["damping"]` */
  const Damping: real := 0.995
  /** `japaneseGuitarData()["pick_position"]` */
  const PickPosition: real := 0.2
  /** `japaneseGuitarData()["body_modes"]` */
  const BodyModes: seq<real> := [250.0, 500.0, 1200.0, 2000.0]

  /** `np.hanning(m)`: `0.5 - 0.5 cos(2 pi n / (m - 1))`, or `[1.0]` for a
      single point. */
  function Hanning(tr: Transcendental, m: nat): (w: seq<real>)
    ensures |w| == m
  {
    if m == 1 then [1.0]
    else seq(m, n requires 0 <= n < m => 0.5 - 0.5 * tr.cos(2.0 * tr.pi * n as real / (m - 1) as real))
  }

  /** `int(pick_position * delay_length)`, where the window is turned to
      and how far back the comb filter reaches. */
  function PickDelay(len: nat): nat
  {
    CombDelay(PickPosition, len)
  }

  /** `int(pick_position * delay_length)` for any non-negative position. */
  function CombDelay(pickPosition: real, delayLength: nat): nat
    requires 0.0 <= pickPosition
  {
    Trunc(pickPosition * delayLength as real)
  }

  /** The pick point lies inside the line. */
  lemma PickDelayInside(len: nat)
    requires 1 <= len
    ensures PickDelay(len) < len
  {
  }

  /** The plucked line: noise times the window rolled right by the pick
      position, times the pick force. */
  function InitializedNoise(tr: Transcendental, noise: seq<real>): (b: seq<real>)
    ensures |b| == |noise|
  {
    var window := Roll(Hanning(tr, |noise|), PickDelay(|noise|));
    seq(|noise|, i requires 0 <= i < |noise| => Weighted(noise[i], window[i]))
  }

  /** One noise sample under its window weight, times the pick force. */
  function Weighted(x: real, w: real): real
  {
    x * w * PickForce
  }

  /** Sample `i` of the plucked line is weighted by the window sample
      `(i - position) mod L`: the window's middle moves to the pick
      position. */
  lemma InitializedNoiseAt(tr: Transcendental, noise: seq<real>, i: nat)
    requires i < |noise|
    ensures InitializedNoise(tr, noise)[i] ==
      Weighted(noise[i], Hanning(tr, |noise|)[(i - PickDelay(|noise|)) % |noise|])
  {
  }

  /** The comb filter: every sample from `delay` on loses the sample
      `delay` places before it in the input; the first `delay` samples are
      kept. A zero delay keeps the whole buffer. */
  function Comb(b: seq<real>, delay: nat): (f: seq<real>)
    ensures |f| == |b|
  {
    if delay == 0 then b
    else seq(|b|, i requires 0 <= i < |b| => if i < delay then b[i] else b[i] - b[i - delay])
  }

  /** The feedback filter that undoes the comb: each sample adds back the
      reconstructed sample `delay` places before it. */
  function Uncomb(f: seq<real>, delay: nat, i: nat): real
    requires 0 < delay && i < |f|
    decreases i
  {
    if i < delay then f[i] else f[i] + Uncomb(f, delay, i - delay)
  }

  /** The comb filter loses nothing: feeding its output back through the
      feedback filter recovers the input, sample by sample. */
  lemma {:induction false} CombInverts(b: seq<real>, delay: nat, i: nat)
    requires 0 < delay && i < |b|
    ensures Uncomb(Comb(b, delay), delay, i) == b[i]
    decreases i
  {
    if i >= delay {
      CombInverts(b, delay, i - delay);
    }
  }

  /** `__pick_position_filter`: a copy of the buffer, from which the loop
      subtracts the input delayed by the pick position. The input is not
      changed. */
  method PickPositionFilter(buffer: seq<real>, pickPosition: real, delayLength: nat) returns (filtered: seq<real>)
    requires 0.0 <= pickPosition
    ensures filtered == Comb(buffer, CombDelay(pickPosition, delayLength))
  {
    var delay := CombDelay(pickPosition, delayLength);
    if delay == 0 {
      return buffer;
    }
    var f := new real[|buffer|](i requires 0 <= i < |buffer| => buffer[i]);
    var i := delay;
    while i < |buffer|
      invariant delay <= i
      invariant forall j :: 0 <= j < |buffer| ==> f[j] == if delay <= j < i then buffer[j] - buffer[j - delay] else buffer[j]
    {
      f[i] := f[i] - buffer[i - delay];
      i := i + 1;
    }
    filtered := f[..];
    forall j | 0 <= j < |buffer| ensures filtered[j] == Comb(buffer, delay)[j] {
      assert filtered[j] == f[j];
      assert f[j] == if delay <= j < i then buffer[j] - buffer[j - delay] else buffer[j];
    }
  }

  /** The per-sample loop: the damped average of the two oldest samples
      enters the line and the output. */
  method PluckLoop(b0: seq<real>, n: nat) returns (out: seq<real>)
    requires |b0| >= 2
    ensures out == AveragingRun(b0, Steady(Damping), n).1
  {
    var buffer := b0;
    var output := new real[n](_ => 0.0);
    var i := 0;
    while i < n
      invariant 0 <= i <= n && output.Length == n
      invariant buffer == AveragingRun(b0, Steady(Damping), i).0
      invariant output[..i] == AveragingRun(b0, Steady(Damping), i).1
    {
      var x0 := buffer[0];
      var x1 := buffer[1];
      var averaged := 0.5 * (x0 + x1);
      var newVal := averaged * Damping;
      assert newVal == Averaged(buffer, Steady(Damping)(i));
      buffer := RollLeftWriteLast(buffer, newVal);
      output[i] := newVal;
      assert output[..i + 1] == output[..i] + [newVal];
      i := i + 1;
    }
    out := output[..];
  }

  /** The string's output through the four body filters. */
  function Filtered(tr: Transcendental, resonate: ModeFilter, noise: seq<real>): (s: seq<real>)
    requires |noise| >= 2
    ensures |s| == NumSamples
  {
    var plucked := Comb(InitializedNoise(tr, noise), PickDelay(|noise|));
    BodyFilters(resonate, AveragingRun(plucked, Steady(Damping), NumSamples).1, BodyModes)
  }

  /** One buffer: pluck, comb, run the string, filter, normalise. Every
      buffer has `num_samples` samples and peaks at exactly 1 in magnitude,
      unless the filtered output is silent, which leaves it non-finite. */
  function Voice(tr: Transcendental, resonate: ModeFilter, noise: seq<real>): (b: Buffer)
    requires |noise| >= 2
    ensures b.Length() == NumSamples
    ensures b.Samples? <==> exists i :: 0 <= i < NumSamples && Filtered(tr, resonate, noise)[i] != 0.0
    ensures b.Samples? ==> forall i :: 0 <= i < |b.values| ==> -1.0 <= b.values[i] <= 1.0
    ensures b.Samples? ==> exists i :: 0 <= i < |b.values| && Abs(b.values[i]) == 1.0
  {
    NormalizeByPeak(Filtered(tr, resonate, noise))
  }

  /** One pass of the body of the frequency loop. */
  method PlayVoice(tr: Transcendental, resonate: ModeFilter, noise: seq<real>) returns (b: Buffer)
    requires |noise| >= 2
    ensures b == Voice(tr, resonate, noise)
  {
    var buffer := InitializedNoise(tr, noise);
    buffer := PickPositionFilter(buffer, PickPosition, |noise|);
    assert buffer == Comb(InitializedNoise(tr, noise), PickDelay(|noise|));
    var output := PluckLoop(buffer, NumSamples);
    output := ApplyBodyFilters(resonate, output, BodyModes);
    b := NormalizeByPeak(output);
  }

  /** The buffers `makeSound` appends, the `k`-th from the `k`-th noise
      array. */
  function Sounds(tr: Transcendental, resonate: ModeFilter, draws: Draws, freqs: seq<real>): (s: seq<Buffer>)
    requires forall k :: 0 <= k < |freqs| ==> 0.0 < freqs[k] && 2 <= DelayLength(SamplingRate as real, freqs[k])
    ensures |s| == |freqs|
  {
    seq(|freqs|, k requires 0 <= k < |freqs| =>
      Voice(tr, resonate, Draw(draws, k, DelayLength(SamplingRate as real, freqs[k]))))
  }

  class JapaneseGuitar {
    const base: Instrument.Instrument

    /** A new shamisen has played nothing and belongs to the green group. */
    constructor()
      ensures fresh(base)
      ensures base.soundsInstrumentPlay == [] && base.color == "green"
    {
      var b := new Instrument.Instrument();
      b.color := "green";
      base := b;
    }

    /** Appends one buffer per green fundamental; nothing already played
        changes. */
    method MakeSound(tr: Transcendental, resonate: ModeFilter, draws: Draws)
      modifies base
      ensures base.soundsInstrumentPlay == old(base.soundsInstrumentPlay) + Sounds(tr, resonate, draws, GreenFrequencies())
      ensures base.color == old(base.color)
    {
      var freqs := GreenFrequencies();
      forall k | 0 <= k < |freqs| ensures 0.0 < freqs[k] && 2 <= DelayLength(SamplingRate as real, freqs[k]) {
        ScaleDelayLengths(freqs, k);
      }
      Play(tr, resonate, draws, freqs);
    }

    /** The loop over the fundamentals. */
    method Play(tr: Transcendental, resonate: ModeFilter, draws: Draws, freqs: seq<real>)
      requires forall k :: 0 <= k < |freqs| ==> 0.0 < freqs[k] && 2 <= DelayLength(SamplingRate as real, freqs[k])
      modifies base
      ensures base.soundsInstrumentPlay == old(base.soundsInstrumentPlay) + Sounds(tr, resonate, draws, freqs)
      ensures base.color == old(base.color)
    {
      var all := Sounds(tr, resonate, draws, freqs);
      var k := 0;
      while k < |freqs|
        invariant 0 <= k <= |freqs|
        invariant base.soundsInstrumentPlay == old(base.soundsInstrumentPlay) + all[..k]
        invariant base.color == old(base.color)
      {
        var voice := PlayVoice(tr, resonate, Draw(draws, k, DelayLength(SamplingRate as real, freqs[k])));
        PrefixGrows(all, k);
        assert all[k] == voice;
        base.AddSound(voice);
        k := k + 1;
      }
    }
  }
}
