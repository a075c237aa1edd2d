/** The electric guitar: a plucked string of the Karplus-Strong kind. A
    noisy delay line is averaged two samples at a time and shifted, a pickup
    reads the slope of the line at a fixed place, and the result is shaped
    by `tanh`, the guitar envelope and a floored peak normalisation. */
module ElectronicGuitar {
  import opened Signal
  import opened Waveguide
  import opened Returner
  import Instrument

  /** `electronicGuitarData()["pluck_force"]` */
  const PluckForce: real := 1.0
  /** `electronicGuitarData()["pickup_position"]` */
  const PickupPosition: real := 0.3
  /** The loss per pass along the string. */
  const Decay: real := 0.996
  /** The `1e-9` added to every magnitude before taking the peak. */
  const Floor: real := 0.000000001

  /** The plucked line: uniform noise scaled by the pluck force, with an
      extra unit at the head for a sharper attack. */
  function InitialLine(noise: seq<real>): (d: seq<real>)
    requires |noise| > 0
    ensures |d| == |noise|
    ensures d[0] == noise[0] * PluckForce + 1.0
    ensures forall i :: 1 <= i < |d| ==> d[i] == noise[i] * PluckForce
  {
    var scaled := Scale(noise, PluckForce);
    scaled[0 := scaled[0] + 1.0]
  }

  /** The string is the shared averaging line, damped by `Decay` at every
      step. The line is a queue: after `i` samples, slot `j` holds what slot
      `i + j` held at the start, as long as that slot is still in range. */
  lemma StringLineShifts(d0: seq<real>, i: nat, j: nat)
    requires |d0| >= 2 && i + j < |d0|
    ensures AveragingRun(d0, Steady(Decay), i).0[j] == d0[i + j]
  {
    AveragingWindow(d0, Steady(Decay), i);
  }

  /** The pickup signal: the difference of two neighbouring slots, or
      silence when the pickup sits on the last slot. */
  function Pickup(d: seq<real>, p: nat): (signal: real)
    ensures (forall j :: 0 <= j < |d| ==> d[j] == d[0]) ==> signal == 0.0
  {
    if p < |d| - 1 then d[p + 1] - d[p] else 0.0
  }

  /** The pickup sits at `int(0.3 * L)`, which is below `L - 1` for every
      line of two or more samples: the silent branch of the guard is never
      taken. */
  lemma PickupInside(len: nat)
    requires len >= 2
    ensures Trunc(PickupPosition * len as real) < len - 1
  {
    var x := PickupPosition * len as real;
    assert x < len as real - 1.0;
  }

  /** `lfilter(b, a, [x])` on one sample from rest: the band-pass returns
      its leading coefficient `b[0]` times the sample (`butter` normalises
      `a[0]` to 1). */
  function BandPass(b0: real, x: real): (y: real)
    ensures x == 0.0 ==> y == 0.0
    ensures b0 == 1.0 ==> y == x
  {
    b0 * x
  }

  /** What the sample loop writes: the pickup reading after each step,
      through the band-pass, whose one-sample call starts from rest and so
      only multiplies by its leading coefficient `gain`. */
  function PluckedOutput(d0: seq<real>, p: nat, gain: real, n: nat): (out: seq<real>)
    requires |d0| >= 2
    ensures |out| == n
  {
    if n == 0 then [] else PluckedOutput(d0, p, gain, n - 1) + [BandPass(gain, Pickup(AveragingRun(d0, Steady(Decay), n).0, p))]
  }

  lemma PluckedOutputGrows(d0: seq<real>, p: nat, gain: real, i: nat)
    requires |d0| >= 2
    ensures PluckedOutput(d0, p, gain, i + 1) ==
      PluckedOutput(d0, p, gain, i) + [BandPass(gain, Pickup(AveragingRun(d0, Steady(Decay), i + 1).0, p))]
  {
  }

  /** Sample `i` of the loop output is the filtered pickup reading after
      `i + 1` steps of the string. */
  lemma {:induction false} PluckedOutputAt(d0: seq<real>, p: nat, gain: real, n: nat, i: nat)
    requires |d0| >= 2 && i < n
    ensures PluckedOutput(d0, p, gain, n)[i] == BandPass(gain, Pickup(AveragingRun(d0, Steady(Decay), i + 1).0, p))
  {
    if i < n - 1 {
      PluckedOutputAt(d0, p, gain, n - 1, i);
    }
  }

  /** The per-sample loop: roll, write, read the pickup, filter. */
  method SampleLoop(d0: seq<real>, p: nat, gain: real, n: nat) returns (out: seq<real>)
    requires |d0| >= 2
    ensures out == PluckedOutput(d0, p, gain, n)
  {
    var line := d0;
    var output := new real[n](_ => 0.0);
    var i := 0;
    while i < n
      invariant 0 <= i <= n && output.Length == n
      invariant line == AveragingRun(d0, Steady(Decay), i).0
      invariant output[..i] == PluckedOutput(d0, p, gain, i)
    {
      var rightValue := line[0];
      var leftValue := line[1];
      var newValue := Decay * (rightValue + leftValue) / 2.0;
      line := RollLeftWriteLast(line, newValue);
      var signal := if p < |line| - 1 then line[p + 1] - line[p] else 0.0;
      AveragingRunStep(d0, Steady(Decay), i, AveragingRun(d0, Steady(Decay), i).0, AveragingRun(d0, Steady(Decay), i).1, newValue);
      assert line == AveragingRun(d0, Steady(Decay), i + 1).0 && signal == Pickup(line, p);
      ghost var written := output[..i];
      output[i] := BandPass(gain, signal);
      assert output[..i + 1] == written + [BandPass(gain, signal)];
      PluckedOutputGrows(d0, p, gain, i);
      i := i + 1;
    }
    out := output[..];
  }

  /** One finished buffer: the loop output through `tanh`, times the
      envelope, divided by its floored peak. Every sample lies strictly
      inside (-1, 1). */
  function Voice(tr: Transcendental, noise: seq<real>, gain: real, env: seq<real>): (r: seq<real>)
    requires |noise| >= 2 && |env| > 0
    ensures |r| == |env|
    ensures forall i :: 0 <= i < |r| ==> -1.0 < r[i] < 1.0
  {
    var d0 := InitialLine(noise);
    var p := Trunc(PickupPosition * |noise| as real);
    Shape(tr, PluckedOutput(d0, p, gain, |env|), env)
  }

  /** The shaping after the loop: `tanh` distortion, the envelope, and the
      floored peak normalisation. */
  function Shape(tr: Transcendental, out: seq<real>, env: seq<real>): (r: seq<real>)
    requires |out| == |env| > 0
    ensures |r| == |env|
    ensures forall i :: 0 <= i < |r| ==> -1.0 < r[i] < 1.0
  {
    NormalizeWithFloor(Times(Apply(tr.tanh, out), env), Floor)
  }

  /** One pass of the body of the frequency loop: pluck, run the string,
      shape and normalise. */
  method PlayVoice(tr: Transcendental, noise: seq<real>, gain: real, env: seq<real>) returns (r: seq<real>)
    requires |noise| >= 2 && |env| > 0
    ensures r == Voice(tr, noise, gain, env)
  {
    var d0 := InitialLine(noise);
    var p := Trunc(PickupPosition * |noise| as real);
    var out := SampleLoop(d0, p, gain, |env|);
    r := Shape(tr, out, env);
  }

  /** The buffers `makeSound` appends: one voice per fundamental, the `k`-th
      drawing its noise from the `k`-th random array. */
  function Sounds(tr: Transcendental, draws: Draws, gain: real, env: seq<real>, fs: real, freqs: seq<real>): (s: seq<Buffer>)
    requires |env| > 0 && forall k :: 0 <= k < |freqs| ==> 0.0 < freqs[k] && 2 <= DelayLength(fs, freqs[k])
    ensures |s| == |freqs|
  {
    seq(|freqs|, k requires 0 <= k < |freqs| =>
      Samples(Voice(tr, Draw(draws, k, DelayLength(fs, freqs[k])), gain, env)))
  }

  class ElectronicGuitar {
    const base: Instrument.Instrument

    /** A new guitar has played nothing and belongs to the red group. */
    constructor()
      ensures fresh(base)
      ensures base.soundsInstrumentPlay == [] && base.color == "red"
    {
      var b := new Instrument.Instrument();
      b.color := "red";
      base := b;
    }

    /** Appends one buffer per red fundamental, each of the envelope's length
        and strictly inside (-1, 1); nothing already played changes. */
    method MakeSound(tr: Transcendental, draws: Draws, gain: real)
      modifies base
      ensures EnvelopeLayout(GuitarAdsr, SamplingRate as real, NumSamples).Some?
      ensures base.soundsInstrumentPlay == old(base.soundsInstrumentPlay) +
        Sounds(tr, draws, gain, EnvelopeLayout(GuitarAdsr, SamplingRate as real, NumSamples).value,
          SamplingRate as real, RedFrequencies())
      ensures base.color == old(base.color)
    {
      var w := SoundWaveData();
      var freqs := RedFrequencies();
      var env := ElectronicGuitarADSRTimeData();
      var fs := w.samplingRate as real;
      forall k | 0 <= k < |freqs| ensures 0.0 < freqs[k] && 2 <= DelayLength(fs, freqs[k]) {
        ScaleDelayLengths(freqs, k);
      }
      Play(tr, draws, gain, env, fs, freqs);
    }

    /** The loop over the fundamentals: one voice appended per frequency. */
    method Play(tr: Transcendental, draws: Draws, gain: real, env: seq<real>, fs: real, freqs: seq<real>)
      requires |env| > 0 && forall k :: 0 <= k < |freqs| ==> 0.0 < freqs[k] && 2 <= DelayLength(fs, freqs[k])
      modifies base
      ensures base.soundsInstrumentPlay == old(base.soundsInstrumentPlay) + Sounds(tr, draws, gain, env, fs, freqs)
      ensures base.color == old(base.color)
    {
      var all := Sounds(tr, draws, gain, env, fs, freqs);
      var k := 0;
      while k < |freqs|
        invariant 0 <= k <= |freqs|
        invariant base.soundsInstrumentPlay == old(base.soundsInstrumentPlay) + all[..k]
        invariant base.color == old(base.color)
      {
        var voice := PlayVoice(tr, Draw(draws, k, DelayLength(fs, freqs[k])), gain, env);
        assert all[k] == Samples(voice);
        PrefixGrows(all, k);
        base.AddSound(Samples(voice));
        k := k + 1;
      }
    }
  }
}
