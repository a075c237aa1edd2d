/** The violin: a bowed string. Each sample the bow reads the string's
    velocity at a third of the line, the friction curve turns the relative
    velocity into a force, and that force plus the reflected end of the line
    enters the line, which then moves one place toward its front. */
module Violin {
  import opened Signal
  import opened Waveguide
  import opened Returner
  import Instrument

  /** `violinData()["bow_pressure"]` */
  const BowPressure: real := 0.4
  /** `violinData()["bow_velocity"]` */
  const BowVelocity: real := 0.3
  /** `violinData()["string_tension"]` */
  const StringTension: real := 0.8
  /** `violinData()["damping"]` */
  const Damping: real := 0.998
  /** `violinData()["reflection_coeff"]` */
  const Reflection: real := 0.9

  /** The friction curve `tanh(-v_relative * pressure * 5)`. */
  function FrictionForce(tr: Transcendental, vRelative: real, pressure: real): (force: real)
    ensures (forall x :: -1.0 < tr.tanh(x) < 1.0) ==> -1.0 < force < 1.0
  {
    tr.tanh(-vRelative * pressure * 5.0)
  }

  /** The force the bow applies when the string moves at `vString`, scaled
      by `0.5 + 0.5 * tension`. */
  function BowForce(tr: Transcendental, vString: real): real
  {
    FrictionForce(tr, BowVelocity - vString, BowPressure) * (0.5 + 0.5 * StringTension)
  }

  /** Since `|tanh| < 1`, the scaled friction stays below 0.9 in magnitude. */
  lemma BowForceBounded(tr: Transcendental, vString: real)
    requires forall x :: -1.0 < tr.tanh(x) < 1.0
    ensures -0.9 < BowForce(tr, vString) < 0.9
  {
    var t := FrictionForce(tr, BowVelocity - vString, BowPressure);
    assert -1.0 < t < 1.0;
  }

  /** Where the bow sits on a line of `len` samples. */
  function BowPosition(len: nat): nat
  {
    len / 3
  }

  /** The value that enters the line: the bow force, computed from the
      string velocity under the bow before anything is written, plus the
      reflected last sample. */
  function BowInput(tr: Transcendental, d: seq<real>): real
    requires |d| >= 1
  {
    BowForce(tr, d[BowPosition(|d|)]) + Reflection * d[|d| - 1]
  }

  /** One sample: the oldest slot leaves and the bow input enters at the
      end. */
  function BowStep(tr: Transcendental, d: seq<real>): (r: seq<real>)
    requires |d| >= 1
    ensures |r| == |d|
  {
    d[1..] + [BowInput(tr, d)]
  }

  /** The line after `i` samples. */
  function BowedLine(tr: Transcendental, d0: seq<real>, i: nat): (d: seq<real>)
    requires |d0| >= 1
    ensures |d| == |d0|
  {
    if i == 0 then d0 else BowStep(tr, BowedLine(tr, d0, i - 1))
  }

  /** `x * damping`, the damping applied on the way out. */
  function Damp(x: real): real
  {
    x * Damping
  }

  /** What the sample loop writes: the damped last slot after each step. */
  function BowedOutput(tr: Transcendental, d0: seq<real>, n: nat): (out: seq<real>)
    requires |d0| >= 1
    ensures |out| == n
  {
    if n == 0 then [] else BowedOutput(tr, d0, n - 1) + [Damp(BowedLine(tr, d0, n)[|d0| - 1])]
  }

  /** Sample `i` of the output is the damped bow input of step `i + 1`,
      computed from the line as it stood before that step. */
  lemma {:induction false} BowedOutputAt(tr: Transcendental, d0: seq<real>, n: nat, i: nat)
    requires |d0| >= 1 && i < n
    ensures BowedOutput(tr, d0, n)[i] == Damp(BowInput(tr, BowedLine(tr, d0, i)))
  {
    if i < n - 1 {
      BowedOutputAt(tr, d0, n - 1, i);
    }
  }

  /** Every slot of a line bounded by 9 stays bounded by 9: a force below
      0.9 plus 0.9 times a value at most 9 is below 9. */
  predicate BoundedBy(d: seq<real>, b: real)
  {
    forall j :: 0 <= j < |d| ==> Abs(d[j]) <= b
  }

  lemma BowStepBounded(tr: Transcendental, d: seq<real>)
    requires forall x :: -1.0 < tr.tanh(x) < 1.0
    requires |d| >= 1 && BoundedBy(d, 9.0)
    ensures BoundedBy(BowStep(tr, d), 9.0)
  {
    BowForceBounded(tr, d[BowPosition(|d|)]);
    assert Abs(d[|d| - 1]) <= 9.0;
  }

  /** The line is stable: started within 9 (zeros, say), it stays within 9
      for ever, given `|tanh| < 1`. */
  lemma {:induction false} BowedLineBounded(tr: Transcendental, d0: seq<real>, i: nat)
    requires forall x :: -1.0 < tr.tanh(x) < 1.0
    requires |d0| >= 1 && BoundedBy(d0, 9.0)
    ensures BoundedBy(BowedLine(tr, d0, i), 9.0)
  {
    if i > 0 {
      BowedLineBounded(tr, d0, i - 1);
      BowStepBounded(tr, BowedLine(tr, d0, i - 1));
    }
  }

  /** One pass of the sample loop's body: read under the bow, write the
      front slot, roll left; returns the new line and the damped last slot. */
  method BowSample(tr: Transcendental, line: seq<real>) returns (next: seq<real>, y: real)
    requires |line| >= 1
    ensures next == BowStep(tr, line) && y == Damp(next[|line| - 1])
  {
    var vString := line[|line| / 3];
    var vRel := BowVelocity - vString;
    var force := FrictionForce(tr, vRel, BowPressure);
    force := force * (0.5 + 0.5 * StringTension);
    next := WriteFirstRollLeft(line, force + Reflection * line[|line| - 1]);
    y := Damp(next[|next| - 1]);
  }

  /** The per-sample loop. */
  method BowLoop(tr: Transcendental, d0: seq<real>, n: nat) returns (out: seq<real>)
    requires |d0| >= 1
    ensures out == BowedOutput(tr, d0, n)
  {
    var line := d0;
    var output := new real[n](_ => 0.0);
    var i := 0;
    while i < n
      invariant 0 <= i <= n && output.Length == n
      invariant line == BowedLine(tr, d0, i)
      invariant output[..i] == BowedOutput(tr, d0, i)
    {
      var y;
      line, y := BowSample(tr, line);
      ghost var written := output[..i];
      output[i] := y;
      assert output[..i + 1] == written + [y];
      i := i + 1;
    }
    out := output[..];
  }

  /** `int(num_samples / (f * tension))` */
  function ViolinDelay(f: real): int
    requires f != 0.0
  {
    DelayLength(NumSamples as real, f * StringTension)
  }

  /** Every green fundamental gets a line of at least 36 samples. */
  lemma GreenDelayLengths(f: seq<real>, k: nat)
    requires IsScale(f) && k < 7
    ensures 36 <= ViolinDelay(f[k])
  {
    DelayAtLeast(NumSamples as real, f[k] * StringTension, 36);
  }

  /** One buffer: the output of a line that starts at rest, divided by its
      peak magnitude. */
  function Voice(tr: Transcendental, len: nat): (b: Buffer)
    requires len >= 1
    ensures b.Length() == NumSamples
    ensures b.Samples? ==> forall i :: 0 <= i < |b.values| ==> -1.0 <= b.values[i] <= 1.0
    ensures b.Samples? ==> exists i :: 0 <= i < |b.values| && Abs(b.values[i]) == 1.0
  {
    NormalizeByPeak(BowedOutput(tr, Zeros(len), NumSamples))
  }

  /** The buffers `makeSound` appends, one per fundamental. */
  function Sounds(tr: Transcendental, freqs: seq<real>): (s: seq<Buffer>)
    requires forall k :: 0 <= k < |freqs| ==> 0.0 < freqs[k] && 1 <= ViolinDelay(freqs[k])
    ensures |s| == |freqs|
  {
    seq(|freqs|, k requires 0 <= k < |freqs| => Voice(tr, ViolinDelay(freqs[k])))
  }

  /** One pass of the body of the frequency loop. */
  method PlayVoice(tr: Transcendental, len: nat) returns (b: Buffer)
    requires len >= 1
    ensures b == Voice(tr, len)
  {
    var out := BowLoop(tr, Zeros(len), NumSamples);
    b := NormalizeByPeak(out);
  }

  class Violin {
    const base: Instrument.Instrument

    /** A new violin has played nothing and belongs to the green group. */
    constructor()
      ensures fresh(base)
      ensures base.soundsInstrumentPlay == [] && base.color == "green"
    {
      var b := new Instrument.Instrument();
      b.color := "green";
      base := b;
    }

    /** Appends one buffer per green fundamental; nothing already played
        changes. */
    method MakeSound(tr: Transcendental)
      modifies base
      ensures base.soundsInstrumentPlay == old(base.soundsInstrumentPlay) + Sounds(tr, GreenFrequencies())
      ensures base.color == old(base.color)
    {
      var freqs := GreenFrequencies();
      forall k | 0 <= k < |freqs| ensures 0.0 < freqs[k] && 1 <= ViolinDelay(freqs[k]) {
        GreenDelayLengths(freqs, k);
      }
      Play(tr, freqs);
    }

    /** The loop over the fundamentals. */
    method Play(tr: Transcendental, freqs: seq<real>)
      requires forall k :: 0 <= k < |freqs| ==> 0.0 < freqs[k] && 1 <= ViolinDelay(freqs[k])
      modifies base
      ensures base.soundsInstrumentPlay == old(base.soundsInstrumentPlay) + Sounds(tr, freqs)
      ensures base.color == old(base.color)
    {
      var all := Sounds(tr, freqs);
      var k := 0;
      while k < |freqs|
        invariant 0 <= k <= |freqs|
        invariant base.soundsInstrumentPlay == old(base.soundsInstrumentPlay) + all[..k]
        invariant base.color == old(base.color)
      {
        var voice := PlayVoice(tr, ViolinDelay(freqs[k]));
        assert all[k] == voice;
        PrefixGrows(all, k);
        base.AddSound(voice);
        k := k + 1;
      }
    }
  }
}
