/** The ukulele: a plucked string started from a triangle whose peak sits at
    the pluck position, run through a deque that averages its two oldest
    samples, then through three body resonances, the ukulele envelope and a
    peak normalisation. */
module Ukulele {
  import opened Signal
  import opened Waveguide
  import opened Returner
  import Instrument

  /** `ukuleleData()["pluck_position"]` */
  const PluckPosition: real := 0.2
  /** `ukuleleData()["pluck_force"]` */
  const PluckForce: real := 1.0
  /** `ukuleleData()["damping"]` */
  const Damping: real := 0.996
  /** `ukuleleData()["body_resonance"]` */
  const BodyResonance: seq<real> := [100.0, 300.0, 800.0]

  /** `Np = int(L * pluck_position)`: the index of the triangle's peak. */
  function PeakIndex(len: nat, pluckPosition: real): int
  {
    Trunc(len as real * pluckPosition)
  }

  /** The rising side, `(pluck_force / Np) * i`. */
  function Rise(force: real, np: int, i: nat): real
    requires np != 0
  {
    (force / np as real) * i as real
  }

  /** The falling side, `pluck_force * (1 - (i - Np) / (L - Np))`. */
  function Fall(force: real, np: int, len: nat, i: nat): real
    requires np != len
  {
    force * (1.0 - Fraction(i - np, len - np))
  }

  /** Sample `i` of the triangle of length `len` peaking at `np`: the rising
      side before the peak, the falling side from it on. Neither side
      divides by zero, as the rising side runs only when `0 <= i < np` and
      the falling side only when `np <= i < len`. The table starts at 0 when
      the peak is not the first sample, and reaches the full force at the
      peak. */
  function TableValue(force: real, np: int, len: nat, i: nat): (v: real)
    requires i < len
    ensures i == 0 < np ==> v == 0.0
    ensures i == np ==> v == force
  {
    if i < np then Rise(force, np, i) else Fall(force, np, len, i)
  }

  /** `j / m` lies in [0, 1) for `0 <= j < m`. */
  lemma FractionInUnit(j: int, m: int)
    requires 0 <= j < m
    ensures 0.0 <= Fraction(j, m) < 1.0
  {
    var q := Fraction(j, m);
    assert q * m as real == j as real;
  }

  /** For a non-negative force every table value lies in [0, force]. */
  lemma TableBounds(force: real, np: int, len: nat, i: nat)
    requires 0.0 <= force && i < len
    ensures 0.0 <= TableValue(force, np, len, i) <= force
  {
    if i < np {
      FractionInUnit(i, np);
      assert Rise(force, np, i) == force * Fraction(i, np);
      NonNegativeBelow(force, Fraction(i, np));
    } else {
      FractionInUnit(i - np, len - np);
      NonNegativeBelow(force, 1.0 - Fraction(i - np, len - np));
    }
  }

  /** `0 <= c * x <= c` for `c >= 0` and `x` in [0, 1]. */
  lemma NonNegativeBelow(c: real, x: real)
    requires 0.0 <= c && 0.0 <= x <= 1.0
    ensures 0.0 <= c * x <= c
  {
    assert c * x <= c * 1.0;
  }

  /** The last sample is not 0 but `force / (L - Np)`. */
  lemma TableLast(force: real, np: int, len: nat)
    requires 0 <= np < len
    ensures TableValue(force, np, len, len - 1) == force / (len - np) as real
  {
    var m := (len - np) as real;
    assert Fraction(len - 1 - np, len - np) == (m - 1.0) / m;
    assert 1.0 - (m - 1.0) / m == 1.0 / m;
  }

  /** For a positive force the table rises strictly up to the peak... */
  lemma TableRises(force: real, np: int, len: nat, i: nat, j: nat)
    requires 0.0 < force && i < j < np && j < len
    ensures TableValue(force, np, len, i) < TableValue(force, np, len, j)
  {
    var c := force / np as real;
    assert 0.0 < c;
    assert c * i as real < c * j as real;
  }

  /** ...and falls strictly from it to the end. */
  lemma TableFalls(force: real, np: int, len: nat, i: nat, j: nat)
    requires 0.0 < force && np <= i < j < len
    ensures TableValue(force, np, len, j) < TableValue(force, np, len, i)
  {
    var m := (len - np) as real;
    assert Fraction(i - np, len - np) < Fraction(j - np, len - np) by {
      assert (i - np) as real < (j - np) as real;
    }
    var x := 1.0 - Fraction(j - np, len - np);
    var y := 1.0 - Fraction(i - np, len - np);
    assert force * x < force * y;
  }

  /** `__create_initial_wave`: the triangle of length `int(delay_length)`,
      written one sample at a time into a zeroed array. */
  method CreateInitialWave(pluckForce: real, pluckPosition: real, delayLength: real) returns (wave: seq<real>)
    requires 0.0 <= delayLength
    ensures |wave| == Trunc(delayLength)
    ensures forall i :: 0 <= i < |wave| ==>
      wave[i] == TableValue(pluckForce, PeakIndex(|wave|, pluckPosition), |wave|, i)
  {
    var len: nat := Trunc(delayLength);
    var np := PeakIndex(len, pluckPosition);
    var w := new real[len](_ => 0.0);
    for i := 0 to len
      invariant forall j :: 0 <= j < i ==> w[j] == TableValue(pluckForce, np, len, j)
    {
      if i < np {
        w[i] := Rise(pluckForce, np, i);
      } else {
        w[i] := Fall(pluckForce, np, len, i);
      }
    }
    wave := w[..];
  }

  /** The per-sample loop over the deque: the damped average of the two
      oldest samples enters on the right and becomes the output sample; the
      oldest leaves on the left. */
  method StringLoop(d0: seq<real>, n: nat) returns (out: seq<real>)
    requires |d0| >= 2
    ensures out == AveragingRun(d0, Steady(Damping), n).1
  {
    var delayLine := d0;
    var output := new real[n](_ => 0.0);
    var i := 0;
    while i < n
      invariant 0 <= i <= n && output.Length == n
      invariant delayLine == AveragingRun(d0, Steady(Damping), i).0
      invariant output[..i] == AveragingRun(d0, Steady(Damping), i).1
    {
      var y := Damping * ((delayLine[0] + delayLine[1]) / 2.0);
      delayLine := AppendPopLeft(delayLine, y);
      output[i] := y;
      assert output[..i + 1] == output[..i] + [y];
      i := i + 1;
    }
    out := output[..];
  }

  /** The starting triangle for a fundamental. */
  function InitialWave(f: real): (w: seq<real>)
    requires 0.0 < f && 0 <= DelayLength(SamplingRate as real, f)
    ensures |w| == DelayLength(SamplingRate as real, f)
  {
    var len := DelayLength(SamplingRate as real, f);
    seq(len, i requires 0 <= i < len => TableValue(PluckForce, PeakIndex(len, PluckPosition), len, i))
  }

  /** The string's output through the three body resonances, times the
      envelope. */
  function Shaped(resonate: ModeFilter, env: seq<real>, f: real): (s: seq<real>)
    requires |env| == NumSamples
    requires 0.0 < f && 2 <= DelayLength(SamplingRate as real, f)
    ensures |s| == NumSamples
  {
    var out := AveragingRun(InitialWave(f), Steady(Damping), NumSamples).1;
    Times(BodyFilters(resonate, out, BodyResonance), env)
  }

  /** One buffer: pluck, run the string, filter, shape and normalise. */
  function Voice(resonate: ModeFilter, env: seq<real>, f: real): (b: Buffer)
    requires |env| == NumSamples
    requires 0.0 < f && 2 <= DelayLength(SamplingRate as real, f)
    ensures b.Length() == NumSamples
    ensures b.Samples? ==> forall i :: 0 <= i < |b.values| ==> -1.0 <= b.values[i] <= 1.0
    ensures b.Samples? ==> exists i :: 0 <= i < |b.values| && Abs(b.values[i]) == 1.0
  {
    NormalizeByPeak(Shaped(resonate, env, f))
  }

  /** One pass of the body of the frequency loop. */
  method PlayVoice(resonate: ModeFilter, env: seq<real>, f: real) returns (b: Buffer)
    requires |env| == NumSamples
    requires 0.0 < f && 2 <= DelayLength(SamplingRate as real, f)
    ensures b == Voice(resonate, env, f)
  {
    var delayLength := SamplingRate as real / f;
    var delayLine := CreateInitialWave(PluckForce, PluckPosition, delayLength);
    assert delayLine == InitialWave(f);
    var output := StringLoop(delayLine, NumSamples);
    output := ApplyBodyFilters(resonate, output, BodyResonance);
    output := Times(output, env);
    b := NormalizeByPeak(output);
  }

  /** The buffers `makeSound` appends, one per fundamental. */
  function Sounds(resonate: ModeFilter, env: seq<real>, freqs: seq<real>): (s: seq<Buffer>)
    requires |env| == NumSamples
    requires forall k :: 0 <= k < |freqs| ==> 0.0 < freqs[k] && 2 <= DelayLength(SamplingRate as real, freqs[k])
    ensures |s| == |freqs|
  {
    seq(|freqs|, k requires 0 <= k < |freqs| => Voice(resonate, env, freqs[k]))
  }

  class Ukulele {
    const base: Instrument.Instrument

    /** A new ukulele has played nothing and belongs to the yellow group. */
    constructor()
      ensures fresh(base)
      ensures base.soundsInstrumentPlay == [] && base.color == "yellow"
    {
      var b := new Instrument.Instrument();
      b.color := "yellow";
      base := b;
    }

    /** Appends one buffer per yellow fundamental, shaped by the ukulele
        envelope; nothing already played changes. */
    method MakeSound(resonate: ModeFilter)
      modifies base
      ensures EnvelopeLayout(UkuleleAdsr, SamplingRate as real, NumSamples).Some?
      ensures base.soundsInstrumentPlay == old(base.soundsInstrumentPlay) +
        Sounds(resonate, EnvelopeLayout(UkuleleAdsr, SamplingRate as real, NumSamples).value, YellowFrequencies())
      ensures base.color == old(base.color)
    {
      var freqs := YellowFrequencies();
      var env := UkuleleADSREnvelopTimeData();
      forall k | 0 <= k < |freqs| ensures 0.0 < freqs[k] && 2 <= DelayLength(SamplingRate as real, freqs[k]) {
        ScaleDelayLengths(freqs, k);
      }
      Play(resonate, env, freqs);
    }

    /** The loop over the fundamentals. */
    method Play(resonate: ModeFilter, env: seq<real>, freqs: seq<real>)
      requires |env| == NumSamples
      requires forall k :: 0 <= k < |freqs| ==> 0.0 < freqs[k] && 2 <= DelayLength(SamplingRate as real, freqs[k])
      modifies base
      ensures base.soundsInstrumentPlay == old(base.soundsInstrumentPlay) + Sounds(resonate, env, freqs)
      ensures base.color == old(base.color)
    {
      var all := Sounds(resonate, env, freqs);
      var k := 0;
      while k < |freqs|
        invariant 0 <= k <= |freqs|
        invariant base.soundsInstrumentPlay == old(base.soundsInstrumentPlay) + all[..k]
        invariant base.color == old(base.color)
      {
        var voice := PlayVoice(resonate, env, freqs[k]);
        PrefixGrows(all, k);
        base.AddSound(voice);
        k := k + 1;
      }
    }
  }
}
