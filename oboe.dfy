/** The oboe: a reed valve driving a bore of two travelling-wave lines.
    Each sample the pressure difference across the reed opens a flow, the
    flow injects a wave at the mouthpiece end of the right-going line, and
    the left-going line takes back a faint reflection of what reaches the
    bell. */
module Oboe {
  import opened Signal
  import opened Waveguide
  import opened Returner
  import Instrument

  /** `oboeData()["blowing_pressure"]` */
  const BlowingPressure: real := 0.6
  /** `oboeData()["alpha"]` */
  const Alpha: real := 0.3
  /** `oboeData()["threshold"]` */
  const Threshold: real := 0.3
  /** `oboeData()["rho"]` */
  const Rho: real := 1.204
  /** `oboeData()["reflection"]` */
  const Reflection: real := -0.001

  /** The blowing pressure at sample `n`, with a 5 Hz wobble of half a
      percent. */
  function MouthPressure(tr: Transcendental, n: nat): real
  {
    BlowingPressure * (1.0 + 0.005 * tr.sin(2.0 * tr.pi * 5.0 * n as real / SamplingRate as real))
  }

  /** The reed flow for a pressure difference `deltaP`: nothing at or below
      the threshold, `alpha` times the excess above it, floored at 0. The
      flow is never negative, and it is zero exactly when the pressure
      difference does not exceed the threshold. */
  function ReedFlow(deltaP: real): (u: real)
    ensures 0.0 <= u
    ensures u == 0.0 <==> deltaP <= Threshold
    ensures deltaP > Threshold ==> u == Alpha * (deltaP - Threshold)
  {
    if deltaP > Threshold then
      var u := Alpha * (deltaP - Threshold);
      if 0.0 > u then 0.0 else u
    else 0.0
  }

  /** The characteristic impedance `Z0 = c * rho`. */
  const Impedance: real := SoundSpeed * Rho

  /** The two lines of the bore. */
  datatype Bore = Bore(right: seq<real>, left: seq<real>)
  {
    predicate Valid(len: nat)
    {
      |right| == len && |left| == len
    }
  }

  /** The wave injected at the mouthpiece: what comes back on the left line
      plus half the flow times the impedance. */
  function Injected(tr: Transcendental, b: Bore, n: nat): real
    requires |b.right| > 0 && |b.left| > 0
  {
    var deltaP := MouthPressure(tr, n) - (b.right[0] + b.left[0]);
    b.left[0] + Impedance * ReedFlow(deltaP) / 2.0
  }

  /** The right line after `right[0] = v` and a roll by one: the injected
      value lands at index 1 and the old last sample wraps to index 0. */
  function InjectRight(r: seq<real>, v: real): (r': seq<real>)
    requires |r| > 0
    ensures |r'| == |r|
  {
    if |r| == 1 then [v] else [r[|r| - 1], v] + r[1..|r| - 1]
  }

  /** One sample of the bore. The left line moves toward its front and takes
      a reflection of the right line's new last sample. */
  function BoreStep(tr: Transcendental, b: Bore, n: nat): (b': Bore)
    requires |b.right| > 0 && b.Valid(|b.right|)
    ensures b'.Valid(|b.right|)
  {
    var right := InjectRight(b.right, Injected(tr, b, n));
    Bore(right, b.left[1..] + [Reflection * right[|right| - 1]])
  }

  /** The bore after `i` samples. */
  function BoreAt(tr: Transcendental, b0: Bore, i: nat): (b: Bore)
    requires |b0.right| > 0 && b0.Valid(|b0.right|)
    ensures b.Valid(|b0.right|)
  {
    if i == 0 then b0 else BoreStep(tr, BoreAt(tr, b0, i - 1), i - 1)
  }

  /** What leaves the bell: the last samples of the two lines, summed. */
  function Bell(b: Bore): real
    requires |b.right| > 0 && |b.left| > 0
  {
    b.right[|b.right| - 1] + b.left[|b.left| - 1]
  }

  /** What the sample loop writes: the bell after each step. */
  function BoreOutput(tr: Transcendental, b0: Bore, n: nat): (out: seq<real>)
    requires |b0.right| > 0 && b0.Valid(|b0.right|)
    ensures |out| == n
  {
    if n == 0 then [] else BoreOutput(tr, b0, n - 1) + [BellAt(tr, b0, n)]
  }

  /** The bell after `n` steps. */
  function BellAt(tr: Transcendental, b0: Bore, n: nat): real
    requires |b0.right| > 0 && b0.Valid(|b0.right|)
  {
    Bell(BoreAt(tr, b0, n))
  }

  /** One more step of the loop: the bore takes one step, and the output
      grows by the bell of the new bore. */
  lemma BoreOutputGrows(tr: Transcendental, b0: Bore, i: nat, right: seq<real>, left: seq<real>, y: real)
    requires |b0.right| > 0 && b0.Valid(|b0.right|)
    requires Bore(right, left) == BoreStep(tr, BoreAt(tr, b0, i), i) && y == Bell(Bore(right, left))
    ensures Bore(right, left) == BoreAt(tr, b0, i + 1)
    ensures BoreOutput(tr, b0, i + 1) == BoreOutput(tr, b0, i) + [y]
  {
  }

  /** Sample `i` of the output is the bell after `i + 1` steps. */
  lemma {:induction false} BoreOutputAt(tr: Transcendental, b0: Bore, n: nat, i: nat)
    requires |b0.right| > 0 && b0.Valid(|b0.right|) && i < n
    ensures BoreOutput(tr, b0, n)[i] == BellAt(tr, b0, i + 1)
  {
    var before := BoreOutput(tr, b0, n - 1);
    var last := BellAt(tr, b0, n);
    assert BoreOutput(tr, b0, n) == before + [last];
    if i < n - 1 {
      BoreOutputAt(tr, b0, n - 1, i);
      assert (before + [last])[i] == before[i];
    }
  }

  /** On a bore of three or more samples a step moves the right line one
      place toward its end, so the bell hears the right line's old
      next-to-last sample, and a faint reflection of it goes back. (On two
      samples the injected wave reaches the bell at once.) */
  lemma BoreStepBell(tr: Transcendental, b: Bore, n: nat)
    requires |b.right| >= 3 && b.Valid(|b.right|)
    ensures var b' := BoreStep(tr, b, n);
      b'.right[|b.right| - 1] == b.right[|b.right| - 2] &&
      b'.left[|b.left| - 1] == Reflection * b.right[|b.right| - 2] &&
      Bell(b') == (1.0 + Reflection) * b.right[|b.right| - 2]
  {
  }

  /** One pass of the sample loop's body, on the two lines. */
  method BoreSample(tr: Transcendental, right: seq<real>, left: seq<real>, n: nat)
    returns (right': seq<real>, left': seq<real>, y: real)
    requires |right| > 0 && |left| == |right|
    ensures Bore(right', left') == BoreStep(tr, Bore(right, left), n)
    ensures y == Bell(Bore(right', left'))
  {
    var pB := MouthPressure(tr, n);
    var pC := right[0] + left[0];
    var deltaP := pB - pC;
    var u;
    if deltaP > Threshold {
      u := Alpha * (deltaP - Threshold);
      if 0.0 > u {
        u := 0.0;
      }
    } else {
      u := 0.0;
    }
    var z0 := SoundSpeed * Rho;
    var pPlusNew := left[0] + z0 * u / 2.0;
    assert u == ReedFlow(deltaP);
    assert z0 == Impedance;
    assert pPlusNew == Injected(tr, Bore(right, left), n);
    right' := WriteFirstRollRight(right, pPlusNew);
    left' := RollLeftWriteLast(left, Reflection * right'[|right'| - 1]);
    y := right'[|right'| - 1] + left'[|left'| - 1];
  }

  /** `output[i] = y`: the written prefix grows by `y`. */
  method WriteSample(output: array<real>, i: nat, y: real)
    requires i < output.Length
    modifies output
    ensures output[..i + 1] == old(output[..i]) + [y]
  {
    ghost var written := output[..i];
    output[i] := y;
    assert output[..i + 1] == written + [y];
  }

  /** The per-sample loop. */
  method BoreLoop(tr: Transcendental, len: nat, n: nat) returns (out: seq<real>)
    requires len > 0
    ensures out == BoreOutput(tr, Bore(Zeros(len), Zeros(len)), n)
  {
    ghost var b0 := Bore(Zeros(len), Zeros(len));
    var right := Zeros(len);
    var left := Zeros(len);
    var output := new real[n](_ => 0.0);
    var i := 0;
    while i < n
      invariant 0 <= i <= n && output.Length == n
      invariant Bore(right, left) == BoreAt(tr, b0, i)
      invariant output[..i] == BoreOutput(tr, b0, i)
    {
      var y;
      right, left, y := BoreSample(tr, right, left, i);
      BoreOutputGrows(tr, b0, i, right, left, y);
      WriteSample(output, i, y);
      i := i + 1;
    }
    out := output[..];
  }

  /** `int(fs / (2 f))`: each line spans half a period. */
  function BoreLength(f: real): int
    requires f != 0.0
  {
    DelayLength(SamplingRate as real, 2.0 * f)
  }

  /** Every red fundamental gets lines of at least 18 samples. */
  lemma RedBoreLengths(f: seq<real>, k: nat)
    requires IsScale(f) && k < 7
    ensures 18 <= BoreLength(f[k])
  {
    DelayAtLeast(SamplingRate as real, 2.0 * f[k], 18);
  }

  /** One buffer: the bell output of a bore at rest, divided by its peak
      magnitude. */
  function Voice(tr: Transcendental, len: nat): (b: Buffer)
    requires len > 0
    ensures b.Length() == NumSamples
    ensures b.Samples? ==> forall i :: 0 <= i < |b.values| ==> -1.0 <= b.values[i] <= 1.0
    ensures b.Samples? ==> exists i :: 0 <= i < |b.values| && Abs(b.values[i]) == 1.0
  {
    NormalizeByPeak(BoreOutput(tr, Bore(Zeros(len), Zeros(len)), NumSamples))
  }

  /** The buffers `makeSound` appends, one per fundamental. */
  function Sounds(tr: Transcendental, freqs: seq<real>): (s: seq<Buffer>)
    requires forall k :: 0 <= k < |freqs| ==> 0.0 < freqs[k] && 1 <= BoreLength(freqs[k])
    ensures |s| == |freqs|
  {
    seq(|freqs|, k requires 0 <= k < |freqs| => Voice(tr, BoreLength(freqs[k])))
  }

  /** One pass of the body of the frequency loop. */
  method PlayVoice(tr: Transcendental, len: nat) returns (b: Buffer)
    requires len > 0
    ensures b == Voice(tr, len)
  {
    var out := BoreLoop(tr, len, NumSamples);
    b := NormalizeByPeak(out);
  }

  class Oboe {
    const base: Instrument.Instrument

    /** A new oboe has played nothing and belongs to the red group. */
    constructor()
      ensures fresh(base)
      ensures base.soundsInstrumentPlay == [] && base.color == "red"
    {
      var b := new Instrument.Instrument();
      b.color := "red";
      base := b;
    }

    /** Appends one buffer per red fundamental; nothing already played
        changes. */
    method MakeSound(tr: Transcendental)
      modifies base
      ensures base.soundsInstrumentPlay == old(base.soundsInstrumentPlay) + Sounds(tr, RedFrequencies())
      ensures base.color == old(base.color)
    {
      var freqs := RedFrequencies();
      forall k | 0 <= k < |freqs| ensures 0.0 < freqs[k] && 1 <= BoreLength(freqs[k]) {
        RedBoreLengths(freqs, k);
      }
      Play(tr, freqs);
    }

    /** The loop over the fundamentals. */
    method Play(tr: Transcendental, freqs: seq<real>)
      requires forall k :: 0 <= k < |freqs| ==> 0.0 < freqs[k] && 1 <= BoreLength(freqs[k])
      modifies base
      ensures base.soundsInstrumentPlay == old(base.soundsInstrumentPlay) + Sounds(tr, freqs)
      ensures base.color == old(base.color)
    {
      var all := Sounds(tr, freqs);
      var k := 0;
      while k < |freqs|
        invariant 0 <= k <= |freqs|
        invariant base.soundsInstrumentPlay == old(base.soundsInstrumentPlay) + all[..k]
        invariant base.color == old(base.color)
      {
        var voice := PlayVoice(tr, BoreLength(freqs[k]));
        assert all[k] == voice;
        PrefixGrows(all, k);
        base.AddSound(voice);
        k := k + 1;
      }
    }
  }
}
