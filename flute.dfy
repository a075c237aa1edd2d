/** The flute: a noisy jet feeding a delay line of its own, whose deflection
    drives a pipe of two travelling-wave lines. Each sample the jet line
    takes the breath pressure, the jet model turns the jet line into a
    pressure, and that pressure plus the damped reflection enters the
    right-going line; the left-going line takes back the inverted wave that
    reaches the open end. */
module Flute {
  import opened Signal
  import opened Waveguide
  import opened Returner
  import Instrument

  /** `fluteData()["blowing_pressure"]` */
  const BlowingPressure: real := 0.4
  /** `fluteData()["jet_delay"]`, the jet line's share of the pipe length. */
  const JetDelay: real := 0.25
  /** `fluteData()["damping"]` */
  const Damping: real := 0.999
  /** `fluteData()["noise_level"]` */
  const NoiseLevel: real := 0.02
  /** `jet_state`, set once before the sample loop and never updated. */
  const JetState: real := 0.0

  /** The jet model (`__proposedJetOscillation`): the pressure the jet
      produces from the jet line and the fundamental. Its complex arithmetic
      is not part of this model. */
  type JetModel = (seq<real>, real) -> real

  /** `int(fs * 2 * pipe_length / c)` with `pipe_length = c / (2 f)`. In
      exact arithmetic the speed of sound cancels: the pipe is `fs / f`
      samples long, as for the plucked strings. */
  function PipeDelay(f: real): (len: int)
    requires 0.0 < f
    ensures len == DelayLength(SamplingRate as real, f)
  {
    var pipeLength := SoundSpeed / (2.0 * f);
    assert pipeLength * (2.0 * f) == SoundSpeed;
    assert SamplingRate as real * 2.0 * pipeLength / SoundSpeed == SamplingRate as real / f by {
      calc {
        SamplingRate as real * 2.0 * pipeLength / SoundSpeed;
        SamplingRate as real * (pipeLength * (2.0 * f)) / SoundSpeed / f;
        SamplingRate as real / f;
      }
    }
    Trunc(SamplingRate as real * 2.0 * pipeLength / SoundSpeed)
  }

  /** `int(jet_delay * delay_length)` */
  function JetLength(len: nat): nat
  {
    Trunc(JetDelay * len as real)
  }

  /** A pipe of four or more samples has a jet line of at least one. */
  lemma JetLengthPositive(len: nat)
    requires 4 <= len
    ensures 1 <= JetLength(len) <= len
  {
  }

  /** The breath at sample `n` of the `k`-th note: the blowing pressure
      plus scaled Gaussian noise, `draws(k, n)` being the `n`-th `randn()`
      of that note. */
  function PressureIn(draws: Draws, k: nat, n: nat): real
  {
    BlowingPressure + NoiseLevel * draws(k, n)
  }

  /** The jet line after `jet = np.roll(jet, -1); jet[0] = v`: the new value
      goes to the front, the old front wraps to the end and the old second
      sample is lost. */
  function JetShift(a: seq<real>, v: real): (r: seq<real>)
    requires |a| >= 1
    ensures |r| == |a| && r[0] == v
  {
    if |a| == 1 then [v] else [v] + a[2..] + [a[0]]
  }

  /** The jet line and the two lines of the pipe. */
  datatype Pipe = Pipe(jet: seq<real>, right: seq<real>, left: seq<real>)

  predicate ValidPipe(s: Pipe, jetLen: nat, len: nat)
  {
    |s.jet| == jetLen && |s.right| == len && |s.left| == len
  }

  /** One sample of note `k` at sample index `n`. The reflection is read
      from the left line before it moves. The right line moves toward its
      end and takes the jet pressure plus the damped reflection; the left
      line moves toward its front and takes the inverted new end of the
      right line. */
  function PipeStep(jetModel: JetModel, f: real, p: real, s: Pipe): (s': Pipe)
    requires 1 <= |s.jet| && 1 <= |s.right| && ValidPipe(s, |s.jet|, |s.right|)
    ensures ValidPipe(s', |s.jet|, |s.right|)
  {
    var jet := JetShift(s.jet, p - JetState);
    var jetOutput := jetModel(jet, f);
    var right := [jetOutput + s.left[|s.left| - 1] * Damping] + s.right[..|s.right| - 1];
    Pipe(jet, right, s.left[1..] + [-right[|right| - 1]])
  }

  /** The pipe after `n` samples of note `k`, and what the sample loop
      writes on the way: the end of the right line after each step. */
  function PipeRun(jetModel: JetModel, f: real, draws: Draws, k: nat, s0: Pipe, n: nat): (r: (Pipe, seq<real>))
    requires 1 <= |s0.jet| && 1 <= |s0.right| && ValidPipe(s0, |s0.jet|, |s0.right|)
    ensures ValidPipe(r.0, |s0.jet|, |s0.right|) && |r.1| == n
  {
    if n == 0 then (s0, [])
    else
      var prev := PipeRun(jetModel, f, draws, k, s0, n - 1);
      var s := PipeStep(jetModel, f, PressureIn(draws, k, n - 1), prev.0);
      (s, prev.1 + [s.right[|s.right| - 1]])
  }

  /** Sample `i` of the output is the end of the right line after `i + 1`
      steps; later steps do not change it. */
  lemma {:induction false} PipeOutputAt(jetModel: JetModel, f: real, draws: Draws, k: nat, s0: Pipe, n: nat, i: nat)
    requires 1 <= |s0.jet| && 1 <= |s0.right| && ValidPipe(s0, |s0.jet|, |s0.right|) && i < n
    ensures var s := PipeRun(jetModel, f, draws, k, s0, i + 1).0;
      PipeRun(jetModel, f, draws, k, s0, n).1[i] == s.right[|s.right| - 1]
  {
    var prev := PipeRun(jetModel, f, draws, k, s0, n - 1);
    var s := PipeStep(jetModel, f, PressureIn(draws, k, n - 1), prev.0);
    assert PipeRun(jetModel, f, draws, k, s0, n).1 == prev.1 + [s.right[|s.right| - 1]];
    if i < n - 1 {
      PipeOutputAt(jetModel, f, draws, k, s0, n - 1, i);
      assert (prev.1 + [s.right[|s.right| - 1]])[i] == prev.1[i];
    }
  }

  /** On a pipe of two or more samples the open end hears the right line's
      old next-to-last sample, the left line takes it back inverted, and the
      jet line's front holds the breath just taken. */
  lemma PipeStepOpenEnd(jetModel: JetModel, f: real, p: real, s: Pipe)
    requires 1 <= |s.jet| && 2 <= |s.right| && ValidPipe(s, |s.jet|, |s.right|)
    ensures var s' := PipeStep(jetModel, f, p, s);
      s'.right[|s.right| - 1] == s.right[|s.right| - 2] &&
      s'.left[|s.left| - 1] == -s.right[|s.right| - 2] &&
      s'.left[..|s.left| - 1] == s.left[1..] &&
      s'.jet[0] == p
  {
  }

  /** One pass of the sample loop's body, with the rolls and writes in the
      source's order. */
  method PipeSample(jetModel: JetModel, f: real, pressureIn: real, s: Pipe) returns (s': Pipe, y: real)
    requires 1 <= |s.jet| && 1 <= |s.right| && ValidPipe(s, |s.jet|, |s.right|)
    ensures s' == PipeStep(jetModel, f, pressureIn, s)
    ensures y == s'.right[|s'.right| - 1]
  {
    var right, left := s.right, s.left;
    var pReflected := left[|left| - 1];
    var jetInput := pressureIn - JetState;
    var jet := RollLeftWriteFirst(s.jet, jetInput);
    var jetOutput := jetModel(jet, f);
    RollLeftOne(left);
    RollRightOne(right);
    left := Roll(left, -1);
    right := Roll(right, 1);
    right := right[0 := jetOutput + pReflected * Damping];
    assert right == [jetOutput + pReflected * Damping] + s.right[..|s.right| - 1];
    left := left[|left| - 1 := -right[|right| - 1]];
    assert left == s.left[1..] + [-right[|right| - 1]];
    y := right[|right| - 1];
    s' := Pipe(jet, right, left);
  }

  /** Sample `i` of note `k`: the pass that takes the run from `i` to
      `i + 1` steps. */
  method PipeTick(jetModel: JetModel, f: real, draws: Draws, k: nat, s0: Pipe, i: nat, s: Pipe) returns (s': Pipe, y: real)
    requires 1 <= |s0.jet| && 1 <= |s0.right| && ValidPipe(s0, |s0.jet|, |s0.right|)
    requires s == PipeRun(jetModel, f, draws, k, s0, i).0
    ensures s' == PipeRun(jetModel, f, draws, k, s0, i + 1).0
    ensures PipeRun(jetModel, f, draws, k, s0, i + 1).1 == PipeRun(jetModel, f, draws, k, s0, i).1 + [y]
  {
    s', y := PipeSample(jetModel, f, PressureIn(draws, k, i), s);
  }

  /** The per-sample loop of note `k`. */
  method PipeLoop(jetModel: JetModel, f: real, draws: Draws, k: nat, s0: Pipe, n: nat) returns (out: seq<real>)
    requires 1 <= |s0.jet| && 1 <= |s0.right| && ValidPipe(s0, |s0.jet|, |s0.right|)
    ensures out == PipeRun(jetModel, f, draws, k, s0, n).1
  {
    var s := s0;
    out := [];
    var i := 0;
    while i < n
      invariant 0 <= i <= n
      invariant s == PipeRun(jetModel, f, draws, k, s0, i).0
      invariant out == PipeRun(jetModel, f, draws, k, s0, i).1
    {
      var y;
      s, y := PipeTick(jetModel, f, draws, k, s0, i, s);
      out := out + [y];
      i := i + 1;
    }
  }

  /** Every green fundamental gets a pipe of at least 36 samples. */
  lemma GreenPipeDelays(f: seq<real>, k: nat)
    requires IsScale(f) && k < 7
    ensures 0.0 < f[k] && 36 <= PipeDelay(f[k])
  {
    DelayAtLeast(SamplingRate as real, f[k], 36);
  }

  /** One buffer: the open-end output of note `k`, divided by its peak
      magnitude. */
  function Voice(jetModel: JetModel, draws: Draws, k: nat, f: real): (b: Buffer)
    requires 0.0 < f && 4 <= PipeDelay(f)
    ensures b.Length() == NumSamples
    ensures b.Samples? ==> forall i :: 0 <= i < |b.values| ==> -1.0 <= b.values[i] <= 1.0
    ensures b.Samples? ==> exists i :: 0 <= i < |b.values| && Abs(b.values[i]) == 1.0
  {
    var len := PipeDelay(f);
    NormalizeByPeak(PipeRun(jetModel, f, draws, k, Pipe(Zeros(JetLength(len)), Zeros(len), Zeros(len)), NumSamples).1)
  }

  /** The buffers `makeSound` appends, one per fundamental. */
  function Sounds(jetModel: JetModel, draws: Draws, freqs: seq<real>): (s: seq<Buffer>)
    requires forall k :: 0 <= k < |freqs| ==> 0.0 < freqs[k] && 4 <= PipeDelay(freqs[k])
    ensures |s| == |freqs|
  {
    seq(|freqs|, k requires 0 <= k < |freqs| => Voice(jetModel, draws, k, freqs[k]))
  }

  /** One pass of the body of the frequency loop. */
  method PlayVoice(jetModel: JetModel, draws: Draws, k: nat, f: real) returns (b: Buffer)
    requires 0.0 < f && 4 <= PipeDelay(f)
    ensures b == Voice(jetModel, draws, k, f)
  {
    var len := PipeDelay(f);
    JetLengthPositive(len);
    var out := PipeLoop(jetModel, f, draws, k, Pipe(Zeros(JetLength(len)), Zeros(len), Zeros(len)), NumSamples);
    b := NormalizeByPeak(out);
  }

  class Flute {
    const base: Instrument.Instrument

    /** A new flute has played nothing and belongs to the green group. */
    constructor()
      ensures fresh(base)
      ensures base.soundsInstrumentPlay == [] && base.color == "green"
    {
      var b := new Instrument.Instrument();
      b.color := "green";
      base := b;
    }

    /** Appends one buffer per green fundamental; nothing already played
        changes. */
    method MakeSound(jetModel: JetModel, draws: Draws)
      modifies base
      ensures base.soundsInstrumentPlay == old(base.soundsInstrumentPlay) + Sounds(jetModel, draws, GreenFrequencies())
      ensures base.color == old(base.color)
    {
      var freqs := GreenFrequencies();
      forall k | 0 <= k < |freqs| ensures 0.0 < freqs[k] && 4 <= PipeDelay(freqs[k]) {
        GreenPipeDelays(freqs, k);
      }
      Play(jetModel, draws, freqs);
    }

    /** The loop over the fundamentals. */
    method Play(jetModel: JetModel, draws: Draws, freqs: seq<real>)
      requires forall k :: 0 <= k < |freqs| ==> 0.0 < freqs[k] && 4 <= PipeDelay(freqs[k])
      modifies base
      ensures base.soundsInstrumentPlay == old(base.soundsInstrumentPlay) + Sounds(jetModel, draws, freqs)
      ensures base.color == old(base.color)
    {
      var all := Sounds(jetModel, draws, freqs);
      var k := 0;
      while k < |freqs|
        invariant 0 <= k <= |freqs|
        invariant base.soundsInstrumentPlay == old(base.soundsInstrumentPlay) + all[..k]
        invariant base.color == old(base.color)
      {
        var voice := PlayVoice(jetModel, draws, k, freqs[k]);
        assert all[k] == voice;
        PrefixGrows(all, k);
        base.AddSound(voice);
        k := k + 1;
      }
    }
  }
}
