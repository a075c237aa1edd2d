/** The trumpet: a lip valve on a mass-spring oscillator, driving a tube of
    two travelling-wave lines. Each sample the mouthpiece pressure sets the
    pressure drop across the lips, the lips move one semi-implicit Euler
    step, the flow through the valve injects a wave into the right-going
    line, and the left-going line takes back what reaches the bell. */
module Trumpet {
  import opened Signal
  import opened Waveguide
  import opened Returner
  import Instrument

  /** `trumpetData()["blowing_pressure"]`: the dictionary names this key
      twice, and the later value, 2000, is the one it holds. */
  const BlowingPressure: real := 2000.0
  /** `trumpetData()["damping"]` */
  const LipDamping: real := 1.0
  /** `trumpetData()["mouse_open_area_scale"]`, the tube's cross-section. */
  const TubeArea: real := 0.0001
  /** `trumpetData()["rho"]` */
  const Rho: real := 1.204
  /** `trumpetData()["tube_length"]` */
  const TubeLength: real := 1.48
  /** `trumpetData()["a0"]`, `["a1"]` and `["a2"]`: the valve area as a
      quadratic in the lip displacement. */
  const A0: real := 0.000001
  const A1: real := 0.0001
  const A2: real := 0.0
  /** `trumpetData()["Z_scale"]` */
  const ZScale: real := 0.1
  /** `trumpetData()["r_mouth"]` */
  const RMouth: real := -0.95
  /** `trumpetData()["mp_effective_length"]` */
  const MouthpieceLength: real := 0.0
  /** `trumpetData()["use_impedance_conversion"]` */
  const UseImpedanceConversion: bool := true
  /** `trumpetData()["injected_scale"]` */
  const InjectedScale: real := 0.00001
  /** The sample period `dt = 1 / fs`. */
  const Dt: real := 1.0 / SamplingRate as real
  /** The `1e-12` added to the peak before dividing. */
  const Floor: real := 0.000000000001

  /** `max(0.1, tube_length + mp_effective_length)` */
  function EffectiveLength(tube: real, mouthpiece: real): (l: real)
    ensures 0.1 <= l && tube + mouthpiece <= l
    ensures l == 0.1 || l == tube + mouthpiece
  {
    if 0.1 >= tube + mouthpiece then 0.1 else tube + mouthpiece
  }

  /** `max(2, int(effective_length / c * f))`: never fewer than two
      samples, and the truncated count whenever that reaches two. */
  function TubeDelay(f: real): (d: int)
    ensures 2 <= d
    ensures var t := Trunc(EffectiveLength(TubeLength, MouthpieceLength) / SoundSpeed * f);
      (2 <= t ==> d == t) && (t < 2 ==> d == 2)
  {
    var t := Trunc(EffectiveLength(TubeLength, MouthpieceLength) / SoundSpeed * f);
    if 2 >= t then 2 else t
  }

  /** `(2 pi f)**2`, the lip spring constant. */
  function Stiffness(tr: Transcendental, f: real): real
  {
    (2.0 * tr.pi * f) * (2.0 * tr.pi * f)
  }

  /** `Zc = rho * c / tube_area`, the tube's characteristic impedance. */
  const Zc: real := Rho * SoundSpeed / TubeArea

  /** The valve area `max(0, a0 + a1 x + a2 x^2)`. */
  function Valve(x: real): (a: real)
    ensures 0.0 <= a
    ensures 0.0 <= A0 + A1 * x + A2 * x * x ==> a == A0 + A1 * x + A2 * x * x
  {
    var q := A0 + A1 * x + A2 * x * x;
    if 0.0 >= q then 0.0 else q
  }

  /** `np.sign` */
  function Sign(x: real): real
  {
    if x > 0.0 then 1.0 else if x < 0.0 then -1.0 else 0.0
  }

  /** The flow through the lips, `A * sign(dp) * sqrt(2 |dp| / rho)`. */
  function Flow(tr: Transcendental, a: real, dp: real): (u: real)
    ensures dp == 0.0 || a == 0.0 ==> u == 0.0
  {
    a * Sign(dp) * tr.sqrt(2.0 * Abs(dp) / Rho)
  }

  /** No flow without a pressure drop or with the valve shut; with the valve
      open, the flow runs the way the pressure drops. */
  lemma FlowSign(tr: Transcendental, a: real, dp: real)
    requires forall y :: 0.0 < y ==> 0.0 < tr.sqrt(y)
    requires 0.0 <= a
    ensures dp == 0.0 || a == 0.0 ==> Flow(tr, a, dp) == 0.0
    ensures 0.0 < a && 0.0 < dp ==> 0.0 < Flow(tr, a, dp)
    ensures 0.0 < a && dp < 0.0 ==> Flow(tr, a, dp) < 0.0
  {
    if 0.0 < a && dp != 0.0 {
      var s := tr.sqrt(2.0 * Abs(dp) / Rho);
      assert 0.0 < 2.0 * Abs(dp) / Rho;
      assert 0.0 < s;
      assert 0.0 < a * s;
    }
  }

  /** The pressure injected at the mouthpiece: the flow converted through
      the impedance (or by `Z_scale` without the conversion), scaled down. */
  function Injection(tr: Transcendental, a: real, dp: real): real
  {
    var u := Flow(tr, a, dp);
    var p := if UseImpedanceConversion then u * Zc else ZScale * u;
    p * InjectedScale
  }

  /** The lips' acceleration `dp A - damping v - k x`. */
  function Acceleration(dp: real, a: real, v: real, k: real, x: real): real
  {
    dp * a - LipDamping * v - k * x
  }

  /** One semi-implicit Euler step of the lips: the velocity moves first,
      and the displacement moves by the new velocity. */
  function LipStep(x: real, v: real, accel: real): (r: (real, real))
  {
    var v' := v + accel * Dt;
    (x + v' * Dt, v')
  }

  /** Compared with the explicit step `x + v dt`, the displacement picks up
      the extra `accel dt^2` of the velocity already updated. */
  lemma LipStepSemiImplicit(x: real, v: real, accel: real)
    ensures LipStep(x, v, accel).1 == v + accel * Dt
    ensures LipStep(x, v, accel).0 == x + v * Dt + accel * Dt * Dt
  {
  }

  /** The lips and the two lines of the tube. */
  datatype Horn = Horn(x: real, v: real, right: seq<real>, left: seq<real>)

  predicate ValidHorn(h: Horn, len: nat)
  {
    |h.right| == len && |h.left| == len
  }

  /** The mouthpiece pressure `Pc = right[0] + left[0]`. */
  function Mouthpiece(h: Horn): real
    requires |h.right| > 0 && |h.left| > 0
  {
    h.right[0] + h.left[0]
  }

  /** One sample. The right line moves toward its end, evicting its last
      sample, and takes the reflected left wave plus the injection at its
      front; the left line moves toward its front and takes the right
      line's new last sample at its end. */
  function HornStep(tr: Transcendental, k: real, h: Horn): (h': Horn)
    requires |h.right| >= 2 && ValidHorn(h, |h.right|)
    ensures ValidHorn(h', |h.right|)
  {
    var len := |h.right|;
    var dp := BlowingPressure - Mouthpiece(h);
    var a := Valve(h.x);
    var lip := LipStep(h.x, h.v, Acceleration(dp, a, h.v, k, h.x));
    Horn(lip.0, lip.1,
      [RMouth * h.left[1] + Injection(tr, a, dp)] + h.right[..len - 1],
      h.left[1..] + [h.right[len - 2]])
  }

  /** The horn after `i` samples. */
  function HornAt(tr: Transcendental, k: real, h0: Horn, i: nat): (h: Horn)
    requires |h0.right| >= 2 && ValidHorn(h0, |h0.right|)
    ensures ValidHorn(h, |h0.right|)
  {
    if i == 0 then h0 else HornStep(tr, k, HornAt(tr, k, h0, i - 1))
  }

  /** A right-going sample travels one slot toward the bell per step. */
  lemma {:induction false} RightTravels(tr: Transcendental, k: real, h0: Horn, i: nat, j: nat)
    requires |h0.right| >= 2 && ValidHorn(h0, |h0.right|) && i + j < |h0.right|
    ensures HornAt(tr, k, h0, i).right[i + j] == h0.right[j]
  {
    if i > 0 {
      RightTravels(tr, k, h0, i - 1, j);
    }
  }

  /** A left-going sample travels one slot toward the mouthpiece per step. */
  lemma {:induction false} LeftTravels(tr: Transcendental, k: real, h0: Horn, i: nat, j: nat)
    requires |h0.right| >= 2 && ValidHorn(h0, |h0.right|) && i + j < |h0.right|
    ensures HornAt(tr, k, h0, i).left[j] == h0.left[i + j]
  {
    if i > 0 {
      LeftTravels(tr, k, h0, i - 1, j + 1);
    }
  }

  /** The mouthpiece pressure before step `n + 1`, which is the sample the
      loop writes at `n`. */
  function MouthAt(tr: Transcendental, k: real, h0: Horn, n: nat): real
    requires |h0.right| >= 2 && ValidHorn(h0, |h0.right|)
  {
    Mouthpiece(HornAt(tr, k, h0, n))
  }

  /** What the sample loop writes: the mouthpiece pressure read at the top
      of each pass, before the lines move. */
  function HornOutput(tr: Transcendental, k: real, h0: Horn, n: nat): (out: seq<real>)
    requires |h0.right| >= 2 && ValidHorn(h0, |h0.right|)
    ensures |out| == n
  {
    if n == 0 then [] else HornOutput(tr, k, h0, n - 1) + [MouthAt(tr, k, h0, n - 1)]
  }

  lemma {:induction false} HornOutputAt(tr: Transcendental, k: real, h0: Horn, n: nat, i: nat)
    requires |h0.right| >= 2 && ValidHorn(h0, |h0.right|) && i < n
    ensures HornOutput(tr, k, h0, n)[i] == MouthAt(tr, k, h0, i)
  {
    if i < n - 1 {
      HornOutputAt(tr, k, h0, n - 1, i);
    }
  }

  /** One pass of the sample loop's body, with the rolls and writes in the
      source's order. */
  method HornSample(tr: Transcendental, k: real, x: real, v: real, right: seq<real>, left: seq<real>)
    returns (x': real, v': real, right': seq<real>, left': seq<real>, pc: real)
    requires |right| >= 2 && |left| == |right|
    ensures Horn(x', v', right', left') == HornStep(tr, k, Horn(x, v, right, left))
    ensures pc == Mouthpiece(Horn(x, v, right, left))
  {
    pc := right[0] + left[0];
    var dp := BlowingPressure - pc;
    var a := Valve(x);
    var accel := Acceleration(dp, a, v, k, x);
    v' := v + accel * Dt;
    x' := x + v' * Dt;
    var injectP := Injection(tr, a, dp);
    RollRightOne(right);
    RollLeftOne(left);
    right' := Roll(right, 1);
    left' := Roll(left, -1);
    assert left'[0] == left[1];
    right' := right'[0 := RMouth * left'[0] + injectP];
    assert right' == [RMouth * left[1] + injectP] + right[..|right| - 1];
    left' := left'[|left'| - 1 := right'[|right'| - 1]];
    assert left' == left[1..] + [right[|right| - 2]];
  }

  /** The per-sample loop, from lips and tube at rest. */
  method HornLoop(tr: Transcendental, k: real, len: nat, n: nat) returns (out: seq<real>)
    requires len >= 2
    ensures out == HornOutput(tr, k, Horn(0.0, 0.0, Zeros(len), Zeros(len)), n)
  {
    ghost var h0 := Horn(0.0, 0.0, Zeros(len), Zeros(len));
    var right := Zeros(len);
    var left := Zeros(len);
    var x := 0.0;
    var v := 0.0;
    var output := new real[n](_ => 0.0);
    var i := 0;
    while i < n
      invariant 0 <= i <= n && output.Length == n
      invariant Horn(x, v, right, left) == HornAt(tr, k, h0, i)
      invariant output[..i] == HornOutput(tr, k, h0, i)
    {
      var pc;
      x, v, right, left, pc := HornSample(tr, k, x, v, right, left);
      ghost var written := output[..i];
      output[i] := pc;
      assert output[..i + 1] == written + [pc];
      i := i + 1;
    }
    out := output[..];
  }

  /** `output / (max|output| + 1e-12) * 0.95`: every sample ends strictly
      inside (-0.95, 0.95). */
  function Normalize(s: seq<real>): (r: seq<real>)
    requires |s| > 0
    ensures |r| == |s|
    ensures forall i :: 0 <= i < |r| ==> -0.95 < r[i] < 0.95
  {
    var u := NormalizeWithFloor(s, Floor);
    var r := Scale(u, 0.95);
    assert forall i :: 0 <= i < |r| ==> r[i] == u[i] * 0.95;
    r
  }

  /** One buffer for the fundamental `f`. */
  function Voice(tr: Transcendental, f: real): (r: seq<real>)
    ensures |r| == NumSamples
    ensures forall i :: 0 <= i < |r| ==> -0.95 < r[i] < 0.95
  {
    var len := TubeDelay(f);
    Normalize(HornOutput(tr, Stiffness(tr, f), Horn(0.0, 0.0, Zeros(len), Zeros(len)), NumSamples))
  }

  /** The buffers `makeSound` appends, one per fundamental. */
  function Sounds(tr: Transcendental, freqs: seq<real>): (s: seq<Buffer>)
    ensures |s| == |freqs|
  {
    seq(|freqs|, k requires 0 <= k < |freqs| => Samples(Voice(tr, freqs[k])))
  }

  /** One pass of the body of the frequency loop. */
  method PlayVoice(tr: Transcendental, f: real) returns (r: seq<real>)
    ensures r == Voice(tr, f)
  {
    var len := TubeDelay(f);
    var out := HornLoop(tr, Stiffness(tr, f), len, NumSamples);
    r := Normalize(out);
  }

  class Trumpet {
    const base: Instrument.Instrument

    /** A new trumpet has played nothing and belongs to the red group. */
    constructor()
      ensures fresh(base)
      ensures base.soundsInstrumentPlay == [] && base.color == "red"
    {
      var b := new Instrument.Instrument();
      b.color := "red";
      base := b;
    }

    /** Appends one buffer per red fundamental; nothing already played
        changes. */
    method MakeSound(tr: Transcendental)
      modifies base
      ensures base.soundsInstrumentPlay == old(base.soundsInstrumentPlay) + Sounds(tr, RedFrequencies())
      ensures base.color == old(base.color)
    {
      Play(tr, RedFrequencies());
    }

    /** The loop over the fundamentals. */
    method Play(tr: Transcendental, freqs: seq<real>)
      modifies base
      ensures base.soundsInstrumentPlay == old(base.soundsInstrumentPlay) + Sounds(tr, freqs)
      ensures base.color == old(base.color)
    {
      var all := Sounds(tr, freqs);
      var k := 0;
      while k < |freqs|
        invariant 0 <= k <= |freqs|
        invariant base.soundsInstrumentPlay == old(base.soundsInstrumentPlay) + all[..k]
        invariant base.color == old(base.color)
      {
        var voice := PlayVoice(tr, freqs[k]);
        assert all[k] == Samples(voice);
        PrefixGrows(all, k);
        base.AddSound(Samples(voice));
        k := k + 1;
      }
    }
  }
}
