/** The builders every instrument draws its constants from: the sound-wave
    record, the four frequency tables, the time axis, the ADSR envelope and
    the piano's two-pole resonator. */
module Returner {
  import opened Signal

  datatype Option<T> = None | Some(value: T)

  const SamplingRate: nat := 44100
  const Duration: real := 1.0
  const NumSamples: nat := 44100
  const SoundSpeed: real := 343.0

  /** The dictionary `soundWaveData` returns. */
  datatype SoundWave = SoundWave(samplingRate: nat, duration: real, numSamples: nat, dt: real, soundSpeed: real)

  /** One second at 44.1 kHz: the sample count is rate times duration and
      the step is the reciprocal of the rate. */
  function SoundWaveData(): (w: SoundWave)
    ensures 0 < w.samplingRate && 0.0 < w.soundSpeed
    ensures w.numSamples as real == w.samplingRate as real * w.duration
    ensures w.dt * w.samplingRate as real == 1.0
  {
    SoundWave(SamplingRate, Duration, NumSamples, 1.0 / 44100.0, SoundSpeed)
  }

  /** Seven positive fundamentals in strictly increasing order, all below
      1200 Hz. */
  predicate IsScale(f: seq<real>)
  {
    |f| == 7 && 0.0 < f[0] && f[6] < 1200.0 && forall i, j :: 0 <= i < j < |f| ==> f[i] < f[j]
  }

  function BlueFrequencies(): (f: seq<real>)
    ensures IsScale(f)
  {
    [220.00, 233.08, 246.94, 256.0, 261.62, 277.178, 293.66]
  }

  function GreenFrequencies(): (f: seq<real>)
    ensures IsScale(f)
  {
    [349.23, 370.00, 392.00, 408.0, 415.31, 440.01, 466.17]
  }

  function RedFrequencies(): (f: seq<real>)
    ensures IsScale(f)
  {
    [880.01, 932.33, 987.77, 1027.0, 1046.51, 1108.74, 1174.67]
  }

  function YellowFrequencies(): (f: seq<real>)
    ensures IsScale(f)
  {
    [554.36, 587.33, 622.25, 647.0, 659.25, 698.45, 739.98]
  }

  /** `np.linspace(start, stop, num, endpoint=False)`: `num` points spaced
      by `(stop - start) / num`, starting at `start` and stopping one step
      short of `stop`. */
  function Linspace(start: real, stop: real, num: nat): (xs: seq<real>)
    ensures |xs| == num
    ensures 0 < num ==> xs[0] == start
  {
    seq(num, k requires 0 <= k < num => LinPoint(start, stop, num, k))
  }

  /** Point `k` of `Linspace(start, stop, num)`. */
  function LinPoint(start: real, stop: real, num: nat, k: int): (x: real)
    requires 0 < num
    ensures k == 0 ==> x == start
    ensures k == num ==> x == stop
  {
    start + k as real * ((stop - start) / num as real)
  }

  /** The time axis: `floor(rate * duration)` instants `k / rate`, starting
      at 0 and stopping short of the duration. */
  function ReturnTimeData(): (t: seq<real>)
    ensures |t| == NumSamples
    ensures forall k :: 0 <= k < |t| ==> t[k] == k as real / 44100.0
    ensures t[0] == 0.0
    ensures forall k :: 0 <= k < |t| ==> 0.0 <= t[k] < Duration
  {
    var w := SoundWaveData();
    var t := Linspace(0.0, w.duration, Trunc(w.samplingRate as real * w.duration));
    assert forall k :: 0 <= k < |t| ==> t[k] == k as real / 44100.0;
    t
  }

  // ---------------------------------------------------------------------
  // ADSR envelope

  /** The dictionary `ADSREnvelopFloatValue` returns: three durations in
      seconds and the sustain level. */
  datatype Adsr = Adsr(attack: real, decay: real, sustain: real, release: real)

  /** Sample counts of the four segments. */
  datatype Segments = Segments(a: int, d: int, s: int, r: int)

  /** Attack, decay and release are `int(rate * seconds)`; sustain takes what
      is left, so the four always add up to the buffer length, and the
      sustain count is negative when the other three overrun it. */
  function SegmentCounts(adsr: Adsr, fs: real, n: nat): (g: Segments)
    ensures g.a + g.d + g.s + g.r == n
    ensures g.a == Trunc(fs * adsr.attack) && g.d == Trunc(fs * adsr.decay) && g.r == Trunc(fs * adsr.release)
  {
    var a := Trunc(fs * adsr.attack);
    var d := Trunc(fs * adsr.decay);
    var r := Trunc(fs * adsr.release);
    Segments(a, d, n - (a + d + r), r)
  }

  /** The index range `[lo, hi)` a Python slice selects from `n` elements. */
  datatype Slice = Slice(lo: nat, hi: nat)

  /** A slice bound after Python's normalisation: a negative bound counts
      from the end, and bounds are clipped to `[0, n]`. */
  function SliceBound(i: int, n: nat): (j: nat)
    ensures j <= n
    ensures 0 <= i <= n ==> j == i
    ensures i < 0 <= n + i ==> j == n + i
  {
    if i < 0 then (if i + n < 0 then 0 else i + n) else if i > n then n else i
  }

  function PySlice(start: int, stop: int, n: nat): (s: Slice)
    ensures s.lo <= s.hi <= n
  {
    var lo := SliceBound(start, n);
    var hi := SliceBound(stop, n);
    Slice(lo, if hi < lo then lo else hi)
  }

  /** `env[lo:hi] = v`: numpy accepts a value of the slice's length or of
      length one (broadcast to the whole slice), and raises otherwise. */
  function Assign(env: seq<real>, sl: Slice, v: seq<real>): (r: Option<seq<real>>)
    requires sl.lo <= sl.hi <= |env|
    ensures r.Some? <==> |v| == sl.hi - sl.lo || |v| == 1
    ensures r.Some? ==> |r.value| == |env|
    ensures r.Some? ==> forall i :: 0 <= i < |env| && !(sl.lo <= i < sl.hi) ==> r.value[i] == env[i]
    ensures r.Some? ==> forall i :: sl.lo <= i < sl.hi ==> r.value[i] == (if |v| == 1 then v[0] else v[i - sl.lo])
  {
    if |v| == sl.hi - sl.lo || |v| == 1 then
      Some(seq(|env|, i requires 0 <= i < |env| =>
        if sl.lo <= i < sl.hi then (if |v| == 1 then v[0] else v[i - sl.lo]) else env[i]))
    else None
  }

  function Min(x: int, y: int): int
  {
    if x <= y then x else y
  }

  /** The slice the `k`-th write of `ADSREnvelopTimeData` selects: 1 the
      attack `env[:a]`, 2 the decay `env[a:a+d]`, 3 the sustain
      `env[a+d:a+d+s]`, 4 the release `env[-r:]`. */
  function SliceOf(g: Segments, n: nat, k: nat): (sl: Slice)
    requires 1 <= k <= 4
    ensures sl.lo <= sl.hi <= n
  {
    if k == 1 then PySlice(0, g.a, n)
    else if k == 2 then PySlice(g.a, g.a + g.d, n)
    else if k == 3 then PySlice(g.a + g.d, g.a + g.d + g.s, n)
    else PySlice(-g.r, n, n)
  }

  /** The value the `k`-th write stores: a ramp from 0 to 1, a ramp from 1
      to the sustain level, the sustain level itself, a ramp from the
      sustain level to 0. */
  function ValueOf(adsr: Adsr, g: Segments, k: nat): seq<real>
    requires 1 <= k <= 4 && 0 <= g.a && 0 <= g.d && 0 <= g.r
  {
    if k == 1 then Linspace(0.0, 1.0, g.a)
    else if k == 2 then Linspace(1.0, adsr.sustain, g.d)
    else if k == 3 then [adsr.sustain]
    else Linspace(adsr.sustain, 0.0, g.r)
  }

  /** The buffer after the first `k` writes, or `None` once one has failed. */
  function Written(adsr: Adsr, g: Segments, n: nat, k: nat): (e: Option<seq<real>>)
    requires k <= 4 && 0 <= g.a && 0 <= g.d && 0 <= g.r
    ensures e.Some? ==> |e.value| == n
  {
    if k == 0 then Some(Zeros(n))
    else
      var prev := Written(adsr, g, n, k - 1);
      if prev.None? then None else Assign(prev.value, SliceOf(g, n, k), ValueOf(adsr, g, k))
  }

  /** The four slice writes of `ADSREnvelopTimeData`, in the code's order,
      on a zero buffer of length `n`. A negative segment count makes
      `np.linspace` raise; a write whose value does not fit its slice makes
      numpy raise; both give `None`. */
  function EnvelopeLayout(adsr: Adsr, fs: real, n: nat): (e: Option<seq<real>>)
    ensures e.Some? ==> |e.value| == n
    ensures var g := SegmentCounts(adsr, fs, n); g.a < 0 || g.d < 0 || g.r < 0 ==> e.None?
  {
    var g := SegmentCounts(adsr, fs, n);
    if g.a < 0 || g.d < 0 || g.r < 0 then None else Written(adsr, g, n, 4)
  }

  /** The four slices in closed form. */
  lemma SliceBounds(g: Segments, n: nat)
    requires 0 <= g.a && 0 <= g.d && 0 <= g.r && g.a + g.d + g.s + g.r == n
    ensures SliceOf(g, n, 1) == Slice(0, Min(g.a, n))
    ensures SliceOf(g, n, 2) == Slice(Min(g.a, n), Min(g.a + g.d, n))
    ensures g.r <= n ==> SliceOf(g, n, 3).lo == Min(g.a + g.d, n) && SliceOf(g, n, 3).hi == (if n - g.r < Min(g.a + g.d, n) then Min(g.a + g.d, n) else n - g.r)
    ensures SliceOf(g, n, 4) == if 0 < g.r <= n then Slice(n - g.r, n) else Slice(0, n)
  {
  }

  /** When every write fits: the segment counts are non-negative, the attack
      fits the buffer (or is a single broadcast sample), the decay ends
      inside the buffer (or is at most one sample), and the release is
      non-empty and no longer than the buffer. An empty release selects
      `env[-0:]`, the whole buffer, which an empty value cannot fill. */
  predicate AdsrFits(n: nat, g: Segments)
  {
    0 <= g.a && 0 <= g.d && 0 <= g.r
    && (g.a <= n || g.a == 1)
    && (g.d <= 1 || g.a + g.d <= n)
    && (if n == 0 then g.r <= 1 else 1 <= g.r <= n)
  }

  /** One more write succeeds exactly when its value fits its slice. */
  lemma WrittenStep(adsr: Adsr, g: Segments, n: nat, k: nat)
    requires 1 <= k <= 4 && 0 <= g.a && 0 <= g.d && 0 <= g.r
    ensures Written(adsr, g, n, k).Some? <==>
      (Written(adsr, g, n, k - 1).Some? &&
       (|ValueOf(adsr, g, k)| == SliceOf(g, n, k).hi - SliceOf(g, n, k).lo || |ValueOf(adsr, g, k)| == 1))
  {
  }

  /** Once a write has failed, the envelope is undefined. */
  lemma {:induction false} FailureStays(adsr: Adsr, g: Segments, n: nat, k: nat)
    requires k <= 4 && 0 <= g.a && 0 <= g.d && 0 <= g.r
    requires Written(adsr, g, n, k).None?
    ensures Written(adsr, g, n, 4).None?
    decreases 4 - k
  {
    if k < 4 {
      FailureStays(adsr, g, n, k + 1);
    }
  }

  /** With no negative count, the four writes all succeed exactly when the
      counts fit the buffer. */
  lemma WrittenDefinedIff(adsr: Adsr, g: Segments, n: nat)
    requires 0 <= g.a && 0 <= g.d && 0 <= g.r && g.a + g.d + g.s + g.r == n
    ensures Written(adsr, g, n, 4).Some? <==> AdsrFits(n, g)
  {
    SliceBounds(g, n);
    WrittenStep(adsr, g, n, 1);
    WrittenStep(adsr, g, n, 2);
    WrittenStep(adsr, g, n, 3);
    WrittenStep(adsr, g, n, 4);
  }

  lemma EnvelopeDefinedIff(adsr: Adsr, fs: real, n: nat)
    ensures EnvelopeLayout(adsr, fs, n).Some? <==> AdsrFits(n, SegmentCounts(adsr, fs, n))
  {
    var g := SegmentCounts(adsr, fs, n);
    if 0 <= g.a && 0 <= g.d && 0 <= g.r {
      WrittenDefinedIff(adsr, g, n);
    }
  }

  /** The envelope value at sample `i`, segment by segment, with the release
      written last and so winning wherever it overlaps the others: attack
      `k / a`, decay `1 + (sustain - 1) j / d`, sustain level, release
      `sustain (1 - j / r)`. */
  function EnvelopeAt(adsr: Adsr, g: Segments, n: nat, i: nat): (v: real)
    requires 0 < g.r
    ensures i == n - g.r ==> v == adsr.sustain
    ensures i < n - g.r && i == 0 < g.a ==> v == 0.0
    ensures i < n - g.r && i == g.a < g.a + g.d ==> v == 1.0
    ensures i < n - g.r && 0 <= g.d && g.a + g.d <= i ==> v == adsr.sustain
  {
    if n - g.r <= i then adsr.sustain * (1.0 - Fraction(i - (n - g.r), g.r))
    else if i < g.a then Fraction(i, g.a)
    else if i < g.a + g.d then 1.0 + (adsr.sustain - 1.0) * Fraction(i - g.a, g.d)
    else adsr.sustain
  }

  /** `j / m` as a real. */
  function Fraction(j: int, m: int): real
    requires m != 0
  {
    j as real / m as real
  }

  /** Sample `i` after the attack write. */
  lemma AttackStage(adsr: Adsr, g: Segments, n: nat, i: nat)
    requires 0 <= g.a && 0 <= g.d && 0 <= g.r && g.a + g.d + g.s + g.r == n
    requires Written(adsr, g, n, 1).Some? && i < n
    ensures Written(adsr, g, n, 1).value[i] == if i < g.a then LinPoint(0.0, 1.0, g.a, i) else 0.0
  {
    SliceBounds(g, n);
  }

  /** Sample `i` after the decay write. */
  lemma DecayStage(adsr: Adsr, g: Segments, n: nat, i: nat)
    requires 0 <= g.a && 0 <= g.d && 0 <= g.r && g.a + g.d + g.s + g.r == n
    requires Written(adsr, g, n, 2).Some? && i < n
    ensures Written(adsr, g, n, 2).value[i] ==
      if i < g.a then LinPoint(0.0, 1.0, g.a, i)
      else if i < g.a + g.d then LinPoint(1.0, adsr.sustain, g.d, i - g.a)
      else 0.0
  {
    SliceBounds(g, n);
    if !(g.a <= i < g.a + g.d) {
      AttackStage(adsr, g, n, i);
    }
  }

  /** Sample `i` after the sustain write. */
  lemma SustainStage(adsr: Adsr, g: Segments, n: nat, i: nat)
    requires 0 <= g.a && 0 <= g.d && 0 <= g.r <= n && g.a + g.d + g.s + g.r == n
    requires Written(adsr, g, n, 3).Some? && i < n
    ensures Written(adsr, g, n, 3).value[i] ==
      if i < g.a then LinPoint(0.0, 1.0, g.a, i)
      else if i < g.a + g.d then LinPoint(1.0, adsr.sustain, g.d, i - g.a)
      else if i < n - g.r then adsr.sustain
      else 0.0
  {
    var sl := SliceOf(g, n, 3);
    SliceBounds(g, n);
    if !(sl.lo <= i < sl.hi) {
      DecayStage(adsr, g, n, i);
    }
  }

  /** Sample `i` after the release write. */
  lemma ReleaseWrite(adsr: Adsr, g: Segments, n: nat, i: nat)
    requires 0 <= g.a && 0 <= g.d && 0 < g.r <= n && g.a + g.d + g.s + g.r == n
    requires Written(adsr, g, n, 4).Some? && i < n
    ensures Written(adsr, g, n, 3).Some?
    ensures Written(adsr, g, n, 4).value[i] ==
      if n - g.r <= i then LinPoint(adsr.sustain, 0.0, g.r, i - (n - g.r))
      else Written(adsr, g, n, 3).value[i]
  {
    SliceBounds(g, n);
  }

  /** The finished envelope at sample `i`. */
  lemma ReleaseStage(adsr: Adsr, g: Segments, n: nat, i: nat)
    requires 0 <= g.a && 0 <= g.d && 0 < g.r <= n && g.a + g.d + g.s + g.r == n
    requires Written(adsr, g, n, 4).Some? && i < n
    ensures Written(adsr, g, n, 4).value[i] == EnvelopeAt(adsr, g, n, i)
  {
    ReleaseWrite(adsr, g, n, i);
    SustainStage(adsr, g, n, i);
    LevelsAgree(adsr, g, n, i, Written(adsr, g, n, 4).value[i], Written(adsr, g, n, 3).value[i]);
  }

  /** The `np.linspace` points the writes leave behind are the levels
      `EnvelopeAt` states. */
  lemma LevelsAgree(adsr: Adsr, g: Segments, n: nat, i: nat, x4: real, x3: real)
    requires 0 <= g.a && 0 <= g.d && 0 < g.r <= n && i < n
    requires x4 == if n - g.r <= i then LinPoint(adsr.sustain, 0.0, g.r, i - (n - g.r)) else x3
    requires x3 ==
      if i < g.a then LinPoint(0.0, 1.0, g.a, i)
      else if i < g.a + g.d then LinPoint(1.0, adsr.sustain, g.d, i - g.a)
      else if i < n - g.r then adsr.sustain
      else 0.0
    ensures x4 == EnvelopeAt(adsr, g, n, i)
  {
    if n - g.r <= i {
      assert x4 == adsr.sustain * (1.0 - Fraction(i - (n - g.r), g.r));
    } else if i < g.a {
      assert x4 == Fraction(i, g.a);
    } else if i < g.a + g.d {
      assert x4 == 1.0 + (adsr.sustain - 1.0) * Fraction(i - g.a, g.d);
    }
  }

  /** Sample by sample, a defined envelope is the piecewise ADSR shape. */
  lemma EnvelopeShape(adsr: Adsr, fs: real, n: nat)
    requires EnvelopeLayout(adsr, fs, n).Some?
    requires 0 < n
    ensures var g := SegmentCounts(adsr, fs, n);
      0 < g.r <= n && 0 <= g.a <= n && 0 <= g.d
    ensures var g := SegmentCounts(adsr, fs, n);
      var env := EnvelopeLayout(adsr, fs, n).value;
      |env| == n && forall i :: 0 <= i < n ==> env[i] == EnvelopeAt(adsr, g, n, i)
  {
    EnvelopeDefinedIff(adsr, fs, n);
    var g := SegmentCounts(adsr, fs, n);
    forall i | 0 <= i < n ensures EnvelopeLayout(adsr, fs, n).value[i] == EnvelopeAt(adsr, g, n, i) {
      ReleaseStage(adsr, g, n, i);
    }
  }

  /** The attack starts from silence. */
  lemma AttackStartsAtZero(adsr: Adsr, fs: real, n: nat)
    requires EnvelopeLayout(adsr, fs, n).Some?
    requires 0 < n && 0 < SegmentCounts(adsr, fs, n).a && SegmentCounts(adsr, fs, n).r < n
    ensures EnvelopeLayout(adsr, fs, n).value[0] == 0.0
  {
    EnvelopeShape(adsr, fs, n);
  }

  /** `endpoint=False` stops the release one step short of zero: the last
      sample is `sustain / r`. */
  lemma ReleaseEndsAtSustainOverR(adsr: Adsr, fs: real, n: nat)
    requires EnvelopeLayout(adsr, fs, n).Some? && 0 < n
    ensures var g := SegmentCounts(adsr, fs, n);
      0 < g.r && EnvelopeLayout(adsr, fs, n).value[n - 1] == adsr.sustain / g.r as real
  {
    EnvelopeShape(adsr, fs, n);
    var g := SegmentCounts(adsr, fs, n);
    var r := g.r as real;
    assert adsr.sustain * (1.0 - (r - 1.0) / r) == adsr.sustain / r;
  }

  /** An empty release selects the whole non-empty buffer, and the write of
      an empty value fails. */
  lemma ZeroReleaseFails(adsr: Adsr, fs: real, n: nat)
    requires 0 < n && SegmentCounts(adsr, fs, n).r == 0
    ensures EnvelopeLayout(adsr, fs, n).None?
  {
    EnvelopeDefinedIff(adsr, fs, n);
  }

  /** `env[lo:hi] = v` on an array, with numpy's broadcast rule. */
  method WriteSlice(env: array<real>, sl: Slice, v: seq<real>) returns (ok: bool)
    requires sl.lo <= sl.hi <= env.Length
    modifies env
    ensures ok == Assign(old(env[..]), sl, v).Some?
    ensures ok ==> env[..] == Assign(old(env[..]), sl, v).value
    ensures !ok ==> env[..] == old(env[..])
  {
    if |v| != sl.hi - sl.lo && |v| != 1 {
      return false;
    }
    var i := sl.lo;
    while i < sl.hi
      invariant sl.lo <= i <= sl.hi
      invariant forall j :: 0 <= j < env.Length && !(sl.lo <= j < i) ==> env[j] == old(env[j])
      invariant forall j :: sl.lo <= j < i ==> env[j] == (if |v| == 1 then v[0] else v[j - sl.lo])
    {
      env[i] := if |v| == 1 then v[0] else v[i - sl.lo];
      i := i + 1;
    }
    ok := true;
  }

  /** `env[lo:hi] = x` for a scalar `x`, which numpy broadcasts to any
      slice. */
  method FillSlice(env: array<real>, sl: Slice, x: real)
    requires sl.lo <= sl.hi <= env.Length
    modifies env
    ensures Assign(old(env[..]), sl, [x]).Some?
    ensures env[..] == Assign(old(env[..]), sl, [x]).value
  {
    var i := sl.lo;
    while i < sl.hi
      invariant sl.lo <= i <= sl.hi
      invariant forall j :: 0 <= j < env.Length && !(sl.lo <= j < i) ==> env[j] == old(env[j])
      invariant forall j :: sl.lo <= j < i ==> env[j] == x
    {
      env[i] := x;
      i := i + 1;
    }
  }

  /** Fills a zero buffer shaped like the time axis with the four segments,
      in the code's order, and reports `None` where numpy raises. */
  method ADSREnvelopTimeData(adsr: Adsr, timeData: seq<real>, soundData: SoundWave) returns (env: Option<seq<real>>)
    ensures env == EnvelopeLayout(adsr, soundData.samplingRate as real, |timeData|)
  {
    var n := |timeData|;
    var g := SegmentCounts(adsr, soundData.samplingRate as real, n);
    if g.a < 0 || g.d < 0 || g.r < 0 {
      return None;
    }
    var buf := new real[n](_ => 0.0);
    assert buf[..] == Zeros(n);
    var ok := WriteSlice(buf, SliceOf(g, n, 1), ValueOf(adsr, g, 1));
    assert Written(adsr, g, n, 1) == if ok then Some(buf[..]) else None;
    if !ok {
      FailureStays(adsr, g, n, 1);
      return None;
    }
    ok := WriteSlice(buf, SliceOf(g, n, 2), ValueOf(adsr, g, 2));
    assert Written(adsr, g, n, 2) == if ok then Some(buf[..]) else None;
    if !ok {
      FailureStays(adsr, g, n, 2);
      return None;
    }
    FillSlice(buf, SliceOf(g, n, 3), adsr.sustain);
    assert Written(adsr, g, n, 3) == Some(buf[..]);
    ok := WriteSlice(buf, SliceOf(g, n, 4), ValueOf(adsr, g, 4));
    assert Written(adsr, g, n, 4) == if ok then Some(buf[..]) else None;
    if !ok {
      FailureStays(adsr, g, n, 4);
      return None;
    }
    env := Some(buf[..]);
  }

  // ---------------------------------------------------------------------
  // The three envelopes the instruments use, over the one-second time axis.

  const GuitarAdsr := Adsr(0.01, 0.0, 0.2, 0.01)
  const ReggaeAdsr := Adsr(0.02, 0.10, 0.1, 0.10)
  const UkuleleAdsr := Adsr(0.01, 0.5, 0.3, 0.5)

  /** The guitar's segments: 441 attack samples, no decay, 441 release
      samples falling from the sustain level 0.2. */
  lemma GuitarSegments(adsr: Adsr, fs: real, n: nat)
    requires adsr == GuitarAdsr && fs == 44100.0 && n == NumSamples
    ensures SegmentCounts(adsr, fs, n) == Segments(441, 0, 43218, 441)
  {
  }

  lemma GuitarEnvelope(adsr: Adsr, fs: real, n: nat)
    requires adsr == GuitarAdsr && fs == 44100.0 && n == NumSamples
    ensures EnvelopeLayout(adsr, fs, n).Some?
    ensures var env := EnvelopeLayout(adsr, fs, n).value;
      env[0] == 0.0 &&
      (forall i :: 43659 <= i < 44100 ==> env[i] == 0.2 * (1.0 - Fraction(i - 43659, 441)))
  {
    GuitarSegments(adsr, fs, n);
    EnvelopeDefinedIff(adsr, fs, n);
    EnvelopeShape(adsr, fs, n);
  }

  /** The organ's segments: 882 attack, 4410 decay and 4410 release samples
      around the sustain level 0.1. */
  lemma ReggaeSegments(adsr: Adsr, fs: real, n: nat)
    requires adsr == ReggaeAdsr && fs == 44100.0 && n == NumSamples
    ensures SegmentCounts(adsr, fs, n) == Segments(882, 4410, 34398, 4410)
  {
  }

  lemma ReggaeEnvelope(adsr: Adsr, fs: real, n: nat)
    requires adsr == ReggaeAdsr && fs == 44100.0 && n == NumSamples
    ensures EnvelopeLayout(adsr, fs, n).Some?
    ensures var env := EnvelopeLayout(adsr, fs, n).value;
      env[0] == 0.0 &&
      (forall i :: 39690 <= i < 44100 ==> env[i] == 0.1 * (1.0 - Fraction(i - 39690, 4410)))
  {
    ReggaeSegments(adsr, fs, n);
    EnvelopeDefinedIff(adsr, fs, n);
    EnvelopeShape(adsr, fs, n);
  }

  /** The ukulele's segments add up to 44541 samples, more than the buffer:
      the sustain count is -441, and the release, written last, overwrites
      the final 441 samples of the decay, so no sample after the start of
      the release is at a decay level. */
  lemma UkuleleSegments(adsr: Adsr, fs: real, n: nat)
    requires adsr == UkuleleAdsr && fs == 44100.0 && n == NumSamples
    ensures SegmentCounts(adsr, fs, n) == Segments(441, 22050, -441, 22050)
  {
  }

  lemma UkuleleEnvelope(adsr: Adsr, fs: real, n: nat)
    requires adsr == UkuleleAdsr && fs == 44100.0 && n == NumSamples
    ensures EnvelopeLayout(adsr, fs, n).Some?
    ensures var env := EnvelopeLayout(adsr, fs, n).value;
      env[0] == 0.0 &&
      (forall i :: 441 <= i < 22050 ==> env[i] == 1.0 - 0.7 * Fraction(i - 441, 22050)) &&
      (forall i :: 22050 <= i < 22491 ==> env[i] == 0.3 * (1.0 - Fraction(i - 22050, 22050)))
  {
    UkuleleSegments(adsr, fs, n);
    EnvelopeDefinedIff(adsr, fs, n);
    EnvelopeShape(adsr, fs, n);
  }

  /** The electric guitar's envelope over the one-second time axis: 441
      attack samples, no decay, sustain 0.2 and 441 release samples. */
  method ElectronicGuitarADSRTimeData() returns (env: seq<real>)
    ensures EnvelopeLayout(GuitarAdsr, SamplingRate as real, NumSamples) == Some(env)
    ensures |env| == NumSamples
    ensures env[0] == 0.0 && env[NumSamples - 1] == 0.2 / 441.0
  {
    var w := SoundWaveData();
    var t := ReturnTimeData();
    var fs := w.samplingRate as real;
    GuitarEnvelope(GuitarAdsr, fs, |t|);
    var r := ADSREnvelopTimeData(GuitarAdsr, t, w);
    env := r.value;
    assert env[NumSamples - 1] == 0.2 * (1.0 - Fraction(440, 441));
  }

  /** The organ's envelope over the one-second time axis: 882 attack, 4410
      decay and 4410 release samples around a sustain level of 0.1. */
  method ReggaeADSREnvelopTimeData() returns (env: seq<real>)
    ensures EnvelopeLayout(ReggaeAdsr, SamplingRate as real, NumSamples) == Some(env)
    ensures |env| == NumSamples
    ensures env[0] == 0.0 && env[NumSamples - 1] == 0.1 / 4410.0
  {
    var w := SoundWaveData();
    var t := ReturnTimeData();
    var fs := w.samplingRate as real;
    ReggaeEnvelope(ReggaeAdsr, fs, |t|);
    var r := ADSREnvelopTimeData(ReggaeAdsr, t, w);
    env := r.value;
    assert env[NumSamples - 1] == 0.1 * (1.0 - Fraction(4409, 4410));
  }

  /** The ukulele's envelope over the one-second time axis. */
  method UkuleleADSREnvelopTimeData() returns (env: seq<real>)
    ensures EnvelopeLayout(UkuleleAdsr, SamplingRate as real, NumSamples) == Some(env)
    ensures |env| == NumSamples
    ensures env[0] == 0.0
    ensures forall i :: 22050 <= i < 22491 ==> env[i] == 0.3 * (1.0 - Fraction(i - 22050, 22050))
  {
    var w := SoundWaveData();
    var t := ReturnTimeData();
    UkuleleEnvelope(UkuleleAdsr, w.samplingRate as real, |t|);
    var r := ADSREnvelopTimeData(UkuleleAdsr, t, w);
    env := r.value;
  }

  // ---------------------------------------------------------------------
  // Reggae organ partials

  /** Five partial amplitudes, the fundamental loudest. */
  function ReturnReggaeAmplitude(): (amps: seq<real>)
    ensures |amps| == 5 && amps[0] == 1.0
    ensures forall i, j :: 0 <= i < j < |amps| ==> 0.0 < amps[j] < amps[i]
  {
    [1.0, 0.6, 0.3, 0.2, 0.1]
  }

  /** Appends the harmonic numbers one to five to an empty list. */
  method ReturnReggaeHarmonics() returns (harmonics: seq<nat>)
    ensures |harmonics| == 5
    ensures forall i :: 0 <= i < |harmonics| ==> harmonics[i] == i + 1
  {
    harmonics := [];
    harmonics := harmonics + [1];
    harmonics := harmonics + [2];
    harmonics := harmonics + [3];
    harmonics := harmonics + [4];
    harmonics := harmonics + [5];
  }

  // ---------------------------------------------------------------------
  // Piano resonator

  /** The coefficients and the two remembered outputs of a resonator. */
  datatype ResonatorState = ResonatorState(a1: real, a2: real, b0: real, y1: real, y2: real)

  /** One `process(x)` call on a state: the output and the state after it. */
  function ResonatorStep(st: ResonatorState, x: real): (r: (ResonatorState, real))
    ensures r.0.a1 == st.a1 && r.0.a2 == st.a2 && r.0.b0 == st.b0
    ensures r.0.y2 == st.y1 && r.0.y1 == r.1
  {
    var y := st.a1 * st.y1 + st.a2 * st.y2 + st.b0 * x;
    (st.(y1 := y, y2 := st.y1), y)
  }

  /** The outputs of feeding `xs` through a resonator one sample at a time,
      and the state it is left in. */
  function Filter(st: ResonatorState, xs: seq<real>): (r: (ResonatorState, seq<real>))
    ensures |r.1| == |xs|
    ensures r.0.a1 == st.a1 && r.0.a2 == st.a2 && r.0.b0 == st.b0
    decreases |xs|
  {
    if |xs| == 0 then (st, [])
    else
      var prev := Filter(st, xs[..|xs| - 1]);
      var next := ResonatorStep(prev.0, xs[|xs| - 1]);
      (next.0, prev.1 + [next.1])
  }

  /** A resonator at rest stays at rest on silence. */
  lemma {:induction false} SilenceStaysSilent(st: ResonatorState, n: nat)
    requires st.y1 == 0.0 && st.y2 == 0.0
    ensures var r := Filter(st, Zeros(n));
      r.0.y1 == 0.0 && r.0.y2 == 0.0 && forall i :: 0 <= i < n ==> r.1[i] == 0.0
  {
    if n > 0 {
      assert Zeros(n)[..n - 1] == Zeros(n - 1);
      SilenceStaysSilent(st, n - 1);
    }
  }

  /** `b` is `a` with every element multiplied by `c`. */
  predicate ScaledBy(a: seq<real>, b: seq<real>, c: real)
  {
    |a| == |b| && forall i :: 0 <= i < |a| ==> b[i] == c * a[i]
  }

  /** `sc` has the coefficients of `s` and `c` times its remembered outputs. */
  predicate ScaledState(s: ResonatorState, sc: ResonatorState, c: real)
  {
    sc.a1 == s.a1 && sc.a2 == s.a2 && sc.b0 == s.b0 && sc.y1 == c * s.y1 && sc.y2 == c * s.y2
  }

  /** The resonator is linear: a run from a scaled state on a scaled input
      gives scaled outputs and ends in the scaled state. */
  lemma {:induction false} FilterScales(s: ResonatorState, sc: ResonatorState, xs: seq<real>, ys: seq<real>, c: real)
    requires ScaledState(s, sc, c) && ScaledBy(xs, ys, c)
    ensures ScaledState(Filter(s, xs).0, Filter(sc, ys).0, c)
    ensures ScaledBy(Filter(s, xs).1, Filter(sc, ys).1, c)
    decreases |xs|
  {
    if |xs| > 0 {
      var k := |xs| - 1;
      ScaledByPrefix(xs, ys, c, k);
      FilterScales(s, sc, xs[..k], ys[..k], c);
      var p := Filter(s, xs[..k]);
      var pc := Filter(sc, ys[..k]);
      StepScales(p.0, pc.0, xs[k], ys[k], c);
      FilterLast(s, xs);
      FilterLast(sc, ys);
      ScaledByAppend(p.1, pc.1, ResonatorStep(p.0, xs[k]).1, ResonatorStep(pc.0, ys[k]).1, c);
    }
  }

  /** From rest, scaling the input by `c` scales every output by `c`. */
  lemma FilterFromRestScales(st: ResonatorState, xs: seq<real>, ys: seq<real>, c: real)
    requires st.y1 == 0.0 && st.y2 == 0.0 && ScaledBy(xs, ys, c)
    ensures ScaledBy(Filter(st, xs).1, Filter(st, ys).1, c)
  {
    FilterScales(st, st, xs, ys, c);
  }

  /** One step from a scaled state on a scaled input gives the scaled output
      and the scaled state. */
  lemma StepScales(s: ResonatorState, sc: ResonatorState, x: real, xc: real, c: real)
    requires ScaledState(s, sc, c) && xc == c * x
    ensures ScaledState(ResonatorStep(s, x).0, ResonatorStep(sc, xc).0, c)
    ensures ResonatorStep(sc, xc).1 == c * ResonatorStep(s, x).1
  {
    assert sc.a1 * sc.y1 == c * (s.a1 * s.y1);
    assert sc.a2 * sc.y2 == c * (s.a2 * s.y2);
    assert sc.b0 * xc == c * (s.b0 * x);
  }

  /** The last output of a run is one step from the state the shorter run
      leaves. */
  lemma FilterLast(st: ResonatorState, xs: seq<real>)
    requires |xs| > 0
    ensures var p := Filter(st, xs[..|xs| - 1]);
      var next := ResonatorStep(p.0, xs[|xs| - 1]);
      Filter(st, xs) == (next.0, p.1 + [next.1])
  {
  }

  lemma ScaledByPrefix(a: seq<real>, b: seq<real>, c: real, k: nat)
    requires ScaledBy(a, b, c) && k < |a|
    ensures ScaledBy(a[..k], b[..k], c) && b[k] == c * a[k]
  {
  }

  lemma ScaledByAppend(a: seq<real>, b: seq<real>, x: real, y: real, c: real)
    requires ScaledBy(a, b, c) && y == c * x
    ensures ScaledBy(a + [x], b + [y], c)
  {
    var a', b' := a + [x], b + [y];
    forall i | 0 <= i < |a'| ensures b'[i] == c * a'[i] {
      if i < |a| {
        assert b'[i] == b[i] && a'[i] == a[i];
      }
    }
  }

  /** `exp(-pi f0 / (Q fs))`, the radius of the resonator's poles. */
  function PoleRadius(tr: Transcendental, f0: real, q: real, fs: real): real
    requires q * fs != 0.0
  {
    tr.exp(-tr.pi * f0 / (q * fs))
  }

  /** `2 pi f0 / fs`, the angle of the resonator's poles. */
  function Angle(tr: Transcendental, f0: real, fs: real): real
    requires fs != 0.0
  {
    2.0 * tr.pi * f0 / fs
  }

  /** `cos(x)` as numpy evaluates it. */
  function Cosine(tr: Transcendental, x: real): real
  {
    tr.cos(x)
  }

  /** The coefficients `defineOtherProperties` derives from the resonance
      `f0`, the quality `q`, the rate `fs` and the gain, with nothing
      remembered yet. */
  function Tuned(tr: Transcendental, f0: real, q: real, fs: real, gain: real): (st: ResonatorState)
    requires q * fs != 0.0
    ensures st.y1 == 0.0 && st.y2 == 0.0
  {
    var omega := Angle(tr, f0, fs);
    var r := PoleRadius(tr, f0, q, fs);
    ResonatorState(2.0 * r * Cosine(tr, omega), -(r * r), (1.0 - r) * gain, 0.0, 0.0)
  }

  /** The resonator object. Python creates `f0`, `fs` and the coefficients
      only when their setters run; here they start at zero. */
  class PianoResonator {
    var q: real
    var gain: real
    var y1: real
    var y2: real
    var f0: real
    var fs: real
    var omega: real
    var r: real
    var a1: real
    var a2: real
    var b0: real

    /** Quality factor 10 and unit gain unless given; no remembered output. */
    constructor(q: real := 10.0, gain: real := 1.0)
      ensures this.q == q && this.gain == gain
      ensures y1 == 0.0 && y2 == 0.0
    {
      this.q := q;
      this.gain := gain;
      y1 := 0.0;
      y2 := 0.0;
    }

    method SetFrequency(f0: real)
      modifies this
      ensures this.f0 == f0
      ensures fs == old(fs) && State() == old(State()) && q == old(q) && gain == old(gain)
      ensures omega == old(omega) && r == old(r)
    {
      this.f0 := f0;
    }

    method SetSamplingRate(fs: real)
      modifies this
      ensures this.fs == fs
      ensures f0 == old(f0) && State() == old(State()) && q == old(q) && gain == old(gain)
      ensures omega == old(omega) && r == old(r)
    {
      this.fs := fs;
    }

    /** The two-pole coefficients: pole radius `exp(-pi f0 / (Q fs))` at angle
        `2 pi f0 / fs`, and input gain `(1 - r) * gain`. The remembered outputs
        are untouched. */
    method DefineOtherProperties(tr: Transcendental)
      requires fs != 0.0 && q != 0.0
      modifies this
      ensures f0 == old(f0) && fs == old(fs) && q == old(q) && gain == old(gain)
      ensures y1 == old(y1) && y2 == old(y2)
      ensures omega == 2.0 * tr.pi * f0 / fs
      ensures r == PoleRadius(tr, f0, q, fs)
      ensures a1 == 2.0 * r * Cosine(tr, omega) && a2 == -(r * r) && b0 == (1.0 - r) * gain
      ensures State() == Tuned(tr, f0, q, fs, gain).(y1 := y1, y2 := y2)
    {
      var w := Angle(tr, f0, fs);
      var radius := PoleRadius(tr, f0, q, fs);
      omega, r := w, radius;
      a1, a2, b0 := 2.0 * radius * Cosine(tr, w), -(radius * radius), (1.0 - radius) * gain;
    }

    function State(): ResonatorState
      reads this
    {
      ResonatorState(a1, a2, b0, y1, y2)
    }

    /** `y = a1 y1 + a2 y2 + b0 x`; the older output moves to `y2` and `y`
        becomes `y1`. */
    method Process(x: real) returns (y: real)
      modifies this
      ensures y == old(a1 * y1 + a2 * y2 + b0 * x)
      ensures y2 == old(y1) && y1 == y
      ensures (State(), y) == ResonatorStep(old(State()), x)
      ensures a1 == old(a1) && a2 == old(a2) && b0 == old(b0)
      ensures q == old(q) && gain == old(gain) && f0 == old(f0) && fs == old(fs)
      ensures omega == old(omega) && r == old(r)
    {
      y := a1 * y1 + a2 * y2 + b0 * x;
      y2 := y1;
      y1 := y;
      assert State() == old(State()).(y1 := y, y2 := old(y1));
      assert ResonatorStep(old(State()), x).0 == State();
    }
  }
}
