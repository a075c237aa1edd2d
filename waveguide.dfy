/** The fixed-length delay lines every waveguide instrument advances once per
    sample. numpy has no in-place shift, so the instruments rotate the whole
    array with `np.roll` and then overwrite one end; the order of the rotate
    and the write differs from instrument to instrument, and each order is
    one function here, with its effect stated as a plain shift. */
module Waveguide {
  import opened Signal
  import Returner

  /** `int(fs / f)`: the whole number of samples one period of `f` spans. */
  function DelayLength(fs: real, f: real): (len: int)
    requires f != 0.0
    ensures 0.0 <= fs / f ==> 0 <= len && len as real <= fs / f < len as real + 1.0
  {
    Trunc(fs / f)
  }

  /** A frequency at most `fs / m` gets a delay line of at least `m`
      samples. */
  lemma DelayAtLeast(fs: real, f: real, m: nat)
    requires 0.0 < f && m as real * f <= fs
    ensures m <= DelayLength(fs, f)
  {
    var x := fs / f;
    assert x * f == fs;
    if x < m as real {
      assert x * f < m as real * f;
    }
  }

  /** Every fundamental of a seven-note table sits below 1200 Hz, so at
      44.1 kHz it gets a line of at least 36 samples. */
  lemma ScaleDelayLengths(f: seq<real>, k: nat)
    requires Returner.IsScale(f) && k < 7
    ensures 0.0 < f[k] && 36 <= DelayLength(44100.0, f[k])
  {
    DelayAtLeast(44100.0, f[k], 36);
  }

  /** `np.roll(a, shift)`: every element moves `shift` places toward the end,
      wrapping around; numpy builds it from two slices. */
  function Roll(a: seq<real>, shift: int): (r: seq<real>)
    ensures |r| == |a|
    ensures forall i :: 0 <= i < |a| ==> r[i] == a[(i - shift) % |a|]
  {
    if |a| == 0 then a
    else
      var m := shift % |a|;
      var r := a[|a| - m..] + a[..|a| - m];
      forall i | 0 <= i < |a| ensures r[i] == a[(i - shift) % |a|] {
        RollIndex(|a|, shift, i);
      }
      r
  }

  /** Where element `i` of the rolled array comes from. */
  lemma RollIndex(n: nat, shift: int, i: nat)
    requires 0 < n && i < n
    ensures var m := shift % n;
      (i < m ==> (i - shift) % n == n - m + i) && (m <= i ==> (i - shift) % n == i - m)
  {
    var m := shift % n;
    var q := shift / n;
    assert shift == q * n + m;
    if i < m {
      ModOfDecomposition(i - shift, n, -q - 1, n - m + i);
    } else {
      ModOfDecomposition(i - shift, n, -q, i - m);
    }
  }

  /** Euclidean division has only one remainder in [0, n). */
  lemma ModOfDecomposition(x: int, n: int, q: int, r: int)
    requires 0 < n && 0 <= r < n && x == q * n + r
    ensures x % n == r
  {
    var q' := x / n;
    var r' := x % n;
    assert x == q' * n + r';
    MultipleInsideWindow(q - q', n, r' - r);
  }

  lemma MultipleInsideWindow(d: int, n: int, e: int)
    requires 0 < n && -n < e < n && d * n == e
    ensures d == 0
  {
    if d >= 1 {
      assert d * n == n + (d - 1) * n;
      NonNegativeProduct(d - 1, n);
    } else if d <= -1 {
      assert d * n == -n - (-d - 1) * n;
      NonNegativeProduct(-d - 1, n);
    }
  }

  lemma NonNegativeProduct(a: int, b: int)
    requires 0 <= a && 0 <= b
    ensures 0 <= a * b
  {
  }

  /** `np.roll(a, -1)` moves the first element to the end. */
  lemma RollLeftOne(a: seq<real>)
    requires |a| > 0
    ensures Roll(a, -1) == a[1..] + [a[0]]
  {
    var r := Roll(a, -1);
    forall i | 0 <= i < |a| ensures r[i] == (a[1..] + [a[0]])[i] {
      if i < |a| - 1 {
        ModOfDecomposition(i + 1, |a|, 0, i + 1);
      } else {
        ModOfDecomposition(i + 1, |a|, 1, 0);
      }
    }
  }

  /** `np.roll(a, 1)` moves the last element to the front. */
  lemma RollRightOne(a: seq<real>)
    requires |a| > 0
    ensures Roll(a, 1) == [a[|a| - 1]] + a[..|a| - 1]
  {
    var r := Roll(a, 1);
    forall i | 0 <= i < |a| ensures r[i] == ([a[|a| - 1]] + a[..|a| - 1])[i] {
      if i == 0 {
        ModOfDecomposition(-1, |a|, -1, |a| - 1);
      } else {
        ModOfDecomposition(i - 1, |a|, 0, i - 1);
      }
    }
  }

  /** `a = np.roll(a, -1); a[-1] = v`: the oldest sample `a[0]` leaves and
      `v` enters at the end. */
  method RollLeftWriteLast(a: seq<real>, v: real) returns (r: seq<real>)
    requires |a| > 0
    ensures r == a[1..] + [v]
  {
    RollLeftOne(a);
    r := Roll(a, -1);
    r := r[|r| - 1 := v];
  }

  /** `a = np.roll(a, 1); a[0] = v`: the last sample leaves and `v` enters at
      the front. */
  method RollRightWriteFirst(a: seq<real>, v: real) returns (r: seq<real>)
    requires |a| > 0
    ensures r == [v] + a[..|a| - 1]
  {
    RollRightOne(a);
    r := Roll(a, 1);
    r := r[0 := v];
  }

  /** `a[0] = v; a = np.roll(a, -1)`: the write lands on the slot that the
      roll then carries to the end, so the effect is the same shift as
      `RollLeftWriteLast`. */
  method WriteFirstRollLeft(a: seq<real>, v: real) returns (r: seq<real>)
    requires |a| > 0
    ensures r == a[1..] + [v]
  {
    r := a[0 := v];
    RollLeftOne(r);
    assert r[1..] == a[1..];
    r := Roll(r, -1);
  }

  /** `a[0] = v; a = np.roll(a, 1)`: the roll carries the written value to
      index 1 and wraps the old last sample around to index 0. */
  method WriteFirstRollRight(a: seq<real>, v: real) returns (r: seq<real>)
    requires |a| > 0
    ensures |r| == |a|
    ensures |a| == 1 ==> r == [v]
    ensures |a| >= 2 ==> r == [a[|a| - 1], v] + a[1..|a| - 1]
  {
    r := a[0 := v];
    RollRightOne(r);
    assert |a| >= 2 ==> r[..|a| - 1] == [v] + a[1..|a| - 1];
    r := Roll(r, 1);
  }

  /** `a = np.roll(a, -1); a[0] = v`: the new value overwrites what was
      `a[1]`, and the old `a[0]` wraps to the end. */
  method RollLeftWriteFirst(a: seq<real>, v: real) returns (r: seq<real>)
    requires |a| > 0
    ensures |r| == |a|
    ensures |a| == 1 ==> r == [v]
    ensures |a| >= 2 ==> r == [v] + a[2..] + [a[0]]
  {
    RollLeftOne(a);
    r := Roll(a, -1);
    assert |a| >= 2 ==> r[1..] == a[2..] + [a[0]];
    r := r[0 := v];
  }

  /** `d.append(y); d.popleft()` on a deque: the value enters on the right
      and the oldest leaves on the left. */
  method AppendPopLeft(d: seq<real>, y: real) returns (r: seq<real>)
    ensures |r| == |d|
    ensures |d| > 0 ==> r == d[1..] + [y]
  {
    r := d + [y];
    r := r[1..];
  }

  // ---------------------------------------------------------------------
  // The averaging string shared by the shamisen, the ukulele and the
  // vibraphone: each sample the two oldest samples are averaged and scaled
  // by the step's gain, the oldest leaves at the front and the new value
  // enters at the end.

  /** The scaled average of the two oldest samples. */
  function Averaged(b: seq<real>, gain: real): real
    requires |b| >= 2
  {
    gain * ((b[0] + b[1]) / 2.0)
  }

  /** The same gain at every step: a plain damping factor. */
  function Steady(damping: real): nat -> real
  {
    _ => damping
  }

  /** The line after `n` samples, and the values it took in on the way;
      step `k` scales by `gain(k)`. */
  function AveragingRun(b0: seq<real>, gain: nat -> real, n: nat): (r: (seq<real>, seq<real>))
    requires |b0| >= 2
    ensures |r.0| == |b0| && |r.1| == n
  {
    if n == 0 then (b0, [])
    else
      var prev := AveragingRun(b0, gain, n - 1);
      var v := Averaged(prev.0, gain(n - 1));
      (prev.0[1..] + [v], prev.1 + [v])
  }

  /** One more step of a run: the line drops its oldest sample and takes in
      the damped average, which is also the next output sample. */
  lemma AveragingRunStep(b0: seq<real>, gain: nat -> real, n: nat, line: seq<real>, outs: seq<real>, v: real)
    requires |b0| >= 2 && AveragingRun(b0, gain, n) == (line, outs) && v == Averaged(line, gain(n))
    ensures AveragingRun(b0, gain, n + 1) == (line[1..] + [v], outs + [v])
  {
  }

  /** The line is always a window on the signal made of the starting line
      followed by the output: after `n` samples it holds samples `n` to
      `n + L - 1` of it. */
  lemma {:induction false} AveragingWindow(b0: seq<real>, gain: nat -> real, n: nat)
    requires |b0| >= 2
    ensures var r := AveragingRun(b0, gain, n);
      r.0 == (b0 + r.1)[n..n + |b0|]
  {
    if n > 0 {
      AveragingWindow(b0, gain, n - 1);
      var prev := AveragingRun(b0, gain, n - 1);
      var v := Averaged(prev.0, gain(n - 1));
      var x := b0 + prev.1;
      var x' := b0 + AveragingRun(b0, gain, n).1;
      assert x' == x + [v];
      assert x'[n..n + |b0|] == x[n..n - 1 + |b0|] + [v];
    }
  }

  /** Output sample `i` is the value the line takes in at step `i`; later
      steps do not change it. */
  lemma {:induction false} AveragingOutputAt(b0: seq<real>, gain: nat -> real, n: nat, i: nat)
    requires |b0| >= 2 && i < n
    ensures AveragingRun(b0, gain, n).1[i] == Averaged(AveragingRun(b0, gain, i).0, gain(i))
  {
    if i < n - 1 {
      AveragingOutputAt(b0, gain, n - 1, i);
    }
  }

  /** A shorter run's output is a prefix of a longer run's. */
  lemma {:induction false} AveragingPrefix(b0: seq<real>, gain: nat -> real, m: nat, n: nat)
    requires |b0| >= 2 && m <= n
    ensures AveragingRun(b0, gain, n).1[..m] == AveragingRun(b0, gain, m).1
  {
    if m < n {
      AveragingPrefix(b0, gain, m, n - 1);
      assert AveragingRun(b0, gain, n).1[..n - 1] == AveragingRun(b0, gain, n - 1).1;
    }
  }

  /** So the string obeys the Karplus-Strong recurrence: with `x` the starting
      line followed by the output, `x[L + i]` is the average of `x[i]` and
      `x[i + 1]` scaled by step `i`'s gain. */
  lemma KarplusStrong(b0: seq<real>, gain: nat -> real, n: nat, i: nat)
    requires |b0| >= 2 && i < n
    ensures var x := b0 + AveragingRun(b0, gain, n).1;
      x[|b0| + i] == gain(i) * ((x[i] + x[i + 1]) / 2.0)
  {
    AveragingOutputAt(b0, gain, n, i);
    AveragingWindow(b0, gain, i);
    AveragingPrefix(b0, gain, i, n);
    var x := b0 + AveragingRun(b0, gain, n).1;
    assert b0 + AveragingRun(b0, gain, i).1 == x[..|b0| + i];
  }

  /** A line at rest stays at rest: from all zeros, whatever the gains, the
      line and every output sample stay zero. */
  lemma {:induction false} AveragingAtRest(b0: seq<real>, gain: nat -> real, n: nat)
    requires |b0| >= 2 && AtRest(b0)
    ensures AtRest(AveragingRun(b0, gain, n).0) && AtRest(AveragingRun(b0, gain, n).1)
  {
    if n > 0 {
      AveragingAtRest(b0, gain, n - 1);
    }
  }
}
