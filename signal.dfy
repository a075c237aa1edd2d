/** Vector primitives shared by every instrument: numpy's elementwise float
    arithmetic on a whole buffer, Python's int() truncation, and the three
    ways a finished buffer is normalised. Samples are exact reals; nothing
    here models rounding. */
module Signal {

  /** Python's `abs` on a float. */
  function Abs(x: real): real
  {
    if x < 0.0 then -x else x
  }

  /** Python's `int(x)` on a float: truncation toward zero. */
  function Trunc(x: real): (n: int)
    ensures 0.0 <= x ==> 0 <= n && n as real <= x < n as real + 1.0
    ensures x < 0.0 ==> n <= 0 && n as real - 1.0 < x <= n as real
  {
    if x >= 0.0 then x.Floor else -((-x).Floor)
  }

  /** The pseudo-random source: `draws(c, i)` is element `i` of the `c`-th
      array (or scalar, at `i == 0`) the run asks numpy for. */
  type Draws = (nat, nat) -> real

  /** The `c`-th random array, of length `n`. */
  function Draw(draws: Draws, c: nat, n: nat): seq<real>
  {
    seq(n, i requires 0 <= i < n => draws(c, i))
  }

  /** The elementary functions numpy evaluates in floating point; the model
      treats them as given. */
  datatype Transcendental = Transcendental(
    pi: real,
    sin: real -> real,
    cos: real -> real,
    exp: real -> real,
    tanh: real -> real,
    sqrt: real -> real,
    pow: (real, real) -> real)

  /** `np.zeros(n)` */
  function Zeros(n: nat): seq<real>
  {
    seq(n, _ => 0.0)
  }

  /** Every sample is zero. */
  predicate AtRest(s: seq<real>)
  {
    forall j :: 0 <= j < |s| ==> s[j] == 0.0
  }

  /** `np.abs(s)` */
  function AbsAll(s: seq<real>): seq<real>
  {
    seq(|s|, i requires 0 <= i < |s| => Abs(s[i]))
  }

  /** `s * c` for a scalar `c`. */
  function Scale(s: seq<real>, c: real): seq<real>
  {
    seq(|s|, i requires 0 <= i < |s| => s[i] * c)
  }

  /** `s / c` for a non-zero scalar `c`. */
  function Divide(s: seq<real>, c: real): seq<real>
    requires c != 0.0
  {
    seq(|s|, i requires 0 <= i < |s| => s[i] / c)
  }

  /** `s * t` for two arrays of one shape. */
  function Times(s: seq<real>, t: seq<real>): seq<real>
    requires |s| == |t|
  {
    seq(|s|, i requires 0 <= i < |s| => s[i] * t[i])
  }

  /** `s + t` for two arrays of one shape. */
  function Plus(s: seq<real>, t: seq<real>): seq<real>
    requires |s| == |t|
  {
    seq(|s|, i requires 0 <= i < |s| => s[i] + t[i])
  }

  /** A ufunc such as `np.tanh(s)` applied elementwise. */
  function Apply(f: real -> real, s: seq<real>): seq<real>
  {
    seq(|s|, i requires 0 <= i < |s| => f(s[i]))
  }

  /** The largest element: Python's `max` or `np.max` of a non-empty array. */
  function Max(s: seq<real>): (m: real)
    requires |s| > 0
    ensures forall i :: 0 <= i < |s| ==> s[i] <= m
    ensures exists i :: 0 <= i < |s| && s[i] == m
  {
    if |s| == 1 then s[0]
    else
      var rest := Max(s[1..]);
      assert forall i :: 1 <= i < |s| ==> s[i] == s[1..][i - 1];
      if s[0] >= rest then s[0] else rest
  }

  /** `max(abs(s))`, the peak magnitude. */
  function MaxAbs(s: seq<real>): (m: real)
    requires |s| > 0
    ensures 0.0 <= m
    ensures forall i :: 0 <= i < |s| ==> Abs(s[i]) <= m
    ensures exists i :: 0 <= i < |s| && Abs(s[i]) == m
  {
    var a := AbsAll(s);
    assert forall i :: 0 <= i < |s| ==> a[i] == Abs(s[i]);
    Max(a)
  }

  /** A finished buffer. Dividing a buffer by a zero peak does not raise in
      numpy: every sample becomes NaN (0/0) or an infinity (x/0), which
      `NonFinite` stands for. */
  datatype Buffer = Samples(values: seq<real>) | NonFinite(length: nat)
  {
    function Length(): nat
    {
      if Samples? then |values| else length
    }
  }

  lemma QuotientBounds(x: real, p: real)
    requires 0.0 < p && Abs(x) <= p
    ensures -1.0 <= x / p <= 1.0
  {
    var q := x / p;
    assert q * p == x;
  }

  lemma NonPositiveProduct(a: real, p: real)
    requires 0.0 < p
    ensures a <= 0.0 ==> a * p <= 0.0
  {
  }

  lemma StrictQuotientBounds(x: real, p: real)
    requires 0.0 < p && Abs(x) < p
    ensures -1.0 < x / p < 1.0
  {
    var q := x / p;
    assert q * p == x;
    NonPositiveProduct(1.0 - q, p);
    NonPositiveProduct(1.0 + q, p);
  }

  /** A prefix one longer is the prefix plus the next element. */
  lemma PrefixGrows<T>(s: seq<T>, k: nat)
    requires k < |s|
    ensures s[..k + 1] == s[..k] + [s[k]]
  {
  }

  /** A zero peak magnitude means every sample is zero. */
  lemma ZeroPeakIsSilence(s: seq<real>)
    requires |s| > 0 && MaxAbs(s) == 0.0
    ensures forall i :: 0 <= i < |s| ==> s[i] == 0.0
  {
    forall i | 0 <= i < |s| ensures s[i] == 0.0 {
      assert Abs(s[i]) <= MaxAbs(s);
    }
  }

  /** Dividing by a bound on every magnitude keeps each sample within
      [-1, 1], and a sample whose magnitude is the bound lands on -1 or 1. */
  lemma DivideByPeakBounded(s: seq<real>, peak: real, k: nat)
    requires 0.0 < peak && k < |s| && Abs(s[k]) == peak
    requires forall i :: 0 <= i < |s| ==> Abs(s[i]) <= peak
    ensures forall i :: 0 <= i < |s| ==> -1.0 <= Divide(s, peak)[i] <= 1.0
    ensures Abs(Divide(s, peak)[k]) == 1.0
  {
    var r := Divide(s, peak);
    forall i | 0 <= i < |s| ensures -1.0 <= r[i] <= 1.0 {
      QuotientBounds(s[i], peak);
    }
    assert r[k] * peak == s[k];
  }

  /** `s /= max(abs(s))`: a buffer with a non-zero sample is scaled so that
      its peak magnitude is exactly 1; an all-zero buffer turns non-finite. */
  function NormalizeByPeak(s: seq<real>): (b: Buffer)
    requires |s| > 0
    ensures b.Length() == |s|
    ensures b.Samples? <==> exists i :: 0 <= i < |s| && s[i] != 0.0
    ensures b.Samples? ==> forall i :: 0 <= i < |s| ==> -1.0 <= b.values[i] <= 1.0
    ensures b.Samples? ==> exists i :: 0 <= i < |s| && Abs(b.values[i]) == 1.0
  {
    var peak := MaxAbs(s);
    if peak == 0.0 then
      ZeroPeakIsSilence(s);
      NonFinite(|s|)
    else
      var k :| 0 <= k < |s| && Abs(s[k]) == peak;
      DivideByPeakBounded(s, peak, k);
      Samples(Divide(s, peak))
  }

  /** The strict bound behind `NormalizeWithFloor`. */
  lemma DivideByFlooredPeakBounded(s: seq<real>, m: real)
    requires 0.0 < m && forall i :: 0 <= i < |s| ==> Abs(s[i]) < m
    ensures forall i :: 0 <= i < |s| ==> -1.0 < Divide(s, m)[i] < 1.0
  {
    forall i | 0 <= i < |s| ensures -1.0 < Divide(s, m)[i] < 1.0 {
      StrictQuotientBounds(s[i], m);
    }
  }

  /** `s /= np.max(np.abs(s) + eps)`: the floor `eps` keeps the divisor
      positive, and every sample ends strictly inside (-1, 1). */
  function NormalizeWithFloor(s: seq<real>, eps: real): (r: seq<real>)
    requires |s| > 0 && 0.0 < eps
    ensures |r| == |s|
    ensures forall i :: 0 <= i < |s| ==> -1.0 < r[i] < 1.0
  {
    var shifted := seq(|s|, i requires 0 <= i < |s| => Abs(s[i]) + eps);
    var m := Max(shifted);
    assert forall i :: 0 <= i < |s| ==> Abs(s[i]) < m by {
      forall i | 0 <= i < |s| ensures Abs(s[i]) < m { assert shifted[i] <= m; }
    }
    DivideByFlooredPeakBounded(s, m);
    Divide(s, m)
  }

  /** Dividing by a positive maximum keeps every sample at most 1, and the
      maximal sample becomes exactly 1. */
  lemma DivideByMaxBounded(s: seq<real>, m: real, k: nat)
    requires 0.0 < m && k < |s| && s[k] == m
    requires forall i :: 0 <= i < |s| ==> s[i] <= m
    ensures forall i :: 0 <= i < |s| ==> Divide(s, m)[i] <= 1.0
    ensures Divide(s, m)[k] == 1.0
  {
    forall i | 0 <= i < |s| ensures Divide(s, m)[i] <= 1.0 {
      assert s[i] / m * m == s[i];
    }
  }

  /** `s /= np.max(s)`: divides by the largest sample rather than the largest
      magnitude. A positive maximum becomes exactly 1; a zero maximum makes
      the buffer non-finite. */
  function NormalizeByMax(s: seq<real>): (b: Buffer)
    requires |s| > 0
    ensures b.Length() == |s|
    ensures b.Samples? <==> Max(s) != 0.0
    ensures 0.0 < Max(s) ==> b.Samples? && forall i :: 0 <= i < |s| ==> b.values[i] <= 1.0
    ensures 0.0 < Max(s) ==> b.Samples? && exists i :: 0 <= i < |s| && b.values[i] == 1.0
  {
    var m := Max(s);
    if m == 0.0 then NonFinite(|s|)
    else
      var k :| 0 <= k < |s| && s[k] == m;
      if 0.0 < m then DivideByMaxBounded(s, m, k); Samples(Divide(s, m))
      else Samples(Divide(s, m))
  }

  /** Dividing by the maximum rather than the peak magnitude does not bound
      the negative side: [1, -2] normalises to [1, -2]. */
  lemma NormalizeByMaxLeavesNegativePeak()
    ensures var b := NormalizeByMax([1.0, -2.0]);
      b.Samples? && b.values[1] < -1.0
  {
    var s := [1.0, -2.0];
    assert Max(s[1..]) == -2.0;
    assert Max(s) == 1.0;
  }

  /** scipy's `lfilter` through the band-pass biquad of one body mode,
      given the mode's frequency. The filter itself lies outside this model;
      like every `lfilter` call it returns as many samples as it is given. */
  type ModeFilter = f: (seq<real>, real) -> seq<real> | forall t, m :: |f(t, m)| == |t|
    witness (t: seq<real>, m: real) => t

  /** `for mode in modes: output = filter(output, mode)`: the body modes
      applied one after the other, in order. The cascade keeps the length,
      however many modes it has. */
  function BodyFilters(resonate: ModeFilter, s: seq<real>, modes: seq<real>): (out: seq<real>)
    ensures |out| == |s|
    decreases |modes|
  {
    if |modes| == 0 then s else BodyFilters(resonate, resonate(s, modes[0]), modes[1..])
  }

  /** The loop that applies the body modes one after the other. */
  method ApplyBodyFilters(resonate: ModeFilter, s: seq<real>, modes: seq<real>) returns (output: seq<real>)
    ensures output == BodyFilters(resonate, s, modes)
  {
    output := s;
    var m := 0;
    while m < |modes|
      invariant 0 <= m <= |modes|
      invariant BodyFilters(resonate, output, modes[m..]) == BodyFilters(resonate, s, modes)
    {
      assert modes[m..][1..] == modes[m + 1..];
      output := resonate(output, modes[m]);
      m := m + 1;
    }
    assert modes[m..] == [];
  }
}
