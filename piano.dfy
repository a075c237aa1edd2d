/** The piano: a hammer thrown at a string, a noisy delay line that the
    string's displacement drives, and a bank of eight two-pole resonators
    for the soundboard. The hammer, the string position and the resonators
    keep their state from one note to the next; only the string velocity
    and the delay line start afresh for each note. */
module Piano {
  import opened Signal
  import opened Waveguide
  import opened Returner
  import Instrument

  /** `pianoData()["hammer_force"]` */
  const HammerForce: real := 50.0
  /** `pianoData()["hammer_mass"]` */
  const HammerMass: real := 0.008
  /** `pianoData()["string_tension"]` */
  const StringTension: real := 800.0
  /** `pianoData()["damping"]` */
  const Damping: real := 0.996
  /** `pianoData()["pedal"]` */
  const Pedal: real := 0.0
  /** `pianoData()["string_position"]`, where the string starts. */
  const StringPosition: real := 0.15
  /** `pianoData()["hammer_position"]`, where the hammer starts. */
  const HammerPosition: real := -0.002
  /** `pianoData()["resonant_filters"]`, the soundboard's resonances. */
  const ResonantFrequencies: seq<real> := [50.0, 100.0, 200.0, 350.0, 450.0, 700.0, 1000.0, 1200.0]
  /** `pianoData()["string_lengthes"]`, one per blue fundamental. */
  const StringLengths: seq<real> := [1.8, 1.4, 1.1, 0.9, 0.8, 0.7, 0.6]
  /** `pianoData()["force_time"]` */
  const ForceTime: real := 0.02
  /** The stiffness `k = 1e5` the sample loop passes to the contact model. */
  const Stiffness: real := 100000.0
  /** The exponent `p = 3.0` the sample loop passes to the contact model. */
  const Exponent: nat := 3
  /** `sound_wave_data["dt"]` */
  const Dt: real := 1.0 / SamplingRate as real

  /** `x ** p` for a whole exponent. */
  function Power(x: real, p: nat): real
  {
    if p == 0 then 1.0 else x * Power(x, p - 1)
  }

  lemma {:induction false} PowerPositive(x: real, p: nat)
    requires 0.0 < x
    ensures 0.0 < Power(x, p)
  {
    if p > 0 {
      PowerPositive(x, p - 1);
    }
  }

  /** The Hertz-type contact force: `k * x ** p` while the hammer is past the
      string (`x > 0`) and still closing on it (`v > 0`), otherwise nothing. */
  function HartzForce(hammerPosition: real, stringPosition: real,
                      hammerVelocity: real, stringVelocity: real, k: real, p: nat): (force: real)
    ensures force != 0.0 ==> hammerPosition - stringPosition > 0.0 && hammerVelocity - stringVelocity > 0.0
  {
    var x := hammerPosition - stringPosition;
    var v := hammerVelocity - stringVelocity;
    if x > 0.0 && v > 0.0 then k * Power(x, p) else 0.0
  }

  /** With a positive stiffness the force is never negative, and it is
      positive exactly when the hammer penetrates and closes. */
  lemma HartzContact(hammerPosition: real, stringPosition: real,
                     hammerVelocity: real, stringVelocity: real, k: real, p: nat)
    requires 0.0 < k
    ensures var force := HartzForce(hammerPosition, stringPosition, hammerVelocity, stringVelocity, k, p);
      0.0 <= force &&
      (0.0 < force <==> hammerPosition - stringPosition > 0.0 && hammerVelocity - stringVelocity > 0.0) &&
      (force == 0.0 <==> hammerPosition - stringPosition <= 0.0 || hammerVelocity - stringVelocity <= 0.0)
  {
    var x := hammerPosition - stringPosition;
    if x > 0.0 {
      PowerPositive(x, p);
    }
  }

  /** At the call site (`k = 1e5`, `p = 3`) a contact gives `k x^3 > 0`. */
  lemma HartzCubic(hammerPosition: real, stringPosition: real, hammerVelocity: real, stringVelocity: real)
    requires hammerPosition - stringPosition > 0.0 && hammerVelocity - stringVelocity > 0.0
    ensures var x := hammerPosition - stringPosition;
      HartzForce(hammerPosition, stringPosition, hammerVelocity, stringVelocity, Stiffness, Exponent)
        == Stiffness * (x * x * x) > 0.0
  {
    var x := hammerPosition - stringPosition;
    assert Power(x, 1) == x;
    assert Power(x, 2) == x * x;
    assert Power(x, 3) == x * (x * x);
    PowerPositive(x, Exponent);
  }

  /** The velocity-only contact model, which the sample loop does not call:
      the cube of the closing speed, or nothing when the hammer does not
      close on the string. */
  function HammerNonlinearly(hammerVelocity: real, stringVelocity: real): (force: real)
    ensures force != 0.0 ==> hammerVelocity > stringVelocity
  {
    var dv := hammerVelocity - stringVelocity;
    if dv > 0.0 then dv * dv * dv else 0.0
  }

  lemma HammerNonlinearlySign(hammerVelocity: real, stringVelocity: real)
    ensures 0.0 <= HammerNonlinearly(hammerVelocity, stringVelocity)
    ensures 0.0 < HammerNonlinearly(hammerVelocity, stringVelocity) <==> hammerVelocity > stringVelocity
  {
    var dv := hammerVelocity - stringVelocity;
    if dv > 0.0 {
      PositiveProduct(dv, dv, dv * dv);
      PositiveProduct(dv * dv, dv, HammerNonlinearly(hammerVelocity, stringVelocity));
    }
  }

  /** `c`, the product of two positive numbers, is positive. */
  lemma PositiveProduct(a: real, b: real, c: real)
    requires 0.0 < a && 0.0 < b && c == a * b
    ensures 0.0 < c
  {
  }

  /** Where the hammer and the string are and how fast they move. */
  datatype Contact = Contact(hammerPosition: real, hammerVelocity: real,
                             stringPosition: real, stringVelocity: real)

  /** `v + a * dt` */
  function Accelerate(v: real, a: real): real
  {
    v + a * Dt
  }

  /** One semi-implicit Euler step under the contact force `force`: the
      hammer is pushed back by `-force / m_h`, the string forward by
      `force / m_s`, the velocities change first and the positions move with
      the new velocities. */
  function EulerStep(c: Contact, force: real, stringMass: real): (c': Contact)
    requires stringMass != 0.0
    ensures c'.hammerPosition == c.hammerPosition + c'.hammerVelocity * Dt
    ensures c'.stringPosition == c.stringPosition + c'.stringVelocity * Dt
    ensures force == 0.0 ==> c'.hammerVelocity == c.hammerVelocity && c'.stringVelocity == c.stringVelocity
  {
    var hv := Accelerate(c.hammerVelocity, -force / HammerMass);
    var sv := Accelerate(c.stringVelocity, force / stringMass);
    Contact(Accelerate(c.hammerPosition, hv), hv, Accelerate(c.stringPosition, sv), sv)
  }

  /** The contact force acts equally and oppositely: the step keeps the
      total momentum `m_h v_h + m_s v_s`. Without a force both bodies fly on
      at their old speeds. */
  lemma EulerMomentum(c: Contact, force: real, stringMass: real)
    requires stringMass != 0.0
    ensures var c' := EulerStep(c, force, stringMass);
      HammerMass * c'.hammerVelocity + stringMass * c'.stringVelocity ==
        HammerMass * c.hammerVelocity + stringMass * c.stringVelocity
    ensures force == 0.0 ==> var c' := EulerStep(c, force, stringMass);
      c'.hammerVelocity == c.hammerVelocity && c'.stringVelocity == c.stringVelocity &&
      c'.hammerPosition == c.hammerPosition + c.hammerVelocity * Dt &&
      c'.stringPosition == c.stringPosition + c.stringVelocity * Dt
  {
    assert HammerMass * (-force / HammerMass * Dt) == -force * Dt;
    assert stringMass * (force / stringMass * Dt) == force * Dt;
  }

  /** The force the loop computes from the current positions and speeds. */
  function ContactForce(c: Contact): real
  {
    HartzForce(c.hammerPosition, c.stringPosition, c.hammerVelocity, c.stringVelocity, Stiffness, Exponent)
  }

  /** `damping + 0.002 * pedal` */
  const LineDamping: real := Damping + 0.002 * Pedal

  /** The value that enters the delay line: the damped average of its two
      ends plus the string's displacement. */
  function NewValue(d: seq<real>, stringPosition: real): (v: real)
    requires |d| >= 1
    ensures d[0] == 0.0 && d[|d| - 1] == 0.0 ==> v == stringPosition
  {
    0.5 * (d[0] + d[|d| - 1]) * LineDamping + stringPosition
  }

  /** The resonator bank after every resonator has processed `x` in turn,
      and the sum of their outputs. */
  function BankStep(bank: seq<ResonatorState>, x: real): (r: (seq<ResonatorState>, real))
    ensures |r.0| == |bank|
  {
    if |bank| == 0 then ([], 0.0)
    else
      var prev := BankStep(bank[..|bank| - 1], x);
      var last := ResonatorStep(bank[|bank| - 1], x);
      (prev.0 + [last.0], prev.1 + last.1)
  }

  /** The output of every resonator of the bank on `x`. */
  function Outputs(bank: seq<ResonatorState>, x: real): (ys: seq<real>)
    ensures |ys| == |bank|
  {
    seq(|bank|, i requires 0 <= i < |bank| => ResonatorStep(bank[i], x).1)
  }

  function Sum(s: seq<real>): real
  {
    if |s| == 0 then 0.0 else Sum(s[..|s| - 1]) + s[|s| - 1]
  }

  /** The resonators do not interact: each one steps on its own, and the
      bank's output is the sum of theirs. */
  lemma {:induction false} BankStepIndependent(bank: seq<ResonatorState>, x: real)
    ensures forall i :: 0 <= i < |bank| ==> BankStep(bank, x).0[i] == ResonatorStep(bank[i], x).0
    ensures BankStep(bank, x).1 == Sum(Outputs(bank, x))
  {
    if |bank| > 0 {
      var k := |bank| - 1;
      BankStepIndependent(bank[..k], x);
      assert Outputs(bank, x)[..k] == Outputs(bank[..k], x);
    }
  }

  /** A bank at rest stays at rest on a silent input. */
  lemma {:induction false} BankAtRestStaysSilent(bank: seq<ResonatorState>)
    requires forall i :: 0 <= i < |bank| ==> bank[i].y1 == 0.0 && bank[i].y2 == 0.0
    ensures BankStep(bank, 0.0).1 == 0.0
    ensures forall i :: 0 <= i < |bank| ==> BankStep(bank, 0.0).0[i] == bank[i]
  {
    if |bank| > 0 {
      BankAtRestStaysSilent(bank[..|bank| - 1]);
    }
  }

  /** Everything the sample loop carries: the hammer and string, the delay
      line and the resonators. */
  datatype PianoState = PianoState(contact: Contact, line: seq<real>, bank: seq<ResonatorState>)

  /** One sample: the contact force from the state before the step, the
      Euler step, the delay line advanced by one with the new value at its
      end, and the new value through every resonator. */
  function PianoStep(s: PianoState, stringMass: real): (r: (PianoState, real))
    requires |s.line| >= 1 && stringMass != 0.0
    ensures |r.0.line| == |s.line| && |r.0.bank| == |s.bank|
  {
    var c := EulerStep(s.contact, ContactForce(s.contact), stringMass);
    var v := NewValue(s.line, c.stringPosition);
    var b := BankStep(s.bank, v);
    (PianoState(c, s.line[1..] + [v], b.0), b.1)
  }

  /** The state after `n` samples of one note, and the outputs written on
      the way. */
  function PianoRun(s0: PianoState, stringMass: real, n: nat): (r: (PianoState, seq<real>))
    requires |s0.line| >= 1 && stringMass != 0.0
    ensures |r.0.line| == |s0.line| && |r.0.bank| == |s0.bank| && |r.1| == n
  {
    if n == 0 then (s0, [])
    else
      var prev := PianoRun(s0, stringMass, n - 1);
      var step := PianoStep(prev.0, stringMass);
      (step.0, prev.1 + [step.1])
  }

  /** The delay line is a queue: after `i` samples, slot `j` holds what slot
      `i + j` held when the note began. */
  lemma {:induction false} PianoLineShifts(s0: PianoState, stringMass: real, i: nat, j: nat)
    requires |s0.line| >= 1 && stringMass != 0.0 && i + j < |s0.line|
    ensures PianoRun(s0, stringMass, i).0.line[j] == s0.line[i + j]
  {
    if i > 0 {
      PianoLineShifts(s0, stringMass, i - 1, j + 1);
    }
  }

  /** Sample `i` of a note is the bank's output in step `i + 1`, which later
      steps do not change. */
  lemma {:induction false} PianoOutputAt(s0: PianoState, stringMass: real, n: nat, i: nat)
    requires |s0.line| >= 1 && stringMass != 0.0 && i < n
    ensures PianoRun(s0, stringMass, n).1[i] == PianoStep(PianoRun(s0, stringMass, i).0, stringMass).1
  {
    var prev := PianoRun(s0, stringMass, n - 1);
    var last := PianoStep(prev.0, stringMass).1;
    assert PianoRun(s0, stringMass, n).1 == prev.1 + [last];
    if i < n - 1 {
      PianoOutputAt(s0, stringMass, n - 1, i);
      assert (prev.1 + [last])[i] == prev.1[i];
    }
  }

  /** `string_mass = u * L` with `u = T / (4 L^2 f^2)`: positive for a
      real string. */
  function StringMass(f: real, len: real): (m: real)
    requires f != 0.0 && len != 0.0
    ensures 0.0 < f && 0.0 < len ==> 0.0 < m
  {
    var q := 4.0 * (len * len) * (f * f);
    assert 0.0 < f && 0.0 < len ==> 0.0 < StringTension / q * len by {
      if 0.0 < f && 0.0 < len {
        PositiveProduct(len, len, len * len);
        PositiveProduct(f, f, f * f);
        PositiveProduct(4.0, len * len, 4.0 * (len * len));
        PositiveProduct(4.0 * (len * len), f * f, q);
        assert 0.0 < StringTension / q;
        PositiveProduct(StringTension / q, len, StringTension / q * len);
      }
    }
    StringTension / (4.0 * (len * len) * (f * f)) * len
  }

  /** The hammer's speed when the first note starts: one plus the
      acceleration `force / mass` kept up for the force time. */
  function InitialHammerVelocity(): real
  {
    1.0 + HammerForce / HammerMass * ForceTime
  }

  /** A resonator at rest, tuned to `f0` with the default quality 10 and
      unit gain at 44.1 kHz. */
  function RestingResonator(tr: Transcendental, f0: real): (st: ResonatorState)
    ensures st.y1 == 0.0 && st.y2 == 0.0
  {
    Tuned(tr, f0, 10.0, SamplingRate as real, 1.0)
  }

  function RestingBank(tr: Transcendental, freqs: seq<real>): (bank: seq<ResonatorState>)
    ensures |bank| == |freqs|
  {
    seq(|freqs|, i requires 0 <= i < |freqs| => RestingResonator(tr, freqs[i]))
  }

  /** What note `k` needs: a positive fundamental with a delay line of at
      least one sample, and a positive string length. */
  predicate Playable(freqs: seq<real>, lengths: seq<real>, k: nat)
  {
    k < |freqs| && k < |lengths| && 0.0 < freqs[k] && 1 <= DelayLength(SamplingRate as real, freqs[k]) &&
    0.0 < lengths[k]
  }

  /** The first `n` notes are playable. */
  predicate PlayableUpTo(freqs: seq<real>, lengths: seq<real>, n: nat)
  {
    forall j :: 0 <= j < n ==> Playable(freqs, lengths, j)
  }

  /** Where note `k` starts: the hammer and string where the last note left
      them, the string velocity reset to `L / force_time`, a fresh noisy
      delay line, and the resonators as the last note left them. */
  function NoteStart(draws: Draws, c: Contact, bank: seq<ResonatorState>, freqs: seq<real>, lengths: seq<real>, k: nat): (s: PianoState)
    requires Playable(freqs, lengths, k)
    ensures |s.line| >= 1 && s.bank == bank
  {
    var len := DelayLength(SamplingRate as real, freqs[k]);
    PianoState(c.(stringVelocity := lengths[k] / ForceTime), Draw(draws, k, len), bank)
  }

  /** Only the string velocity is reset between notes. */
  lemma NoteStartCarries(draws: Draws, c: Contact, bank: seq<ResonatorState>, freqs: seq<real>, lengths: seq<real>, k: nat)
    requires Playable(freqs, lengths, k)
    ensures var s := NoteStart(draws, c, bank, freqs, lengths, k);
      s.contact.hammerPosition == c.hammerPosition && s.contact.hammerVelocity == c.hammerVelocity &&
      s.contact.stringPosition == c.stringPosition && s.bank == bank &&
      s.contact.stringVelocity * ForceTime == lengths[k] &&
      |s.line| == DelayLength(SamplingRate as real, freqs[k])
  {
  }

  /** One note: the run of `num_samples` samples from where the hammer,
      the string and the resonators stand, and the output divided by its
      peak. */
  function PlayedNote(draws: Draws, c: Contact, bank: seq<ResonatorState>, freqs: seq<real>, lengths: seq<real>, k: nat)
    : (r: (Contact, seq<ResonatorState>, Buffer))
    requires Playable(freqs, lengths, k)
    ensures |r.1| == |bank| && r.2.Length() == NumSamples
  {
    var s := NoteStart(draws, c, bank, freqs, lengths, k);
    var run := PianoRun(s, StringMass(freqs[k], lengths[k]), NumSamples);
    (run.0.contact, run.0.bank, NormalizeByPeak(run.1))
  }

  /** The first `k` notes, each starting where the one before left the
      hammer, the string and the resonators: where they leave them, and the
      buffers they append. */
  function Recital(draws: Draws, c0: Contact, bank0: seq<ResonatorState>, freqs: seq<real>, lengths: seq<real>, k: nat)
    : (r: (Contact, seq<ResonatorState>, seq<Buffer>))
    requires PlayableUpTo(freqs, lengths, k)
    ensures |r.1| == |bank0| && |r.2| == k
  {
    if k == 0 then (c0, bank0, [])
    else
      var prev := Recital(draws, c0, bank0, freqs, lengths, k - 1);
      var note := PlayedNote(draws, prev.0, prev.1, freqs, lengths, k - 1);
      (note.0, note.1, prev.2 + [note.2])
  }

  /** Every buffer of a recital has `num_samples` samples. */
  lemma {:induction false} RecitalBuffers(draws: Draws, c0: Contact, bank0: seq<ResonatorState>, freqs: seq<real>, lengths: seq<real>, k: nat)
    requires PlayableUpTo(freqs, lengths, k)
    ensures forall j :: 0 <= j < k ==> Recital(draws, c0, bank0, freqs, lengths, k).2[j].Length() == NumSamples
  {
    if k > 0 {
      RecitalBuffers(draws, c0, bank0, freqs, lengths, k - 1);
    }
  }

  /** Every blue fundamental with its string length is playable, and the
      zip of the two tables has seven pairs. */
  lemma BluePlayable(k: nat)
    requires k < 7
    ensures Playable(BlueFrequencies(), StringLengths, k)
  {
    var f := BlueFrequencies();
    DelayAtLeast(SamplingRate as real, f[k], 1);
  }

  // ---------------------------------------------------------------------
  // The resonator objects

  predicate Distinct(rs: seq<PianoResonator>)
  {
    forall i, j :: 0 <= i < j < |rs| ==> rs[i] != rs[j]
  }

  /** The states of the resonator objects, in order. */
  function Bank(rs: seq<PianoResonator>): (bank: seq<ResonatorState>)
    reads set r | r in rs
    ensures |bank| == |rs|
    ensures forall i :: 0 <= i < |rs| ==> bank[i] == rs[i].State()
  {
    seq(|rs|, i reads rs requires 0 <= i < |rs| => rs[i].State())
  }

  /** `sum(f.process(x) for f in resonators)`: every resonator processes `x`
      in turn and the outputs are added up. */
  method ProcessAll(rs: seq<PianoResonator>, x: real) returns (y: real)
    requires Distinct(rs)
    modifies set r | r in rs
    ensures (Bank(rs), y) == BankStep(old(Bank(rs)), x)
  {
    ghost var b0 := Bank(rs);
    y := 0.0;
    var j := 0;
    while j < |rs|
      invariant 0 <= j <= |rs|
      invariant forall i :: 0 <= i < |rs| ==> rs[i].State() == if i < j then ResonatorStep(b0[i], x).0 else b0[i]
      invariant y == BankStep(b0[..j], x).1
    {
      assert b0[..j + 1][..j] == b0[..j];
      var yj := rs[j].Process(x);
      y := y + yj;
      j := j + 1;
    }
    assert b0[..|rs|] == b0;
    BankStepIndependent(b0, x);
    assert Bank(rs) == BankStep(b0, x).0;
  }

  /** `pianoResonator()` followed by `setSamplingRate`, `setFrequency` and
      `defineOtherProperties`, once per resonance: new, distinct resonators
      at rest. */
  method MakeResonators(tr: Transcendental, freqs: seq<real>) returns (rs: seq<PianoResonator>)
    ensures |rs| == |freqs| && Distinct(rs)
    ensures forall i :: 0 <= i < |rs| ==> fresh(rs[i])
    ensures Bank(rs) == RestingBank(tr, freqs)
  {
    rs := [];
    var i := 0;
    while i < |freqs|
      invariant 0 <= i <= |freqs| && |rs| == i && Distinct(rs)
      invariant forall j :: 0 <= j < i ==> fresh(rs[j])
      invariant forall j :: 0 <= j < i ==> rs[j].State() == RestingResonator(tr, freqs[j])
    {
      var f := new PianoResonator();
      f.SetSamplingRate(SamplingRate as real);
      f.SetFrequency(freqs[i]);
      f.DefineOtherProperties(tr);
      assert f.q == 10.0 && f.gain == 1.0 && f.f0 == freqs[i] && f.fs == SamplingRate as real;
      assert f.State() == RestingResonator(tr, freqs[i]);
      rs := rs + [f];
      i := i + 1;
    }
  }

  /** One pass of the sample loop's body, in the source's order. */
  method Sample(rs: seq<PianoResonator>, c: Contact, line: seq<real>, stringMass: real)
    returns (c': Contact, line': seq<real>, y: real)
    requires |line| >= 1 && stringMass != 0.0 && Distinct(rs)
    modifies set r | r in rs
    ensures var st := PianoStep(PianoState(c, line, old(Bank(rs))), stringMass);
      c' == st.0.contact && line' == st.0.line && Bank(rs) == st.0.bank && y == st.1
  {
    var damping := Damping + 0.002 * Pedal;
    var contactForce := HartzForce(c.hammerPosition, c.stringPosition, c.hammerVelocity, c.stringVelocity,
                                   Stiffness, Exponent);
    var hammerAcceleration := -contactForce / HammerMass;
    var stringAcceleration := contactForce / stringMass;
    var hammerVelocity := Accelerate(c.hammerVelocity, hammerAcceleration);
    var stringVelocity := Accelerate(c.stringVelocity, stringAcceleration);
    var hammerPosition := Accelerate(c.hammerPosition, hammerVelocity);
    var stringPosition := Accelerate(c.stringPosition, stringVelocity);
    c' := Contact(hammerPosition, hammerVelocity, stringPosition, stringVelocity);
    assert c' == EulerStep(c, ContactForce(c), stringMass);
    var newVal := 0.5 * (line[0] + line[|line| - 1]) * damping + stringPosition;
    assert newVal == NewValue(line, c'.stringPosition);
    line' := RollLeftWriteLast(line, newVal);
    y := ProcessAll(rs, newVal);
  }

  /** The per-sample loop of one note. */
  method NoteLoop(rs: seq<PianoResonator>, s0: PianoState, stringMass: real, n: nat)
    returns (c: Contact, out: seq<real>)
    requires |s0.line| >= 1 && stringMass != 0.0 && Distinct(rs) && Bank(rs) == s0.bank
    modifies set r | r in rs
    ensures var run := PianoRun(s0, stringMass, n);
      c == run.0.contact && Bank(rs) == run.0.bank && out == run.1
  {
    c := s0.contact;
    var line := s0.line;
    out := [];
    var i := 0;
    while i < n
      invariant 0 <= i <= n
      invariant PianoState(c, line, Bank(rs)) == PianoRun(s0, stringMass, i).0
      invariant out == PianoRun(s0, stringMass, i).1
    {
      var y;
      c, line, y := Sample(rs, c, line, stringMass);
      out := out + [y];
      i := i + 1;
    }
  }

  /** One pass of the body of the note loop. */
  method PlayNote(rs: seq<PianoResonator>, draws: Draws, c: Contact, freqs: seq<real>, lengths: seq<real>, k: nat)
    returns (c': Contact, voice: Buffer)
    requires Distinct(rs) && Playable(freqs, lengths, k)
    modifies set r | r in rs
    ensures (c', Bank(rs), voice) == PlayedNote(draws, c, old(Bank(rs)), freqs, lengths, k)
  {
    var len := DelayLength(SamplingRate as real, freqs[k]);
    var line := Draw(draws, k, len);
    var start := c.(stringVelocity := lengths[k] / ForceTime);
    var out;
    c', out := NoteLoop(rs, PianoState(start, line, Bank(rs)), StringMass(freqs[k], lengths[k]), NumSamples);
    voice := NormalizeByPeak(out);
  }

  /** After `k` notes the hammer and string are at `c` and the resonators
      hold the states the recital left them in. */
  ghost predicate Reached(rs: seq<PianoResonator>, inst: Instrument.Instrument, sounds0: seq<Buffer>,
                          draws: Draws, c0: Contact, bank0: seq<ResonatorState>,
                          freqs: seq<real>, lengths: seq<real>, k: nat, c: Contact)
    reads inst, set r | r in rs
    requires PlayableUpTo(freqs, lengths, k)
  {
    var r := Recital(draws, c0, bank0, freqs, lengths, k);
    c == r.0 && Bank(rs) == r.1 && inst.soundsInstrumentPlay == sounds0 + r.2
  }

  class Piano {
    const base: Instrument.Instrument

    /** A new piano has played nothing and belongs to the blue group. */
    constructor()
      ensures fresh(base)
      ensures base.soundsInstrumentPlay == [] && base.color == "blue"
    {
      var b := new Instrument.Instrument();
      b.color := "blue";
      base := b;
    }

    /** Builds the resonators, then plays the seven blue fundamentals with
        their string lengths, appending one buffer per note; nothing
        already played changes. */
    method MakeSound(tr: Transcendental, draws: Draws)
      modifies base
      ensures PlayableUpTo(BlueFrequencies(), StringLengths, 7)
      ensures base.soundsInstrumentPlay == old(base.soundsInstrumentPlay) +
        Recital(draws, Contact(HammerPosition, InitialHammerVelocity(), StringPosition, 0.0),
          RestingBank(tr, ResonantFrequencies), BlueFrequencies(), StringLengths, 7).2
      ensures base.color == old(base.color)
    {
      var freqs := BlueFrequencies();
      forall j | 0 <= j < 7 ensures Playable(freqs, StringLengths, j) {
        BluePlayable(j);
      }
      var rs := MakeResonators(tr, ResonantFrequencies);
      var c := Contact(HammerPosition, InitialHammerVelocity(), StringPosition, 0.0);
      Play(rs, draws, c, freqs, StringLengths);
    }

    /** The loop over the zipped fundamentals and string lengths. */
    method Play(rs: seq<PianoResonator>, draws: Draws, c0: Contact, freqs: seq<real>, lengths: seq<real>)
      requires Distinct(rs) && |freqs| == |lengths|
      requires PlayableUpTo(freqs, lengths, |freqs|)
      modifies base, set r | r in rs
      ensures base.soundsInstrumentPlay == old(base.soundsInstrumentPlay) +
        Recital(draws, c0, old(Bank(rs)), freqs, lengths, |freqs|).2
      ensures base.color == old(base.color)
    {
      ghost var bank0 := Bank(rs);
      ghost var sounds0 := base.soundsInstrumentPlay;
      var c := c0;
      var k := 0;
      while k < |freqs|
        invariant 0 <= k <= |freqs|
        invariant Reached(rs, base, sounds0, draws, c0, bank0, freqs, lengths, k, c)
        invariant base.color == old(base.color)
      {
        c := PlayAndKeep(rs, draws, sounds0, c0, bank0, freqs, lengths, k, c);
        k := k + 1;
      }
    }

    /** One pass of the note loop: note `k` is played from where the first
        `k` left the hammer, the string and the resonators, and its buffer
        is appended. */
    method PlayAndKeep(rs: seq<PianoResonator>, draws: Draws, ghost sounds0: seq<Buffer>, ghost c0: Contact,
                       ghost bank0: seq<ResonatorState>, freqs: seq<real>, lengths: seq<real>, k: nat, c: Contact)
      returns (c': Contact)
      requires Distinct(rs) && PlayableUpTo(freqs, lengths, k + 1)
      requires Reached(rs, base, sounds0, draws, c0, bank0, freqs, lengths, k, c)
      modifies base, set r | r in rs
      ensures Reached(rs, base, sounds0, draws, c0, bank0, freqs, lengths, k + 1, c')
      ensures base.color == old(base.color)
    {
      var voice;
      c', voice := PlayNote(rs, draws, c, freqs, lengths, k);
      base.AddSound(voice);
    }
  }
}
