/** The envelope's phase machine, sample by sample. Levels are exact reals. */
module Envelope {

  datatype Phase = Idle | Attack | Decay | Sustain | Release

  /** What one block's parameters come to. Mode 0 is ADSR, 1 is AD, anything else loops AD. */
  datatype Knobs = Knobs(mode: nat, attackInc: real, decayCoeff: real, sustain: real, releaseCoeff: real)

  datatype State = State(phase: Phase, value: real, prevGate: real)

  const FLOOR: real := 0.00001

  ghost predicate Legal(k: Knobs) {
    && 0.0 < k.attackInc <= 1.0 && 0.0 <= k.sustain <= 1.0
    && 0.0 < k.decayCoeff <= 1.0 && 0.0 < k.releaseCoeff <= 1.0
  }

  function Times(v: real, c: real): (p: real)
    ensures 0.0 <= v && 0.0 <= c <= 1.0 ==> 0.0 <= p <= v
  {
    v * c
  }

  predicate High(gate: real) { gate >= 0.5 }

  /** The phase once the gate's edge has been taken in. */
  function Gated(s: State, gate: real, mode: nat): Phase {
    if High(gate) && !High(s.prevGate) then Attack
    else if !High(gate) && High(s.prevGate) && mode == 0 then Release
    else s.phase
  }

  function Settled(v: real, over: Phase, back: Phase, gate: real): State {
    if v < FLOOR then State(back, 0.0, gate) else State(over, v, gate)
  }

  function Step(s: State, gate: real, k: Knobs): State {
    match Gated(s, gate, k.mode)
    case Idle => State(if k.mode == 2 then Attack else Idle, s.value, gate)
    case Attack => if s.value + k.attackInc >= 1.0 then State(Decay, 1.0, gate) else State(Attack,
      s.value + k.attackInc, gate)
    case Decay =>
      var v := Times(s.value, k.decayCoeff);
      if k.mode == 0 then (if v <= k.sustain then State(Sustain, k.sustain, gate) else State(Decay, v, gate))
      else Settled(v, Decay, if k.mode == 1 then Idle else Attack, gate)
    case Sustain => State(Sustain, k.sustain, gate)
    case Release => Settled(Times(s.value, k.releaseCoeff), Release, Idle, gate)
  }

  datatype Sample = Sample(gate: real, knobs: Knobs)

  function After(s: State, run: seq<Sample>): State
    decreases |run|
  {
    if run == [] then s else After(Step(s, run[0].gate, run[0].knobs), run[1..])
  }

  lemma {:induction false} AfterLast(s: State, run: seq<Sample>)
    requires run != []
    ensures After(s, run) == Step(After(s, run[..|run| - 1]), run[|run| - 1].gate, run[|run| - 1].knobs)
    decreases |run|
  {
    if |run| <= 1 {
    } else {
      AfterLast(Step(s, run[0].gate, run[0].knobs), run[1..]);
      assert run[1..][..|run| - 2] == run[..|run| - 1][1..];
    }
  }

  /** A gate buffer read past its end is low. */
  function GateAt(gate: seq<real>, i: nat): real {
    if i < |gate| then gate[i] else 0.0
  }

  function Samples(gate: seq<real>, frames: nat, k: Knobs): (run: seq<Sample>)
    ensures |run| == frames
  {
    seq(frames, i requires 0 <= i < frames => Sample(GateAt(gate, i), k))
  }

  class EnvelopeNode {
    var phase: Phase
    var value: real
    var prevGate: real

    constructor ()
      ensures Value() == State(Idle, 0.0, 0.0)
    {
      phase, value, prevGate := Idle, 0.0, 0.0;
    }

    function Value(): State
      reads this
    {
      State(phase, value, prevGate)
    }

    method StepDecay(k: Knobs)
      requires phase == Decay
      modifies this`phase, this`value
      ensures Value() == Step(old(Value()), prevGate, k)
    {
      value := Times(value, k.decayCoeff);
      match k.mode {
        case 0 =>
          if value <= k.sustain {
            value := k.sustain;
            phase := Sustain;
          }
        case 1 =>
          if value < FLOOR {
            value := 0.0;
            phase := Idle;
          }
        case _ =>
          if value < FLOOR {
            value := 0.0;
            phase := Attack;
          }
      }
    }

    /** One sample. */
    method Advance(gate: real, k: Knobs)
      modifies this
      ensures Value() == Step(old(Value()), gate, k)
    {
      var rose := High(gate) && !High(prevGate);
      var fell := !High(gate) && High(prevGate);
      prevGate := gate;
      if rose { phase := Attack; }
      if fell && k.mode == 0 { phase := Release; }
      match phase {
        case Idle =>
          if k.mode == 2 { phase := Attack; }
        case Attack =>
          value := value + k.attackInc;
          if value >= 1.0 {
            value := 1.0;
            phase := Decay;
          }
        case Decay =>
          StepDecay(k);
        case Sustain =>
          value := k.sustain;
        case Release =>
          value := Times(value, k.releaseCoeff);
          if value < FLOOR {
            value := 0.0;
            phase := Idle;
          }
      }
    }

    /** One block: every output sample is the level after that sample. */
    method Process(gate: seq<real>, out: array<real>, k: Knobs)
      modifies this, out
      ensures Value() == After(old(Value()), Samples(gate, out.Length, k))
      ensures forall i | 0 <= i < out.Length ::
        out[i] == After(old(Value()), Samples(gate, out.Length, k)[..i + 1]).value
    {
      ghost var run := Samples(gate, out.Length, k);
      for i := 0 to out.Length
        invariant Value() == After(old(Value()), run[..i])
        invariant forall j | 0 <= j < i :: out[j] == After(old(Value()), run[..j + 1]).value
      {
        AfterLast(old(Value()), run[..i + 1]);
        assert run[..i + 1][..i] == run[..i];
        Advance(GateAt(gate, i), k);
        out[i] := value;
      }
      assert run[..out.Length] == run;
    }
  }

  // ── Bounds ─────────────────────────────────────────────────────────────────

  ghost predicate AllLegal(run: seq<Sample>) {
    forall i | 0 <= i < |run| :: Legal(run[i].knobs)
  }

  /** Whatever the gates, and however the parameters and the mode change, the level stays in [0, 1]. */
  lemma {:induction false} Bounded(s: State, run: seq<Sample>)
    requires 0.0 <= s.value <= 1.0 && AllLegal(run)
    ensures 0.0 <= After(s, run).value <= 1.0
    decreases |run|
  {
    if run == [] {
    } else {
      Bounded(Step(s, run[0].gate, run[0].knobs), run[1..]);
    }
  }

  // ── Release ────────────────────────────────────────────────────────────────

  /** No gate is high and the mode does not loop. */
  ghost predicate HeldLow(run: seq<Sample>) {
    forall i | 0 <= i < |run| :: !High(run[i].gate) && run[i].knobs.mode != 2
  }

  /** The sample at which a release starts: already releasing with no edge, or the falling edge itself. */
  ghost predicate Releasing(s: State, first: Sample) {
    Gated(s, first.gate, first.knobs.mode) == Release
  }

  function ReleaseProduct(run: seq<Sample>): real
    decreases |run|
  {
    if run == [] then 1.0 else Times(run[0].knobs.releaseCoeff, ReleaseProduct(run[1..]))
  }

  lemma {:induction false} ProductInUnit(run: seq<Sample>)
    requires AllLegal(run)
    ensures 0.0 <= ReleaseProduct(run) <= 1.0
    decreases |run|
  {
    if run == [] {
    } else {
      ProductInUnit(run[1..]);
    }
  }

  lemma Regroup(a: real, b: real, c: real)
    ensures Times(Times(a, b), c) == Times(a, Times(b, c))
  {
  }

  lemma {:induction false} IdleStays(s: State, run: seq<Sample>)
    requires s.phase == Idle && !High(s.prevGate) && HeldLow(run)
    ensures After(s, run).phase == Idle && After(s, run).value == s.value
    decreases |run|
  {
    if run == [] {
    } else {
      IdleStays(Step(s, run[0].gate, run[0].knobs), run[1..]);
    }
  }

  lemma {:induction false} PrevGateIsLast(s: State, run: seq<Sample>)
    requires run != []
    ensures After(s, run).prevGate == run[|run| - 1].gate
    decreases |run|
  {
    if |run| <= 1 {
    } else {
      PrevGateIsLast(Step(s, run[0].gate, run[0].knobs), run[1..]);
    }
  }

  /**
    * The level of a release under a low gate in closed form: idle exactly once the product has fallen under
    * the floor.
    */
  lemma {:induction false} ReleaseClosedForm(s: State, run: seq<Sample>)
    requires run != [] && HeldLow(run) && AllLegal(run) && 0.0 <= s.value <= 1.0 && Releasing(s, run[0])
    ensures var v := Times(s.value, ReleaseProduct(run));
            After(s, run) == Settled(v, Release, Idle, run[|run| - 1].gate)
    decreases |run|
  {
    var first, rest := run[0], run[1..];
    var next, product := Step(s, first.gate, first.knobs), ReleaseProduct(rest);
    var v := Times(s.value, first.knobs.releaseCoeff);
    Regroup(s.value, first.knobs.releaseCoeff, product);
    assert next == Settled(v, Release, Idle, first.gate);
    if rest == [] {
    } else {
      ProductInUnit(rest);
      if v < FLOOR {
        assert Times(v, product) <= v;
        IdleStays(next, rest);
        PrevGateIsLast(next, rest);
      } else {
        ReleaseClosedForm(next, rest);
      }
    }
  }

  function Pow(c: real, n: nat): real {
    if n == 0 then 1.0 else Times(c, Pow(c, n - 1))
  }

  lemma {:induction false} PowSum(c: real, m: nat, n: nat)
    ensures Pow(c, m + n) == Times(Pow(c, m), Pow(c, n))
  {
    if m == 0 {
    } else {
      PowSum(c, m - 1, n);
      Regroup(c, Pow(c, m - 1), Pow(c, n));
    }
  }

  lemma {:induction false} PowInUnit(c: real, n: nat)
    requires 0.0 <= c <= 1.0
    ensures 0.0 <= Pow(c, n) <= 1.0
  {
    if n == 0 {
    } else {
      PowInUnit(c, n - 1);
    }
  }

  lemma NotNegative(x: real, y: real)
    requires 0.0 <= x && 0.0 <= y
    ensures 0.0 <= x * y
  {
  }

  lemma TimesMonotone(a: real, b: real, c: real, d: real)
    requires 0.0 <= a <= b && 0.0 <= c <= d
    ensures Times(a, c) <= Times(b, d)
  {
    NotNegative(b - a, c);
    NotNegative(b, d - c);
    assert b * d - a * c == (b - a) * c + b * (d - c);
  }

  /** Falling by a factor of a thousand twice is falling under the floor. */
  lemma TwiceUnderFloor(c: real, n: nat)
    requires 0.0 <= c <= 1.0 && Pow(c, n) <= 0.001
    ensures Pow(c, 2 * n) < FLOOR
  {
    PowInUnit(c, n);
    PowSum(c, n, n);
    TimesMonotone(Pow(c, n), 0.001, Pow(c, n), 0.001);
  }

  lemma {:induction false} ProductUnderPow(run: seq<Sample>, c: real, m: nat)
    requires AllLegal(run) && 0.0 <= c <= 1.0 && m <= |run|
    requires forall i | 0 <= i < |run| :: run[i].knobs.releaseCoeff <= c
    ensures ReleaseProduct(run) <= Pow(c, m)
    decreases |run|
  {
    ProductInUnit(run);
    if m == 0 {
    } else {
      ProductUnderPow(run[1..], c, m - 1);
      ProductInUnit(run[1..]);
      TimesMonotone(run[0].knobs.releaseCoeff, c, ReleaseProduct(run[1..]), Pow(c, m - 1));
    }
  }

  /** If c^n is at most a thousandth, a release under a low gate is idle from sample 2n on. */
  lemma ReleaseSettles(s: State, run: seq<Sample>, c: real, n: nat)
    requires run != [] && HeldLow(run) && AllLegal(run) && 0.0 <= s.value <= 1.0 && Releasing(s, run[0])
    requires 0.0 <= c <= 1.0 && Pow(c, n) <= 0.001 && forall i | 0 <= i < |run| :: run[i].knobs.releaseCoeff <= c
    requires |run| >= 2 * n
    ensures After(s, run).phase == Idle && After(s, run).value == 0.0
  {
    ReleaseClosedForm(s, run);
    ProductUnderPow(run, c, 2 * n);
    ProductInUnit(run);
    TwiceUnderFloor(c, n);
    TimesMonotone(s.value, 1.0, ReleaseProduct(run), ReleaseProduct(run));
  }

  // ── One attack and decay ───────────────────────────────────────────────────

  /** No sample's gate is high right after a low one, the one before the run being `prev`. */
  predicate NoRise(prev: real, run: seq<Sample>)
    decreases |run|
  {
    run != [] ==> !(High(run[0].gate) && !High(prev)) && NoRise(run[0].gate, run[1..])
  }

  ghost predicate OneShot(run: seq<Sample>, inc: real, c: real) {
    forall i | 0 <= i < |run| ::
      run[i].knobs.mode == 1 && run[i].knobs.attackInc >= inc && run[i].knobs.decayCoeff <= c
  }

  lemma {:induction false} IdleUntilRise(s: State, run: seq<Sample>, inc: real, c: real)
    requires s.phase == Idle && NoRise(s.prevGate, run) && OneShot(run, inc, c)
    ensures After(s, run).phase == Idle && After(s, run).value == s.value
    decreases |run|
  {
    if run == [] {
    } else {
      IdleUntilRise(Step(s, run[0].gate, run[0].knobs), run[1..], inc, c);
    }
  }

  /** One more decay leaves one coefficient fewer to go. */
  lemma DecayProgress(v: real, d: real, c: real, m: nat)
    requires 0.0 <= v <= 1.0 && 0.0 <= d <= c <= 1.0 && m >= 1 && Times(v, Pow(c, m)) < FLOOR
    ensures Times(Times(v, d), Pow(c, m - 1)) < FLOOR
  {
    PowInUnit(c, m - 1);
    Regroup(v, c, Pow(c, m - 1));
    TimesMonotone(v, v, d, c);
    TimesMonotone(Times(v, d), Times(v, c), Pow(c, m - 1), Pow(c, m - 1));
  }

  lemma {:induction false} DecaySettles(s: State, run: seq<Sample>, inc: real, c: real, m: nat)
    requires s.phase == Decay && 0.0 <= s.value <= 1.0 && NoRise(s.prevGate, run) && OneShot(run, inc, c)
    requires AllLegal(run)
    requires 0.0 <= c <= 1.0 && 1 <= m <= |run| && Times(s.value, Pow(c, m)) < FLOOR
    ensures After(s, run).phase == Idle && After(s, run).value == 0.0
    decreases |run|
  {
    var k := run[0].knobs;
    var next := Step(s, run[0].gate, k);
    DecayProgress(s.value, k.decayCoeff, c, m);
    if next.phase == Idle {
      IdleUntilRise(next, run[1..], inc, c);
    } else {
      assert next == State(Decay, Times(s.value, k.decayCoeff), run[0].gate);
      assert Times(next.value, 1.0) == next.value;
      DecaySettles(next, run[1..], inc, c, m - 1);
    }
  }

  lemma {:induction false} AttackSettles(s: State, run: seq<Sample>, inc: real, c: real, a: nat, m: nat)
    requires s.phase == Attack && 0.0 <= s.value <= 1.0 && NoRise(s.prevGate, run) && OneShot(run, inc, c)
    requires AllLegal(run)
    requires 0.0 <= c <= 1.0 && 0.0 < inc && Pow(c, m) < FLOOR && m >= 1
    requires a >= 1 && s.value + Times(a as real, inc) >= 1.0 && |run| >= a + m
    ensures After(s, run).phase == Idle && After(s, run).value == 0.0
    decreases |run|
  {
    var next := Step(s, run[0].gate, run[0].knobs);
    if next.phase == Decay {
      DecaySettles(next, run[1..], inc, c, m);
    } else {
      assert Times(a as real, inc) == Times((a - 1) as real, inc) + inc;
      AttackSettles(next, run[1..], inc, c, a - 1, m);
    }
  }

  /** A cycle starts on a rising edge, whatever was playing, or is one already attacking or decaying. */
  ghost predicate Cycling(s: State, first: Sample) {
    (High(first.gate) && !High(s.prevGate)) || s.phase == Attack || s.phase == Decay
  }

  /**
    * With a samples enough to attack from zero and c^n at most a thousandth, a one-shot cycle is idle from
    * sample a + 2n on.
    */
  lemma CycleSettles(s: State, run: seq<Sample>, inc: real, c: real, a: nat, n: nat)
    requires run != [] && Cycling(s, run[0]) && NoRise(run[0].gate, run[1..])
    requires 0.0 <= s.value <= 1.0 && OneShot(run, inc, c) && AllLegal(run) && 0.0 < inc
    requires Times(a as real, inc) >= 1.0 && 0.0 <= c <= 1.0 && Pow(c, n) <= 0.001 && |run| >= a + 2 * n
    ensures After(s, run).phase == Idle && After(s, run).value == 0.0
  {
    TwiceUnderFloor(c, n);
    var rose := High(run[0].gate) && !High(s.prevGate);
    // A rise is an attack whose gate was up already.
    var start := if rose then State(Attack, s.value, run[0].gate) else s;
    assert Step(start, run[0].gate, run[0].knobs) == Step(s, run[0].gate, run[0].knobs);
    if start.phase == Attack {
      AttackSettles(start, run, inc, c, a, 2 * n);
    } else {
      PowInUnit(c, 2 * n);
      TimesMonotone(start.value, 1.0, Pow(c, 2 * n), Pow(c, 2 * n));
      DecaySettles(start, run, inc, c, 2 * n);
    }
  }

  // ── The phases by their numbers ────────────────────────────────────────────

  /** A level and its phase. */
  predicate At(s: State, phase: Phase, value: real) { s.phase == phase && s.value == value }

  /**
    * One sample. A gate reaching one half starts an attack in every mode, one falling below it a release in
    * the first; then the phase moves the level and may give way to another.
    */
  lemma OneSample(s: State, gate: real, k: Knobs)
    ensures var rose, fell := gate >= 0.5 && s.prevGate < 0.5, gate < 0.5 && s.prevGate >= 0.5 && k.mode == 0;
      var phase := if rose then Attack else if fell then Release else s.phase;
      var r := Step(s, gate, k);
      var decayed, released := s.value * k.decayCoeff, s.value * k.releaseCoeff;
      && r.prevGate == gate
      && (phase == Idle ==> At(r, if k.mode == 2 then Attack else Idle, s.value))
      && (phase == Attack && s.value + k.attackInc >= 1.0 ==> At(r, Decay, 1.0))
      && (phase == Attack && s.value + k.attackInc < 1.0 ==> At(r, Attack, s.value + k.attackInc))
      && (phase == Decay && k.mode == 0 && decayed <= k.sustain ==> At(r, Sustain, k.sustain))
      && (phase == Decay && k.mode == 0 && decayed > k.sustain ==> At(r, Decay, decayed))
      && (phase == Decay && k.mode != 0 && decayed >= 0.00001 ==> At(r, Decay, decayed))
      && (phase == Decay && k.mode == 1 && decayed < 0.00001 ==> At(r, Idle, 0.0))
      && (phase == Decay && k.mode > 1 && decayed < 0.00001 ==> At(r, Attack, 0.0))
      && (phase == Sustain ==> At(r, Sustain, k.sustain))
      && (phase == Release && released >= 0.00001 ==> At(r, Release, released))
      && (phase == Release && released < 0.00001 ==> At(r, Idle, 0.0))
  {
  }

  /** The gate stays up and the mode is ADSR, sustaining at one level. */
  ghost predicate Held(prev: real, run: seq<Sample>, level: real) {
    prev >= 0.5 && forall i | 0 <= i < |run| ::
      run[i].gate >= 0.5 && run[i].knobs.mode == 0 && run[i].knobs.sustain == level
  }

  function DecayProduct(run: seq<Sample>): real
    decreases |run|
  {
    if run == [] then 1.0 else Times(run[0].knobs.decayCoeff, DecayProduct(run[1..]))
  }

  lemma {:induction false} DecayInUnit(run: seq<Sample>)
    requires AllLegal(run)
    ensures 0.0 <= DecayProduct(run) <= 1.0
    decreases |run|
  {
    if run == [] {
    } else {
      DecayInUnit(run[1..]);
    }
  }

  lemma {:induction false} SustainHolds(s: State, run: seq<Sample>, level: real)
    requires At(s, Sustain, level) && Held(s.prevGate, run, level)
    ensures At(After(s, run), Sustain, level)
    decreases |run|
  {
    if run == [] {
    } else {
      SustainHolds(Step(s, run[0].gate, run[0].knobs), run[1..], level);
    }
  }

  /**
    * A held note decays by the product of the coefficients until that is down to the sustain level, and then
    * stays there.
    */
  lemma {:induction false} HeldNoteSustains(s: State, run: seq<Sample>, level: real)
    requires run != [] && s.phase == Decay && 0.0 <= s.value <= 1.0
    requires Held(s.prevGate, run, level) && AllLegal(run)
    ensures var v := Times(s.value, DecayProduct(run));
      if v <= level then At(After(s, run), Sustain, level) else At(After(s, run), Decay, v)
    decreases |run|
  {
    var first, rest := run[0], run[1..];
    var next, product := Step(s, first.gate, first.knobs), DecayProduct(rest);
    var v := Times(s.value, first.knobs.decayCoeff);
    Regroup(s.value, first.knobs.decayCoeff, product);
    assert if v <= level then At(next, Sustain, level) else At(next, Decay, v);
    if rest != [] {
      DecayInUnit(rest);
      if v <= level {
        assert Times(v, product) <= v;
        SustainHolds(next, rest, level);
      } else {
        HeldNoteSustains(next, rest, level);
      }
    }
  }
}
